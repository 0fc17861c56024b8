/** Upstream Responses streams name one call in two ways: item events carry its
    call_id, argument fragments its own item id.  The tracker resolves either
    name to one shared state and decides when complete arguments are delivered. */
module ToolTracking {
  import opened Basics

  /** keys gives the index of every name bound so far; an index in delivered has
      had arguments sent. */
  datatype Table = Table(keys: map<string, nat>, delivered: set<nat>)

  const NO_CALLS := Table(map[], {})

  function Bind(t: Table, key: string, index: nat): Table {
    if key == "" then t else t.(keys := t.keys[key := index])
  }

  /** Resolves key, then alias, then allocates `next`.  Returns whether the call
      is new, and its index. */
  function Resolve(t: Table, next: nat, key: string, alias: string): (Table, bool, nat) {
    if key in t.keys then (Bind(t, alias, t.keys[key]), false, t.keys[key])
    else if alias in t.keys then (Bind(t, key, t.keys[alias]), false, t.keys[alias])
    else (Bind(Bind(t, key, next), alias, next), true, next)
  }

  /** A call known under either name is that call, the first name going first; otherwise
      it is new.  From then on both names lead to it, and no other name is touched. */
  lemma ResolveSays(t: Table, next: nat, key: string, alias: string)
    requires "" !in t.keys
    ensures var (t', first, index) := Resolve(t, next, key, alias);
            && (first <==> key !in t.keys && alias !in t.keys)
            && index == (if key in t.keys then t.keys[key] else if alias in t.keys then t.keys[alias] else next)
            && "" !in t'.keys && t'.delivered == t.delivered
            && (forall name | name in {key, alias} && name != "" :: name in t'.keys && t'.keys[name] == index)
            && (forall name | name !in {key, alias} ::
                  (name in t'.keys <==> name in t.keys) && (name in t.keys ==> t'.keys[name] == t.keys[name]))
  {
  }

  datatype Sighting = Sighting(table: Table, first: bool, index: nat, deliver: bool)

  function Observed(t: Table, next: nat, callId: string, itemId: string, complete: bool): Sighting {
    var (t1, first, index) := Resolve(t, next, callId, itemId);
    if complete && index !in t1.delivered
    then Sighting(t1.(delivered := t1.delivered + {index}), first, index, true)
    else Sighting(t1, first, index, false)
  }

  function Streamed(t: Table, next: nat, itemId: string): Sighting {
    var (t1, first, index) := Resolve(t, next, itemId, "");
    Sighting(t1.(delivered := t1.delivered + {index}), first, index, true)
  }

  class Counter {
    var next: nat

    constructor ()
      ensures next == 0
    {
      next := 0;
    }

    method Alloc() returns (i: nat)
      modifies this
      ensures i == old(next) && next == i + 1
    {
      i := next;
      next := next + 1;
    }
  }

  class CallState {
    const index: nat
    var delivered: bool

    constructor (index: nat)
      ensures this.index == index && !delivered
    {
      this.index, delivered := index, false;
    }
  }

  /** States are shared: both names of a call lead to one object. */
  class ToolTracker {
    const counter: Counter
    var calls: map<string, CallState>
    /** Every state handed out, and what the fields stand for. */
    ghost var states: set<CallState>
    ghost var table: Table

    ghost predicate Valid()
      reads this, counter, states
    {
      && calls.Keys == table.keys.Keys && "" !in calls
      && (forall k | k in calls :: calls[k] in states && calls[k].index == table.keys[k])
      && (forall st | st in states :: st.index < counter.next && (st.delivered <==> st.index in table.delivered))
      && (forall a, b | a in states && b in states && a.index == b.index :: a == b)
      && (forall i | i in table.delivered :: i < counter.next)
    }

    constructor (counter: Counter)
      ensures Valid() && this.counter == counter && table == NO_CALLS && states == {}
    {
      this.counter, calls, states, table := counter, map[], {}, NO_CALLS;
    }

    method BindName(key: string, st: CallState)
      requires Valid() && st in states
      modifies this`calls, this`table
      ensures Valid() && table == Bind(old(table), key, st.index)
    {
      if key != "" {
        calls := calls[key := st];
        table := Bind(table, key, st.index);
      }
    }

    method State(key: string, alias: string) returns (first: bool, st: CallState)
      requires Valid()
      modifies this`calls, this`table, this`states, counter
      ensures Valid() && st in states && (table, first, st.index) == Resolve(old(table), old(counter.next), key, alias)
      ensures counter.next == old(counter.next) + if first then 1 else 0
      ensures fresh(states - old(states)) && old(states) <= states
    {
      if key in calls {
        st := calls[key];
        BindName(alias, st);
        return false, st;
      }
      if alias in calls {
        st := calls[alias];
        BindName(key, st);
        return false, st;
      }
      var i := counter.Alloc();
      st := new CallState(i);
      states := states + {st};
      BindName(key, st);
      BindName(alias, st);
      first := true;
    }

    method Observe(callId: string, itemId: string, complete: bool) returns (first: bool, index: nat, deliver: bool)
      requires Valid()
      modifies this`calls, this`table, this`states, counter, states
      ensures Valid()
              && Sighting(table, first, index, deliver) ==
                   Observed(old(table), old(counter.next), callId, itemId, complete)
      ensures counter.next == old(counter.next) + if first then 1 else 0
      ensures fresh(states - old(states))
    {
      var st;
      first, st := State(callId, itemId);
      deliver := false;
      if complete && !st.delivered {
        st.delivered := true;
        table := table.(delivered := table.delivered + {st.index});
        deliver := true;
      }
      index := st.index;
    }

    method StreamArgs(itemId: string) returns (first: bool, index: nat)
      requires Valid()
      modifies this`calls, this`table, this`states, counter, states
      ensures Valid() && Sighting(table, first, index, true) == Streamed(old(table), old(counter.next), itemId)
      ensures counter.next == old(counter.next) + if first then 1 else 0
      ensures fresh(states - old(states))
    {
      var st;
      first, st := State(itemId, "");
      st.delivered := true;
      table := table.(delivered := table.delivered + {st.index});
      index := st.index;
    }
  }
}
