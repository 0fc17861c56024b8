/** What registering tool declarations guarantees: every accepted identity has
    one wire name, no two share one, and restoring a call undoes flattening it. */
module ToolIdentities {
  import opened Basics
  import opened ResponseTools
  import Json

  // ---- declarations as the client wrote them, without any registry ----

  /** A declaration with the namespace it sits in ("" at top level). */
  datatype Leaf = Leaf(tool: RespTool, namespace: string)

  function In(tools: seq<RespTool>, namespace: string): (r: seq<Leaf>)
    ensures |r| == |tools|
  {
    seq(|tools|, k requires 0 <= k < |tools| => Leaf(tools[k], namespace))
  }

  function LeavesOf(tool: RespTool): seq<Leaf> {
    if tool.kind != "namespace" then [Leaf(tool, "")]
    else match tool.tools
      case None => []
      case Some(children) => In(children, tool.name)
  }

  function AllLeaves(tools: seq<RespTool>): seq<Leaf> {
    if tools == [] then [] else AllLeaves(tools[..|tools| - 1]) + LeavesOf(tools[|tools| - 1])
  }

  function ItemLeaves(items: seq<RespItem>): seq<Leaf> {
    if items == [] then []
    else
      var item := items[|items| - 1];
      ItemLeaves(items[..|items| - 1]) +
      if item.kind == "additional_tools" && item.tools.Some? then AllLeaves(item.tools.value) else []
  }

  /** Declarations that stay with the upstream or are dropped, never named. */
  predicate Unnamed(target: Target, leaf: Leaf) {
    leaf.namespace == ""
    && ((target.Strip() && IsOptionalHosted(leaf.tool.kind))
        || (target.native && leaf.tool.kind != "function" && leaf.tool.kind != "custom"))
  }

  predicate WellFormedLeaf(target: Target, leaf: Leaf) {
    Unnamed(target, leaf)
    || ((leaf.tool.kind == "function" || leaf.tool.kind == "custom") && TrimSpace(leaf.tool.name) != "")
  }

  function IdentityOf(leaf: Leaf): ToolIdentity {
    ToolIdentity(leaf.tool.name, leaf.namespace, leaf.tool.kind == "custom")
  }

  /** The identities the client declared, in order, repetitions included. */
  function Declared(target: Target, leaves: seq<Leaf>): seq<ToolIdentity> {
    if leaves == [] then []
    else
      var leaf := leaves[|leaves| - 1];
      Declared(target, leaves[..|leaves| - 1]) + if Unnamed(target, leaf) then [] else [IdentityOf(leaf)]
  }

  predicate WellFormedTool(tool: RespTool) {
    tool.kind == "namespace" ==> TrimSpace(tool.name) != "" && tool.tools.Some?
  }

  predicate WellFormedTools(tools: seq<RespTool>) {
    forall k | 0 <= k < |tools| :: WellFormedTool(tools[k])
  }

  predicate WellFormedItems(items: seq<RespItem>) {
    forall k | 0 <= k < |items| && items[k].kind == "additional_tools" ::
      items[k].tools.Some? && WellFormedTools(items[k].tools.value)
  }

  predicate WellFormedLeaves(target: Target, leaves: seq<Leaf>) {
    forall k | 0 <= k < |leaves| :: WellFormedLeaf(target, leaves[k])
  }

  /** No two different identities flatten to one wire name. */
  ghost predicate Distinct(target: Target, ids: seq<ToolIdentity>) {
    forall i, j | 0 <= i < |ids| && 0 <= j < |ids| && Wire(target.digest, ids[i]) == Wire(target.digest, ids[j]) ::
      ids[i] == ids[j]
  }

  function Wires(target: Target, ids: seq<ToolIdentity>): (r: seq<string>)
    ensures |r| == |ids|
  {
    seq(|ids|, k requires 0 <= k < |ids| => Wire(target.digest, ids[k]))
  }

  function FirstOccurrences(names: seq<string>): seq<string> {
    if names == [] then []
    else
      var earlier := names[..|names| - 1];
      var last := names[|names| - 1];
      FirstOccurrences(earlier) + if last in earlier then [] else [last]
  }

  function FunctionNames(tools: seq<RespTool>): seq<string> {
    if tools == [] then []
    else
      var t := tools[|tools| - 1];
      FunctionNames(tools[..|tools| - 1]) + if t.kind == "function" then [t.name] else []
  }

  /** What the registry says about the declarations seen so far. */
  ghost predicate Faithful(target: Target, reg: Registry, ids: seq<ToolIdentity>) {
    && (forall k | 0 <= k < |ids| ::
          Wire(target.digest, ids[k]) in reg.names && reg.names[Wire(target.digest, ids[k])] == ids[k])
    && (forall w | w in reg.names :: reg.names[w] in ids && Wire(target.digest, reg.names[w]) == w)
    && FunctionNames(reg.tools) == FirstOccurrences(Wires(target, ids))
  }

  // ---- registration is a fold over the leaves ----

  function AddFlat(target: Target, reg: Registry, leaves: seq<Leaf>): Added {
    if leaves == [] then Added(reg, None)
    else
      var before := AddFlat(target, reg, leaves[..|leaves| - 1]);
      var leaf := leaves[|leaves| - 1];
      if before.err.Some? then before else AddLeaf(target, before.reg, leaf.tool, leaf.namespace)
  }

  lemma {:induction false} AddFlatAppend(target: Target, reg: Registry, a: seq<Leaf>, b: seq<Leaf>)
    ensures AddFlat(target, reg, a + b) ==
            var first := AddFlat(target, reg, a);
            if first.err.Some? then first else AddFlat(target, first.reg, b)
    decreases |b|
  {
    if b == [] {
      assert a + b == a;
    } else {
      assert (a + b)[..|a + b| - 1] == a + b[..|b| - 1];
      AddFlatAppend(target, reg, a, b[..|b| - 1]);
    }
  }

  lemma {:induction false} LeavesFlat(target: Target, reg: Registry, tools: seq<RespTool>, namespace: string)
    ensures AddLeaves(target, reg, tools, namespace) == AddFlat(target, reg, In(tools, namespace))
    decreases |tools|
  {
    if tools != [] {
      LeavesFlat(target, reg, tools[..|tools| - 1], namespace);
      assert In(tools, namespace)[..|tools| - 1] == In(tools[..|tools| - 1], namespace);
    }
  }

  lemma ToolFlat(target: Target, reg: Registry, tool: RespTool)
    ensures AddTool(target, reg, tool).err.None? <==>
            WellFormedTool(tool) && AddFlat(target, reg, LeavesOf(tool)).err.None?
    ensures WellFormedTool(tool) ==> AddTool(target, reg, tool) == AddFlat(target, reg, LeavesOf(tool))
  {
    if tool.kind == "namespace" {
      if tool.tools.Some? { LeavesFlat(target, reg, tool.tools.value, tool.name); }
    } else {
      assert [Leaf(tool, "")][..0] == [];
    }
  }

  lemma WellFormedToolsSnoc(init: seq<RespTool>, last: RespTool)
    ensures WellFormedTools(init + [last]) <==> WellFormedTools(init) && WellFormedTool(last)
  {
    var all := init + [last];
    assert all[|init|] == last && forall k | 0 <= k < |init| :: all[k] == init[k];
  }

  lemma {:induction false} ToolsFlat(target: Target, reg: Registry, tools: seq<RespTool>)
    ensures AddTools(target, reg, tools).err.None? <==>
            WellFormedTools(tools) && AddFlat(target, reg, AllLeaves(tools)).err.None?
    ensures WellFormedTools(tools) ==> AddTools(target, reg, tools) == AddFlat(target, reg, AllLeaves(tools))
    decreases |tools|
  {
    if tools != [] {
      hide AddTool, AddLeaf, LeavesOf, WellFormedTools, WellFormedTool, AddFlat;
      var init, last := tools[..|tools| - 1], tools[|tools| - 1];
      assert tools == init + [last];
      ToolsFlat(target, reg, init);
      WellFormedToolsSnoc(init, last);
      ToolFlat(target, AddTools(target, reg, init).reg, last);
      AddFlatAppend(target, reg, AllLeaves(init), LeavesOf(last));
    }
  }

  lemma {:induction false} ItemsFlat(target: Target, reg: Registry, items: seq<RespItem>)
    ensures AddItems(target, reg, items).err.None? <==>
            WellFormedItems(items) && AddFlat(target, reg, ItemLeaves(items)).err.None?
    ensures WellFormedItems(items) ==> AddItems(target, reg, items) == AddFlat(target, reg, ItemLeaves(items))
    decreases |items|
  {
    if items != [] {
      var init, last := items[..|items| - 1], items[|items| - 1];
      assert items == init + [last];
      ItemsFlat(target, reg, init);
      assert WellFormedItems(items) <==>
        (WellFormedItems(init) &&
         (last.kind == "additional_tools" ==> last.tools.Some? && WellFormedTools(last.tools.value)));
      if last.kind == "additional_tools" && last.tools.Some? {
        ToolsFlat(target, AddItems(target, reg, init).reg, last.tools.value);
        AddFlatAppend(target, reg, ItemLeaves(init), AllLeaves(last.tools.value));
      } else {
        assert ItemLeaves(items) == ItemLeaves(init);
      }
    }
  }

  // ---- the registry is faithful ----

  lemma WiresSnoc(target: Target, ids: seq<ToolIdentity>, id: ToolIdentity)
    ensures Wires(target, ids + [id]) == Wires(target, ids) + [Wire(target.digest, id)]
    ensures FirstOccurrences(Wires(target, ids + [id])) ==
            FirstOccurrences(Wires(target, ids)) +
            if Wire(target.digest, id) in Wires(target, ids) then [] else [Wire(target.digest, id)]
  {
    var w := Wires(target, ids + [id]);
    assert w == Wires(target, ids) + [Wire(target.digest, id)];
    assert w[..|w| - 1] == Wires(target, ids);
  }

  lemma FunctionNamesSnoc(tools: seq<RespTool>, t: RespTool)
    ensures FunctionNames(tools + [t]) == FunctionNames(tools) + if t.kind == "function" then [t.name] else []
  {
    assert (tools + [t])[..|tools|] == tools;
  }

  /** The identity agrees with every earlier one of the same wire name. */
  ghost predicate Agrees(target: Target, ids: seq<ToolIdentity>, id: ToolIdentity) {
    forall k | 0 <= k < |ids| && Wire(target.digest, ids[k]) == Wire(target.digest, id) :: ids[k] == id
  }

  lemma KnownWires(target: Target, reg: Registry, ids: seq<ToolIdentity>, id: ToolIdentity)
    requires Faithful(target, reg, ids)
    ensures Wire(target.digest, id) in Wires(target, ids) <==> Wire(target.digest, id) in reg.names
    ensures Wire(target.digest, id) in reg.names ==>
              (Agrees(target, ids, id) <==> reg.names[Wire(target.digest, id)] == id)
    ensures Wire(target.digest, id) !in reg.names ==> Agrees(target, ids, id)
  {
    var wire := Wire(target.digest, id);
    if wire in reg.names {
      var k :| 0 <= k < |ids| && ids[k] == reg.names[wire];
      assert Wires(target, ids)[k] == wire;
    }
  }

  lemma RegisterNew(target: Target, reg: Registry, ids: seq<ToolIdentity>, id: ToolIdentity, t: RespTool)
    requires Faithful(target, reg, ids)
    requires Wire(target.digest, id) !in reg.names
    requires t.kind == "function" && t.name == Wire(target.digest, id)
    ensures Faithful(target, Registry(reg.names[t.name := id], reg.tools + [t]), ids + [id])
  {
    var ids' := ids + [id];
    var reg' := Registry(reg.names[t.name := id], reg.tools + [t]);
    KnownWires(target, reg, ids, id);
    WiresSnoc(target, ids, id);
    FunctionNamesSnoc(reg.tools, t);
    assert id in ids' by { assert ids'[|ids|] == id; }
    forall w | w in reg'.names ensures reg'.names[w] in ids' && Wire(target.digest, reg'.names[w]) == w {
      if w != t.name { assert reg.names[w] in ids; }
    }
    forall k | 0 <= k < |ids'|
      ensures Wire(target.digest, ids'[k]) in reg'.names && reg'.names[Wire(target.digest, ids'[k])] == ids'[k]
    {
      if k < |ids| { assert ids'[k] == ids[k]; }
    }
  }

  lemma RegisterAgain(target: Target, reg: Registry, ids: seq<ToolIdentity>, id: ToolIdentity)
    requires Faithful(target, reg, ids)
    requires Wire(target.digest, id) in reg.names && reg.names[Wire(target.digest, id)] == id
    ensures Faithful(target, reg, ids + [id])
  {
    var ids' := ids + [id];
    KnownWires(target, reg, ids, id);
    WiresSnoc(target, ids, id);
    forall w | w in reg.names ensures reg.names[w] in ids' { assert reg.names[w] in ids; }
    forall k | 0 <= k < |ids'|
      ensures Wire(target.digest, ids'[k]) in reg.names && reg.names[Wire(target.digest, ids'[k])] == ids'[k]
    {
      if k < |ids| { assert ids'[k] == ids[k]; }
    }
  }

  /** One registration keeps the registry faithful, and fails exactly when the
      declaration is malformed or clashes with an earlier identity. */
  lemma LeafKeepsFaithful(target: Target, reg: Registry, ids: seq<ToolIdentity>, leaf: Leaf)
    requires Faithful(target, reg, ids)
    ensures var added := AddLeaf(target, reg, leaf.tool, leaf.namespace);
            && (added.err.None? ==>
                  Faithful(target, added.reg, ids + if Unnamed(target, leaf) then [] else [IdentityOf(leaf)]))
            && (added.err.None? <==>
                  (WellFormedLeaf(target, leaf) && (!Unnamed(target, leaf) ==> Agrees(target, ids, IdentityOf(leaf)))))
  {
    var added := AddLeaf(target, reg, leaf.tool, leaf.namespace);
    if Unnamed(target, leaf) {
      assert ids + [] == ids;
      if added.reg.tools != reg.tools {
        FunctionNamesSnoc(reg.tools, leaf.tool);
      }
    } else if WellFormedLeaf(target, leaf) {
      var id := IdentityOf(leaf);
      KnownWires(target, reg, ids, id);
      if Wire(target.digest, id) !in reg.names {
        RegisterNew(target, reg, ids, id, added.reg.tools[|reg.tools|]);
      } else if reg.names[Wire(target.digest, id)] == id {
        RegisterAgain(target, reg, ids, id);
      }
    }
  }

  lemma DistinctSnoc(target: Target, ids: seq<ToolIdentity>, id: ToolIdentity)
    ensures Distinct(target, ids + [id]) <==> (Distinct(target, ids) && Agrees(target, ids, id))
  {
    var all := ids + [id];
    assert forall k | 0 <= k < |ids| :: all[k] == ids[k];
    assert all[|ids|] == id;
    if Distinct(target, all) {
      forall i, j | 0 <= i < |ids| && 0 <= j < |ids| && Wire(target.digest, ids[i]) == Wire(target.digest, ids[j])
        ensures ids[i] == ids[j]
      {
        assert all[i] == all[j];
      }
    }
  }

  lemma {:induction false} FlatFaithful(target: Target, leaves: seq<Leaf>)
    ensures var added := AddFlat(target, Registry(map[], []), leaves);
            var ids := Declared(target, leaves);
            && (added.err.None? ==> Faithful(target, added.reg, ids))
            && (added.err.None? <==> WellFormedLeaves(target, leaves) && Distinct(target, ids))
    decreases |leaves|
  {
    var empty := Registry(map[], []);
    if leaves == [] {
    } else {
      var init, last := leaves[..|leaves| - 1], leaves[|leaves| - 1];
      assert leaves == init + [last];
      FlatFaithful(target, init);
      var ids := Declared(target, init);
      DistinctSnoc(target, ids, IdentityOf(last));
      assert WellFormedLeaves(target, leaves) <==> WellFormedLeaves(target, init) && WellFormedLeaf(target, last);
      assert ids + [] == ids;
      var before := AddFlat(target, empty, init);
      if before.err.None? {
        LeafKeepsFaithful(target, before.reg, ids, last);
      }
    }
  }

  // ---- the theorems ----

  function Restoring(reg: Registry): ToolNames {
    ToolNames(reg.names, Json.UnwrapCustomToolInput)
  }

  function RequestLeaves(tools: seq<RespTool>, items: seq<RespItem>): seq<Leaf> {
    AllLeaves(tools) + ItemLeaves(items)
  }

  /** Registration succeeds exactly for well-formed declarations among which no
      two different identities flatten to one name; then the registry is
      faithful to the declarations. */
  lemma RegistrationSucceedsIff(target: Target, tools: seq<RespTool>, items: seq<RespItem>)
    ensures var added := Registered(target, tools, items);
            var leaves := RequestLeaves(tools, items);
            var ids := Declared(target, leaves);
            && (added.err.None? <==>
                  (WellFormedTools(tools) && WellFormedItems(items)
                   && WellFormedLeaves(target, leaves) && Distinct(target, ids)))
            && (added.err.None? ==> Faithful(target, added.reg, ids))
  {
    var empty := Registry(map[], []);
    var leaves := RequestLeaves(tools, items);
    ToolsFlat(target, empty, tools);
    var top := AddTools(target, empty, tools);
    AddFlatAppend(target, empty, AllLeaves(tools), ItemLeaves(items));
    ItemsFlat(target, top.reg, items);
    FlatFaithful(target, leaves);
  }

  /** Restoring a call to the wire name of any declared identity gives that
      identity back, whatever the digest. */
  lemma RestoreUndoesFlattening(target: Target, tools: seq<RespTool>, items: seq<RespItem>, id: ToolIdentity,
                                item: RespItem)
    requires Registered(target, tools, items).err.None?
    requires id in Declared(target, RequestLeaves(tools, items))
    requires item.kind == "function_call" && item.name == Wire(target.digest, id) && item.namespace == ""
    ensures var r := RestoreCall(Restoring(Registered(target, tools, items).reg), item);
            && r.name == id.name && r.namespace == id.namespace && r.callId == item.callId
            && (id.custom ==>
                r.kind == "custom_tool_call" && r.input == Some(Json.UnwrapCustomToolInput(item.arguments)))
            && (!id.custom ==> r == item.(name := id.name, namespace := id.namespace))
  {
    RegistrationSucceedsIff(target, tools, items);
  }

  // ---- custom_tool_call history survives the round trip ----

  lemma HexCharValue(d: nat)
    requires d < 16
    ensures Json.HexDigit(HexChar(d)) == Some(d)
  {
  }

  lemma HexPairDecodes(s: string, i: nat, u: nat)
    requires u < 0x80 && i + 4 <= |s|
    requires s[i] == '0' && s[i + 1] == '0' && s[i + 2] == HexChar(u / 16) && s[i + 3] == HexChar(u % 16)
    ensures Json.Hex4(s, i) == Some(u)
  {
    HexCharValue(u / 16);
    HexCharValue(u % 16);
    assert Json.HexDigit('0') == Some(0);
  }

  lemma LineSeparatorDecodes(s: string, i: nat, u: nat)
    requires i + 4 <= |s| && u in {8, 9}
    requires s[i] == '2' && s[i + 1] == '0' && s[i + 2] == '2' && s[i + 3] == HexChar(u)
    ensures Json.Hex4(s, i) == Some(0x2020 + u)
  {
    HexCharValue(u);
    assert Json.HexDigit('2') == Some(2) && Json.HexDigit('0') == Some(0);
  }

  /** The piece stands in s at position i. */
  predicate At(s: string, i: nat, piece: string) {
    i + |piece| <= |s| && s[i..i + |piece|] == piece
  }

  lemma AtParts(s: string, i: nat, a: string, b: string)
    requires At(s, i, a + b)
    ensures At(s, i, a) && At(s, i + |a|, b)
    ensures forall k | 0 <= k < |a| :: s[i + k] == a[k]
  {
    var both := s[i..i + |a| + |b|];
    assert s[i..i + |a|] == both[..|a|] == (a + b)[..|a|];
    assert s[i + |a|..i + |a| + |b|] == both[|a|..] == (a + b)[|a|..];
    forall k | 0 <= k < |a| ensures s[i + k] == a[k] { assert both[k] == (a + b)[k]; }
  }

  /** The decoder reads one escape sequence back. */
  lemma {:induction false} EscapeDecodes(s: string, i: nat, c: char)
    requires At(s, i, EscapeChar(c)) && |EscapeChar(c)| > 1
    ensures s[i] == '\\' && Json.Escape(s, i + 1) == Some((c, i + |EscapeChar(c)|))
  {
    var e, u := EscapeChar(c), c as int;
    AtParts(s, i, e, "");
    assert s[i] == e[0] && s[i + 1] == e[1];
    if |e| == 6 {
      assert s[i + 2] == e[2] && s[i + 3] == e[3] && s[i + 4] == e[4] && s[i + 5] == e[5];
      if u < 0x80 {
        assert e == "\\u00" + [HexChar(u / 16), HexChar(u % 16)];
        HexPairDecodes(s, i + 2, u);
      } else {
        LineSeparatorDecodes(s, i + 2, u - 0x2020);
      }
    }
  }

  lemma CharDecodes(s: string, i: nat, c: char)
    requires At(s, i, EscapeChar(c)) && i + |EscapeChar(c)| < |s|
    ensures Json.Chars(s, i) == Json.Prepend(c, Json.Chars(s, i + |EscapeChar(c)|))
  {
    if |EscapeChar(c)| > 1 {
      EscapeDecodes(s, i, c);
      hide EscapeChar, Json.Escape;
    } else {
      AtParts(s, i, EscapeChar(c), "");
      assert s[i] == c;
    }
  }

  /** The decoder undoes this way of writing characters inside a string. */
  ghost predicate Readable(escape: char -> string) {
    forall s: string, i: nat, c: char | At(s, i, escape(c)) && i + |escape(c)| < |s| ::
      Json.Chars(s, i) == Json.Prepend(c, Json.Chars(s, i + |escape(c)|))
  }

  lemma {:induction false} EscapingIsReadable()
    ensures Readable(EscapeChar)
  {
    forall s: string, i: nat, c: char | At(s, i, EscapeChar(c)) && i + |EscapeChar(c)| < |s|
      ensures Json.Chars(s, i) == Json.Prepend(c, Json.Chars(s, i + |EscapeChar(c)|))
    {
      CharDecodes(s, i, c);
    }
  }

  lemma CharStep(escape: char -> string, s: string, i: nat, c: char, rest: string, j: nat)
    requires Readable(escape) && At(s, i, escape(c)) && i + |escape(c)| < |s|
    requires Json.Chars(s, i + |escape(c)|) == Some((rest, j))
    ensures Json.Chars(s, i) == Some(([c] + rest, j))
  {
    hide Json.Chars;
    assert Json.Chars(s, i) == Json.Prepend(c, Json.Chars(s, i + |escape(c)|));
  }

  lemma TextEnds(s: string, i: nat)
    requires At(s, i, "\"")
    ensures Json.Chars(s, i) == Some(("", i + 1)) && i < |s|
  {
    AtParts(s, i, "\"", "");
  }

  lemma {:induction false} TextDecodes(escape: char -> string, s: string, i: nat, text: string)
    requires Readable(escape)
    requires At(s, i, EscapeWith(escape, text)) && At(s, i + |EscapeWith(escape, text)|, "\"")
    ensures Json.Chars(s, i) == Some((text, i + |EscapeWith(escape, text)| + 1))
    decreases |text|
  {
    hide Json.Chars, At, Readable;
    TextEnds(s, i + |EscapeWith(escape, text)|);
    if text != "" {
      var c, rest := text[0], text[1..];
      AtParts(s, i, escape(c), EscapeWith(escape, rest));
      TextDecodes(escape, s, i + |escape(c)|, rest);
      CharStep(escape, s, i, c, rest, i + |EscapeWith(escape, text)| + 1);
      assert text == [c] + rest;
    }
  }

  lemma InputKeyIsPlain()
    ensures EscapeAll("input") == "input"
  {
    assert EscapeAll("t") == "t";
    assert "ut"[1..] == "t" && EscapeAll("ut") == "ut";
    assert "put"[1..] == "ut" && EscapeAll("put") == "put";
    assert "nput"[1..] == "put" && EscapeAll("nput") == "nput";
    assert "input"[1..] == "nput";
  }

  lemma WrapperParts(input: string)
    ensures var doc, n := WrapInput(input), |EscapeAll(input)|;
            && |doc| == n + 12 && doc[0] == '{' && doc[1] == '"' && doc[8] == ':' && doc[9] == '"' && doc[n + 11] == '}'
            && At(doc, 2, "input") && At(doc, 7, "\"") && At(doc, 10, EscapeAll(input)) && At(doc, 10 + n, "\"")
  {
  }

  lemma MemberDecodes(doc: string, key: string, text: string, end: nat)
    requires 10 <= |doc| && doc[1] == '"' && doc[8] == ':' && doc[9] == '"'
    requires Json.Chars(doc, 2) == Some((key, 8)) && Json.Chars(doc, 10) == Some((text, end))
    ensures Json.ParseMember(doc, 1) == Some(((key, Json.Str(text)), end))
  {
    assert Json.ParseKey(doc, 1) == Some((key, 9));
  }

  lemma WrapperMember(input: string)
    ensures var n := |EscapeAll(input)|;
            Json.ParseMember(WrapInput(input), 1) == Some((("input", Json.Str(input)), n + 11))
  {
    var doc, n := WrapInput(input), |EscapeAll(input)|;
    WrapperParts(input);
    EscapingIsReadable();
    InputKeyIsPlain();
    TextDecodes(EscapeChar, doc, 2, "input");
    TextDecodes(EscapeChar, doc, 10, input);
    MemberDecodes(doc, "input", input, n + 11);
  }

  lemma WrapperDecodes(input: string)
    ensures Json.Decode(WrapInput(input)) == Some(Json.Obj([("input", Json.Str(input))]))
  {
    var doc, n := WrapInput(input), |EscapeAll(input)|;
    WrapperMember(input);
    WrapperParts(input);
    var field := ("input", Json.Str(input));
    assert Json.Separate(doc, n + 11, '}') == Json.End(n + 12);
    assert Json.ParseMembers(doc, 1) == Some(([field], n + 12));
  }

  lemma UnwrapUndoesWrap(input: string)
    ensures Json.WrappedInput(WrapInput(input)) == Some(input)
    ensures Json.UnwrapCustomToolInput(WrapInput(input)) == input
  {
    WrapperDecodes(input);
    var fields := [("input", Json.Str(input))];
    assert fields[..0] == [];
    assert Json.InputField(fields) == Some(Some(input));
  }

  /** What a custom call without an input, or with arguments of its own, comes back
      as: an absent input reads as an empty one, and arguments are replaced. */
  function Completed(call: RespItem): RespItem {
    if call.kind != "custom_tool_call" then call
    else call.(input := Some(match call.input case Some(s) => s case None => ""), arguments := "")
  }

  /** A call of the history comes back from Normalize and RestoreCall, completed,
      exactly when its identity is what the registry holds for its wire name;
      declaring the tool is enough.  It comes back unchanged if it was complete. */
  lemma {:induction false} HistoryRoundTrip(target: Target, tools: seq<RespTool>, items: seq<RespItem>, call: RespItem)
    requires Registered(target, tools, items).err.None? && call.kind in {"custom_tool_call", "function_call"}
    ensures var id := ToolIdentity(call.name, call.namespace, call.kind == "custom_tool_call");
            var names := Restoring(Registered(target, tools, items).reg);
            var back := RestoreCall(names, NormalizeItem(target.digest, call));
            && (id in Declared(target, RequestLeaves(tools, items)) ==> back == Completed(call))
            && (back == Completed(call) <==> Identity(names, Wire(target.digest, id)) == id)
            && (back == call <==> Identity(names, Wire(target.digest, id)) == id && call == Completed(call))
  {
    RegistrationSucceedsIff(target, tools, items);
    if call.kind == "custom_tool_call" {
      UnwrapUndoesWrap(Completed(call).input.value);
    }
  }
}
