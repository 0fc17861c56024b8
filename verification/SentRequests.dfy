/** What a normalized request is sent with: its tools, conversation and tool choice,
    read off the request as the client wrote it. */
module SentRequests {
  import opened Basics
  import opened ResponseTools
  import opened ToolIdentities

  // ---- tools ----

  /** Under its wire name a tool is sent as it was declared; a custom tool becomes a
      function whose one parameter, required, is a string "input". */
  function SentAs(target: Target, leaf: Leaf): RespTool {
    var named := leaf.tool.(name := Wire(target.digest, IdentityOf(leaf)));
    if leaf.tool.kind != "custom" then named
    else
      named.(kind := "function",
             parameters := "{\"type\":\"object\",\"properties\":{\"input\":{\"type\":\"string\"," +
                           "\"description\":\"Raw freeform input for this tool.\"}},\"required\":[\"input\"]}")
  }

  /** What is sent for a declaration that follows others: nothing for a hosted tool of
      an upstream that cannot run it, the tool itself where the upstream runs it, and
      otherwise the tool under its wire name unless it was declared before. */
  function SentFor(target: Target, earlier: seq<Leaf>, leaf: Leaf): seq<RespTool> {
    var kind := leaf.tool.kind;
    if leaf.namespace == "" && target.stripHosted && !target.native
       && kind in {"web_search", "web_search_preview", "tool_search", "image_generation"} then []
    else if leaf.namespace == "" && target.native && kind !in {"function", "custom"} then
      if kind in {"tool_search", "image_generation"} then [] else [leaf.tool]
    else if IdentityOf(leaf) in Declared(target, earlier) then []
    else [SentAs(target, leaf)]
  }

  function SentTools(target: Target, leaves: seq<Leaf>): seq<RespTool> {
    if leaves == [] then []
    else
      var earlier := leaves[..|leaves| - 1];
      SentTools(target, earlier) + SentFor(target, earlier, leaves[|leaves| - 1])
  }

  lemma LeafIsSent(target: Target, reg: Registry, earlier: seq<Leaf>, leaf: Leaf)
    requires Faithful(target, reg, Declared(target, earlier))
    ensures var added := AddLeaf(target, reg, leaf.tool, leaf.namespace);
            added.err.None? ==> added.reg.tools == reg.tools + SentFor(target, earlier, leaf)
  {
    hide TrimSpace, Declared, FunctionNames, FirstOccurrences, Qualified;
    var added := AddLeaf(target, reg, leaf.tool, leaf.namespace);
    assert reg.tools + [] == reg.tools;
    if added.err.None? && !Unnamed(target, leaf) {
      var id, ids := IdentityOf(leaf), Declared(target, earlier);
      KnownWires(target, reg, ids, id);
      assert id in ids <==> Wire(target.digest, id) in reg.names;
    }
  }

  lemma {:induction false} FlatIsSent(target: Target, leaves: seq<Leaf>)
    ensures var added := AddFlat(target, Registry(map[], []), leaves);
            added.err.None? ==> added.reg.tools == SentTools(target, leaves)
    decreases |leaves|
  {
    hide AddLeaf, Faithful, Declared, SentFor, Distinct, WellFormedLeaves;
    if leaves != [] {
      var init, last := leaves[..|leaves| - 1], leaves[|leaves| - 1];
      FlatIsSent(target, init);
      FlatFaithful(target, init);
      var before := AddFlat(target, Registry(map[], []), init);
      if before.err.None? { LeafIsSent(target, before.reg, init, last); }
    }
  }

  /** On success the tools sent are, in order, the declarations that stay, each once
      and otherwise as the client declared it. */
  lemma ToolsAreSent(target: Target, tools: seq<RespTool>, items: seq<RespItem>)
    requires Registered(target, tools, items).err.None?
    ensures Registered(target, tools, items).reg.tools == SentTools(target, RequestLeaves(tools, items))
  {
    hide AddLeaf, AddTool, WellFormedTools, WellFormedItems, SentTools;
    var empty := Registry(map[], []);
    ToolsFlat(target, empty, tools);
    AddFlatAppend(target, empty, AllLeaves(tools), ItemLeaves(items));
    ItemsFlat(target, AddTools(target, empty, tools).reg, items);
    FlatIsSent(target, RequestLeaves(tools, items));
  }

  /** A name in no namespace stays as it is.  One in a namespace is at most 64 long if
      digests are at most 12, and tells its namespace by what it begins with. */
  lemma WireNames(digest: string -> string, id: ToolIdentity)
    ensures var wire, whole := Wire(digest, id), id.namespace + "__" + id.name;
            if id.namespace == "" then wire == id.name
            else if |whole| <= 64 then wire == whole
            else
              && |wire| == 52 + |digest(whole)| && wire[..50] == whole[..50]
              && wire[50..] == "__" + digest(whole)
  {
  }

  // ---- the conversation ----

  /** The items that are no declarations, in order. */
  function Said(items: seq<RespItem>): seq<RespItem> {
    if items == [] then []
    else
      var last := items[|items| - 1];
      if last.kind == "additional_tools" then Said(items[..|items| - 1]) else Said(items[..|items| - 1]) + [last]
  }

  /** Calls and outputs of custom tools become those of functions, the input wrapped as
      arguments; calls take the wire name; nothing else changes. */
  predicate SentItem(digest: string -> string, item: RespItem, sent: RespItem) {
    match item.kind
    case "custom_tool_call" =>
      && sent == item.(kind := "function_call", name := sent.name, namespace := "", arguments := sent.arguments,
                       input := None)
      && sent.name == Wire(digest, ToolIdentity(item.name, item.namespace, true))
      && sent.arguments == WrapInput(if item.input.Some? then item.input.value else "")
    case "function_call" =>
      && sent == item.(name := sent.name, namespace := "")
      && sent.name == Wire(digest, ToolIdentity(item.name, item.namespace, false))
    case "custom_tool_call_output" => sent == item.(kind := "function_call_output")
    case _ => sent == item
  }

  lemma {:induction false} SaidIsConversation(items: seq<RespItem>)
    ensures Conversation(items) == Said(items)
    decreases |items|
  {
    if items != [] { SaidIsConversation(items[..|items| - 1]); }
  }

  /** The conversation sent is the client's, item by item. */
  lemma ConversationIsSent(target: Target, tools: seq<RespTool>, items: seq<RespItem>, choice: ToolChoice,
                           parallel: Option<bool>)
    requires NormalizedRequest(target, tools, items, choice, parallel).Ok?
    ensures var sent := NormalizedRequest(target, tools, items, choice, parallel).value.conversation;
            && |sent| == |Said(items)|
            && (forall k | 0 <= k < |sent| :: SentItem(target.digest, Said(items)[k], sent[k]))
            && (target.stripHosted && !target.native ==>
                  forall k | 0 <= k < |sent| :: sent[k].kind != "web_search_call")
  {
    hide Registered, QualifiedChoice, RemainingChoice, Conversation, Drops, DropsInItems, Qualified, WrapInput;
    SaidIsConversation(items);
    var said := Said(items);
    forall k | 0 <= k < |said|
      ensures SentItem(target.digest, said[k], NormalizeItem(target.digest, said[k]))
    {
      ItemIsSent(target.digest, said[k]);
    }
  }

  lemma ItemIsSent(digest: string -> string, item: RespItem)
    ensures SentItem(digest, item, NormalizeItem(digest, item))
    ensures NormalizeItem(digest, item).kind == "web_search_call" <==> item.kind == "web_search_call"
  {
    hide Qualified, WrapInput;
  }

  // ---- the choice ----

  predicate AsksForAny(choice: ToolChoice) {
    match choice
    case Word(text) => text in {"any", "required"}
    case Chosen(kind, _, _, _, _) => kind in {"any", "required"}
    case _ => false
  }

  /** The tool a choice names; the name in its function member wins. */
  function AskedFor(choice: ToolChoice): Option<string> {
    match choice
    case Chosen(kind, name, _, inner, _) =>
      if kind !in {"tool", "function"} then None else if inner != "" then Some(inner) else name
    case _ => None
  }

  predicate WellFormedChoice(choice: ToolChoice) {
    match choice
    case NoChoice => true
    case Garbage => false
    case Word(text) => text in {"auto", "any", "required", "none"}
    case Chosen(kind, _, _, _, typed) =>
      && typed && kind in {"auto", "any", "required", "none", "tool", "function"}
      && (kind in {"tool", "function"} ==> AskedFor(choice) !in {None, Some("")})
  }

  /** A namespaced function choice, whose name is to become its tool's wire name. */
  predicate InNamespace(choice: ToolChoice) {
    choice.Chosen? && choice.kind == "function" && choice.namespace != Unset
  }

  /** The choice as it is sent where tools are. */
  function SentChoice(digest: string -> string, choice: ToolChoice): ToolChoice
    requires InNamespace(choice) ==> choice.namespace.Inside? && choice.name.Some?
  {
    if !InNamespace(choice) then choice
    else choice.(name := Some(Wire(digest, ToolIdentity(choice.name.value, choice.namespace.text, false))),
                 namespace := Unset)
  }

  // ---- why a request is refused ----

  /** A declaration in its namespace, or one that cannot be read at all. */
  datatype Slot = Good(leaf: Leaf) | Bad(error: ToolError)

  function SlotsOf(tool: RespTool): seq<Slot> {
    if tool.kind != "namespace" then [Good(Leaf(tool, ""))]
    else if TrimSpace(tool.name) == "" || tool.tools.None? then [Bad(NamespaceMalformed)]
    else Children(tool.tools.value, tool.name)
  }

  function Children(tools: seq<RespTool>, namespace: string): seq<Slot> {
    seq(|tools|, k requires 0 <= k < |tools| => Good(Leaf(tools[k], namespace)))
  }

  function AllSlots(tools: seq<RespTool>): seq<Slot> {
    if tools == [] then [] else AllSlots(tools[..|tools| - 1]) + SlotsOf(tools[|tools| - 1])
  }

  function ItemSlots(items: seq<RespItem>): seq<Slot> {
    if items == [] then []
    else
      var last := items[|items| - 1];
      ItemSlots(items[..|items| - 1]) +
      if last.kind != "additional_tools" then []
      else match last.tools case None => [Bad(AdditionalToolsMalformed)] case Some(tools) => AllSlots(tools)
  }

  function GoodOnes(slots: seq<Slot>): seq<Leaf> {
    if slots == [] then []
    else GoodOnes(slots[..|slots| - 1]) + match slots[|slots| - 1] case Good(leaf) => [leaf] case Bad(_) => []
  }

  /** What is wrong with a declaration that follows others: it cannot be read, its kind
      is not the upstream's to run nor a function's, it has no name, or its wire name is
      that of another tool declared before. */
  ghost function Wrong(target: Target, earlier: seq<Leaf>, slot: Slot): Option<ToolError> {
    match slot
    case Bad(error) => Some(error)
    case Good(leaf) =>
      var id, ids := IdentityOf(leaf), Declared(target, earlier);
      if Unnamed(target, leaf) then None
      else if leaf.tool.kind !in {"function", "custom"} then Some(UnsupportedToolType(leaf.tool.kind))
      else if TrimSpace(leaf.tool.name) == "" then Some(MissingName)
      else if exists k | 0 <= k < |ids| :: ids[k] != id && Wire(target.digest, ids[k]) == Wire(target.digest, id)
      then Some(NamesCollide)
      else None
  }

  /** The first thing that is wrong. */
  ghost function FirstWrong(target: Target, slots: seq<Slot>): Option<ToolError> {
    if slots == [] then None
    else
      var init := slots[..|slots| - 1];
      var before := FirstWrong(target, init);
      if before.Some? then before else Wrong(target, GoodOnes(init), slots[|slots| - 1])
  }

  function AddSlots(target: Target, reg: Registry, slots: seq<Slot>): Added {
    if slots == [] then Added(reg, None)
    else
      var before := AddSlots(target, reg, slots[..|slots| - 1]);
      if before.err.Some? then before
      else match slots[|slots| - 1]
        case Good(leaf) => AddLeaf(target, before.reg, leaf.tool, leaf.namespace)
        case Bad(error) => Added(before.reg, Some(error))
  }

  lemma {:induction false} AddSlotsAppend(target: Target, reg: Registry, a: seq<Slot>, b: seq<Slot>)
    ensures AddSlots(target, reg, a + b) ==
            var first := AddSlots(target, reg, a);
            if first.err.Some? then first else AddSlots(target, first.reg, b)
    decreases |b|
  {
    hide AddLeaf;
    if b == [] {
      assert a + b == a;
    } else {
      assert (a + b)[..|a + b| - 1] == a + b[..|b| - 1];
      AddSlotsAppend(target, reg, a, b[..|b| - 1]);
    }
  }

  lemma {:induction false} ChildrenAreSlots(target: Target, reg: Registry, tools: seq<RespTool>, namespace: string)
    ensures AddLeaves(target, reg, tools, namespace) == AddSlots(target, reg, Children(tools, namespace))
    decreases |tools|
  {
    hide AddLeaf;
    if tools != [] {
      var n := |tools| - 1;
      ChildrenAreSlots(target, reg, tools[..n], namespace);
      assert Children(tools, namespace)[..n] == Children(tools[..n], namespace);
    }
  }

  lemma ToolIsSlots(target: Target, reg: Registry, tool: RespTool)
    ensures AddTool(target, reg, tool) == AddSlots(target, reg, SlotsOf(tool))
  {
    hide AddLeaf, TrimSpace;
    if tool.kind == "namespace" && TrimSpace(tool.name) != "" && tool.tools.Some? {
      ChildrenAreSlots(target, reg, tool.tools.value, tool.name);
    } else {
      var slots := SlotsOf(tool);
      assert |slots| == 1 && slots[..0] == [];
      NoSlots(target, reg);
    }
  }

  lemma {:induction false} ToolsAreSlots(target: Target, reg: Registry, tools: seq<RespTool>)
    ensures AddTools(target, reg, tools) == AddSlots(target, reg, AllSlots(tools))
    decreases |tools|
  {
    hide AddTool, SlotsOf, AddSlots;
    if tools == [] {
      NoSlots(target, reg);
    } else {
      var init, last := tools[..|tools| - 1], tools[|tools| - 1];
      ToolsAreSlots(target, reg, init);
      ToolIsSlots(target, AddTools(target, reg, init).reg, last);
      AddSlotsAppend(target, reg, AllSlots(init), SlotsOf(last));
    }
  }

  lemma NoSlots(target: Target, reg: Registry)
    ensures AddSlots(target, reg, []) == Added(reg, None)
  {
  }

  lemma {:induction false} ItemsAreSlots(target: Target, reg: Registry, items: seq<RespItem>)
    ensures AddItems(target, reg, items) == AddSlots(target, reg, ItemSlots(items))
    decreases |items|
  {
    hide AddTools, AllSlots, AddLeaf;
    if items != [] {
      var init, last := items[..|items| - 1], items[|items| - 1];
      ItemsAreSlots(target, reg, init);
      var before := AddItems(target, reg, init);
      var more := if last.kind != "additional_tools" then []
                  else match last.tools
                       case None => [Bad(AdditionalToolsMalformed)]
                       case Some(tools) => AllSlots(tools);
      AddSlotsAppend(target, reg, ItemSlots(init), more);
      if last.kind == "additional_tools" {
        match last.tools
        case Some(tools) => ToolsAreSlots(target, before.reg, tools);
        case None => assert [Slot.Bad(AdditionalToolsMalformed)][..0] == [];
      }
    }
  }

  lemma {:induction false} SlotsFaithful(target: Target, slots: seq<Slot>)
    ensures var added := AddSlots(target, Registry(map[], []), slots);
            && added.err == FirstWrong(target, slots)
            && (added.err.None? ==> Faithful(target, added.reg, Declared(target, GoodOnes(slots))))
    decreases |slots|
  {
    if slots != [] {
      hide Faithful, AddLeaf, Wrong;
      var init, last := slots[..|slots| - 1], slots[|slots| - 1];
      SlotsFaithful(target, init);
      var before := AddSlots(target, Registry(map[], []), init);
      if before.err.None? && last.Good? { LeafIsWrong(target, before.reg, GoodOnes(init), last.leaf); }
      if last.Bad? { BadIsWrong(target, GoodOnes(init), last); }
    } else {
      assert Declared(target, []) == [] && Wires(target, []) == [];
    }
  }

  lemma BadIsWrong(target: Target, earlier: seq<Leaf>, slot: Slot)
    requires slot.Bad?
    ensures Wrong(target, earlier, slot) == Some(slot.error)
  {
  }

  lemma LeafIsWrong(target: Target, reg: Registry, earlier: seq<Leaf>, leaf: Leaf)
    requires Faithful(target, reg, Declared(target, earlier))
    ensures var added := AddLeaf(target, reg, leaf.tool, leaf.namespace);
            && added.err == Wrong(target, earlier, Good(leaf))
            && (added.err.None? ==> Faithful(target, added.reg, Declared(target, earlier + [leaf])))
  {
    hide TrimSpace, FunctionNames, FirstOccurrences, Qualified;
    var id, ids := IdentityOf(leaf), Declared(target, earlier);
    LeafKeepsFaithful(target, reg, ids, leaf);
    assert (earlier + [leaf])[..|earlier|] == earlier;
    assert ids + [] == ids;
    if !Unnamed(target, leaf) {
      KnownWires(target, reg, ids, id);
      var wire := Wire(target.digest, id);
      if wire in reg.names && reg.names[wire] != id {
        var k :| 0 <= k < |ids| && ids[k] == reg.names[wire];
        assert ids[k] != id && Wire(target.digest, ids[k]) == wire;
      }
    }
  }

  /** The declarations of a request as slots, in the order they are registered. */
  function RequestSlots(tools: seq<RespTool>, items: seq<RespItem>): seq<Slot> {
    AllSlots(tools) + ItemSlots(items)
  }

  /** Registration fails with the first thing that is wrong with the declarations. */
  lemma RegistrationFailsWith(target: Target, tools: seq<RespTool>, items: seq<RespItem>)
    ensures Registered(target, tools, items).err == FirstWrong(target, RequestSlots(tools, items))
  {
    hide AddSlots, AddTools, AddItems, FirstWrong, Faithful;
    var empty := Registry(map[], []);
    ToolsAreSlots(target, empty, tools);
    ItemsAreSlots(target, AddTools(target, empty, tools).reg, items);
    AddSlotsAppend(target, empty, AllSlots(tools), ItemSlots(items));
    SlotsFaithful(target, RequestSlots(tools, items));
  }

  predicate StripsHosted(target: Target) {
    target.stripHosted && !target.native
  }

  /** Why a choice cannot be sent: it is hosted where hosted tools are dropped, names
      nothing in its namespace, is malformed, or asks for what is gone. */
  function Unmet(target: Target, choice: ToolChoice, reg: Registry, dropped: bool): Option<ToolError> {
    if choice.Chosen? && StripsHosted(target)
       && choice.kind in {"web_search", "web_search_preview", "tool_search", "image_generation"}
    then Some(ChoiceHosted(choice.kind))
    else if InNamespace(choice) && (!choice.namespace.Inside? || choice.name in {None, Some("")})
    then Some(ChoiceMalformed)
    else if !dropped then None
    else
      var sent := SentChoice(target.digest, choice);
      if !WellFormedChoice(sent) then Some(ChoiceMalformed)
      else if (AsksForAny(sent) || AskedFor(sent).Some?) && reg.tools == [] then Some(ChoiceWithoutTools)
      else if AskedFor(sent).Some? && AskedFor(sent).value !in reg.names then Some(ChoiceUnavailable)
      else None
  }

  /** Why a request is refused: its declarations, history of a hosted tool that the
      upstream cannot read, or its choice. */
  ghost function Refusal(target: Target, tools: seq<RespTool>, items: seq<RespItem>,
                         choice: ToolChoice): Option<ToolError> {
    var wrong := FirstWrong(target, RequestSlots(tools, items));
    if wrong.Some? then wrong
    else if StripsHosted(target) && exists k | 0 <= k < |Said(items)| :: Said(items)[k].kind == "web_search_call"
    then Some(HostedHistory)
    else Unmet(target, choice, Registered(target, tools, items).reg,
               Drops(target, tools) || DropsInItems(target, items))
  }

  /** A request is sent unless there is something to refuse it for, and is refused for
      the first such thing.  Its choice is sent unchanged but for the wire name, or not
      at all when no tool is left, and parallel_tool_calls with it. */
  lemma RequestIsSentIff(target: Target, tools: seq<RespTool>, items: seq<RespItem>, choice: ToolChoice,
                         parallel: Option<bool>)
    ensures var sent, refusal := NormalizedRequest(target, tools, items, choice, parallel),
                                 Refusal(target, tools, items, choice);
            && (sent.Ok? <==> refusal.None?) && (sent.Err? ==> refusal == Some(sent.error))
            && (sent.Ok? ==>
                  if (Drops(target, tools) || DropsInItems(target, items))
                     && Registered(target, tools, items).reg.tools == []
                  then sent.value.choice == NoChoice && sent.value.parallel == None
                  else sent.value.choice == SentChoice(target.digest, choice) && sent.value.parallel == parallel)
  {
    hide Registered, Conversation, Drops, DropsInItems, Qualified, NormalizeItem, Said, FirstWrong, RequestSlots;
    SaidIsConversation(items);
    RegistrationFailsWith(target, tools, items);
    assert HasHostedHistory(Said(items)) <==>
             exists k | 0 <= k < |Said(items)| :: Said(items)[k].kind == "web_search_call";
  }
}
