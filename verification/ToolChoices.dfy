/** The tool choice of a normalized request against the tools it is sent with. */
module ToolChoices {
  import opened Basics
  import opened ResponseTools
  import opened ToolIdentities

  lemma {:induction false} FirstOccurrencesHave(names: seq<string>, name: string)
    requires name in names
    ensures name in FirstOccurrences(names)
    decreases |names|
  {
    var earlier := names[..|names| - 1];
    if name in earlier { FirstOccurrencesHave(earlier, name); }
  }

  lemma {:induction false} NamedToolExists(tools: seq<RespTool>, name: string)
    requires name in FunctionNames(tools)
    ensures exists k :: 0 <= k < |tools| && tools[k].kind == "function" && tools[k].name == name
    decreases |tools|
  {
    var init, t := tools[..|tools| - 1], tools[|tools| - 1];
    if name in FunctionNames(init) {
      NamedToolExists(init, name);
      var k :| 0 <= k < |init| && init[k].kind == "function" && init[k].name == name;
      assert tools[k] == init[k];
    }
  }

  /** Every name of the registry is that of a function the request is sent with. */
  lemma {:induction false} RegisteredIsSent(target: Target, declared: seq<RespTool>, items: seq<RespItem>, name: string)
    requires var added := Registered(target, declared, items); added.err.None? && name in added.reg.names
    ensures var tools := Registered(target, declared, items).reg.tools;
            exists k :: 0 <= k < |tools| && tools[k].kind == "function" && tools[k].name == name
  {
    hide Registered, FunctionNames, FirstOccurrences;
    RegistrationSucceedsIff(target, declared, items);
    var reg, ids := Registered(target, declared, items).reg, Declared(target, RequestLeaves(declared, items));
    var k :| 0 <= k < |ids| && ids[k] == reg.names[name];
    assert Wires(target, ids)[k] == name;
    FirstOccurrencesHave(Wires(target, ids), name);
    NamedToolExists(reg.tools, name);
  }

  /** When hosted tools were dropped, the choice that is sent asks for nothing that
      is not sent with it. */
  lemma {:induction false} ChosenToolIsSent(target: Target, declared: seq<RespTool>, items: seq<RespItem>,
                                            choice: ToolChoice, parallel: Option<bool>)
    requires NormalizedRequest(target, declared, items, choice, parallel).Ok?
             && (Drops(target, declared) || DropsInItems(target, items))
    ensures var tools, sent := Registered(target, declared, items).reg.tools,
                               NormalizedRequest(target, declared, items, choice, parallel).value.choice;
            && (tools == [] ==>
                sent == NoChoice && NormalizedRequest(target, declared, items, choice, parallel).value.parallel == None)
            && KindOf(sent).Ok?
            && match KindOf(sent).value
               case AnyTool => tools != []
               case OneTool(name) => exists k ::
                 0 <= k < |tools| && tools[k].kind == "function" && tools[k].name == name
               case _ => true
  {
    hide Registered, Conversation, HasHostedHistory, Drops, DropsInItems;
    var sent := NormalizedRequest(target, declared, items, choice, parallel).value.choice;
    if KindOf(sent).value.OneTool? { RegisteredIsSent(target, declared, items, KindOf(sent).value.name); }
  }

  /** A choice of a declared namespaced function survives, and on the way back its
      name stands for that function. */
  lemma {:induction false} ChoiceFollowsItsTool(target: Target, declared: seq<RespTool>, items: seq<RespItem>,
                                                choice: ToolChoice, parallel: Option<bool>, id: ToolIdentity)
    requires choice.Chosen? && choice.kind == "function" && choice.name == Some(id.name)
             && choice.namespace == Inside(id.namespace)
    requires id in Declared(target, RequestLeaves(declared, items))
             && NormalizedRequest(target, declared, items, choice, parallel).Ok?
    ensures var sent := NormalizedRequest(target, declared, items, choice, parallel).value.choice;
            && sent.Chosen? && sent.kind == "function" && sent.namespace == Unset && sent.name.Some?
            && Identity(Restoring(Registered(target, declared, items).reg), sent.name.value) == id
  {
    hide Registered, Conversation, HasHostedHistory, Drops, DropsInItems, FunctionNames, FirstOccurrences, Declared;
    RegistrationSucceedsIff(target, declared, items);
    RegisteredIsSent(target, declared, items, Wire(target.digest, id));
  }
}
