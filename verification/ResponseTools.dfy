/** Request-local tool identities: how namespaced and custom tools are flattened
    to the one function namespace sent upstream, and restored on the way back.

    The digest that shortens over-long names is an arbitrary function: nothing
    below rests on its strength. */
module ResponseTools {
  import opened Basics

  datatype ToolIdentity = ToolIdentity(name: string, namespace: string, custom: bool)

  type NameTable = map<string, ToolIdentity>

  /** What response conversion needs: the table, and the decoder of wrapped
      custom input (Json.UnwrapCustomToolInput outside proofs). */
  datatype ToolNames = ToolNames(table: NameTable, unwrap: string -> string)

  /** A tool declaration; `tools` is absent unless the declaration carries an array. */
  datatype RespTool = RespTool(kind: string, name: string, description: string, parameters: string,
                               tools: Option<seq<RespTool>>)

  /** A conversation item, with the fields the tool translation reads; `rest`
      stands for the content it carries through untouched. */
  datatype RespItem = RespItem(kind: string, callId: string, name: string, namespace: string,
                               arguments: string, input: Option<string>, tools: Option<seq<RespTool>>, rest: string)

  datatype ToolError =
    | NamespaceMalformed
    | UnsupportedToolType(kind: string)
    | MissingName
    | NamesCollide
    | AdditionalToolsMalformed
    | HostedHistory
    | ChoiceMalformed
    | ChoiceHosted(kind: string)
    | ChoiceWithoutTools
    | ChoiceUnavailable

  /** native: the upstream speaks Responses itself; strip: hosted tools are dropped. */
  datatype Target = Target(native: bool, stripHosted: bool, digest: string -> string) {
    predicate Strip() { stripHosted && !native }
  }

  const CUSTOM_PARAMETERS :=
    "{\"type\":\"object\",\"properties\":{\"input\":{\"type\":\"string\"," +
    "\"description\":\"Raw freeform input for this tool.\"}},\"required\":[\"input\"]}"

  predicate IsOptionalHosted(kind: string) {
    kind in {"web_search", "web_search_preview", "tool_search", "image_generation"}
  }

  function Qualified(digest: string -> string, name: string, namespace: string): string {
    if namespace == "" then name
    else
      var q := namespace + "__" + name;
      if |q| > 64 then q[..50] + "__" + digest(q) else q
  }

  function Wire(digest: string -> string, id: ToolIdentity): string {
    Qualified(digest, id.name, id.namespace)
  }

  // ---- registering declarations ----

  datatype Registry = Registry(names: NameTable, tools: seq<RespTool>)

  datatype Added = Added(reg: Registry, err: Option<ToolError>)

  /** One declaration that is not a top-level namespace. */
  function AddLeaf(target: Target, reg: Registry, tool: RespTool, namespace: string): Added {
    if target.Strip() && namespace == "" && IsOptionalHosted(tool.kind) then Added(reg, None)
    else
      var custom := tool.kind == "custom";
      var t := if custom then tool.(kind := "function", parameters := CUSTOM_PARAMETERS) else tool;
      if target.native && namespace == "" && t.kind != "function" then
        Added(if t.kind == "tool_search" || t.kind == "image_generation" then reg
              else reg.(tools := reg.tools + [t]), None)
      else if t.kind != "function" then Added(reg, Some(UnsupportedToolType(t.kind)))
      else if TrimSpace(t.name) == "" then Added(reg, Some(MissingName))
      else
        var id := ToolIdentity(t.name, namespace, custom);
        var wire := Wire(target.digest, id);
        if wire in reg.names then
          Added(reg, if reg.names[wire] != id then Some(NamesCollide) else None)
        else
          Added(Registry(reg.names[wire := id], reg.tools + [t.(name := wire)]), None)
  }

  function AddLeaves(target: Target, reg: Registry, tools: seq<RespTool>, namespace: string): Added {
    if tools == [] then Added(reg, None)
    else
      var before := AddLeaves(target, reg, tools[..|tools| - 1], namespace);
      if before.err.Some? then before else AddLeaf(target, before.reg, tools[|tools| - 1], namespace)
  }

  function AddTool(target: Target, reg: Registry, tool: RespTool): Added {
    if tool.kind == "namespace" then
      if TrimSpace(tool.name) == "" || tool.tools.None? then Added(reg, Some(NamespaceMalformed))
      else AddLeaves(target, reg, tool.tools.value, tool.name)
    else AddLeaf(target, reg, tool, "")
  }

  function AddTools(target: Target, reg: Registry, tools: seq<RespTool>): Added {
    if tools == [] then Added(reg, None)
    else
      var before := AddTools(target, reg, tools[..|tools| - 1]);
      if before.err.Some? then before else AddTool(target, before.reg, tools[|tools| - 1])
  }

  /** Declaration items of the conversation, in order. */
  function AddItems(target: Target, reg: Registry, items: seq<RespItem>): Added {
    if items == [] then Added(reg, None)
    else
      var before := AddItems(target, reg, items[..|items| - 1]);
      var item := items[|items| - 1];
      if before.err.Some? || item.kind != "additional_tools" then before
      else if item.tools.None? then Added(before.reg, Some(AdditionalToolsMalformed))
      else AddTools(target, before.reg, item.tools.value)
  }

  function Conversation(items: seq<RespItem>): seq<RespItem> {
    if items == [] then []
    else
      var item := items[|items| - 1];
      Conversation(items[..|items| - 1]) + if item.kind == "additional_tools" then [] else [item]
  }

  /** json.Marshal of {"input": v}. */
  function WrapInput(input: string): string {
    "{\"input\":\"" + EscapeAll(input) + "\"}"
  }

  function HexChar(d: nat): char
    requires d < 16
  {
    "0123456789abcdef"[d]
  }

  /** encoding/json with HTML escaping, its default. */
  function EscapeChar(c: char): (e: string)
    ensures e != ""
  {
    if c == '"' then "\\\""
    else if c == '\\' then "\\\\"
    else if c as int == 0x08 then "\\b"
    else if c as int == 0x0C then "\\f"
    else if c == '\n' then "\\n"
    else if c == '\r' then "\\r"
    else if c == '\t' then "\\t"
    else if (c as int) < 0x20 || c in "<>&" then "\\u00" + [HexChar(c as int / 16), HexChar(c as int % 16)]
    else if c as int == 0x2028 then "\\u2028"
    else if c as int == 0x2029 then "\\u2029"
    else [c]
  }

  function EscapeWith(escape: char -> string, s: string): string {
    if s == "" then "" else escape(s[0]) + EscapeWith(escape, s[1..])
  }

  function EscapeAll(s: string): string {
    EscapeWith(EscapeChar, s)
  }

  function NormalizeItem(digest: string -> string, item: RespItem): RespItem {
    match item.kind
    case "custom_tool_call" =>
      item.(kind := "function_call",
            arguments := WrapInput(match item.input case Some(s) => s case None => ""),
            input := None, name := Qualified(digest, item.name, item.namespace), namespace := "")
    case "function_call" =>
      item.(name := Qualified(digest, item.name, item.namespace), namespace := "")
    case "custom_tool_call_output" => item.(kind := "function_call_output")
    case _ => item
  }

  function NormalizeItems(digest: string -> string, items: seq<RespItem>): (r: seq<RespItem>)
    ensures |r| == |items|
    ensures forall k | 0 <= k < |items| :: r[k] == NormalizeItem(digest, items[k])
  {
    seq(|items|, k requires 0 <= k < |items| => NormalizeItem(digest, items[k]))
  }

  predicate HasHostedHistory(items: seq<RespItem>) {
    exists k | 0 <= k < |items| :: items[k].kind == "web_search_call"
  }

  function Registered(target: Target, tools: seq<RespTool>, items: seq<RespItem>): Added {
    var top := AddTools(target, Registry(map[], []), tools);
    if top.err.Some? then top else AddItems(target, top.reg, items)
  }

  // ---- the tool choice ----

  datatype Namespace = Unset | Inside(text: string) | NotText

  /** A decoded tool_choice: nothing or null, a word, an object - of which typed
      says that its members have the types they should, and inner is the name in
      its function member - or anything else. */
  datatype ToolChoice =
    | NoChoice
    | Word(text: string)
    | Chosen(kind: string, name: Option<string>, namespace: Namespace, inner: string, typed: bool)
    | Garbage

  datatype ChoiceKind = Absent | Auto | AnyTool | NoTool | OneTool(name: string)

  /** What a choice asks for; a choice is never silently dropped. */
  function KindOf(choice: ToolChoice): Result<ChoiceKind, ToolError> {
    match choice
    case NoChoice => Ok(Absent)
    case Garbage => Err(ChoiceMalformed)
    case Word(text) =>
      if text == "auto" then Ok(Auto) else if text == "any" || text == "required" then Ok(AnyTool)
      else if text == "none" then Ok(NoTool) else Err(ChoiceMalformed)
    case Chosen(kind, name, _, inner, typed) =>
      if !typed then Err(ChoiceMalformed)
      else
        var chosen := if inner != "" then inner else match name case Some(n) => n case None => "";
        match kind
        case "auto" => Ok(Auto)
        case "any" => Ok(AnyTool)
        case "required" => Ok(AnyTool)
        case "none" => Ok(NoTool)
        case "tool" => if chosen == "" then Err(ChoiceMalformed) else Ok(OneTool(chosen))
        case "function" => if chosen == "" then Err(ChoiceMalformed) else Ok(OneTool(chosen))
        case _ => Err(ChoiceMalformed)
  }

  /** A namespaced function choice takes the wire name of its tool. */
  function QualifiedChoice(target: Target, choice: ToolChoice): Result<ToolChoice, ToolError> {
    if !choice.Chosen? then Ok(choice)
    else if target.Strip() && IsOptionalHosted(choice.kind) then Err(ChoiceHosted(choice.kind))
    else if choice.kind != "function" || choice.namespace == Unset then Ok(choice)
    else if choice.namespace == NotText || choice.name in {None, Some("")} then Err(ChoiceMalformed)
    else Ok(choice.(name := Some(Qualified(target.digest, choice.name.value, choice.namespace.text)),
                    namespace := Unset))
  }

  /** When hosted tools were dropped, a choice must not ask for what is gone, and
      without any tool there is none to send. */
  function RemainingChoice(reg: Registry, dropped: bool, choice: ToolChoice): Result<ToolChoice, ToolError> {
    if !dropped then Ok(choice)
    else match KindOf(choice)
      case Err(e) => Err(e)
      case Ok(kind) =>
        if (kind.AnyTool? || kind.OneTool?) && reg.tools == [] then Err(ChoiceWithoutTools)
        else if kind.OneTool? && kind.name !in reg.names then Err(ChoiceUnavailable)
        else Ok(if reg.tools == [] then NoChoice else choice)
  }

  predicate Drops(target: Target, tools: seq<RespTool>) {
    target.Strip() && exists k | 0 <= k < |tools| :: IsOptionalHosted(tools[k].kind)
  }

  predicate DropsInItems(target: Target, items: seq<RespItem>) {
    exists k | 0 <= k < |items| ::
      items[k].kind == "additional_tools" && items[k].tools.Some? && Drops(target, items[k].tools.value)
  }

  /** A normalized request: its conversation, its tool choice and parallel_tool_calls,
      which goes with the choice when no tool is left. */
  datatype Normalized = Normalized(conversation: seq<RespItem>, choice: ToolChoice, parallel: Option<bool>)

  function NormalizedRequest(target: Target, declared: seq<RespTool>, items: seq<RespItem>, choice: ToolChoice,
                             parallel: Option<bool>): Result<Normalized, ToolError> {
    var added := Registered(target, declared, items);
    match added.err
    case Some(e) => Err(e)
    case None =>
      var conversation := Conversation(items);
      if target.Strip() && HasHostedHistory(conversation) then Err(HostedHistory)
      else match QualifiedChoice(target, choice)
        case Err(e) => Err(e)
        case Ok(qualified) =>
          var dropped := Drops(target, declared) || DropsInItems(target, items);
          match RemainingChoice(added.reg, dropped, qualified)
          case Err(e) => Err(e)
          case Ok(remaining) =>
            Ok(Normalized(NormalizeItems(target.digest, conversation), remaining,
                          if dropped && added.reg.tools == [] then None else parallel))
  }

  function Identity(names: ToolNames, name: string): ToolIdentity {
    if name in names.table then names.table[name] else ToolIdentity(name, "", false)
  }

  /** Rewrites a function_call item to the shape the client declared. */
  function RestoreCall(names: ToolNames, item: RespItem): RespItem {
    if item.kind != "function_call" then item
    else
      var id := Identity(names, item.name);
      var named := item.(name := id.name, namespace := if id.namespace != "" then id.namespace else item.namespace);
      if !id.custom then named
      else named.(kind := "custom_tool_call", input := Some(names.unwrap(item.arguments)), arguments := "")
  }

  // ---- the mutable context that request and response conversion share ----

  class ToolContext {
    const target: Target
    var names: NameTable
    /** The function tools of the request being normalised, and whether hosted ones
        were dropped from it. */
    var tools: seq<RespTool>
    var dropped: bool

    constructor (target: Target)
      ensures this.target == target && names == map[] && tools == [] && !dropped
    {
      this.target := target;
      names, tools, dropped := map[], [], false;
    }

    function Reg(): Registry
      reads this
    {
      Registry(names, tools)
    }

    method Leaf(tool: RespTool, namespace: string) returns (err: Option<ToolError>)
      modifies this
      ensures Added(Reg(), err) == AddLeaf(target, old(Reg()), tool, namespace)
      ensures dropped == (old(dropped) || (target.Strip() && namespace == "" && IsOptionalHosted(tool.kind)))
    {
      if target.Strip() && namespace == "" && IsOptionalHosted(tool.kind) {
        dropped := true;
        return None;
      }
      var t := tool;
      var custom := tool.kind == "custom";
      if custom {
        t := t.(kind := "function", parameters := CUSTOM_PARAMETERS);
      }
      if target.native && namespace == "" && t.kind != "function" {
        if t.kind != "tool_search" && t.kind != "image_generation" {
          tools := tools + [t];
        }
        return None;
      }
      if t.kind != "function" { return Some(UnsupportedToolType(t.kind)); }
      if TrimSpace(t.name) == "" { return Some(MissingName); }
      var id := ToolIdentity(t.name, namespace, custom);
      var wire := Qualified(target.digest, t.name, namespace);
      if wire in names {
        return if names[wire] != id then Some(NamesCollide) else None;
      }
      names := names[wire := id];
      tools := tools + [t.(name := wire)];
      return None;
    }

    method Add(tool: RespTool) returns (err: Option<ToolError>)
      modifies this
      ensures Added(Reg(), err) == AddTool(target, old(Reg()), tool)
      ensures dropped == (old(dropped) || (target.Strip() && IsOptionalHosted(tool.kind)))
    {
      hide AddLeaf, TrimSpace;
      NamelessIsBlank();
      if tool.kind != "namespace" {
        err := Leaf(tool, "");
        return;
      }
      if TrimSpace(tool.name) == "" || tool.tools.None? { return Some(NamespaceMalformed); }
      var children := tool.tools.value;
      for i := 0 to |children|
        invariant Added(Reg(), None) == AddLeaves(target, old(Reg()), children[..i], tool.name)
        invariant dropped == old(dropped)
      {
        assert children[..i + 1][..i] == children[..i];
        err := Leaf(children[i], tool.name);
        if err.Some? {
          ErrorSticks(target, old(Reg()), children, i + 1, tool.name);
          return;
        }
      }
      assert children[..|children|] == children;
      return None;
    }

    method AddList(list: seq<RespTool>) returns (err: Option<ToolError>)
      modifies this
      ensures Added(Reg(), err) == AddTools(target, old(Reg()), list)
      ensures err.None? ==> dropped == (old(dropped) || Drops(target, list))
    {
      hide AddTool, IsOptionalHosted;
      for i := 0 to |list|
        invariant Added(Reg(), None) == AddTools(target, old(Reg()), list[..i])
        invariant dropped == (old(dropped) || Drops(target, list[..i]))
      {
        assert list[..i + 1][..i] == list[..i];
        err := Add(list[i]);
        if err.Some? {
          ToolErrorSticks(target, old(Reg()), list, i + 1);
          return;
        }
      }
      assert list[..|list|] == list;
      return None;
    }

    /** All declarations, those of the tools field first; the rest of the items is the
        conversation. */
    method Register(declared: seq<RespTool>, items: seq<RespItem>)
      returns (err: Option<ToolError>, conversation: seq<RespItem>)
      modifies this
      ensures Added(Reg(), err) == Registered(target, declared, items)
      ensures err.None? ==> conversation == Conversation(items)
      ensures err.None? ==> dropped == (Drops(target, declared) || DropsInItems(target, items))
    {
      hide AddTools, Drops;
      names, tools, dropped := map[], [], false;
      conversation := [];
      err := AddList(declared);
      if err.Some? { return; }
      ghost var top := Reg();
      for i := 0 to |items|
        invariant Added(Reg(), None) == AddItems(target, top, items[..i])
        invariant conversation == Conversation(items[..i])
        invariant dropped == (Drops(target, declared) || DropsInItems(target, items[..i]))
      {
        assert items[..i + 1][..i] == items[..i];
        var item := items[i];
        DropsSnoc(target, items, i);
        if item.kind != "additional_tools" {
          conversation := conversation + [item];
          continue;
        }
        if item.tools.None? {
          ItemErrorSticks(target, top, items, i + 1);
          return Some(AdditionalToolsMalformed), [];
        }
        err := AddList(item.tools.value);
        if err.Some? {
          ItemErrorSticks(target, top, items, i + 1);
          return err, [];
        }
      }
      assert items[..|items|] == items;
      return None, conversation;
    }

    /** Normalize, from the decoded items and choice on.  On success names and tools
        hold the registered functions. */
    method Normalize(declared: seq<RespTool>, items: seq<RespItem>, choice: ToolChoice, parallel: Option<bool>)
      returns (res: Result<Normalized, ToolError>)
      modifies this
      ensures Reg() == Registered(target, declared, items).reg
      ensures res == NormalizedRequest(target, declared, items, choice, parallel)
    {
      hide Registered, QualifiedChoice, RemainingChoice, NormalizeItem, HasHostedHistory, Drops, DropsInItems,
           Conversation;
      var err, conversation := Register(declared, items);
      if err.Some? { return Err(err.value); }
      var rewritten := Rewrite(conversation);
      if rewritten.None? { return Err(HostedHistory); }
      var chosen := Choose(choice);
      if chosen.Err? { return Err(chosen.error); }
      return Ok(Normalized(rewritten.value, chosen.value, if dropped && |tools| == 0 then None else parallel));
    }

    /** The conversation's items, one by one. */
    method Rewrite(original: seq<RespItem>) returns (r: Option<seq<RespItem>>)
      ensures r == if target.Strip() && HasHostedHistory(original) then None
              else Some(NormalizeItems(target.digest, original))
    {
      var conversation := original;
      for i := 0 to |conversation|
        invariant |conversation| == |original|
        invariant forall k | 0 <= k < i :: conversation[k] == NormalizeItem(target.digest, original[k])
        invariant forall k | i <= k < |original| :: conversation[k] == original[k]
        invariant target.Strip() ==> forall k | 0 <= k < i :: original[k].kind != "web_search_call"
      {
        if target.Strip() && conversation[i].kind == "web_search_call" {
          return None;
        }
        conversation := conversation[i := NormalizeItem(target.digest, conversation[i])];
      }
      assert conversation == NormalizeItems(target.digest, original);
      return Some(conversation);
    }

    method Choose(choice: ToolChoice) returns (r: Result<ToolChoice, ToolError>)
      ensures r == match QualifiedChoice(target, choice)
                   case Err(e) => Err(e)
                   case Ok(qualified) => RemainingChoice(Reg(), dropped, qualified)
    {
      var chosen := choice;
      if choice.Chosen? {
        if target.Strip() && IsOptionalHosted(choice.kind) { return Err(ChoiceHosted(choice.kind)); }
        if choice.kind == "function" && choice.namespace != Unset {
          if choice.namespace == NotText || choice.name in {None, Some("")} { return Err(ChoiceMalformed); }
          var wire := Qualified(target.digest, choice.name.value, choice.namespace.text);
          chosen := chosen.(name := Some(wire), namespace := Unset);
        }
      }
      if !dropped { return Ok(chosen); }
      var kind := KindOf(chosen);
      if kind.Err? { return Err(kind.error); }
      if (kind.value.AnyTool? || kind.value.OneTool?) && |tools| == 0 { return Err(ChoiceWithoutTools); }
      if kind.value.OneTool? && kind.value.name !in names { return Err(ChoiceUnavailable); }
      if |tools| == 0 {
        chosen := NoChoice;
      }
      return Ok(chosen);
    }
  }

  lemma DropsSnoc(target: Target, items: seq<RespItem>, i: nat)
    requires i < |items|
    ensures DropsInItems(target, items[..i + 1]) <==>
            DropsInItems(target, items[..i]) ||
            (items[i].kind == "additional_tools" && items[i].tools.Some? && Drops(target, items[i].tools.value))
  {
    hide Drops;
    assert items[..i + 1][i] == items[i];
    assert forall k | 0 <= k < i :: items[..i + 1][k] == items[..i][k];
  }

  lemma NamelessIsBlank()
    ensures TrimSpace("") == ""
  {
  }

  lemma {:induction false} ErrorSticks(target: Target, reg: Registry, tools: seq<RespTool>, n: nat, namespace: string)
    requires n <= |tools| && AddLeaves(target, reg, tools[..n], namespace).err.Some?
    ensures AddLeaves(target, reg, tools, namespace) == AddLeaves(target, reg, tools[..n], namespace)
    decreases |tools|
  {
    if n < |tools| {
      assert tools[..|tools| - 1][..n] == tools[..n];
      ErrorSticks(target, reg, tools[..|tools| - 1], n, namespace);
    } else {
      assert tools[..n] == tools;
    }
  }

  lemma {:induction false} ToolErrorSticks(target: Target, reg: Registry, tools: seq<RespTool>, n: nat)
    requires n <= |tools| && AddTools(target, reg, tools[..n]).err.Some?
    ensures AddTools(target, reg, tools) == AddTools(target, reg, tools[..n])
    decreases |tools|
  {
    if n < |tools| {
      assert tools[..|tools| - 1][..n] == tools[..n];
      ToolErrorSticks(target, reg, tools[..|tools| - 1], n);
    } else {
      assert tools[..n] == tools;
    }
  }

  lemma {:induction false} ItemErrorSticks(target: Target, reg: Registry, items: seq<RespItem>, n: nat)
    requires n <= |items| && AddItems(target, reg, items[..n]).err.Some?
    ensures AddItems(target, reg, items) == AddItems(target, reg, items[..n])
    decreases |items|
  {
    if n < |items| {
      assert items[..|items| - 1][..n] == items[..n];
      ItemErrorSticks(target, reg, items[..|items| - 1], n);
    } else {
      assert items[..n] == items;
    }
  }
}
