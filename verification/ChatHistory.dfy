/** Responses history as Chat Completions messages: consecutive calls share an
    assistant message, tool replies stay together, and the images tools returned
    follow their run of replies in one user message. */
module ChatHistory {
  import opened Basics
  import opened LineFeed
  import opened Wire
  import RT = ResponseTools

  datatype Part = TextPart(text: string) | ImagePart(url: string)

  datatype Content = Plain(text: string) | Parts(parts: seq<Part>)

  datatype ToolCall = ToolCall(id: string, name: string, arguments: string)

  /** An input item after normalisation, with its content or output decoded. */
  datatype Item =
    | MessageItem(role: string, content: Result<Option<Content>, Failure>)
    | CallItem(callId: string, name: string, arguments: string)
    | OutputItem(callId: string, output: Result<(string, seq<string>), Failure>)
    | ReasoningItem
    | OtherItem(kind: string)

  datatype ChatMessage =
    | System(text: string)
    | Said(role: string, content: Content)
    | Calls(calls: seq<ToolCall>)  // an assistant message without content
    | ToolReply(callId: string, text: string)

  // ---- single items ----

  function JoinTextParts(parts: seq<Part>): Option<string> {
    if parts == [] then Some("")
    else
      match (JoinTextParts(parts[..|parts| - 1]), parts[|parts| - 1])
      case (Some(before), TextPart(t)) => Some(before + t)
      case _ => None
  }

  function SystemMessage(text: string): seq<ChatMessage> {
    if text == "" then [] else [System(text)]
  }

  const SYSTEM_IMAGE := Failure("system messages cannot carry image content")

  /** What an item other than a tool output or reasoning adds. */
  function Emission(item: Item): Result<seq<ChatMessage>, Failure> {
    match item
    case MessageItem(role, content) =>
      (match content
       case Err(f) => Err(f)
       case Ok(c) =>
         if role == "system" || role == "developer" then
           (match c
            case None => Ok([])
            case Some(Plain(text)) => Ok(SystemMessage(text))
            case Some(Parts(parts)) =>
              match JoinTextParts(parts)
              case None => Err(SYSTEM_IMAGE)
              case Some(text) => Ok(SystemMessage(text)))
         else if role == "user" || role == "assistant" then Ok(match c case None => [] case Some(c) => [Said(role, c)])
         else Err(Failure("unsupported role")))
    case CallItem(callId, name, arguments) => Ok([Calls([ToolCall(callId, name, DefaultArgs(arguments))])])
    case OtherItem(_) => Err(Failure("unsupported input item type"))
    case _ => Ok([])
  }

  /** A label and the images of one tool output. */
  function ImageParts(callId: string, urls: seq<string>): seq<Part> {
    if urls == [] then []
    else [TextPart("Images returned by tool call " + callId + ":")] + Images(urls)
  }

  function Images(urls: seq<string>): (r: seq<Part>)
    ensures |r| == |urls| && forall k | 0 <= k < |r| :: r[k] == ImagePart(urls[k])
  {
    seq(|urls|, k requires 0 <= k < |urls| => ImagePart(urls[k]))
  }

  predicate InRun(item: Item) {
    item.OutputItem? || item.ReasoningItem?
  }

  // ---- the reference: run by run ----

  function RunLength(items: seq<Item>): (n: nat)
    ensures n <= |items| && (forall k | 0 <= k < n :: InRun(items[k])) && (n < |items| ==> !InRun(items[n]))
  {
    if items == [] || !InRun(items[0]) then 0 else 1 + RunLength(items[1..])
  }

  /** The replies of a run and all its images, both in order. */
  function RunOf(items: seq<Item>): Result<(seq<ChatMessage>, seq<Part>), Failure> {
    if items == [] then Ok(([], []))
    else
      match items[0]
      case OutputItem(callId, output) =>
        (match output
         case Err(f) => Err(f)
         case Ok((text, urls)) =>
           match RunOf(items[1..])
           case Err(f) => Err(f)
           case Ok((replies, parts)) => Ok(([ToolReply(callId, text)] + replies, ImageParts(callId, urls) + parts)))
      case _ => RunOf(items[1..])
  }

  /** One user message with all the images, or none. */
  function ImageMessage(parts: seq<Part>): seq<ChatMessage> {
    if parts == [] then [] else [Said("user", Parts(parts))]
  }

  function Then(first: seq<ChatMessage>, rest: Result<seq<ChatMessage>, Failure>): Result<seq<ChatMessage>, Failure> {
    match rest
    case Err(f) => Err(f)
    case Ok(ms) => Ok(first + ms)
  }

  /** Each maximal run: its replies, then its images in one user message.  Every
      other item on its own. */
  function ByRuns(items: seq<Item>): Result<seq<ChatMessage>, Failure>
    decreases |items|
  {
    if items == [] then Ok([])
    else
      var n := RunLength(items);
      if n > 0 then
        match RunOf(items[..n])
        case Err(f) => Err(f)
        case Ok((replies, parts)) => Then(replies + ImageMessage(parts), ByRuns(items[n..]))
      else
        match Emission(items[0])
        case Err(f) => Err(f)
        case Ok(ms) => Then(ms, ByRuns(items[1..]))
  }

  /** Adjacent call messages become one. */
  function MergeOnto(out: seq<ChatMessage>, m: ChatMessage): seq<ChatMessage> {
    var n := |out| - 1;
    if m.Calls? && out != [] && out[n].Calls? then out[n := Calls(out[n].calls + m.calls)] else out + [m]
  }

  function MergeAll(out: seq<ChatMessage>, ms: seq<ChatMessage>): seq<ChatMessage>
    decreases |ms|
  {
    if ms == [] then out else MergeAll(MergeOnto(out, ms[0]), ms[1..])
  }

  function Merged(out: seq<ChatMessage>, ms: Result<seq<ChatMessage>, Failure>): Result<seq<ChatMessage>, Failure> {
    match ms
    case Err(f) => Err(f)
    case Ok(ms) => Ok(MergeAll(out, ms))
  }

  // ---- the loop ----

  /** What is left to emit when some images are already waiting. */
  function Rest(pending: seq<Part>, items: seq<Item>): Result<seq<ChatMessage>, Failure> {
    var n := RunLength(items);
    match RunOf(items[..n])
    case Err(f) => Err(f)
    case Ok((replies, parts)) => Then(replies + ImageMessage(pending + parts), ByRuns(items[n..]))
  }

  lemma {:induction false} MergeAllAppend(out: seq<ChatMessage>, a: seq<ChatMessage>, b: seq<ChatMessage>)
    ensures MergeAll(out, a + b) == MergeAll(MergeAll(out, a), b)
    decreases |a|
  {
    if a == [] {
      assert a + b == b;
    } else {
      assert (a + b)[1..] == a[1..] + b;
      MergeAllAppend(MergeOnto(out, a[0]), a[1..], b);
    }
  }

  lemma MergeAllOne(out: seq<ChatMessage>, m: ChatMessage)
    ensures MergeAll(out, [m]) == MergeOnto(out, m)
  {
    assert [m][1..] == [];
  }

  /** Nothing waiting: the rest is the items run by run. */
  lemma RestIsByRuns(items: seq<Item>)
    ensures Rest([], items) == ByRuns(items)
  {
    var n := RunLength(items);
    if n > 0 {
      match RunOf(items[..n])
      case Err(_) =>
      case Ok((replies, parts)) => assert [] + parts == parts;
    } else {
      assert items[..n] == [] && items[n..] == items;
      assert [] + ImageMessage([] + []) == [];
      match ByRuns(items)
      case Err(_) =>
      case Ok(ms) => assert [] + ms == ms;
    }
  }

  /** A tool output emits its reply and leaves its images waiting. */
  lemma RestOfOutput(pending: seq<Part>, items: seq<Item>)
    requires items != [] && InRun(items[0])
    ensures match items[0]
            case OutputItem(callId, output) =>
              (match output
               case Err(f) => Rest(pending, items) == Err(f)
               case Ok((text, urls)) =>
                 Rest(pending, items) ==
                   Then([ToolReply(callId, text)], Rest(pending + ImageParts(callId, urls), items[1..])))
            case _ => Rest(pending, items) == Rest(pending, items[1..])
  {
    hide ByRuns;
    var n := RunLength(items[1..]);
    assert items[..n + 1][1..] == items[1..][..n] && items[n + 1..] == items[1..][n..];
    if items[0].OutputItem? && items[0].output.Ok? && RunOf(items[1..][..n]).Ok? {
      var (text, urls) := items[0].output.value;
      var (replies, parts) := RunOf(items[1..][..n]).value;
      var own := ImageParts(items[0].callId, urls);
      assert pending + (own + parts) == pending + own + parts;
      var reply := [ToolReply(items[0].callId, text)];
      var image := ImageMessage(pending + own + parts);
      match ByRuns(items[n + 1..])
      case Err(_) =>
      case Ok(ms) => assert reply + replies + image + ms == reply + (replies + image + ms);
    }
  }

  /** Any other item first releases the waiting images. */
  lemma RestOfOther(pending: seq<Part>, items: seq<Item>)
    requires items != [] && !InRun(items[0])
    ensures Rest(pending, items) ==
            match Emission(items[0])
            case Err(f) => Err(f)
            case Ok(ms) => Then(ImageMessage(pending) + ms, Rest([], items[1..]))
  {
    assert items[..0] == [] && items[0..] == items && pending + [] == pending;
    RestIsByRuns(items[1..]);
    assert [] + ImageMessage(pending) == ImageMessage(pending);
    match Emission(items[0])
    case Err(_) =>
    case Ok(ms) =>
      match ByRuns(items[1..])
      case Err(_) =>
      case Ok(more) => assert ImageMessage(pending) + (ms + more) == ImageMessage(pending) + ms + more;
  }

  lemma MergedThen(out: seq<ChatMessage>, first: seq<ChatMessage>, rest: Result<seq<ChatMessage>, Failure>)
    ensures Merged(out, Then(first, rest)) == Merged(MergeAll(out, first), rest)
  {
    match rest
    case Err(_) =>
    case Ok(ms) => MergeAllAppend(out, first, ms);
  }

  method FlushToolImages(out: seq<ChatMessage>, pending: seq<Part>) returns (r: seq<ChatMessage>)
    ensures r == MergeAll(out, ImageMessage(pending))
  {
    if |pending| == 0 { return out; }
    MergeAllOne(out, Said("user", Parts(pending)));
    r := out + [Said("user", Parts(pending))];
  }

  /** The item loop.  Its output is the items run by run, with adjacent calls
      merged, or the failure of the first item that has one. */
  method Convert(instructions: string, items: seq<Item>) returns (r: Result<seq<ChatMessage>, Failure>)
    ensures r == Merged(SystemMessage(instructions), ByRuns(items))
  {
    hide ByRuns, RunOf, Emission, MergeAll, ImageMessage, Rest;
    var out := SystemMessage(instructions);
    var toolImages: seq<Part> := [];
    var i := 0;
    RestIsByRuns(items);
    assert items[0..] == items;
    while i < |items|
      invariant 0 <= i <= |items|
      invariant Merged(out, Rest(toolImages, items[i..])) == Merged(SystemMessage(instructions), ByRuns(items))
    {
      var item := items[i];
      assert items[i..][0] == item && items[i..][1..] == items[i + 1..];
      if InRun(item) {
        RestOfOutput(toolImages, items[i..]);
        if item.OutputItem? {
          if item.output.Err? { return Err(item.output.error); }
          var (text, urls) := item.output.value;
          MergedThen(out, [ToolReply(item.callId, text)],
                     Rest(toolImages + ImageParts(item.callId, urls), items[i + 1..]));
          MergeAllOne(out, ToolReply(item.callId, text));
          out := out + [ToolReply(item.callId, text)];
          toolImages := toolImages + ImageParts(item.callId, urls);
        }
      } else {
        RestOfOther(toolImages, items[i..]);
        ghost var before, pending := out, toolImages;
        out := FlushToolImages(out, toolImages);
        toolImages := [];
        var emitted := Emission(item);
        if emitted.Err? { return Err(emitted.error); }
        MergedThen(before, ImageMessage(pending) + emitted.value, Rest([], items[i + 1..]));
        MergeAllAppend(before, ImageMessage(pending), emitted.value);
        out := Emit(out, item, emitted.value);
      }
      i := i + 1;
    }
    assert items[|items|..] == [];
    NothingLeft(toolImages);
    out := FlushToolImages(out, toolImages);
    r := Ok(out);
  }

  lemma NothingLeft(pending: seq<Part>)
    ensures Rest(pending, []) == Ok(ImageMessage(pending))
  {
    assert pending + [] == pending;
    assert [] + ImageMessage(pending) + [] == ImageMessage(pending);
  }

  /** Appends what one item emits; a call joins the call message before it. */
  method Emit(out: seq<ChatMessage>, item: Item, emitted: seq<ChatMessage>) returns (r: seq<ChatMessage>)
    requires Emission(item) == Ok(emitted)
    ensures r == MergeAll(out, emitted)
  {
    if emitted == [] { return out; }
    assert emitted == [emitted[0]];
    MergeAllOne(out, emitted[0]);
    if item.CallItem? && |out| > 0 && out[|out| - 1].Calls? {
      var tc := ToolCall(item.callId, item.name, DefaultArgs(item.arguments));
      return out[|out| - 1 := Calls(out[|out| - 1].calls + [tc])];
    }
    r := out + emitted;
  }

  // ---- nothing is lost ----

  function CallsIn(m: ChatMessage): seq<ToolCall> {
    match m case Calls(calls) => calls case _ => []
  }

  function AllCalls(ms: seq<ChatMessage>): seq<ToolCall> {
    if ms == [] then [] else AllCalls(ms[..|ms| - 1]) + CallsIn(ms[|ms| - 1])
  }

  function ItemCalls(items: seq<Item>): seq<ToolCall> {
    if items == [] then []
    else
      (match items[0] case CallItem(id, name, args) => [ToolCall(id, name, DefaultArgs(args))] case _ => []) +
        ItemCalls(items[1..])
  }

  lemma Regroup<T>(a: seq<T>, b: seq<T>, c: seq<T>)
    ensures a + b + c == a + (b + c)
  {
  }

  lemma {:induction false} AllCallsAppend(a: seq<ChatMessage>, b: seq<ChatMessage>)
    ensures AllCalls(a + b) == AllCalls(a) + AllCalls(b)
    decreases |b|
  {
    hide CallsIn;
    if b == [] {
      assert a + b == a;
      assert AllCalls(a) + [] == AllCalls(a);
    } else {
      var n := |b| - 1;
      assert (a + b)[..|a| + n] == a + b[..n] && (a + b)[|a| + n] == b[n];
      AllCallsAppend(a, b[..n]);
      Regroup(AllCalls(a), AllCalls(b[..n]), CallsIn(b[n]));
    }
  }

  lemma CallsOfOne(m: ChatMessage)
    ensures AllCalls([m]) == CallsIn(m)
  {
    assert [m][..0] == [];
  }

  lemma MergingOneKeepsCalls(out: seq<ChatMessage>, m: ChatMessage)
    ensures AllCalls(MergeOnto(out, m)) == AllCalls(out) + AllCalls([m])
  {
    var n := |out| - 1;
    CallsOfOne(m);
    if m.Calls? && out != [] && out[n].Calls? {
      assert out[n := Calls(out[n].calls + m.calls)][..n] == out[..n];
      Regroup(AllCalls(out[..n]), out[n].calls, m.calls);
    } else {
      AllCallsAppend(out, [m]);
    }
  }

  lemma {:induction false} MergingKeepsCalls(out: seq<ChatMessage>, ms: seq<ChatMessage>)
    ensures AllCalls(MergeAll(out, ms)) == AllCalls(out) + AllCalls(ms)
    decreases |ms|
  {
    if ms == [] {
      assert AllCalls(out) + [] == AllCalls(out);
    } else {
      hide AllCalls, MergeOnto;
      assert MergeAll(out, ms) == MergeAll(MergeOnto(out, ms[0]), ms[1..]);
      MergingOneKeepsCalls(out, ms[0]);
      MergingKeepsCalls(MergeOnto(out, ms[0]), ms[1..]);
      AllCallsAppend([ms[0]], ms[1..]);
      assert [ms[0]] + ms[1..] == ms;
      hide MergeAll;
      Regroup(AllCalls(out), AllCalls([ms[0]]), AllCalls(ms[1..]));
    }
  }

  lemma {:induction false} RunHasNoCalls(items: seq<Item>)
    requires forall k | 0 <= k < |items| :: InRun(items[k])
    ensures ItemCalls(items) == []
    ensures RunOf(items).Ok? ==> AllCalls(RunOf(items).value.0) == []
    decreases |items|
  {
    if items != [] {
      RunHasNoCalls(items[1..]);
      if items[0].OutputItem? && items[0].output.Ok? && RunOf(items[1..]).Ok? {
        AllCallsAppend([ToolReply(items[0].callId, items[0].output.value.0)], RunOf(items[1..]).value.0);
        CallsOfOne(ToolReply(items[0].callId, items[0].output.value.0));
      }
    }
  }

  lemma {:induction false} ItemCallsAppend(a: seq<Item>, b: seq<Item>)
    ensures ItemCalls(a + b) == ItemCalls(a) + ItemCalls(b)
    decreases |a|
  {
    if a == [] {
      assert a + b == b;
    } else {
      assert (a + b)[1..] == a[1..] + b;
      ItemCallsAppend(a[1..], b);
    }
  }

  /** Every call of the history reaches the upstream, once and in order. */
  lemma {:induction false} CallsAreKept(items: seq<Item>)
    ensures ByRuns(items).Ok? ==> AllCalls(ByRuns(items).value) == ItemCalls(items)
    decreases |items|
  {
    if items != [] && ByRuns(items).Ok? {
      var n := RunLength(items);
      if n > 0 {
        CallsAreKept(items[n..]);
        RunCalls(items, n);
      } else {
        CallsAreKept(items[1..]);
        EmissionCalls(items[0]);
        AllCallsAppend(Emission(items[0]).value, ByRuns(items[1..]).value);
      }
    }
  }

  lemma {:induction false} RunCalls(items: seq<Item>, n: nat)
    requires n <= |items| && RunOf(items[..n]).Ok? && forall k | 0 <= k < n :: InRun(items[k])
    ensures var (replies, parts) := RunOf(items[..n]).value;
            forall rest: seq<ChatMessage> :: AllCalls(replies + ImageMessage(parts) + rest) == AllCalls(rest)
    ensures ItemCalls(items) == ItemCalls(items[n..])
  {
    hide AllCalls, ItemCalls, RunOf;
    var (replies, parts) := RunOf(items[..n]).value;
    RunHasNoCalls(items[..n]);
    ItemCallsAppend(items[..n], items[n..]);
    assert items[..n] + items[n..] == items;
    assert [] + ItemCalls(items[n..]) == ItemCalls(items[n..]);
    AllCallsAppend(replies, ImageMessage(parts));
    if parts != [] { CallsOfOne(Said("user", Parts(parts))); } else { assert replies + [] == replies; }
    forall rest: seq<ChatMessage> ensures AllCalls(replies + ImageMessage(parts) + rest) == AllCalls(rest) {
      AllCallsAppend(replies + ImageMessage(parts), rest);
    }
  }

  lemma EmissionCalls(item: Item)
    requires Emission(item).Ok? && !InRun(item)
    ensures AllCalls(Emission(item).value) ==
            match item case CallItem(id, name, args) => [ToolCall(id, name, DefaultArgs(args))] case _ => []
  {
    hide DefaultArgs;
    var ms := Emission(item).value;
    if ms != [] {
      CallsOfOne(ms[0]);
      assert ms == [ms[0]];
    }
  }

  // ---- the native route rewrites the same history ----

  /** One history item as the native Responses route rewrites it; None drops it. */
  function NativeItem(digest: string -> string, item: RT.RespItem): Option<RT.RespItem> {
    match item.kind
    case "additional_tools" => None
    case "reasoning" => None
    case "compaction" => None
    case "custom_tool_call_output" => Some(item.(kind := "function_call_output"))
    case "custom_tool_call" =>
      var wrapped := RT.WrapInput(match item.input case Some(s) => s case None => "");
      Some(item.(kind := "function_call", input := None, arguments := DefaultArgs(wrapped),
                 name := RT.Qualified(digest, item.name, item.namespace), namespace := ""))
    case "function_call" =>
      Some(item.(arguments := DefaultArgs(item.arguments), name := RT.Qualified(digest, item.name, item.namespace),
                 namespace := ""))
    case _ => Some(item)
  }

  /** What the native route leaves out and what it changes. */
  lemma NativeItemSays(digest: string -> string, item: RT.RespItem)
    ensures var sent := NativeItem(digest, item);
            && (sent.None? <==> item.kind in {"additional_tools", "reasoning", "compaction"})
            && (item.kind == "custom_tool_call_output" ==> sent == Some(item.(kind := "function_call_output")))
            && (item.kind !in {"function_call", "custom_tool_call", "custom_tool_call_output"} && sent.Some? ==>
                  sent == Some(item))
            && (item.kind in {"function_call", "custom_tool_call"} ==>
                  var custom := item.kind == "custom_tool_call";
                  var args := if !custom then item.arguments
                              else RT.WrapInput(if item.input.Some? then item.input.value else "");
                  && sent.Some? && sent.value.kind == "function_call" && sent.value.callId == item.callId
                  && sent.value.name == RT.Wire(digest, RT.ToolIdentity(item.name, item.namespace, custom))
                  && sent.value.namespace == ""
                  && sent.value.arguments == (if TrimSpace(args) in {"", "null"} then "{}" else args)
                  && sent.value == item.(kind := "function_call", name := sent.value.name, namespace := "",
                                         arguments := sent.value.arguments, input := sent.value.input)
                  && sent.value.input == (if custom then None else item.input))
  {
    hide TrimSpace, RT.WrapInput;
  }

  function NativeCalls(digest: string -> string, items: seq<RT.RespItem>): seq<ToolCall> {
    if items == [] then []
    else
      (match NativeItem(digest, items[0])
       case Some(item) =>
         (if item.kind == "function_call" then [ToolCall(item.callId, item.name, item.arguments)] else [])
       case None => []) + NativeCalls(digest, items[1..])
  }

  /** How the chat route decodes the items it normalised: any decoding, as long as
      calls stay the calls they are. */
  ghost predicate Decodes(items: seq<RT.RespItem>, decoded: seq<Item>) {
    |items| == |decoded| && forall k | 0 <= k < |items| ::
      if items[k].kind == "function_call"
      then decoded[k] == CallItem(items[k].callId, items[k].name, items[k].arguments)
      else !decoded[k].CallItem?
  }

  lemma {:induction false} DecodedCalls(digest: string -> string, items: seq<RT.RespItem>, decoded: seq<Item>)
    requires Decodes(RT.NormalizeItems(digest, items), decoded)
    ensures ItemCalls(decoded) == NativeCalls(digest, items)
    decreases |items|
  {
    hide DefaultArgs, RT.Qualified, RT.WrapInput;
    if items != [] {
      var normal := RT.NormalizeItems(digest, items);
      assert normal[0] == RT.NormalizeItem(digest, items[0]);
      assert normal[1..] == RT.NormalizeItems(digest, items[1..]);
      DecodedCalls(digest, items[1..], decoded[1..]);
    }
  }

  lemma {:induction false} NativeCallsAppend(digest: string -> string, a: seq<RT.RespItem>, b: seq<RT.RespItem>)
    ensures NativeCalls(digest, a + b) == NativeCalls(digest, a) + NativeCalls(digest, b)
    decreases |a|
  {
    hide NativeItem;
    if a == [] {
      assert a + b == b;
    } else {
      assert (a + b)[1..] == a[1..] + b;
      NativeCallsAppend(digest, a[1..], b);
    }
  }

  /** Declarations of tools among the items are no calls. */
  lemma {:induction false} DeclarationsAreNoCalls(digest: string -> string, items: seq<RT.RespItem>)
    ensures NativeCalls(digest, RT.Conversation(items)) == NativeCalls(digest, items)
    decreases |items|
  {
    hide NativeItem;
    if items != [] {
      var init, last := items[..|items| - 1], items[|items| - 1];
      DeclarationsAreNoCalls(digest, init);
      NativeCallsAppend(digest, init, [last]);
      NativeCallsAppend(digest, RT.Conversation(init), [last]);
      assert init + [last] == items;
      DeclarationIsNoCall(digest, last);
      hide NativeCalls;
      if last.kind == "additional_tools" {
        assert RT.Conversation(items) == RT.Conversation(init) + [] == RT.Conversation(init);
        assert NativeCalls(digest, init) + [] == NativeCalls(digest, init);
      } else {
        assert RT.Conversation(items) == RT.Conversation(init) + [last];
      }
    }
  }

  lemma DeclarationIsNoCall(digest: string -> string, item: RT.RespItem)
    ensures item.kind == "additional_tools" ==> NativeCalls(digest, [item]) == []
  {
    assert [item][1..] == [];
  }

  /** Both routes tell the upstream the same calls, in the same order, with the
      same names and the same defaulted arguments. */
  lemma HistoriesAgree(digest: string -> string, items: seq<RT.RespItem>, decoded: seq<Item>, instructions: string)
    requires Decodes(RT.NormalizeItems(digest, RT.Conversation(items)), decoded) && ByRuns(decoded).Ok?
    ensures var chat := Merged(SystemMessage(instructions), ByRuns(decoded));
            chat.Ok? && AllCalls(chat.value) == NativeCalls(digest, items)
  {
    hide MergeAll, ByRuns, Decodes, RT.Conversation;
    DecodedCalls(digest, RT.Conversation(items), decoded);
    DeclarationsAreNoCalls(digest, items);
    CallsAreKept(decoded);
    MergingKeepsCalls(SystemMessage(instructions), ByRuns(decoded).value);
    if instructions != "" { CallsOfOne(System(instructions)); }
    assert [] + AllCalls(ByRuns(decoded).value) == AllCalls(ByRuns(decoded).value);
  }
}
