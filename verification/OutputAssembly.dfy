/** The assembler that builds the final output array: one message item for all
    text, and the calls in arrival order. */
module OutputAssembly {
  import opened Basics
  import opened ResponseTools
  import opened Wire
  import opened ResponsesTurn

  class OutputAssembler {
    const names: ToolNames
    const messageId: string
    /** Rendered items; None is the slot reserved for the message. */
    var items: seq<Option<OutItem>>
    var textSlot: int
    var text: string

    ghost predicate Valid()
      reads this
    {
      && -1 <= textSlot < |items|
      && forall k | 0 <= k < |items| :: items[k].None? <==> k == textSlot
    }

    constructor (messageId: string, names: ToolNames)
      ensures Valid() && items == [] && textSlot == -1 && text == ""
      ensures this.names == names && this.messageId == messageId
    {
      this.names, this.messageId := names, messageId;
      items, textSlot, text := [], -1, "";
    }

    method ReserveTextSlot()
      requires Valid()
      modifies this`items, this`textSlot
      ensures Valid()
      ensures old(textSlot) >= 0 ==> items == old(items) && textSlot == old(textSlot)
      ensures old(textSlot) < 0 ==> items == old(items) + [None] && textSlot == |old(items)|
    {
      if textSlot >= 0 { return; }
      textSlot := |items|;
      items := items + [None];
    }

    method AddText(fragment: string)
      requires Valid()
      modifies this`text
      ensures Valid() && text == old(text) + fragment
    {
      text := text + fragment;
    }

    method AppendFunctionCall(callId: string, name: string, args: string)
      requires Valid()
      modifies this`items
      ensures Valid() && items == old(items) + [Some(Call(RenderedCall(names, callId, name, args)))]
    {
      var id := Identity(names, name);
      if id.custom {
        var input := names.unwrap(args);
        items := items +
          [Some(Call(RespItem("custom_tool_call", callId, id.name, id.namespace, "", Some(input), None, "")))];
        return;
      }
      items := items + [Some(Call(RespItem("function_call", callId, id.name, id.namespace, args, None, None, "")))];
    }

    /** The output array.  A site that never reserved leads with the message,
        and only when there is text. */
    method Render() returns (output: seq<OutItem>)
      requires Valid()
      ensures textSlot >= 0 ==>
                |output| == |items| && output[textSlot] == Message(messageId, [text])
                && forall k | 0 <= k < |items| && k != textSlot :: Some(output[k]) == items[k]
      ensures textSlot < 0 ==>
                var lead := if text != "" then [Message(messageId, [text])] else [];
                |output| == |lead| + |items| && lead <= output
                && forall k | 0 <= k < |items| :: Some(output[|lead| + k]) == items[k]
    {
      var msg := Message(messageId, [text]);
      output := [];
      if text != "" && textSlot < 0 {
        output := [msg];
      }
      ghost var lead := output;
      for i := 0 to |items|
        invariant |output| == |lead| + i && lead <= output
        invariant forall k | 0 <= k < i :: output[|lead| + k] == if k == textSlot then msg else items[k].value
      {
        output := output + [if i == textSlot then msg else items[i].value];
      }
      assert textSlot >= 0 ==> items[textSlot].None? && output[|lead| + textSlot] == msg;
    }
  }
}
