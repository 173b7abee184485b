/** The conversion of a stream of partial responses into Anthropic streaming
    events, and of a whole response in one go, anthropic/anthropic.go. */
module Streaming {
  import opened Options

  /** A tool call; how its arguments are written as JSON is left open. */
  datatype StreamCall<+A> = StreamCall(id: string, name: string, args: A)

  /** A partial response, or a whole one. */
  datatype Response<+A> = Response(
    model: string, thinking: string, content: string, toolCalls: seq<StreamCall<A>>,
    done: bool, doneReason: string, promptEvalCount: nat, evalCount: nat)

  datatype Block = ThinkingBlock | TextBlock | ToolUseBlock(id: string, name: string)

  datatype Delta = ThinkingDelta(text: string) | TextDelta(text: string) | InputJsonDelta(json: string)

  datatype StreamEvent =
    | MessageStart(id: string, model: string, inputTokens: nat)
    | BlockStart(index: nat, block: Block)
    | BlockDelta(index: nat, delta: Delta)
    | BlockStop(index: nat)
    | MessageDelta(stopReason: string, inputTokens: nat, outputTokens: nat)
    | MessageStop

  /** JSON encoding of arguments, which may fail. */
  type Encoder<!A> = A -> Option<string>

  function MapStopReason(reason: string, hasToolCalls: bool): string {
    if hasToolCalls then "tool_use"
    else if reason == "stop" then "end_turn"
    else if reason == "length" then "max_tokens"
    else if reason != "" then "stop_sequence"
    else ""
  }

  // The one-shot conversion

  datatype ContentBlock<+A> = Thinking(thinking: string) | Text(text: string) | ToolUse(id: string, name: string, input: A)

  datatype MessagesResponse<+A> = MessagesResponse(
    id: string, model: string, content: seq<ContentBlock<A>>, stopReason: string, inputTokens: nat, outputTokens: nat)

  function ToolUses<A>(calls: seq<StreamCall<A>>): seq<ContentBlock<A>> {
    seq(|calls|, i requires 0 <= i < |calls| => ToolUse(calls[i].id, calls[i].name, calls[i].args))
  }

  function ToMessagesResponse<A>(id: string, r: Response<A>): MessagesResponse<A> {
    MessagesResponse(
      id, r.model,
      (if r.thinking != "" then [Thinking(r.thinking)] else [])
      + (if r.content != "" then [Text(r.content)] else [])
      + ToolUses(r.toolCalls),
      MapStopReason(r.doneReason, |r.toolCalls| > 0),
      r.promptEvalCount, r.evalCount)
  }

  // The converter, as a function of its state

  datatype Conv = Conv(
    id: string,
    model: string,
    firstWrite: bool,
    contentIndex: nat,
    estimatedInputTokens: int,
    thinkingStarted: bool,
    thinkingDone: bool,
    textStarted: bool,
    sent: set<string>)
  {
    predicate ThinkingOpen() {
      thinkingStarted && !thinkingDone
    }
  }

  function NewConv(id: string, model: string, estimatedInputTokens: int): Conv {
    Conv(id, model, true, 0, estimatedInputTokens, false, false, false, {})
  }

  function StartPart<A>(s: Conv, r: Response<A>): (Conv, seq<StreamEvent>) {
    if !s.firstWrite then (s, [])
    else
      var tokens := if r.promptEvalCount == 0 && s.estimatedInputTokens > 0 then s.estimatedInputTokens else r.promptEvalCount;
      (s.(firstWrite := false), [MessageStart(s.id, s.model, tokens)])
  }

  function CloseText(s: Conv): (Conv, seq<StreamEvent>) {
    if s.textStarted
    then (s.(contentIndex := s.contentIndex + 1, textStarted := false), [BlockStop(s.contentIndex)])
    else (s, [])
  }

  function CloseThinking(s: Conv): (Conv, seq<StreamEvent>) {
    if s.ThinkingOpen()
    then (s.(contentIndex := s.contentIndex + 1, thinkingDone := true), [BlockStop(s.contentIndex)])
    else (s, [])
  }

  function ThinkingPart(s: Conv, thinking: string): (Conv, seq<StreamEvent>) {
    if thinking == "" || s.thinkingDone then (s, [])
    else
      var (t, closing) := CloseText(s);
      (t.(thinkingStarted := true),
       closing
       + (if t.thinkingStarted then [] else [BlockStart(t.contentIndex, ThinkingBlock)])
       + [BlockDelta(t.contentIndex, ThinkingDelta(thinking))])
  }

  function TextPart(s: Conv, content: string): (Conv, seq<StreamEvent>) {
    if content == "" then (s, [])
    else
      var (t, closing) := CloseThinking(s);
      (t.(textStarted := true),
       closing
       + (if t.textStarted then [] else [BlockStart(t.contentIndex, TextBlock)])
       + [BlockDelta(t.contentIndex, TextDelta(content))])
  }

  /** One tool call: nothing if its ID has been sent; otherwise the open blocks
      are closed, and the call is emitted whole if its arguments encode. */
  function CallPart<A>(encode: Encoder<A>, s: Conv, call: StreamCall<A>): (Conv, seq<StreamEvent>) {
    if call.id in s.sent then (s, [])
    else
      var (t, closingThinking) := CloseThinking(s);
      var (u, closingText) := CloseText(t);
      var i := u.contentIndex;
      match encode(call.args)
      case None => (u, closingThinking + closingText)
      case Some(json) =>
        (u.(contentIndex := i + 1, sent := u.sent + {call.id}),
         closingThinking + closingText
         + [BlockStart(i, ToolUseBlock(call.id, call.name)), BlockDelta(i, InputJsonDelta(json)), BlockStop(i)])
  }

  function CallsPart<A>(encode: Encoder<A>, s: Conv, calls: seq<StreamCall<A>>): (Conv, seq<StreamEvent>)
    decreases |calls|
  {
    if calls == [] then (s, [])
    else
      var last := |calls| - 1;
      var (t, before) := CallsPart(encode, s, calls[..last]);
      var (u, events) := CallPart(encode, t, calls[last]);
      (u, before + events)
  }

  function DonePart<A>(s: Conv, r: Response<A>): seq<StreamEvent> {
    if !r.done then []
    else
      (if s.textStarted || s.ThinkingOpen() then [BlockStop(s.contentIndex)] else [])
      + [MessageDelta(MapStopReason(r.doneReason, s.sent != {}), r.promptEvalCount, r.evalCount), MessageStop]
  }

  function ProcessOf<A>(encode: Encoder<A>, s: Conv, r: Response<A>): (Conv, seq<StreamEvent>) {
    var (a, start) := StartPart(s, r);
    var (b, thinking) := ThinkingPart(a, r.thinking);
    var (c, text) := TextPart(b, r.content);
    var (d, calls) := CallsPart(encode, c, r.toolCalls);
    (d, start + thinking + text + calls + DonePart(d, r))
  }

  /** All events of a stream of responses. */
  function Converted<A>(encode: Encoder<A>, s: Conv, rs: seq<Response<A>>): (Conv, seq<StreamEvent>)
    decreases |rs|
  {
    if rs == [] then (s, [])
    else
      var last := |rs| - 1;
      var (t, before) := Converted(encode, s, rs[..last]);
      var (u, events) := ProcessOf(encode, t, rs[last]);
      (u, before + events)
  }

  // The converter itself

  class StreamConverter<A> {
    const id: string
    const model: string
    const encode: Encoder<A>
    const estimatedInputTokens: int
    var firstWrite: bool
    var contentIndex: nat
    var inputTokens: nat
    var outputTokens: nat
    var thinkingStarted: bool
    var thinkingDone: bool
    var textStarted: bool
    var toolCallsSent: map<string, bool>

    ghost predicate Valid()
      reads this
    {
      forall k <- toolCallsSent :: toolCallsSent[k]
    }

    ghost function State(): Conv
      reads this
    {
      Conv(id, model, firstWrite, contentIndex, estimatedInputTokens, thinkingStarted, thinkingDone, textStarted,
           toolCallsSent.Keys)
    }

    constructor (id: string, model: string, estimatedInputTokens: int, encode: Encoder<A>)
      ensures Valid() && State() == NewConv(id, model, estimatedInputTokens) && this.encode == encode
    {
      this.id, this.model, this.estimatedInputTokens, this.encode := id, model, estimatedInputTokens, encode;
      firstWrite, contentIndex, inputTokens, outputTokens := true, 0, 0, 0;
      thinkingStarted, thinkingDone, textStarted, toolCallsSent := false, false, false, map[];
    }

    method Process(r: Response<A>) returns (events: seq<StreamEvent>)
      requires Valid()
      modifies this
      ensures Valid()
      ensures State() == ProcessOf(encode, old(State()), r).0
      ensures events == ProcessOf(encode, old(State()), r).1
    {
      hide StartPart;
      hide ThinkingPart;
      hide TextPart;
      hide CallsPart;
      hide DonePart;
      var start := WriteStart(r);
      var thinking := WriteThinking(r.thinking);
      var text := WriteText(r.content);
      var calls := ProcessToolCalls(r.toolCalls);
      var done := WriteDone(r);
      events := start + thinking + text + calls + done;
    }

    method WriteStart(r: Response<A>) returns (events: seq<StreamEvent>)
      requires Valid()
      modifies this
      ensures Valid()
      ensures State() == StartPart(old(State()), r).0 && events == StartPart(old(State()), r).1
    {
      events := [];
      if firstWrite {
        firstWrite := false;
        inputTokens := r.promptEvalCount;
        if inputTokens == 0 && estimatedInputTokens > 0 {
          inputTokens := estimatedInputTokens;
        }
        events := events + [MessageStart(id, model, inputTokens)];
      }
    }

    method WriteThinking(thinking: string) returns (events: seq<StreamEvent>)
      requires Valid()
      modifies this
      ensures Valid()
      ensures State() == ThinkingPart(old(State()), thinking).0 && events == ThinkingPart(old(State()), thinking).1
    {
      events := [];
      if thinking != "" && !thinkingDone {
        if textStarted {
          events := events + [BlockStop(contentIndex)];
          contentIndex := contentIndex + 1;
          textStarted := false;
        }
        if !thinkingStarted {
          thinkingStarted := true;
          events := events + [BlockStart(contentIndex, ThinkingBlock)];
        }
        events := events + [BlockDelta(contentIndex, ThinkingDelta(thinking))];
      }
    }

    method WriteText(content: string) returns (events: seq<StreamEvent>)
      requires Valid()
      modifies this
      ensures Valid()
      ensures State() == TextPart(old(State()), content).0 && events == TextPart(old(State()), content).1
    {
      events := [];
      if content != "" {
        if thinkingStarted && !thinkingDone {
          thinkingDone := true;
          events := events + [BlockStop(contentIndex)];
          contentIndex := contentIndex + 1;
        }
        if !textStarted {
          textStarted := true;
          events := events + [BlockStart(contentIndex, TextBlock)];
        }
        events := events + [BlockDelta(contentIndex, TextDelta(content))];
      }
    }

    method WriteDone(r: Response<A>) returns (events: seq<StreamEvent>)
      requires Valid()
      modifies this
      ensures Valid()
      ensures State() == old(State()) && events == DonePart(old(State()), r)
    {
      events := [];
      if r.done {
        if textStarted {
          events := events + [BlockStop(contentIndex)];
        } else if thinkingStarted && !thinkingDone {
          events := events + [BlockStop(contentIndex)];
        }
        inputTokens := r.promptEvalCount;
        outputTokens := r.evalCount;
        assert |toolCallsSent| > 0 <==> toolCallsSent.Keys != {};
        var stopReason := MapStopReason(r.doneReason, |toolCallsSent| > 0);
        events := events + [MessageDelta(stopReason, inputTokens, outputTokens)];
        events := events + [MessageStop];
      }
    }

    /** The loop over the tool calls of one response. */
    method ProcessToolCalls(calls: seq<StreamCall<A>>) returns (events: seq<StreamEvent>)
      requires Valid()
      modifies this
      ensures Valid()
      ensures State() == CallsPart(encode, old(State()), calls).0
      ensures events == CallsPart(encode, old(State()), calls).1
    {
      hide CallPart;
      events := [];
      for i := 0 to |calls|
        invariant Valid()
        invariant State() == CallsPart(encode, old(State()), calls[..i]).0
        invariant events == CallsPart(encode, old(State()), calls[..i]).1
      {
        assert calls[..i + 1][..i] == calls[..i];
        var more := ProcessToolCall(calls[i]);
        events := events + more;
      }
      assert calls[..|calls|] == calls;
    }

    method ProcessToolCall(tc: StreamCall<A>) returns (events: seq<StreamEvent>)
      requires Valid()
      modifies this
      ensures Valid()
      ensures State() == CallPart(encode, old(State()), tc).0
      ensures events == CallPart(encode, old(State()), tc).1
    {
      events := [];
      if tc.id in toolCallsSent && toolCallsSent[tc.id] {
        return;
      }
      if thinkingStarted && !thinkingDone {
        thinkingDone := true;
        events := events + [BlockStop(contentIndex)];
        contentIndex := contentIndex + 1;
      }
      if textStarted {
        events := events + [BlockStop(contentIndex)];
        contentIndex := contentIndex + 1;
        textStarted := false;
      }
      var json := encode(tc.args);
      if json == None {
        return;
      }
      events := events + [BlockStart(contentIndex, ToolUseBlock(tc.id, tc.name))];
      events := events + [BlockDelta(contentIndex, InputJsonDelta(json.value))];
      events := events + [BlockStop(contentIndex)];
      toolCallsSent := toolCallsSent[tc.id := true];
      contentIndex := contentIndex + 1;
    }
  }
}
