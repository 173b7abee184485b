/** Every stream of responses becomes a well-formed stream of events,
    anthropic/anthropic.go. */
module StreamGrammar {
  import opened Streaming

  /** What a strict reader of the event stream has seen so far. n is the number
      of blocks so far, not counting the one that is open. */
  datatype Reader =
    | Idle
    | Between(n: nat, thought: bool)
    | Within(n: nat, block: Block, filled: bool, thought: bool)
    | Ended
    | Stopped
    | Broken

  predicate Fits(block: Block, delta: Delta) {
    match block
    case ThinkingBlock => delta.ThinkingDelta?
    case TextBlock => delta.TextDelta?
    case ToolUseBlock(_, _) => delta.InputJsonDelta?
  }

  /** message_start; blocks with indices 0, 1, 2, ..., one open at a time, each
      with a start, one or more deltas of its kind and a stop, and at most one
      of them for thinking; message_delta; message_stop. */
  function Read(s: Reader, e: StreamEvent): Reader {
    match (s, e)
    case (Idle, MessageStart(_, _, _)) => Between(0, false)
    case (Between(n, thought), BlockStart(i, block)) =>
      if i == n && !(block.ThinkingBlock? && thought) then Within(n, block, false, thought || block.ThinkingBlock?) else Broken
    case (Within(n, block, _, thought), BlockDelta(i, delta)) =>
      if i == n && Fits(block, delta) then Within(n, block, true, thought) else Broken
    case (Within(n, block, filled, thought), BlockStop(i)) =>
      if i == n && filled then Between(n + 1, thought) else Broken
    case (Between(_, _), MessageDelta(_, _, _)) => Ended
    case (Ended, MessageStop) => Stopped
    case _ => Broken
  }

  function ReadAll(s: Reader, events: seq<StreamEvent>): Reader {
    if events == [] then s else Read(ReadAll(s, events[..|events| - 1]), events[|events| - 1])
  }

  lemma {:induction false} ReadAllOfConcat(s: Reader, a: seq<StreamEvent>, b: seq<StreamEvent>)
    ensures ReadAll(s, a + b) == ReadAll(ReadAll(s, a), b)
  {
    hide Read;
    if b == [] {
      assert a + b == a;
    } else {
      assert (a + b)[..|a + b| - 1] == a + b[..|b| - 1];
      ReadAllOfConcat(s, a, b[..|b| - 1]);
    }
  }

  lemma {:induction false} ReadOne(s: Reader, e: StreamEvent)
    ensures ReadAll(s, [e]) == Read(s, e)
    ensures ReadAll(s, []) == s
  {
    assert [e][..0] == [];
  }

  /** Where the reader stands when the converter is in state c. */
  function ReaderOf(c: Conv): Reader {
    if c.firstWrite then Idle
    else if c.textStarted then Within(c.contentIndex, TextBlock, true, c.thinkingStarted)
    else if c.ThinkingOpen() then Within(c.contentIndex, ThinkingBlock, true, true)
    else Between(c.contentIndex, c.thinkingStarted)
  }

  /** The text and the thinking block are never both open. */
  predicate Sound(c: Conv) {
    && !(c.textStarted && c.ThinkingOpen())
    && (c.thinkingDone ==> c.thinkingStarted)
    && (c.firstWrite ==> !c.textStarted && !c.thinkingStarted && c.contentIndex == 0)
  }

  lemma {:induction false} StartReads<A>(c: Conv, r: Response<A>)
    requires Sound(c)
    ensures var (d, events) := StartPart(c, r);
            Sound(d) && !d.firstWrite && ReadAll(ReaderOf(c), events) == ReaderOf(d)
  {
    var (d, events) := StartPart(c, r);
    if c.firstWrite {
      ReadOne(Idle, events[0]);
    }
  }

  lemma {:induction false} CloseTextReads(c: Conv)
    requires Sound(c) && !c.firstWrite
    ensures var (d, events) := CloseText(c);
            && Sound(d) && !d.firstWrite && !d.textStarted && ReadAll(ReaderOf(c), events) == ReaderOf(d)
  {
    ReadOne(ReaderOf(c), BlockStop(c.contentIndex));
  }

  lemma {:induction false} CloseThinkingReads(c: Conv)
    requires Sound(c) && !c.firstWrite
    ensures var (d, events) := CloseThinking(c);
            && Sound(d) && !d.firstWrite && !d.ThinkingOpen() && ReadAll(ReaderOf(c), events) == ReaderOf(d)
  {
    ReadOne(ReaderOf(c), BlockStop(c.contentIndex));
  }

  lemma {:induction false} ThinkingReads(c: Conv, thinking: string)
    requires Sound(c) && !c.firstWrite
    ensures var (d, events) := ThinkingPart(c, thinking);
            Sound(d) && !d.firstWrite && ReadAll(ReaderOf(c), events) == ReaderOf(d)
  {
    hide ReadAll;
    if thinking != "" && !c.thinkingDone {
      var (t, closing) := CloseText(c);
      CloseTextReads(c);
      hide CloseText;
      var start := if t.thinkingStarted then [] else [BlockStart(t.contentIndex, ThinkingBlock)];
      ReadAllOfConcat(ReaderOf(c), closing + start, [BlockDelta(t.contentIndex, ThinkingDelta(thinking))]);
      ReadAllOfConcat(ReaderOf(c), closing, start);
      ReadOne(ReaderOf(t), BlockStart(t.contentIndex, ThinkingBlock));
      ReadOne(ReadAll(ReaderOf(t), start), BlockDelta(t.contentIndex, ThinkingDelta(thinking)));
    } else {
      ReadOne(ReaderOf(c), MessageStop);
    }
  }

  lemma {:induction false} TextReads(c: Conv, content: string)
    requires Sound(c) && !c.firstWrite
    ensures var (d, events) := TextPart(c, content);
            Sound(d) && !d.firstWrite && ReadAll(ReaderOf(c), events) == ReaderOf(d)
  {
    hide ReadAll;
    if content != "" {
      var (t, closing) := CloseThinking(c);
      CloseThinkingReads(c);
      hide CloseThinking;
      var start := if t.textStarted then [] else [BlockStart(t.contentIndex, TextBlock)];
      ReadAllOfConcat(ReaderOf(c), closing + start, [BlockDelta(t.contentIndex, TextDelta(content))]);
      ReadAllOfConcat(ReaderOf(c), closing, start);
      ReadOne(ReaderOf(t), BlockStart(t.contentIndex, TextBlock));
      ReadOne(ReadAll(ReaderOf(t), start), BlockDelta(t.contentIndex, TextDelta(content)));
    } else {
      ReadOne(ReaderOf(c), MessageStop);
    }
  }

  lemma {:induction false} CallReads<A>(encode: Encoder<A>, c: Conv, call: StreamCall<A>)
    requires Sound(c) && !c.firstWrite
    ensures var (d, events) := CallPart(encode, c, call);
            Sound(d) && !d.firstWrite && ReadAll(ReaderOf(c), events) == ReaderOf(d)
  {
    hide ReadAll;
    ReadOne(ReaderOf(c), MessageStop);
    if call.id !in c.sent {
      var (t, closingThinking) := CloseThinking(c);
      var (u, closingText) := CloseText(t);
      CloseThinkingReads(c);
      CloseTextReads(t);
      assert !u.ThinkingOpen() && !u.textStarted;
      hide CloseThinking;
      hide CloseText;
      ReadAllOfConcat(ReaderOf(c), closingThinking, closingText);
      match encode(call.args)
      case None =>
      case Some(json) =>
        var i := u.contentIndex;
        var block := [BlockStart(i, ToolUseBlock(call.id, call.name)), BlockDelta(i, InputJsonDelta(json)), BlockStop(i)];
        ReadAllOfConcat(ReaderOf(c), closingThinking + closingText, block);
        ReadToolBlock(u, call.id, call.name, json);
    }
  }

  lemma {:induction false} ReadToolBlock(u: Conv, id: string, name: string, json: string)
    requires Sound(u) && !u.firstWrite && !u.textStarted && !u.ThinkingOpen()
    ensures var i := u.contentIndex;
            ReadAll(ReaderOf(u), [BlockStart(i, ToolUseBlock(id, name)), BlockDelta(i, InputJsonDelta(json)), BlockStop(i)])
            == ReaderOf(u.(contentIndex := i + 1))
  {
    var i := u.contentIndex;
    var a, b, c := BlockStart(i, ToolUseBlock(id, name)), BlockDelta(i, InputJsonDelta(json)), BlockStop(i);
    assert [a, b, c] == [a] + [b] + [c];
    ReadAllOfConcat(ReaderOf(u), [a] + [b], [c]);
    ReadAllOfConcat(ReaderOf(u), [a], [b]);
    ReadOne(ReaderOf(u), a);
    ReadOne(Read(ReaderOf(u), a), b);
    ReadOne(Read(Read(ReaderOf(u), a), b), c);
  }

  lemma {:induction false} CallsRead<A>(encode: Encoder<A>, c: Conv, calls: seq<StreamCall<A>>)
    requires Sound(c) && !c.firstWrite
    ensures var (d, events) := CallsPart(encode, c, calls);
            Sound(d) && !d.firstWrite && ReadAll(ReaderOf(c), events) == ReaderOf(d)
    decreases |calls|
  {
    hide ReadAll;
    hide CallPart;
    ReadOne(ReaderOf(c), MessageStop);
    if calls != [] {
      var last := |calls| - 1;
      var (t, before) := CallsPart(encode, c, calls[..last]);
      CallsRead(encode, c, calls[..last]);
      CallReads(encode, t, calls[last]);
      ReadAllOfConcat(ReaderOf(c), before, CallPart(encode, t, calls[last]).1);
    }
  }

  lemma {:induction false} DoneReads<A>(c: Conv, r: Response<A>)
    requires Sound(c) && !c.firstWrite
    ensures ReadAll(ReaderOf(c), DonePart(c, r)) == if r.done then Stopped else ReaderOf(c)
  {
    hide ReadAll;
    ReadOne(ReaderOf(c), MessageStop);
    if r.done {
      var closing := if c.textStarted || c.ThinkingOpen() then [BlockStop(c.contentIndex)] else [];
      var delta := MessageDelta(MapStopReason(r.doneReason, c.sent != {}), r.promptEvalCount, r.evalCount);
      assert DonePart(c, r) == closing + [delta] + [MessageStop];
      ReadAllOfConcat(ReaderOf(c), closing + [delta], [MessageStop]);
      ReadAllOfConcat(ReaderOf(c), closing, [delta]);
      ReadOne(ReaderOf(c), BlockStop(c.contentIndex));
      ReadOne(ReadAll(ReaderOf(c), closing), delta);
      ReadOne(Ended, MessageStop);
    }
  }

  /** One call of Process takes the reader from where it stands to where it
      should stand, or to the end. */
  lemma {:induction false} ProcessReads<A>(encode: Encoder<A>, c: Conv, r: Response<A>)
    requires Sound(c)
    ensures var (d, events) := ProcessOf(encode, c, r);
            && Sound(d) && !d.firstWrite
            && ReadAll(ReaderOf(c), events) == if r.done then Stopped else ReaderOf(d)
  {
    hide ReadAll;
    hide StartPart;
    hide ThinkingPart;
    hide TextPart;
    hide CallsPart;
    hide DonePart;
    hide ReaderOf;
    hide Sound;
    var (s1, start) := StartPart(c, r);
    StartReads(c, r);
    var (s2, thinking) := ThinkingPart(s1, r.thinking);
    ThinkingReads(s1, r.thinking);
    var (s3, text) := TextPart(s2, r.content);
    TextReads(s2, r.content);
    var (s4, calls) := CallsPart(encode, s3, r.toolCalls);
    CallsRead(encode, s3, r.toolCalls);
    DoneReads(s4, r);
    var from := ReaderOf(c);
    ReadAllOfConcat(from, start + thinking + text + calls, DonePart(s4, r));
    ReadAllOfConcat(from, start + thinking + text, calls);
    ReadAllOfConcat(from, start + thinking, text);
    ReadAllOfConcat(from, start, thinking);
  }

  /** A stream that ends in its one final response. */
  ghost predicate OneStream<A>(rs: seq<Response<A>>) {
    && rs != []
    && rs[|rs| - 1].done
    && forall i | 0 <= i < |rs| - 1 :: !rs[i].done
  }

  lemma {:induction false} StreamReadsSoFar<A>(encode: Encoder<A>, c: Conv, rs: seq<Response<A>>)
    requires Sound(c) && forall r <- rs :: !r.done
    ensures var (d, events) := Converted(encode, c, rs);
            Sound(d) && ReadAll(ReaderOf(c), events) == ReaderOf(d)
    decreases |rs|
  {
    hide ReadAll;
    hide ProcessOf;
    hide ReaderOf;
    hide Sound;
    ReadOne(ReaderOf(c), MessageStop);
    if rs != [] {
      var last := |rs| - 1;
      var (t, before) := Converted(encode, c, rs[..last]);
      StreamReadsSoFar(encode, c, rs[..last]);
      ProcessReads(encode, t, rs[last]);
      ReadAllOfConcat(ReaderOf(c), before, ProcessOf(encode, t, rs[last]).1);
    }
  }

  /** Responses in any order, with any tool calls, whether their arguments encode
      or not: the events of a stream read as one complete message. */
  lemma {:induction false} StreamIsWellFormed<A>(
    encode: Encoder<A>, id: string, model: string, estimate: int, rs: seq<Response<A>>)
    requires OneStream(rs)
    ensures ReadAll(Idle, Converted(encode, NewConv(id, model, estimate), rs).1) == Stopped
  {
    hide ReadAll;
    hide ProcessOf;
    var c := NewConv(id, model, estimate);
    var last := |rs| - 1;
    var (t, before) := Converted(encode, c, rs[..last]);
    StreamReadsSoFar(encode, c, rs[..last]);
    ProcessReads(encode, t, rs[last]);
    ReadAllOfConcat(Idle, before, ProcessOf(encode, t, rs[last]).1);
  }
}
