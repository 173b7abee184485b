/** What a client puts together from the events of a stream: everything that was
    received, once, and for responses in phase order exactly what the one-shot
    conversion of the merged response gives, anthropic/anthropic.go. */
module StreamContent {
  import opened Streaming
  import opened StreamGrammar

  datatype Built = BuiltThinking(text: string) | BuiltText(text: string) | BuiltToolUse(id: string, name: string, json: string)

  datatype Assembled = Assembled(
    id: string, model: string, blocks: seq<Built>, stopReason: string, inputTokens: nat, outputTokens: nat)

  const NOTHING := Assembled("", "", [], "", 0, 0)

  function Empty(block: Block): Built {
    match block
    case ThinkingBlock => BuiltThinking("")
    case TextBlock => BuiltText("")
    case ToolUseBlock(id, name) => BuiltToolUse(id, name, "")
  }

  function Extend(b: Built, d: Delta): Built {
    match (b, d)
    case (BuiltThinking(text), ThinkingDelta(more)) => BuiltThinking(text + more)
    case (BuiltText(text), TextDelta(more)) => BuiltText(text + more)
    case (BuiltToolUse(id, name, json), InputJsonDelta(more)) => BuiltToolUse(id, name, json + more)
    case _ => b
  }

  /** A client: a start adds an empty block, a delta extends the block with its
      index, and message_delta brings the reason and the usage. */
  function Assemble(a: Assembled, e: StreamEvent): Assembled {
    match e
    case MessageStart(id, model, _) => a.(id := id, model := model)
    case BlockStart(_, block) => a.(blocks := a.blocks + [Empty(block)])
    case BlockDelta(i, delta) => if i < |a.blocks| then a.(blocks := a.blocks[i := Extend(a.blocks[i], delta)]) else a
    case MessageDelta(reason, input, output) => a.(stopReason := reason, inputTokens := input, outputTokens := output)
    case _ => a
  }

  function AssembleAll(a: Assembled, events: seq<StreamEvent>): Assembled {
    if events == [] then a else Assemble(AssembleAll(a, events[..|events| - 1]), events[|events| - 1])
  }

  lemma {:induction false} AssembleConcat(a: Assembled, x: seq<StreamEvent>, y: seq<StreamEvent>)
    ensures AssembleAll(a, x + y) == AssembleAll(AssembleAll(a, x), y)
  {
    hide Assemble;
    if y == [] {
      assert x + y == x;
    } else {
      assert (x + y)[..|x + y| - 1] == x + y[..|y| - 1];
      AssembleConcat(a, x, y[..|y| - 1]);
    }
  }

  lemma {:induction false} AssembleOne(a: Assembled, e: StreamEvent)
    ensures AssembleAll(a, [e]) == Assemble(a, e)
    ensures AssembleAll(a, []) == a
  {
    assert [e][..0] == [];
  }

  /** The blocks of the client against the state of the converter. */
  predicate Attached(c: Conv, blocks: seq<Built>) {
    && Sound(c)
    && |blocks| == c.contentIndex + (if c.textStarted || c.ThinkingOpen() then 1 else 0)
    && (c.textStarted ==> blocks[c.contentIndex].BuiltText?)
    && (c.ThinkingOpen() ==> blocks[c.contentIndex].BuiltThinking?)
  }

  function AppendThinking(blocks: seq<Built>, continues: bool, more: string): seq<Built>
    requires continues ==> blocks != []
  {
    if continues then blocks[|blocks| - 1 := Extend(blocks[|blocks| - 1], ThinkingDelta(more))]
    else blocks + [BuiltThinking(more)]
  }

  function AppendText(blocks: seq<Built>, continues: bool, more: string): seq<Built>
    requires continues ==> blocks != []
  {
    if continues then blocks[|blocks| - 1 := Extend(blocks[|blocks| - 1], TextDelta(more))]
    else blocks + [BuiltText(more)]
  }

  lemma {:induction false} StartAssembles<A>(c: Conv, r: Response<A>, a: Assembled)
    requires Attached(c, a.blocks)
    ensures var (d, events) := StartPart(c, r);
            && Attached(d, a.blocks) && !d.firstWrite
            && AssembleAll(a, events) == if c.firstWrite then a.(id := c.id, model := c.model) else a
  {
    AssembleOne(a, MessageStop);
    if c.firstWrite {
      AssembleOne(a, StartPart(c, r).1[0]);
    }
  }

  lemma {:induction false} ThinkingAssembles(c: Conv, thinking: string, a: Assembled)
    requires Attached(c, a.blocks) && !c.firstWrite
    ensures var (d, events) := ThinkingPart(c, thinking);
            var b := AssembleAll(a, events);
            && Attached(d, b.blocks) && b == a.(blocks := b.blocks)
            && b.blocks == (if thinking == "" || c.thinkingDone then a.blocks
                            else AppendThinking(a.blocks, c.ThinkingOpen(), thinking))
  {
    hide AssembleAll;
    AssembleOne(a, MessageStop);
    if thinking != "" && !c.thinkingDone {
      var (t, closing) := CloseText(c);
      AssembleOne(a, BlockStop(c.contentIndex));
      var start := if t.thinkingStarted then [] else [BlockStart(t.contentIndex, ThinkingBlock)];
      var delta := BlockDelta(t.contentIndex, ThinkingDelta(thinking));
      AssembleConcat(a, closing + start, [delta]);
      AssembleConcat(a, closing, start);
      AssembleOne(a, BlockStart(t.contentIndex, ThinkingBlock));
      AssembleOne(AssembleAll(a, start), delta);
      assert "" + thinking == thinking;
    }
  }

  lemma {:induction false} TextAssembles(c: Conv, content: string, a: Assembled)
    requires Attached(c, a.blocks) && !c.firstWrite
    ensures var (d, events) := TextPart(c, content);
            var b := AssembleAll(a, events);
            && Attached(d, b.blocks) && b == a.(blocks := b.blocks)
            && b.blocks == (if content == "" then a.blocks else AppendText(a.blocks, c.textStarted, content))
  {
    hide AssembleAll;
    AssembleOne(a, MessageStop);
    if content != "" {
      var (t, closing) := CloseThinking(c);
      AssembleOne(a, BlockStop(c.contentIndex));
      var start := if t.textStarted then [] else [BlockStart(t.contentIndex, TextBlock)];
      var delta := BlockDelta(t.contentIndex, TextDelta(content));
      AssembleConcat(a, closing + start, [delta]);
      AssembleConcat(a, closing, start);
      AssembleOne(a, BlockStart(t.contentIndex, TextBlock));
      AssembleOne(AssembleAll(a, start), delta);
      assert "" + content == content;
    }
  }

  lemma {:induction false} CallAssembles<A>(encode: Encoder<A>, c: Conv, call: StreamCall<A>, a: Assembled)
    requires Attached(c, a.blocks) && !c.firstWrite
    ensures var (d, events) := CallPart(encode, c, call);
            var b := AssembleAll(a, events);
            && Attached(d, b.blocks) && !d.firstWrite && b == a.(blocks := b.blocks)
            && b.blocks == a.blocks
                 + if call.id in c.sent || encode(call.args).None? then []
                   else [BuiltToolUse(call.id, call.name, encode(call.args).value)]
  {
    hide AssembleAll;
    AssembleOne(a, MessageStop);
    if call.id !in c.sent {
      var (t, closingThinking) := CloseThinking(c);
      var (u, closingText) := CloseText(t);
      AssembleOne(a, BlockStop(c.contentIndex));
      AssembleOne(a, BlockStop(t.contentIndex));
      AssembleConcat(a, closingThinking, closingText);
      match encode(call.args)
      case None =>
      case Some(json) =>
        var i := u.contentIndex;
        var block := [BlockStart(i, ToolUseBlock(call.id, call.name)), BlockDelta(i, InputJsonDelta(json)), BlockStop(i)];
        AssembleConcat(a, closingThinking + closingText, block);
        AssembleToolBlock(a, i, call.id, call.name, json);
    }
  }

  lemma {:induction false} AssembleToolBlock(a: Assembled, i: nat, id: string, name: string, json: string)
    requires |a.blocks| == i
    ensures AssembleAll(a, [BlockStart(i, ToolUseBlock(id, name)), BlockDelta(i, InputJsonDelta(json)), BlockStop(i)])
            == a.(blocks := a.blocks + [BuiltToolUse(id, name, json)])
  {
    var x, y, z := BlockStart(i, ToolUseBlock(id, name)), BlockDelta(i, InputJsonDelta(json)), BlockStop(i);
    assert [x, y, z] == [x] + [y] + [z];
    AssembleConcat(a, [x] + [y], [z]);
    AssembleConcat(a, [x], [y]);
    AssembleOne(a, x);
    AssembleOne(Assemble(a, x), y);
    AssembleOne(Assemble(Assemble(a, x), y), z);
    assert "" + json == json;
  }

  // The tool calls that come through

  ghost predicate SentIn<A>(encode: Encoder<A>, calls: seq<StreamCall<A>>, id: string) {
    exists call <- calls :: call.id == id && encode(call.args).Some?
  }

  /** The first occurrence by ID whose arguments encode, in order. */
  ghost function Firsts<A>(encode: Encoder<A>, calls: seq<StreamCall<A>>): seq<Built>
    decreases |calls|
  {
    if calls == [] then []
    else
      var front, last := calls[..|calls| - 1], calls[|calls| - 1];
      Firsts(encode, front)
      + if SentIn(encode, front, last.id) || encode(last.args).None? then []
        else [BuiltToolUse(last.id, last.name, encode(last.args).value)]
  }

  lemma {:induction false} SentInAppend<A>(
    encode: Encoder<A>, calls: seq<StreamCall<A>>, call: StreamCall<A>, id: string)
    ensures SentIn(encode, calls + [call], id)
            <==> SentIn(encode, calls, id) || (call.id == id && encode(call.args).Some?)
  {
    if SentIn(encode, calls, id) {
      var c :| c in calls && c.id == id && encode(c.args).Some?;
      assert c in calls + [call];
    }
    assert call in calls + [call];
  }

  lemma {:induction false} CallsAssemble<A>(
    encode: Encoder<A>, c: Conv, earlier: seq<StreamCall<A>>, calls: seq<StreamCall<A>>, a: Assembled)
    requires Attached(c, a.blocks) && !c.firstWrite
    requires forall id :: id in c.sent <==> SentIn(encode, earlier, id)
    ensures var (d, events) := CallsPart(encode, c, calls);
            var b := AssembleAll(a, events);
            && Attached(d, b.blocks) && !d.firstWrite && b == a.(blocks := b.blocks)
            && Firsts(encode, earlier) <= Firsts(encode, earlier + calls)
            && b.blocks == a.blocks + Firsts(encode, earlier + calls)[|Firsts(encode, earlier)|..]
            && (forall id :: id in d.sent <==> SentIn(encode, earlier + calls, id))
    decreases |calls|
  {
    hide AssembleAll;
    hide CallPart;
    hide Attached;
    hide SentIn;
    AssembleOne(a, MessageStop);
    if calls == [] {
      assert earlier + calls == earlier;
    } else {
      var front, last := calls[..|calls| - 1], calls[|calls| - 1];
      var (t, before) := CallsPart(encode, c, front);
      CallsAssemble(encode, c, earlier, front, a);
      var b := AssembleAll(a, before);
      CallAssembles(encode, t, last, b);
      CallSends(encode, t, last);
      AssembleConcat(a, before, CallPart(encode, t, last).1);
      assert earlier + calls == (earlier + front) + [last];
      assert (earlier + calls)[..|earlier + calls| - 1] == earlier + front;
      forall id {
        SentInAppend(encode, earlier + front, last, id);
      }
    }
  }

  lemma {:induction false} CallSends<A>(encode: Encoder<A>, c: Conv, call: StreamCall<A>)
    ensures CallPart(encode, c, call).0.sent == if encode(call.args).Some? then c.sent + {call.id} else c.sent
  {
  }

  /** Some call of the list has not been sent before it. */
  ghost predicate HasFresh<A>(encode: Encoder<A>, earlier: seq<StreamCall<A>>, calls: seq<StreamCall<A>>) {
    exists call <- calls :: !SentIn(encode, earlier, call.id)
  }

  lemma {:induction false} SentInUnchanged<A>(
    encode: Encoder<A>, earlier: seq<StreamCall<A>>, calls: seq<StreamCall<A>>, id: string)
    requires !HasFresh(encode, earlier, calls)
    ensures SentIn(encode, earlier + calls, id) <==> SentIn(encode, earlier, id)
  {
    if SentIn(encode, earlier + calls, id) {
      var c :| c in earlier + calls && c.id == id && encode(c.args).Some?;
    }
    if SentIn(encode, earlier, id) {
      var c :| c in earlier && c.id == id && encode(c.args).Some?;
      assert c in earlier + calls;
    }
  }

  /** An open thinking block is closed by a call that has not been sent, also by
      one whose arguments do not encode. */
  lemma {:induction false} CallsClose<A>(
    encode: Encoder<A>, c: Conv, earlier: seq<StreamCall<A>>, calls: seq<StreamCall<A>>, a: Assembled)
    requires Attached(c, a.blocks) && !c.firstWrite
    requires forall id :: id in c.sent <==> SentIn(encode, earlier, id)
    ensures var (d, events) := CallsPart(encode, c, calls);
            && d.thinkingStarted == c.thinkingStarted
            && (d.thinkingDone <==> c.thinkingDone || (c.thinkingStarted && HasFresh(encode, earlier, calls)))
    decreases |calls|
  {
    hide AssembleAll;
    hide Attached;
    hide SentIn;
    if calls != [] {
      var front, last := calls[..|calls| - 1], calls[|calls| - 1];
      CallsClose(encode, c, earlier, front, a);
      CallsAssemble(encode, c, earlier, front, a);
      assert calls == front + [last];
      if !HasFresh(encode, earlier, front) {
        SentInUnchanged(encode, earlier, front, last.id);
      }
    }
  }

  // What the blocks hold

  /** The text, the thinking and the tool calls of a list of blocks. */
  datatype Holding = Holding(text: string, thinking: string, toolUses: seq<Built>)

  function Hold(h: Holding, b: Built): Holding {
    match b
    case BuiltThinking(more) => h.(thinking := h.thinking + more)
    case BuiltText(more) => h.(text := h.text + more)
    case BuiltToolUse(_, _, _) => h.(toolUses := h.toolUses + [b])
  }

  function HeldBy(blocks: seq<Built>): Holding {
    if blocks == [] then Holding("", "", []) else Hold(HeldBy(blocks[..|blocks| - 1]), blocks[|blocks| - 1])
  }

  lemma {:induction false} HeldByAppended(blocks: seq<Built>, b: Built)
    ensures HeldBy(blocks + [b]) == Hold(HeldBy(blocks), b)
  {
    assert (blocks + [b])[..|blocks|] == blocks;
  }

  lemma {:induction false} HoldsThinking(blocks: seq<Built>, continues: bool, more: string)
    requires continues ==> blocks != [] && blocks[|blocks| - 1].BuiltThinking?
    ensures var h := HeldBy(blocks);
            HeldBy(AppendThinking(blocks, continues, more)) == h.(thinking := h.thinking + more)
  {
    hide HeldBy;
    if continues {
      var front, last := blocks[..|blocks| - 1], blocks[|blocks| - 1];
      assert blocks == front + [last];
      assert AppendThinking(blocks, continues, more) == front + [BuiltThinking(last.text + more)];
      HeldByAppended(front, last);
      HeldByAppended(front, BuiltThinking(last.text + more));
      var h := HeldBy(front);
      assert h.thinking + (last.text + more) == h.thinking + last.text + more;
    } else {
      HeldByAppended(blocks, BuiltThinking(more));
    }
  }

  lemma {:induction false} HoldsText(blocks: seq<Built>, continues: bool, more: string)
    requires continues ==> blocks != [] && blocks[|blocks| - 1].BuiltText?
    ensures var h := HeldBy(blocks);
            HeldBy(AppendText(blocks, continues, more)) == h.(text := h.text + more)
  {
    hide HeldBy;
    if continues {
      var front, last := blocks[..|blocks| - 1], blocks[|blocks| - 1];
      assert blocks == front + [last];
      assert AppendText(blocks, continues, more) == front + [BuiltText(last.text + more)];
      HeldByAppended(front, last);
      HeldByAppended(front, BuiltText(last.text + more));
      var h := HeldBy(front);
      assert h.text + (last.text + more) == h.text + last.text + more;
    } else {
      HeldByAppended(blocks, BuiltText(more));
    }
  }

  lemma {:induction false} HoldsTools(blocks: seq<Built>, tools: seq<Built>)
    requires forall b <- tools :: b.BuiltToolUse?
    ensures var h := HeldBy(blocks);
            HeldBy(blocks + tools) == h.(toolUses := h.toolUses + tools)
  {
    hide HeldBy;
    var h := HeldBy(blocks);
    if tools == [] {
      assert blocks + tools == blocks;
      assert h.toolUses + [] == h.toolUses;
    } else {
      var front, last := tools[..|tools| - 1], tools[|tools| - 1];
      assert last in tools && forall b <- front :: b in tools;
      HoldsTools(blocks, front);
      assert blocks + tools == (blocks + front) + [last];
      HeldByAppended(blocks + front, last);
      assert h.toolUses + front + [last] == h.toolUses + tools;
    }
  }

  lemma {:induction false} FirstsAreToolUses<A>(encode: Encoder<A>, calls: seq<StreamCall<A>>)
    ensures forall b <- Firsts(encode, calls) :: b.BuiltToolUse?
    decreases |calls|
  {
    if calls != [] {
      FirstsAreToolUses(encode, calls[..|calls| - 1]);
    }
  }

  // What was received

  function AllThinking<A>(rs: seq<Response<A>>): string
    decreases |rs|
  {
    if rs == [] then "" else AllThinking(rs[..|rs| - 1]) + rs[|rs| - 1].thinking
  }

  function AllContent<A>(rs: seq<Response<A>>): string
    decreases |rs|
  {
    if rs == [] then "" else AllContent(rs[..|rs| - 1]) + rs[|rs| - 1].content
  }

  function AllCalls<A>(rs: seq<Response<A>>): seq<StreamCall<A>>
    decreases |rs|
  {
    if rs == [] then [] else AllCalls(rs[..|rs| - 1]) + rs[|rs| - 1].toolCalls
  }

  /** The thinking received until the block is closed. */
  ghost function Heard<A>(encode: Encoder<A>, rs: seq<Response<A>>): string
    decreases |rs|, 0
  {
    if rs == [] then ""
    else
      Heard(encode, rs[..|rs| - 1]) + if ThinkingClosed(encode, rs[..|rs| - 1]) then "" else rs[|rs| - 1].thinking
  }

  /** Some thinking was heard, and then, in the same response or later, there was
      content or a call that had not been sent. */
  ghost predicate ThinkingClosed<A>(encode: Encoder<A>, rs: seq<Response<A>>)
    decreases |rs|, 1
  {
    && rs != []
    && (|| ThinkingClosed(encode, rs[..|rs| - 1])
        || (Heard(encode, rs) != ""
            && (|| rs[|rs| - 1].content != ""
                || HasFresh(encode, AllCalls(rs[..|rs| - 1]), rs[|rs| - 1].toolCalls))))
  }

  /** The client and the converter after some responses. */
  ghost predicate Faithful<A>(encode: Encoder<A>, rs: seq<Response<A>>, c: Conv, a: Assembled) {
    && Attached(c, a.blocks)
    && (rs != [] ==> !c.firstWrite && a.id == c.id && a.model == c.model)
    && HeldBy(a.blocks) == Holding(AllContent(rs), Heard(encode, rs), Firsts(encode, AllCalls(rs)))
    && (forall id :: id in c.sent <==> SentIn(encode, AllCalls(rs), id))
    && (c.thinkingStarted <==> Heard(encode, rs) != "")
    && (c.thinkingDone <==> ThinkingClosed(encode, rs))
  }

  lemma {:induction false} DoneAssembles<A>(c: Conv, r: Response<A>, a: Assembled)
    ensures AssembleAll(a, DonePart(c, r))
            == if r.done
               then a.(stopReason := MapStopReason(r.doneReason, c.sent != {}),
                       inputTokens := r.promptEvalCount, outputTokens := r.evalCount)
               else a
  {
    AssembleOne(a, MessageStop);
    if r.done {
      var closing := if c.textStarted || c.ThinkingOpen() then [BlockStop(c.contentIndex)] else [];
      var delta := MessageDelta(MapStopReason(r.doneReason, c.sent != {}), r.promptEvalCount, r.evalCount);
      AssembleOne(a, BlockStop(c.contentIndex));
      AssembleOne(a, delta);
      AssembleOne(Assemble(a, delta), MessageStop);
      hide AssembleAll;
      assert DonePart(c, r) == closing + [delta] + [MessageStop];
      AssembleConcat(a, closing + [delta], [MessageStop]);
      AssembleConcat(a, closing, [delta]);
    }
  }

  lemma {:induction false} FirstsGrow<A>(encode: Encoder<A>, earlier: seq<StreamCall<A>>, calls: seq<StreamCall<A>>)
    ensures Firsts(encode, earlier) <= Firsts(encode, earlier + calls)
    decreases |calls|
  {
    if calls == [] {
      assert earlier + calls == earlier;
    } else {
      assert (earlier + calls)[..|earlier + calls| - 1] == earlier + calls[..|calls| - 1];
      FirstsGrow(encode, earlier, calls[..|calls| - 1]);
    }
  }

  /** The blocks that further calls add. */
  ghost function NewToolUses<A>(
    encode: Encoder<A>, earlier: seq<StreamCall<A>>, calls: seq<StreamCall<A>>): (news: seq<Built>)
    ensures Firsts(encode, earlier) + news == Firsts(encode, earlier + calls)
  {
    FirstsGrow(encode, earlier, calls);
    Firsts(encode, earlier + calls)[|Firsts(encode, earlier)|..]
  }

  /** Thinking is taken in unless its block has been closed before. */
  predicate Hears<A>(c: Conv, r: Response<A>) {
    r.thinking != "" && !c.thinkingDone
  }

  /** The blocks after one response. */
  ghost function BlocksAfter<A>(
    encode: Encoder<A>, c: Conv, earlier: seq<StreamCall<A>>, blocks: seq<Built>, r: Response<A>): seq<Built>
    requires Attached(c, blocks)
  {
    var b := if Hears(c, r) then AppendThinking(blocks, c.ThinkingOpen(), r.thinking) else blocks;
    var d := if r.content != "" then AppendText(b, c.textStarted && !Hears(c, r), r.content) else b;
    d + NewToolUses(encode, earlier, r.toolCalls)
  }

  /** The flags after one response. */
  ghost predicate FlagsAfter<A>(encode: Encoder<A>, c: Conv, earlier: seq<StreamCall<A>>, r: Response<A>, d: Conv) {
    var renewed := HasFresh(encode, earlier, r.toolCalls);
    && !d.firstWrite && d.id == c.id && d.model == c.model
    && (d.thinkingStarted <==> c.thinkingStarted || Hears(c, r))
    && (d.thinkingDone <==> c.thinkingDone || (d.thinkingStarted && (r.content != "" || renewed)))
    && (d.textStarted <==> (r.content != "" || (c.textStarted && !Hears(c, r))) && !renewed)
    && (forall id :: id in d.sent <==> SentIn(encode, earlier + r.toolCalls, id))
  }

  function WithEnd<A>(a: Assembled, c: Conv, r: Response<A>): Assembled {
    if r.done
    then a.(stopReason := MapStopReason(r.doneReason, c.sent != {}), inputTokens := r.promptEvalCount, outputTokens := r.evalCount)
    else a
  }

  lemma {:induction false} CallsCloseText<A>(
    encode: Encoder<A>, c: Conv, earlier: seq<StreamCall<A>>, calls: seq<StreamCall<A>>, a: Assembled)
    requires Attached(c, a.blocks) && !c.firstWrite
    requires forall id :: id in c.sent <==> SentIn(encode, earlier, id)
    ensures var (d, events) := CallsPart(encode, c, calls);
            && d.id == c.id && d.model == c.model
            && (d.textStarted <==> c.textStarted && !HasFresh(encode, earlier, calls))
    decreases |calls|
  {
    hide AssembleAll;
    hide Attached;
    hide SentIn;
    if calls != [] {
      var front, last := calls[..|calls| - 1], calls[|calls| - 1];
      CallsCloseText(encode, c, earlier, front, a);
      CallsAssemble(encode, c, earlier, front, a);
      assert calls == front + [last];
      if !HasFresh(encode, earlier, front) {
        SentInUnchanged(encode, earlier, front, last.id);
      }
    }
  }

  lemma {:induction false} ProcessAssembles<A>(
    encode: Encoder<A>, c: Conv, earlier: seq<StreamCall<A>>, r: Response<A>, a: Assembled)
    requires Attached(c, a.blocks)
    requires forall id :: id in c.sent <==> SentIn(encode, earlier, id)
    ensures var (d, events) := ProcessOf(encode, c, r);
            && Attached(d, BlocksAfter(encode, c, earlier, a.blocks, r))
            && FlagsAfter(encode, c, earlier, r, d)
            && AssembleAll(a, events)
               == WithEnd(
                    (if c.firstWrite then a.(id := c.id, model := c.model) else a)
                    .(blocks := BlocksAfter(encode, c, earlier, a.blocks, r)), d, r)
  {
    hide AssembleAll;
    hide CallsPart;
    hide DonePart;
    hide SentIn;
    hide Firsts;
    hide AppendText;
    hide AppendThinking;
    var (s1, start) := StartPart(c, r);
    StartAssembles(c, r, a);
    var a1 := AssembleAll(a, start);
    var (s2, thinking) := ThinkingPart(s1, r.thinking);
    ThinkingAssembles(s1, r.thinking, a1);
    var a2 := AssembleAll(a1, thinking);
    var (s3, text) := TextPart(s2, r.content);
    TextAssembles(s2, r.content, a2);
    var a3 := AssembleAll(a2, text);
    var (s4, calls) := CallsPart(encode, s3, r.toolCalls);
    CallsAssemble(encode, s3, earlier, r.toolCalls, a3);
    CallsClose(encode, s3, earlier, r.toolCalls, a3);
    CallsCloseText(encode, s3, earlier, r.toolCalls, a3);
    var a4 := AssembleAll(a3, calls);
    DoneAssembles(s4, r, a4);
    AssembleConcat(a, start + thinking + text + calls, DonePart(s4, r));
    AssembleConcat(a, start + thinking + text, calls);
    AssembleConcat(a, start + thinking, text);
    AssembleConcat(a, start, thinking);
  }

  lemma {:induction false} BlocksAfterHold<A>(
    encode: Encoder<A>, c: Conv, earlier: seq<StreamCall<A>>, blocks: seq<Built>, r: Response<A>)
    requires Attached(c, blocks)
    ensures var h := HeldBy(blocks);
            HeldBy(BlocksAfter(encode, c, earlier, blocks, r))
            == Holding(h.text + r.content, h.thinking + (if Hears(c, r) then r.thinking else ""),
                       h.toolUses + NewToolUses(encode, earlier, r.toolCalls))
  {
    hide HeldBy;
    hide NewToolUses;
    var h := HeldBy(blocks);
    assert h.text + "" == h.text && h.thinking + "" == h.thinking;
    var b := if Hears(c, r) then AppendThinking(blocks, c.ThinkingOpen(), r.thinking) else blocks;
    if Hears(c, r) {
      HoldsThinking(blocks, c.ThinkingOpen(), r.thinking);
    }
    var d := if r.content != "" then AppendText(b, c.textStarted && !Hears(c, r), r.content) else b;
    if r.content != "" {
      HoldsText(b, c.textStarted && !Hears(c, r), r.content);
    }
    NewToolUsesAreToolUses(encode, earlier, r.toolCalls);
    HoldsTools(d, NewToolUses(encode, earlier, r.toolCalls));
  }

  lemma {:induction false} NewToolUsesAreToolUses<A>(
    encode: Encoder<A>, earlier: seq<StreamCall<A>>, calls: seq<StreamCall<A>>)
    ensures forall b <- NewToolUses(encode, earlier, calls) :: b.BuiltToolUse?
  {
    FirstsAreToolUses(encode, earlier + calls);
    var news := NewToolUses(encode, earlier, calls);
    assert forall b <- news :: b in Firsts(encode, earlier) + news;
  }

  /** Responses in any order: the client holds all content, the thinking until
      its block was closed, and the first sendable occurrence of each call. */
  lemma {:induction false} StreamIsFaithful<A>(
    encode: Encoder<A>, id: string, model: string, estimate: int, rs: seq<Response<A>>)
    ensures var (c, events) := Converted(encode, NewConv(id, model, estimate), rs);
            && c.id == id && c.model == model
            && Faithful(encode, rs, c, AssembleAll(NOTHING, events))
    decreases |rs|
  {
    hide ProcessOf;
    hide SentIn;
    hide BlocksAfter;
    AssembleOne(NOTHING, MessageStop);
    hide AssembleAll;
    if rs == [] {
      NothingSent(encode);
    } else {
      var front, r := rs[..|rs| - 1], rs[|rs| - 1];
      StreamIsFaithful(encode, id, model, estimate, front);
      var (c, before) := Converted(encode, NewConv(id, model, estimate), front);
      var a := AssembleAll(NOTHING, before);
      var (d, events) := ProcessOf(encode, c, r);
      AssembleConcat(NOTHING, before, events);
      ProcessAssembles(encode, c, AllCalls(front), r, a);
      BlocksAfterHold(encode, c, AllCalls(front), a.blocks, r);
      hide HeldBy;
      hide Attached;
      hide Firsts;
      hide HasFresh;
      assert AssembleAll(NOTHING, before + events)
          == WithEnd(a.(id := id, model := model, blocks := BlocksAfter(encode, c, AllCalls(front), a.blocks, r)), d, r);
    }
  }

  lemma {:induction false} NothingSent<A>(encode: Encoder<A>)
    ensures forall id :: !SentIn(encode, [], id)
  {
  }

  lemma {:induction false} FirstsDistinct<A>(encode: Encoder<A>, calls: seq<StreamCall<A>>, last: StreamCall<A>)
    requires var f := Firsts(encode, calls);
             && (forall b <- f :: b.BuiltToolUse?)
             && (forall id :: SentIn(encode, calls, id) <==> exists b <- f :: b.id == id)
             && (forall i, j | 0 <= i < j < |f| :: f[i].id != f[j].id)
    requires forall b <- Firsts(encode, calls + [last]) :: b.BuiltToolUse?
    ensures var g := Firsts(encode, calls + [last]); forall i, j | 0 <= i < j < |g| :: g[i].id != g[j].id
  {
    hide SentIn;
    var f, g := Firsts(encode, calls), Firsts(encode, calls + [last]);
    assert (calls + [last])[..|calls|] == calls;
    if !SentIn(encode, calls, last.id) && encode(last.args).Some? {
      assert g == f + [BuiltToolUse(last.id, last.name, encode(last.args).value)];
      assert forall i | 0 <= i < |f| :: f[i] in f && g[i] == f[i];
    } else {
      assert g == f;
    }
  }

  /** The IDs among the first occurrences are those that were sent, each once. */
  lemma {:induction false} FirstsAreFirst<A>(encode: Encoder<A>, calls: seq<StreamCall<A>>)
    ensures forall b <- Firsts(encode, calls) :: b.BuiltToolUse?
    ensures forall id :: SentIn(encode, calls, id) <==> exists b <- Firsts(encode, calls) :: b.id == id
    ensures var f := Firsts(encode, calls); forall i, j | 0 <= i < j < |f| :: f[i].id != f[j].id
    decreases |calls|
  {
    hide SentIn;
    FirstsAreToolUses(encode, calls);
    if calls == [] {
      NothingSent(encode);
    } else {
      var front, last := calls[..|calls| - 1], calls[|calls| - 1];
      FirstsAreFirst(encode, front);
      assert calls == front + [last];
      FirstsDistinct(encode, front, last);
      var f, g := Firsts(encode, front), Firsts(encode, calls);
      assert forall b <- f :: SentIn(encode, front, b.id);
      forall id ensures SentIn(encode, calls, id) <==> exists b <- g :: b.id == id {
        SentInAppend(encode, front, last, id);
        if exists b <- f :: b.id == id {
          var b :| b in f && b.id == id;
          assert b in g;
        }
        if SentIn(encode, calls, id) && !SentIn(encode, front, id) {
          assert g == f + [BuiltToolUse(last.id, last.name, encode(last.args).value)];
          assert g[|f|] in g;
        }
        if exists b <- g :: b.id == id {
          var b :| b in g && b.id == id;
          assert b in f || (b.id == last.id && encode(last.args).Some?);
        }
      }
    }
  }

  lemma {:induction false} ToolUseMeansCalls(reason: string, hasToolCalls: bool)
    ensures MapStopReason(reason, hasToolCalls) == "tool_use" <==> hasToolCalls
  {
    assert |"tool_use"| == 8 && |"end_turn"| == 8 && |"max_tokens"| == 10 && |"stop_sequence"| == 13;
    assert "tool_use"[0] != "end_turn"[0];
  }

  /** A whole stream, in any order: the client holds everything that was
      received, and the reason and usage of the final response; the reason is
      tool_use exactly when some tool block was sent. */
  lemma {:induction false} StreamDelivers<A>(
    encode: Encoder<A>, id: string, model: string, estimate: int, rs: seq<Response<A>>)
    requires OneStream(rs)
    ensures var a := AssembleAll(NOTHING, Converted(encode, NewConv(id, model, estimate), rs).1);
            var last := rs[|rs| - 1];
            var h := HeldBy(a.blocks);
            && a.id == id && a.model == model
            && h == Holding(AllContent(rs), Heard(encode, rs), Firsts(encode, AllCalls(rs)))
            && a.stopReason == MapStopReason(last.doneReason, h.toolUses != [])
            && (a.stopReason == "tool_use" <==> h.toolUses != [])
            && a.inputTokens == last.promptEvalCount && a.outputTokens == last.evalCount
  {
    hide SentIn;
    hide Attached;
    hide HeldBy;
    hide MapStopReason;
    hide AssembleAll;
    StreamIsFaithful(encode, id, model, estimate, rs);
    var (c, events) := Converted(encode, NewConv(id, model, estimate), rs);
    var calls, last := AllCalls(rs), rs[|rs| - 1];
    StreamEnds(encode, NewConv(id, model, estimate), rs);
    FirstsAreFirst(encode, calls);
    hide Firsts;
    var f := Firsts(encode, calls);
    assert c.sent != {} <==> f != [] by {
      if f != [] {
        assert f[0] in f && SentIn(encode, calls, f[0].id);
        assert f[0].id in c.sent;
      }
      if c.sent != {} {
        var k :| k in c.sent;
        assert SentIn(encode, calls, k);
      }
    }
    ToolUseMeansCalls(last.doneReason, f != []);
  }

  lemma {:induction false} StreamEnds<A>(encode: Encoder<A>, s: Conv, rs: seq<Response<A>>)
    requires rs != [] && rs[|rs| - 1].done
    ensures var (c, events) := Converted(encode, s, rs);
            var a := AssembleAll(NOTHING, events);
            var last := rs[|rs| - 1];
            && a.stopReason == MapStopReason(last.doneReason, c.sent != {})
            && a.inputTokens == last.promptEvalCount && a.outputTokens == last.evalCount
  {
    hide AssembleAll;
    hide MapStopReason;
    hide StartPart;
    hide ThinkingPart;
    hide TextPart;
    hide CallsPart;
    hide DonePart;
    var last := rs[|rs| - 1];
    var (c, before) := Converted(encode, s, rs[..|rs| - 1]);
    var (s1, start) := StartPart(c, last);
    var (s2, thinking) := ThinkingPart(s1, last.thinking);
    var (s3, text) := TextPart(s2, last.content);
    var (s4, calls) := CallsPart(encode, s3, last.toolCalls);
    var most := before + (start + thinking + text + calls);
    assert Converted(encode, s, rs).1 == most + DonePart(s4, last);
    AssembleConcat(NOTHING, most, DonePart(s4, last));
    DoneAssembles(s4, last, AssembleAll(NOTHING, most));
  }

  // Responses in phase order

  /** Thinking first, then text, then tool calls. */
  ghost predicate PhaseOrder<A>(rs: seq<Response<A>>) {
    forall i, j | 0 <= i < j < |rs| ::
      && (rs[j].thinking != "" ==> rs[i].content == "" && rs[i].toolCalls == [])
      && (rs[j].content != "" ==> rs[i].toolCalls == [])
  }

  ghost predicate Sendable<A>(encode: Encoder<A>, calls: seq<StreamCall<A>>) {
    && (forall i | 0 <= i < |calls| :: encode(calls[i].args).Some?)
    && (forall i, j | 0 <= i < j < |calls| :: calls[i].id != calls[j].id)
  }

  /** The responses of a stream put together into one. */
  function Merged<A>(rs: seq<Response<A>>): Response<A>
    requires rs != []
  {
    rs[|rs| - 1].(thinking := AllThinking(rs), content := AllContent(rs), toolCalls := AllCalls(rs))
  }

  function Rendered<A>(encode: Encoder<A>, b: ContentBlock<A>): Built
    requires b.ToolUse? ==> encode(b.input).Some?
  {
    match b
    case Thinking(text) => BuiltThinking(text)
    case Text(text) => BuiltText(text)
    case ToolUse(id, name, input) => BuiltToolUse(id, name, encode(input).value)
  }

  /** The three parts of a message, one after the other. */
  ghost function Shape<A>(
    encode: Encoder<A>, thinking: string, content: string, calls: seq<StreamCall<A>>): seq<Built> {
    (if thinking != "" then [BuiltThinking(thinking)] else [])
    + (if content != "" then [BuiltText(content)] else [])
    + Firsts(encode, calls)
  }

  lemma {:induction false} QuietBefore<A>(rs: seq<Response<A>>)
    ensures (forall r <- rs :: r.content == "") ==> AllContent(rs) == ""
    ensures (forall r <- rs :: r.toolCalls == []) ==> AllCalls(rs) == []
    decreases |rs|
  {
    if rs != [] {
      QuietBefore(rs[..|rs| - 1]);
      assert forall r <- rs[..|rs| - 1] :: r in rs;
      assert rs[|rs| - 1] in rs;
    }
  }

  lemma {:induction false} PhaseOfLast<A>(rs: seq<Response<A>>)
    requires rs != [] && PhaseOrder(rs)
    ensures var front, r := rs[..|rs| - 1], rs[|rs| - 1];
            && PhaseOrder(front)
            && (r.thinking != "" ==> AllContent(front) == "" && AllCalls(front) == [])
            && (r.content != "" ==> AllCalls(front) == [])
  {
    QuietBefore(rs[..|rs| - 1]);
  }

  lemma {:induction false} FreshWhenSendable<A>(
    encode: Encoder<A>, earlier: seq<StreamCall<A>>, calls: seq<StreamCall<A>>)
    requires Sendable(encode, earlier + calls)
    ensures Sendable(encode, earlier)
    ensures HasFresh(encode, earlier, calls) <==> calls != []
  {
    var all := earlier + calls;
    assert forall i | 0 <= i < |earlier| :: all[i] == earlier[i];
    if calls != [] {
      assert calls[0] in calls && all[|earlier|] == calls[0];
      assert forall i | 0 <= i < |earlier| :: earlier[i].id != calls[0].id;
      assert !SentIn(encode, earlier, calls[0].id);
    }
  }

  ghost predicate InPhase<A>(encode: Encoder<A>, rs: seq<Response<A>>, c: Conv, a: Assembled) {
    && (c.thinkingStarted <==> AllThinking(rs) != "")
    && (c.thinkingDone <==> AllThinking(rs) != "" && (AllContent(rs) != "" || AllCalls(rs) != []))
    && (c.textStarted <==> AllContent(rs) != "" && AllCalls(rs) == [])
    && a.blocks == Shape(encode, AllThinking(rs), AllContent(rs), AllCalls(rs))
  }

  lemma {:induction false} ShapeThinks<A>(encode: Encoder<A>, thinking: string, more: string)
    requires more != ""
    ensures thinking != "" ==> Shape(encode, thinking, "", []) != []
    ensures AppendThinking(Shape(encode, thinking, "", []), thinking != "", more) == Shape(encode, thinking + more, "", [])
  {
    if thinking == "" {
      assert thinking + more == more;
    }
  }

  lemma {:induction false} ShapeSpeaks<A>(encode: Encoder<A>, thinking: string, content: string, more: string)
    requires more != ""
    ensures content != "" ==> Shape(encode, thinking, content, []) != []
    ensures AppendText(Shape(encode, thinking, content, []), content != "", more)
            == Shape(encode, thinking, content + more, [])
  {
    if content == "" {
      assert content + more == more;
    }
  }

  /** One more response in its phase adds to the part it belongs to. */
  lemma {:induction false} ShapeAfter<A>(
    encode: Encoder<A>, c: Conv, blocks: seq<Built>, thinking: string, content: string, calls: seq<StreamCall<A>>,
    r: Response<A>)
    requires Attached(c, blocks) && blocks == Shape(encode, thinking, content, calls)
    requires c.thinkingStarted <==> thinking != ""
    requires c.thinkingDone <==> thinking != "" && (content != "" || calls != [])
    requires c.textStarted <==> content != "" && calls == []
    requires r.thinking != "" ==> content == "" && calls == []
    requires r.content != "" ==> calls == []
    ensures BlocksAfter(encode, c, calls, blocks, r)
            == Shape(encode, thinking + r.thinking, content + r.content, calls + r.toolCalls)
  {
    hide SentIn;
    hide Sound;
    hide Attached;
    hide AppendText;
    hide AppendThinking;
    hide Firsts;
    hide NewToolUses;
    assert thinking + "" == thinking && content + "" == content;
    var more := thinking + r.thinking;
    var b := if Hears(c, r) then AppendThinking(blocks, c.ThinkingOpen(), r.thinking) else blocks;
    assert b == Shape(encode, more, content, calls) by {
      if r.thinking != "" {
        ShapeThinks(encode, thinking, r.thinking);
      }
    }
    var d := if r.content != "" then AppendText(b, c.textStarted && !Hears(c, r), r.content) else b;
    assert d == Shape(encode, more, content + r.content, calls) by {
      if r.content != "" {
        ShapeSpeaks(encode, more, content, r.content);
      }
    }
    ShapeCalls(encode, more, content + r.content, calls, r.toolCalls);
  }

  lemma {:induction false} ShapeCalls<A>(
    encode: Encoder<A>, thinking: string, content: string, calls: seq<StreamCall<A>>, more: seq<StreamCall<A>>)
    ensures Shape(encode, thinking, content, calls) + NewToolUses(encode, calls, more)
            == Shape(encode, thinking, content, calls + more)
  {
    hide Firsts;
    hide NewToolUses;
  }

  lemma {:induction false} ShapeGrows<A>(encode: Encoder<A>, rs: seq<Response<A>>, c: Conv, a: Assembled)
    requires rs != [] && PhaseOrder(rs)
    requires Attached(c, a.blocks) && InPhase(encode, rs[..|rs| - 1], c, a)
    ensures BlocksAfter(encode, c, AllCalls(rs[..|rs| - 1]), a.blocks, rs[|rs| - 1])
            == Shape(encode, AllThinking(rs), AllContent(rs), AllCalls(rs))
  {
    hide Attached;
    hide BlocksAfter;
    hide Shape;
    var front, r := rs[..|rs| - 1], rs[|rs| - 1];
    PhaseOfLast(rs);
    hide PhaseOrder;
    ShapeAfter(encode, c, a.blocks, AllThinking(front), AllContent(front), AllCalls(front), r);
  }

  /** The flags stay those of the phase. */
  lemma {:induction false} FlagsInPhase<A>(encode: Encoder<A>, rs: seq<Response<A>>, c: Conv, a: Assembled, d: Conv)
    requires rs != [] && PhaseOrder(rs) && Sendable(encode, AllCalls(rs))
    requires InPhase(encode, rs[..|rs| - 1], c, a)
    requires FlagsAfter(encode, c, AllCalls(rs[..|rs| - 1]), rs[|rs| - 1], d)
    ensures d.thinkingStarted <==> AllThinking(rs) != ""
    ensures d.thinkingDone <==> AllThinking(rs) != "" && (AllContent(rs) != "" || AllCalls(rs) != [])
    ensures d.textStarted <==> AllContent(rs) != "" && AllCalls(rs) == []
  {
    hide SentIn;
    hide HasFresh;
    hide Shape;
    var front, r := rs[..|rs| - 1], rs[|rs| - 1];
    PhaseOfLast(rs);
    FreshWhenSendable(encode, AllCalls(front), r.toolCalls);
    hide Sendable;
    hide PhaseOrder;
  }

  lemma {:induction false} SendableFront<A>(encode: Encoder<A>, rs: seq<Response<A>>)
    requires rs != [] && Sendable(encode, AllCalls(rs))
    ensures Sendable(encode, AllCalls(rs[..|rs| - 1]))
  {
    FreshWhenSendable(encode, AllCalls(rs[..|rs| - 1]), rs[|rs| - 1].toolCalls);
  }

  lemma {:induction false} PhasedStream<A>(
    encode: Encoder<A>, id: string, model: string, estimate: int, rs: seq<Response<A>>)
    requires PhaseOrder(rs) && Sendable(encode, AllCalls(rs))
    ensures var (c, events) := Converted(encode, NewConv(id, model, estimate), rs);
            InPhase(encode, rs, c, AssembleAll(NOTHING, events))
    decreases |rs|
  {
    AssembleOne(NOTHING, MessageStop);
    if rs != [] {
      hide ProcessOf;
      hide SentIn;
      hide BlocksAfter;
      hide Sendable;
      hide FlagsAfter;
      hide AssembleAll;
      hide Attached;
      hide Shape;
      hide HeldBy;
      hide Firsts;
      hide Heard;
      hide ThinkingClosed;
      var front, r := rs[..|rs| - 1], rs[|rs| - 1];
      PhaseOfLast(rs);
      SendableFront(encode, rs);
      PhasedStream(encode, id, model, estimate, front);
      StreamIsFaithful(encode, id, model, estimate, front);
      var (c, before) := Converted(encode, NewConv(id, model, estimate), front);
      var a := AssembleAll(NOTHING, before);
      var (d, events) := ProcessOf(encode, c, r);
      AssembleConcat(NOTHING, before, events);
      ProcessAssembles(encode, c, AllCalls(front), r, a);
      ShapeGrows(encode, rs, c, a);
      FlagsInPhase(encode, rs, c, a, d);
      hide PhaseOrder;
    }
  }

  lemma {:induction false} FirstsOfSendable<A>(encode: Encoder<A>, calls: seq<StreamCall<A>>)
    requires Sendable(encode, calls)
    ensures |Firsts(encode, calls)| == |calls|
    ensures forall i | 0 <= i < |calls| ::
              Firsts(encode, calls)[i] == BuiltToolUse(calls[i].id, calls[i].name, encode(calls[i].args).value)
    decreases |calls|
  {
    if calls != [] {
      var front, last := calls[..|calls| - 1], calls[|calls| - 1];
      assert calls == front + [last];
      FreshWhenSendable(encode, front, [last]);
      FirstsOfSendable(encode, front);
      assert HasFresh(encode, front, [last]);
    }
  }

  /** The blocks that a client holds are those of the one-shot conversion. */
  ghost predicate Matches<A>(encode: Encoder<A>, blocks: seq<Built>, content: seq<ContentBlock<A>>) {
    && |blocks| == |content|
    && forall i | 0 <= i < |content| ::
         && (content[i].ToolUse? ==> encode(content[i].input).Some?)
         && blocks[i] == Rendered(encode, content[i])
  }

  /** For responses in phase order, with distinct and encodable calls, streaming
      and converting in one go agree: the client ends up with exactly the blocks,
      the reason and the usage of the merged response. */
  lemma {:induction false} StreamingRefinesOneShot<A>(encode: Encoder<A>, id: string, estimate: int, rs: seq<Response<A>>)
    requires OneStream(rs) && PhaseOrder(rs) && Sendable(encode, AllCalls(rs))
    ensures var a := AssembleAll(NOTHING, Converted(encode, NewConv(id, rs[|rs| - 1].model, estimate), rs).1);
            var m := ToMessagesResponse(id, Merged(rs));
            && a.id == m.id && a.model == m.model
            && Matches(encode, a.blocks, m.content)
            && a.stopReason == m.stopReason
            && a.inputTokens == m.inputTokens && a.outputTokens == m.outputTokens
  {
    hide AssembleAll;
    hide Converted;
    hide HeldBy;
    hide MapStopReason;
    hide Heard;
    hide Firsts;
    hide AllThinking;
    hide AllContent;
    hide AllCalls;
    hide PhaseOrder;
    var model := rs[|rs| - 1].model;
    var calls := AllCalls(rs);
    StreamDelivers(encode, id, model, estimate, rs);
    PhasedStream(encode, id, model, estimate, rs);
    FirstsOfSendable(encode, calls);
    ShapeIsRendered(encode, id, Merged(rs));
  }

  lemma {:induction false} ShapeIsRendered<A>(encode: Encoder<A>, id: string, r: Response<A>)
    requires Sendable(encode, r.toolCalls)
    requires |Firsts(encode, r.toolCalls)| == |r.toolCalls|
    requires forall i | 0 <= i < |r.toolCalls| ::
               Firsts(encode, r.toolCalls)[i]
               == BuiltToolUse(r.toolCalls[i].id, r.toolCalls[i].name, encode(r.toolCalls[i].args).value)
    ensures var blocks := Shape(encode, r.thinking, r.content, r.toolCalls);
            var content := ToMessagesResponse(id, r).content;
            Matches(encode, blocks, content)
  {
    hide Firsts;
    hide MapStopReason;
    var head := (if r.thinking != "" then [Thinking(r.thinking)] else [])
              + (if r.content != "" then [Text(r.content)] else []);
    var content := ToMessagesResponse(id, r).content;
    assert content == head + ToolUses(r.toolCalls);
    forall i | 0 <= i < |content|
      ensures content[i].ToolUse? ==> encode(content[i].input).Some?
      ensures Shape(encode, r.thinking, r.content, r.toolCalls)[i] == Rendered(encode, content[i])
    {
      if i >= |head| {
        assert content[i] == ToolUses(r.toolCalls)[i - |head|];
      }
    }
  }

  // The other direction: agreement needs phase order and sendable calls

  /** Thinking comes first, and text right behind it or first. */
  predicate InOrder(blocks: seq<Built>) {
    forall i | 0 <= i < |blocks| ::
      && (blocks[i].BuiltThinking? ==> i == 0)
      && (blocks[i].BuiltText? && i > 0 ==> blocks[i - 1].BuiltThinking?)
  }

  predicate SameKind(b: Built, c: Built) {
    (b.BuiltThinking? <==> c.BuiltThinking?) && (b.BuiltText? <==> c.BuiltText?)
  }

  /** A list of blocks that starts with blocks of the same kinds. */
  predicate Continues(blocks: seq<Built>, later: seq<Built>) {
    && |blocks| <= |later|
    && forall i | 0 <= i < |blocks| :: SameKind(blocks[i], later[i])
  }

  lemma {:induction false} InOrderBefore(blocks: seq<Built>, later: seq<Built>)
    requires Continues(blocks, later) && InOrder(later)
    ensures InOrder(blocks)
  {
    forall i | 0 <= i < |blocks|
      ensures blocks[i].BuiltThinking? ==> i == 0
      ensures blocks[i].BuiltText? && i > 0 ==> blocks[i - 1].BuiltThinking?
    {
      assert SameKind(blocks[i], later[i]);
      assert i > 0 ==> SameKind(blocks[i - 1], later[i - 1]);
    }
  }

  /** A response adds blocks behind those that are there, or adds to the last one. */
  lemma {:induction false} BlocksContinue<A>(
    encode: Encoder<A>, c: Conv, earlier: seq<StreamCall<A>>, blocks: seq<Built>, r: Response<A>)
    requires Attached(c, blocks)
    ensures Continues(blocks, BlocksAfter(encode, c, earlier, blocks, r))
  {
    hide NewToolUses;
    var b := if Hears(c, r) then AppendThinking(blocks, c.ThinkingOpen(), r.thinking) else blocks;
    assert Continues(blocks, b);
    var d := if r.content != "" then AppendText(b, c.textStarted && !Hears(c, r), r.content) else b;
    assert Continues(b, d);
  }

  lemma {:induction false} FirstsAreNoMore<A>(encode: Encoder<A>, calls: seq<StreamCall<A>>)
    ensures |Firsts(encode, calls)| <= |calls|
    decreases |calls|
  {
    if calls != [] {
      FirstsAreNoMore(encode, calls[..|calls| - 1]);
    }
  }

  /** If every call becomes a block, the calls are distinct and can be sent. */
  lemma {:induction false} AllFirstsAreSendable<A>(encode: Encoder<A>, calls: seq<StreamCall<A>>)
    requires |Firsts(encode, calls)| == |calls|
    ensures Sendable(encode, calls)
    decreases |calls|
  {
    if calls != [] {
      var front, last := calls[..|calls| - 1], calls[|calls| - 1];
      FirstsAreNoMore(encode, front);
      AllFirstsAreSendable(encode, front);
      assert !SentIn(encode, front, last.id) && encode(last.args).Some?;
      forall i | 0 <= i < |front| ensures calls[i].id != last.id {
        assert front[i] in front && encode(front[i].args).Some?;
      }
    }
  }

  lemma {:induction false} HeardIsNoMore<A>(encode: Encoder<A>, rs: seq<Response<A>>)
    ensures |Heard(encode, rs)| <= |AllThinking(rs)|
    decreases |rs|
  {
    if rs != [] {
      HeardIsNoMore(encode, rs[..|rs| - 1]);
    }
  }

  /** If all thinking was heard, it was all along. */
  lemma {:induction false} AllHeardBefore<A>(encode: Encoder<A>, rs: seq<Response<A>>)
    requires rs != [] && Heard(encode, rs) == AllThinking(rs)
    ensures var front := rs[..|rs| - 1];
            && Heard(encode, front) == AllThinking(front)
            && (rs[|rs| - 1].thinking != "" ==> !ThinkingClosed(encode, front))
  {
    var front, t := rs[..|rs| - 1], rs[|rs| - 1].thinking;
    HeardIsNoMore(encode, front);
    hide ThinkingClosed;
    var h, all := Heard(encode, front), AllThinking(front);
    assert AllThinking(rs) == all + t;
    if ThinkingClosed(encode, front) {
      assert h + "" == all + t;
      assert |h| == |all| + |t|;
    } else {
      assert h + t == all + t;
      assert h == (h + t)[..|h|] && all == (all + t)[..|all|];
    }
  }

  lemma {:induction false} NothingReceived<A>(rs: seq<Response<A>>)
    ensures AllContent(rs) == "" ==> forall r <- rs :: r.content == ""
    ensures AllCalls(rs) == [] ==> forall r <- rs :: r.toolCalls == []
    decreases |rs|
  {
    if rs != [] {
      NothingReceived(rs[..|rs| - 1]);
      assert rs == rs[..|rs| - 1] + [rs[|rs| - 1]];
    }
  }

  lemma {:induction false} PhaseOrderOfLast<A>(rs: seq<Response<A>>)
    requires rs != [] && PhaseOrder(rs[..|rs| - 1])
    requires rs[|rs| - 1].thinking != "" ==> AllContent(rs[..|rs| - 1]) == "" && AllCalls(rs[..|rs| - 1]) == []
    requires rs[|rs| - 1].content != "" ==> AllCalls(rs[..|rs| - 1]) == []
    ensures PhaseOrder(rs)
  {
    var front, r := rs[..|rs| - 1], rs[|rs| - 1];
    NothingReceived(front);
    forall i, j | 0 <= i < j < |rs|
      ensures rs[j].thinking != "" ==> rs[i].content == "" && rs[i].toolCalls == []
      ensures rs[j].content != "" ==> rs[i].toolCalls == []
    {
      assert rs[i] == front[i] && front[i] in front;
      assert j < |front| ==> rs[j] == front[j];
    }
  }

  /** Thinking or text that does not continue a block starts one. */
  lemma {:induction false} StartsABlock<A>(
    encode: Encoder<A>, c: Conv, earlier: seq<StreamCall<A>>, blocks: seq<Built>, r: Response<A>)
    requires Attached(c, blocks)
    ensures var later, k := BlocksAfter(encode, c, earlier, blocks, r), |blocks|;
            && (Hears(c, r) && !c.ThinkingOpen() ==> |later| > k && later[k].BuiltThinking?)
            && (r.thinking == "" && r.content != "" && !c.textStarted
                ==> |later| > k && later[k].BuiltText? && (k > 0 ==> later[k - 1] == blocks[k - 1]))
  {
    hide NewToolUses;
    hide Attached;
  }

  lemma {:induction false} ShapeEndsInToolUse<A>(
    encode: Encoder<A>, thinking: string, content: string, calls: seq<StreamCall<A>>)
    requires Firsts(encode, calls) != []
    ensures var blocks := Shape(encode, thinking, content, calls);
            blocks != [] && blocks[|blocks| - 1].BuiltToolUse?
  {
    FirstsAreToolUses(encode, calls);
    hide Firsts;
    var tools := Firsts(encode, calls);
    assert tools[|tools| - 1] in tools;
  }

  /** A response out of phase puts a block where the one-shot conversion has none of
      its kind. */
  lemma {:induction false} OutOfPhaseShows<A>(
    encode: Encoder<A>, c: Conv, blocks: seq<Built>, thinking: string, content: string, calls: seq<StreamCall<A>>,
    r: Response<A>)
    requires Attached(c, blocks) && blocks == Shape(encode, thinking, content, calls)
    requires |Firsts(encode, calls)| == |calls|
    requires c.thinkingStarted <==> thinking != ""
    requires c.thinkingDone <==> thinking != "" && (content != "" || calls != [])
    requires c.textStarted <==> content != "" && calls == []
    requires r.thinking != "" ==> !c.thinkingDone
    requires InOrder(BlocksAfter(encode, c, calls, blocks, r))
    ensures r.thinking != "" ==> content == "" && calls == []
    ensures r.content != "" ==> calls == []
  {
    StartsABlock(encode, c, calls, blocks, r);
    if calls != [] {
      ShapeEndsInToolUse(encode, thinking, content, calls);
    }
    hide Firsts;
    hide Attached;
    hide BlocksAfter;
  }

  lemma {:induction false} OrderedStreamIsPhased<A>(
    encode: Encoder<A>, id: string, model: string, estimate: int, rs: seq<Response<A>>)
    requires InOrder(AssembleAll(NOTHING, Converted(encode, NewConv(id, model, estimate), rs).1).blocks)
    requires Heard(encode, rs) == AllThinking(rs) && Sendable(encode, AllCalls(rs))
    ensures PhaseOrder(rs)
    decreases |rs|
  {
    if rs != [] {
      hide ProcessOf;
      hide SentIn;
      hide BlocksAfter;
      hide FlagsAfter;
      hide AssembleAll;
      hide Attached;
      hide Shape;
      hide HeldBy;
      hide Firsts;
      hide InOrder;
      hide Sendable;
      hide PhaseOrder;
      var front, r := rs[..|rs| - 1], rs[|rs| - 1];
      AllHeardBefore(encode, rs);
      hide Heard;
      hide ThinkingClosed;
      SendableFront(encode, rs);
      StreamIsFaithful(encode, id, model, estimate, front);
      var (c, before) := Converted(encode, NewConv(id, model, estimate), front);
      var a := AssembleAll(NOTHING, before);
      var (d, events) := ProcessOf(encode, c, r);
      AssembleConcat(NOTHING, before, events);
      ProcessAssembles(encode, c, AllCalls(front), r, a);
      BlocksContinue(encode, c, AllCalls(front), a.blocks, r);
      InOrderBefore(a.blocks, BlocksAfter(encode, c, AllCalls(front), a.blocks, r));
      OrderedStreamIsPhased(encode, id, model, estimate, front);
      PhasedStream(encode, id, model, estimate, front);
      FirstsOfSendable(encode, AllCalls(front));
      OutOfPhaseShows(encode, c, a.blocks, AllThinking(front), AllContent(front), AllCalls(front), r);
      PhaseOrderOfLast(rs);
    }
  }

  /** The text blocks in front of the tool blocks. */
  function Head(thinking: string, content: string): seq<Built> {
    (if thinking != "" then [BuiltThinking(thinking)] else []) + (if content != "" then [BuiltText(content)] else [])
  }

  lemma {:induction false} MatchingBlocksAre<A>(encode: Encoder<A>, id: string, blocks: seq<Built>, r: Response<A>)
    requires Matches(encode, blocks, ToMessagesResponse(id, r).content)
    ensures var n := |Head(r.thinking, r.content)|;
            && |blocks| == n + |r.toolCalls|
            && blocks[..n] == Head(r.thinking, r.content)
            && forall b <- blocks[n..] :: b.BuiltToolUse?
  {
    hide MapStopReason;
    var head := (if r.thinking != "" then [Thinking(r.thinking)] else [])
              + (if r.content != "" then [Text(r.content)] else []);
    var content := ToMessagesResponse(id, r).content;
    assert content == head + ToolUses(r.toolCalls);
    var n := |Head(r.thinking, r.content)|;
    assert |head| == n;
    forall i | 0 <= i < n ensures blocks[i] == Head(r.thinking, r.content)[i] {
      assert content[i] == head[i];
    }
    forall i | n <= i < |blocks| ensures blocks[i].BuiltToolUse? {
      assert content[i] == ToolUses(r.toolCalls)[i - n];
    }
  }

  /** What matches the one-shot conversion holds its thinking and has a block for
      every call, in order. */
  lemma {:induction false} MatchingBlocksHold<A>(encode: Encoder<A>, id: string, blocks: seq<Built>, r: Response<A>)
    requires Matches(encode, blocks, ToMessagesResponse(id, r).content)
    ensures InOrder(blocks)
    ensures HeldBy(blocks).thinking == r.thinking && |HeldBy(blocks).toolUses| == |r.toolCalls|
  {
    hide Matches;
    hide ToMessagesResponse;
    hide Head;
    hide InOrder;
    hide HeldBy;
    MatchingBlocksAre(encode, id, blocks, r);
    var n := |Head(r.thinking, r.content)|;
    HeadInOrder(blocks, r.thinking, r.content);
    HeldByHead(r.thinking, r.content);
    HoldsTools(blocks[..n], blocks[n..]);
    assert blocks == blocks[..n] + blocks[n..];
  }

  lemma {:induction false} HeadInOrder(blocks: seq<Built>, thinking: string, content: string)
    requires var n := |Head(thinking, content)|;
             n <= |blocks| && blocks[..n] == Head(thinking, content) && forall b <- blocks[n..] :: b.BuiltToolUse?
    ensures InOrder(blocks)
  {
    var n := |Head(thinking, content)|;
    forall i | 0 <= i < |blocks|
      ensures blocks[i].BuiltThinking? ==> i == 0
      ensures blocks[i].BuiltText? && i > 0 ==> blocks[i - 1].BuiltThinking?
    {
      if i < n {
        assert blocks[i] == blocks[..n][i];
        assert i > 0 ==> blocks[i - 1] == blocks[..n][i - 1];
      } else {
        assert blocks[n..][i - n] in blocks[n..];
      }
    }
  }

  lemma {:induction false} HeldByHead(thinking: string, content: string)
    ensures HeldBy(Head(thinking, content)) == Holding(content, thinking, [])
  {
    var none: seq<Built> := [];
    assert HeldBy(none) == Holding("", "", []);
    HeldByAppended(none, BuiltThinking(thinking));
    var first := if thinking != "" then none + [BuiltThinking(thinking)] else none;
    assert "" + thinking == thinking && "" + content == content;
    assert HeldBy(first) == Holding("", thinking, []);
    HeldByAppended(first, BuiltText(content));
    assert Head(thinking, content) == if content != "" then first + [BuiltText(content)] else first;
  }

  /** Streaming and converting in one go give the same blocks exactly when the
      responses come in phase order and the calls are distinct and can be encoded. */
  lemma {:induction false} StreamingAgreesIff<A>(encode: Encoder<A>, id: string, estimate: int, rs: seq<Response<A>>)
    requires OneStream(rs)
    ensures var a := AssembleAll(NOTHING, Converted(encode, NewConv(id, rs[|rs| - 1].model, estimate), rs).1);
            Matches(encode, a.blocks, ToMessagesResponse(id, Merged(rs)).content)
            <==> PhaseOrder(rs) && Sendable(encode, AllCalls(rs))
  {
    hide AssembleAll;
    hide Converted;
    hide HeldBy;
    hide MapStopReason;
    hide Heard;
    hide Firsts;
    hide AllThinking;
    hide AllContent;
    hide AllCalls;
    hide PhaseOrder;
    hide Sendable;
    hide Matches;
    hide InOrder;
    var model := rs[|rs| - 1].model;
    var a := AssembleAll(NOTHING, Converted(encode, NewConv(id, model, estimate), rs).1);
    if PhaseOrder(rs) && Sendable(encode, AllCalls(rs)) {
      StreamingRefinesOneShot(encode, id, estimate, rs);
    }
    if Matches(encode, a.blocks, ToMessagesResponse(id, Merged(rs)).content) {
      StreamDelivers(encode, id, model, estimate, rs);
      MatchingBlocksHold(encode, id, a.blocks, Merged(rs));
      AllFirstsAreSendable(encode, AllCalls(rs));
      OrderedStreamIsPhased(encode, id, model, estimate, rs);
    }
  }

  /** The order matters: text before thinking arrives as two blocks in the order
      of arrival, where the one-shot conversion puts the thinking first. */
  lemma {:induction false} OutOfOrderDiffers<A>(
    encode: Encoder<A>, id: string, model: string, estimate: int, first: Response<A>, second: Response<A>)
    requires first.thinking == "" && first.content != "" && first.toolCalls == []
    requires second.thinking != "" && second.content == "" && second.toolCalls == []
    ensures AssembleAll(NOTHING, Converted(encode, NewConv(id, model, estimate), [first, second]).1).blocks
            == [BuiltText(first.content), BuiltThinking(second.thinking)]
    ensures ToMessagesResponse(id, Merged([first, second])).content
            == [Thinking(second.thinking), Text(first.content)]
  {
    TextThenThinking(encode, NewConv(id, model, estimate), first, second);
    MergedOfTwo(first, second);
    hide AssembleAll;
    hide Converted;
    hide Merged;
    hide MapStopReason;
  }

  lemma {:induction false} MergedOfTwo<A>(first: Response<A>, second: Response<A>)
    requires first.thinking == "" && second.content == "" && first.toolCalls == second.toolCalls == []
    ensures var m := Merged([first, second]);
            m.thinking == second.thinking && m.content == first.content && m.toolCalls == []
  {
    var rs := [first, second];
    assert rs[..1] == [first] && [first][..0] == [];
    assert AllThinking([first]) == "" && AllContent([first]) == first.content && AllCalls([first]) == [];
    assert AllThinking(rs) == "" + second.thinking == second.thinking;
    assert AllContent(rs) == first.content + "" == first.content;
  }

  lemma {:induction false} TextThenThinking<A>(encode: Encoder<A>, c: Conv, first: Response<A>, second: Response<A>)
    requires c == NewConv(c.id, c.model, c.estimatedInputTokens)
    requires first.thinking == "" && first.content != "" && first.toolCalls == []
    requires second.thinking != "" && second.content == "" && second.toolCalls == []
    ensures AssembleAll(NOTHING, Converted(encode, c, [first, second]).1).blocks
            == [BuiltText(first.content), BuiltThinking(second.thinking)]
  {
    var (d, one) := ProcessOf(encode, c, first);
    var (e, two) := ProcessOf(encode, d, second);
    AssembleOne(NOTHING, MessageStop);
    hide AssembleAll;
    ConvertedTwo(encode, c, first, second);
    BlocksOfFirst(encode, c, first);
    var a := AssembleAll(NOTHING, one);
    BlocksOfSecond(encode, d, second, a);
    hide ProcessOf;
    AssembleConcat(NOTHING, one, two);
  }

  lemma {:induction false} ConvertedTwo<A>(encode: Encoder<A>, c: Conv, first: Response<A>, second: Response<A>)
    ensures var (d, one) := ProcessOf(encode, c, first);
            Converted(encode, c, [first, second]).1 == one + ProcessOf(encode, d, second).1
  {
    hide ProcessOf;
    assert [first, second][..1] == [first] && [first][..0] == [];
    assert Converted(encode, c, []) == (c, []);
    var (d, one) := ProcessOf(encode, c, first);
    assert Converted(encode, c, [first]) == (d, [] + one);
    assert [] + one == one;
  }

  lemma {:induction false} BlocksOfFirst<A>(encode: Encoder<A>, c: Conv, r: Response<A>)
    requires c == NewConv(c.id, c.model, c.estimatedInputTokens)
    requires r.thinking == "" && r.content != "" && r.toolCalls == []
    ensures var (d, events) := ProcessOf(encode, c, r);
            var a := AssembleAll(NOTHING, events);
            && a.blocks == [BuiltText(r.content)] && Attached(d, a.blocks)
            && d.textStarted && !d.thinkingStarted && !d.thinkingDone && d.sent == {}
  {
    ProcessAssembles(encode, c, [], r, NOTHING);
    hide AssembleAll;
    hide ProcessOf;
    NoNews(encode, r);
    hide NewToolUses;
    NothingSent(encode);
    hide SentIn;
  }

  lemma {:induction false} BlocksOfSecond<A>(encode: Encoder<A>, c: Conv, r: Response<A>, a: Assembled)
    requires Attached(c, a.blocks) && !c.thinkingStarted && !c.thinkingDone && c.sent == {}
    requires r.thinking != "" && r.content == "" && r.toolCalls == []
    ensures AssembleAll(a, ProcessOf(encode, c, r).1).blocks == a.blocks + [BuiltThinking(r.thinking)]
  {
    hide AssembleAll;
    hide ProcessOf;
    NothingSent(encode);
    hide SentIn;
    ProcessAssembles(encode, c, [], r, a);
    NoNews(encode, r);
    hide NewToolUses;
  }

  lemma {:induction false} NoNews<A>(encode: Encoder<A>, r: Response<A>)
    requires r.toolCalls == []
    ensures NewToolUses(encode, [], r.toolCalls) == []
  {
    var none: seq<StreamCall<A>> := [];
    assert none + r.toolCalls == none;
  }
}
