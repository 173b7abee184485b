/** The replies of the model: what the pieces of a stream add up to, and which
    replies a run takes in, agent/session.go. */
module Replies {
  import opened Options
  import opened Text
  import opened Messages
  import opened Compactor
  import opened Environment

  /** The events for one piece of a reply. */
  function DeltasOf(m: Message): seq<Happening> {
    (if m.thinking != "" then [Emitted(ThinkingDelta(m.thinking), false)] else [])
    + (if m.content != "" then [Emitted(MessageDelta(m.content), false)] else [])
    + (if m.toolCalls != [] then [Emitted(ToolCallDetected(m.toolCalls), false)] else [])
  }

  lemma {:induction false} NothingToEmit(m: Message)
    requires MessageEmpty(m)
    ensures DeltasOf(m) == []
  {
  }

  function AllDeltas(responses: seq<ChatResponse>): seq<Happening> {
    if responses == [] then []
    else AllDeltas(responses[..|responses| - 1]) + DeltasOf(responses[|responses| - 1].message)
  }

  /** One piece of a reply added to what came before. */
  function Accumulate(assistant: Message, m: Message): Message {
    assistant.(
      role := if m.role != Other("") then m.role else assistant.role,
      thinking := assistant.thinking + m.thinking,
      content := assistant.content + m.content,
      toolCalls := assistant.toolCalls + m.toolCalls)
  }

  /** The message that the pieces of a reply add up to. */
  function Accumulated(responses: seq<ChatResponse>): Message {
    if responses == [] then Message(Assistant, "", "", [], "", "")
    else Accumulate(Accumulated(responses[..|responses| - 1]), responses[|responses| - 1].message)
  }

  /** The first parts of a response, in the order thinking, content, tool calls. */
  function PartOf(m: Message, part: nat): Message {
    if part <= 1 then m.(content := "", toolCalls := [])
    else if part == 2 then m.(toolCalls := [])
    else m
  }

  /** The reply broke off inside response i, after some of its parts. */
  ghost predicate CutOff(responses: seq<ChatResponse>, assistant: Message, i: nat, part: nat) {
    i < |responses| && assistant == Accumulate(Accumulated(responses[..i]), PartOf(responses[i].message, part))
  }

  ghost predicate IsAccumulated(responses: seq<ChatResponse>, assistant: Message) {
    assistant == Accumulated(responses) || exists i: nat, part: nat :: CutOff(responses, assistant, i, part)
  }

  /** A message that can stand in a paired history: no tool result, and calls only
      from the assistant and never to the tool that only stands for compaction. */
  predicate CanStand(m: Message) {
    && m.role != Tool
    && (m.toolCalls != [] ==> m.role == Assistant)
    && forall call <- m.toolCalls :: call.name != COMPACTION_TOOL_NAME
  }

  /** Whatever the pieces of a reply add up to, also when a sink cuts it off, can
      stand in a history. */
  ghost predicate WellBehaved(world: World) {
    forall t: nat, m | IsAccumulated(world.chat(t).responses, m) :: CanStand(m)
  }

  /** A piece as the models give it: from the assistant or from nobody in particular. */
  predicate PlainPiece(m: Message) {
    && m.role in {Other(""), Assistant}
    && forall call <- m.toolCalls :: call.name != COMPACTION_TOOL_NAME
  }

  lemma {:induction false} PlainPiecesAddUp(responses: seq<ChatResponse>)
    requires forall r <- responses :: PlainPiece(r.message)
    ensures var m := Accumulated(responses);
            && m.role == Assistant
            && forall call <- m.toolCalls :: call.name != COMPACTION_TOOL_NAME
  {
    if responses != [] {
      PlainPiecesAddUp(responses[..|responses| - 1]);
    }
  }

  /** Replies of such pieces are well behaved. */
  lemma {:induction false} PlainReplyStands(responses: seq<ChatResponse>, m: Message)
    requires forall r <- responses :: PlainPiece(r.message)
    requires IsAccumulated(responses, m)
    ensures CanStand(m)
  {
    if m == Accumulated(responses) {
      PlainPiecesAddUp(responses);
    } else {
      var i: nat, part: nat :| CutOff(responses, m, i, part);
      assert responses[i] in responses;
      PlainPiecesAddUp(responses[..i]);
    }
  }

  // Which replies count

  predicate EndsTaken(e: Error, check: Option<Context>) {
    e.canceled || (check == Some(Canceled) && Contains(e.message, "context canceled"))
  }

  /** A reply is taken in when it came without an error, or when the cancellation
      of the context cut it short. */
  predicate Taken(world: World, r: Reply) {
    var err := world.chat(r.at).err;
    err.None? || EndsTaken(err.value, r.check)
  }

  function Said(world: World, r: Reply): Message {
    Accumulated(world.chat(r.at).responses)
  }

  /** The calls of all replies that were taken in. */
  function AcceptedCalls(world: World, replies: seq<Reply>): seq<ToolCall>
    decreases |replies|
  {
    if replies == [] then []
    else
      var last := replies[|replies| - 1];
      AcceptedCalls(world, replies[..|replies| - 1]) + if Taken(world, last) then Said(world, last).toolCalls else []
  }

  lemma {:induction false} AcceptedOfAppend(world: World, replies: seq<Reply>, r: Reply)
    ensures AcceptedCalls(world, replies + [r])
            == AcceptedCalls(world, replies) + if Taken(world, r) then Said(world, r).toolCalls else []
  {
    hide Taken;
    hide Said;
    assert (replies + [r])[..|replies|] == replies;
  }
}
