/** How the history of a run comes about: from the replies of the model, the answers
    to its calls and the compactions, turn by turn, agent/session.go. */
module Histories {
  import opened Options
  import opened Messages
  import opened ToolBudget
  import opened Compactor
  import opened Pairing
  import opened ToolBatch
  import opened Reattach
  import opened Environment
  import opened Replies
  import opened Clearing

  /** The settings of a session that a run depends on, and the world it is in. The
      last one is the number of user turns that a compaction keeps, if there is a
      compactor. */
  datatype RunTerms = RunTerms(
    tools: Option<Registry>, disableTools: bool, world: World, window: nat, threshold: nat,
    estimate: seq<Message> -> nat, keep: Option<nat>)

  /** How the calls of a reply were answered: not at all because the run ended, with
      the notice that tools are disabled, or as a batch that stopped in some way. */
  datatype Handling = Withheld | Refused | Ran(stop: Stop)

  /** What happens to a history: a reply is taken in; it is not, and the error is told
      to the model or ends the run; calls are answered; or a compaction replaces what
      stood before. */
  datatype Turn =
    | Heard(assistant: Message)
    | Told(error: Error)
    | Lost(error: Error)
    | Resolved(answers: seq<Answered>, how: Handling)
    | Replaced(kept: seq<Message>)
  {
    /** The model was asked, and this came of it. */
    predicate IsVoice() {
      Heard? || Told? || Lost?
    }
  }

  function RetryMessage(e: Error): Message {
    UserMessage("Your previous response caused an error: " + e.message + "\n\nPlease try again with a valid response.")
  }

  /** What a turn makes of the history before it. */
  function After(messages: seq<Message>, t: Turn): seq<Message> {
    match t
    case Heard(assistant) => messages + if MessageEmpty(assistant) then [] else [assistant]
    case Told(e) => messages + [RetryMessage(e)]
    case Lost(_) => messages
    case Resolved(answers, _) => messages + MessagesOf(answers)
    case Replaced(kept) => kept
  }

  function History(initial: seq<Message>, turns: seq<Turn>): seq<Message>
    decreases |turns|
  {
    if turns == [] then initial
    else After(History(initial, turns[..|turns| - 1]), turns[|turns| - 1])
  }

  /** The requests: the history as it was each time the model was asked. */
  function RequestsOf(prompt: string, initial: seq<Message>, turns: seq<Turn>): seq<seq<Message>>
    decreases |turns|
  {
    if turns == [] then []
    else
      var front := turns[..|turns| - 1];
      RequestsOf(prompt, initial, front)
      + if turns[|turns| - 1].IsVoice() then [RequestMessages(prompt, History(initial, front))] else []
  }

  function AnswersIn(turns: seq<Turn>): seq<Answered>
    decreases |turns|
  {
    if turns == [] then []
    else
      var t := turns[|turns| - 1];
      AnswersIn(turns[..|turns| - 1]) + if t.Resolved? then t.answers else []
  }

  /** The server errors that have been told to the model one after the other. */
  function Streak(turns: seq<Turn>): nat
    decreases |turns|
  {
    if turns == [] || !turns[|turns| - 1].Told? then 0 else Streak(turns[..|turns| - 1]) + 1
  }

  // Which turn may follow

  /** The last reply has calls, which are still to be answered. */
  predicate Pending(turns: seq<Turn>) {
    turns != [] && var t := turns[|turns| - 1]; t.Heard? && t.assistant.toolCalls != []
  }

  predicate WentOn(t: Turn) {
    t.Resolved? && t.how in {Refused, Ran(NoStop)}
  }

  /** The model is asked at the start, after an error that it was told, and after a
      round whose calls were answered without a stop. */
  predicate GoesOn(turns: seq<Turn>) {
    turns == []
    || match turns[|turns| - 1]
       case Told(_) => true
       case Replaced(_) => |turns| > 1 && WentOn(turns[|turns| - 2])
       case t => WentOn(t)
  }

  /** A round is over: its reply has no calls, or they are answered. */
  predicate RoundIsOver(turns: seq<Turn>) {
    && turns != []
    && match turns[|turns| - 1]
       case Heard(assistant) => assistant.toolCalls == []
       case Resolved(_, how) => how != Withheld
       case _ => false
  }

  ghost predicate MayAsk(terms: RunTerms, calls: seq<ToolCall>) {
    terms.tools.Some? && exists call <- calls :: RequiresApproval(terms.tools.value, call)
  }

  /** A batch is only denied when one of its calls needs approval, and only canceled
      when the context is. */
  ghost predicate StopHasReason(terms: RunTerms, calls: seq<ToolCall>, stop: Stop) {
    match stop
    case NoStop => true
    case DeniedStop => !terms.disableTools && MayAsk(terms, calls)
    case CanceledStop => !ContextHolds(terms.world)
  }

  /** These are answers to the calls, given in this way, at the running total of a
      history. A batch that did not stop runs every call of a known tool. */
  ghost predicate Resolves(
    terms: RunTerms, messages: seq<Message>, calls: seq<ToolCall>, answers: seq<Answered>, how: Handling)
  {
    && CallsOf(answers) == calls
    && WellFitted(terms.window, terms.threshold, terms.estimate(messages), answers)
    && match how
       case Withheld => forall a <- answers :: a.outcome == Skipped
       case Refused => terms.disableTools && forall a <- answers :: a.outcome == Disabled && a.raw == DisabledMessage()
       case Ran(stop) =>
         && !terms.disableTools && terms.tools.Some?
         && Plays(terms.tools.value, stop, answers) && StopHasReason(terms, calls, stop)
  }

  function OverflowsIn(t: Turn): seq<Overflow> {
    if t.Resolved? && t.how.Ran? && t.how.stop != DeniedStop then OverflowsOf(t.answers) else []
  }

  /** After an overflow everything but the last batch is archived and the batch put
      back; otherwise the history is compacted along a split. */
  ghost predicate Recasts(terms: RunTerms, messages: seq<Message>, turns: seq<Turn>, kept: seq<Message>)
  {
    && terms.keep.Some? && turns != []
    && var t := turns[|turns| - 1];
       if OverflowsIn(t) != [] then
         && |turns| > 1 && turns[|turns| - 2].Heard?
         && IsReattached(
              terms.window, terms.estimate, messages, turns[|turns| - 2].assistant, MessagesOf(t.answers), OverflowsIn(t), kept)
       else
         IsCompacted(messages, terms.keep.value, kept)
  }

  /** What may follow some turns, which have made this history. */
  ghost predicate MayFollow(terms: RunTerms, messages: seq<Message>, turns: seq<Turn>, t: Turn) {
    match t
    case Heard(_) => GoesOn(turns)
    case Told(e) => GoesOn(turns) && e.status >= 500 && Streak(turns) < 2
    case Lost(e) => GoesOn(turns) && (e.status < 500 || Streak(turns) >= 2)
    case Resolved(answers, how) =>
      Pending(turns) && Resolves(terms, messages, turns[|turns| - 1].assistant.toolCalls, answers, how)
    case Replaced(kept) => RoundIsOver(turns) && Recasts(terms, messages, turns, kept)
  }

  ghost predicate Plausible(terms: RunTerms, initial: seq<Message>, turns: seq<Turn>)
    decreases |turns|
  {
    turns == []
    || (var front := turns[..|turns| - 1];
        && Plausible(terms, initial, front)
        && MayFollow(terms, History(initial, front), front, turns[|turns| - 1]))
  }

  // What the model has said

  /** This came of a reply; when no sink has failed it is the reply, whole. */
  ghost predicate CameOf(world: World, t: Turn, r: Reply, sound: bool) {
    match t
    case Heard(assistant) =>
      && IsAccumulated(world.chat(r.at).responses, assistant)
      && (sound ==> Taken(world, r) && assistant == Said(world, r))
    case Told(e) => sound ==> !Taken(world, r) && world.chat(r.at).err == Some(e)
    case Lost(e) => sound ==> !Taken(world, r) && world.chat(r.at).err == Some(e)
    case _ => false
  }

  /** The replies, in order, and what came of each. */
  ghost predicate Voiced(world: World, turns: seq<Turn>, replies: seq<Reply>, sound: bool)
    decreases |turns|
  {
    if turns == [] then replies == []
    else
      var front, t := turns[..|turns| - 1], turns[|turns| - 1];
      if t.IsVoice() then
        && replies != []
        && CameOf(world, t, replies[|replies| - 1], sound)
        && Voiced(world, front, replies[..|replies| - 1], sound)
      else
        Voiced(world, front, replies, sound)
  }

  lemma {:induction false} OfAppend(turns: seq<Turn>, t: Turn, initial: seq<Message>, prompt: string)
    ensures History(initial, turns + [t]) == After(History(initial, turns), t)
    ensures RequestsOf(prompt, initial, turns + [t])
            == RequestsOf(prompt, initial, turns)
               + if t.IsVoice() then [RequestMessages(prompt, History(initial, turns))] else []
    ensures AnswersIn(turns + [t]) == AnswersIn(turns) + if t.Resolved? then t.answers else []
  {
    hide After;
    hide RequestMessages;
    assert (turns + [t])[..|turns|] == turns;
  }

  lemma {:induction false} PlausibleAppend(terms: RunTerms, initial: seq<Message>, turns: seq<Turn>, t: Turn)
    requires Plausible(terms, initial, turns) && MayFollow(terms, History(initial, turns), turns, t)
    ensures Plausible(terms, initial, turns + [t])
  {
    hide MayFollow;
    hide History;
    assert (turns + [t])[..|turns|] == turns;
  }

  lemma {:induction false} VoicedAppend(world: World, turns: seq<Turn>, t: Turn, replies: seq<Reply>, r: Reply, sound: bool)
    requires Voiced(world, turns, replies, sound)
    ensures t.IsVoice() && CameOf(world, t, r, sound) ==> Voiced(world, turns + [t], replies + [r], sound)
    ensures !t.IsVoice() ==> Voiced(world, turns + [t], replies, sound)
  {
    hide CameOf;
    assert (turns + [t])[..|turns|] == turns;
    assert (replies + [r])[..|replies|] == replies;
  }

  lemma {:induction false} VoicedWeakens(world: World, turns: seq<Turn>, replies: seq<Reply>, sound: bool, less: bool)
    requires Voiced(world, turns, replies, sound) && (less ==> sound)
    ensures Voiced(world, turns, replies, less)
    decreases |turns|
  {
    hide Taken;
    hide Said;
    hide IsAccumulated;
    if turns != [] {
      var front := turns[..|turns| - 1];
      VoicedWeakens(world, front, if turns[|turns| - 1].IsVoice() then replies[..|replies| - 1] else replies, sound, less);
    }
  }

  // A history of well behaved replies is well paired

  ghost predicate IsCallMessage(m: Message) {
    && m.role == Assistant && m.toolCalls != []
    && forall call <- m.toolCalls :: call.name != COMPACTION_TOOL_NAME
  }

  /** The messages end in a call whose results are still to come. */
  ghost predicate EndsInCall(messages: seq<Message>, assistant: Message) {
    && messages != [] && messages[|messages| - 1] == assistant
    && Paired(messages[..|messages| - 1]) && IsCallMessage(assistant)
  }

  /** Every reply can stand in a history. */
  ghost predicate AllStand(turns: seq<Turn>) {
    forall t <- turns :: t.Heard? ==> CanStand(t.assistant)
  }

  /** The history is paired, but for the calls that are still to be answered. */
  ghost predicate IsKept(messages: seq<Message>, turns: seq<Turn>) {
    if Pending(turns) then EndsInCall(messages, turns[|turns| - 1].assistant) else Paired(messages)
  }

  lemma {:induction false} AllStandInFront(turns: seq<Turn>)
    requires turns != [] && AllStand(turns)
    ensures AllStand(turns[..|turns| - 1])
    ensures turns[|turns| - 1].Heard? ==> CanStand(turns[|turns| - 1].assistant)
  {
    assert turns[|turns| - 1] in turns;
    assert forall t <- turns[..|turns| - 1] :: t in turns;
  }

  lemma {:induction false} HeardIsKept(messages: seq<Message>, turns: seq<Turn>, assistant: Message)
    requires GoesOn(turns) && IsKept(messages, turns) && CanStand(assistant)
    ensures IsKept(After(messages, Heard(assistant)), turns + [Heard(assistant)])
  {
    hide Paired;
    assert messages + [] == messages;
    if assistant.toolCalls == [] {
      PairedAppend(messages, assistant);
    } else {
      assert (messages + [assistant])[..|messages|] == messages;
    }
  }

  /** The answers to a call message belong to it. */
  lemma {:induction false} AnswersBelong(
    assistant: Message, window: int, budget: int, history: nat, answers: seq<Answered>)
    requires IsCallMessage(assistant) && CallsOf(answers) == assistant.toolCalls
    requires WellFitted(window, budget, history, answers)
    ensures AnswersAll(assistant.toolCalls, MessagesOf(answers), false) && !IsCompactionToolCall(assistant)
    ensures forall m <- MessagesOf(answers) :: m.toolName != COMPACTION_TOOL_NAME
  {
    hide WellFitted;
    hide AnswersAll;
    var calls, results := assistant.toolCalls, MessagesOf(answers);
    AnswersArePaired(calls, window, budget, history, answers);
    forall m | m in results ensures m.toolName != COMPACTION_TOOL_NAME {
      var i :| 0 <= i < |results| && results[i] == m;
      assert calls[i] in calls;
    }
  }

  lemma {:induction false} ResolvedIsKept(
    terms: RunTerms, messages: seq<Message>, turns: seq<Turn>, answers: seq<Answered>, how: Handling)
    requires MayFollow(terms, messages, turns, Resolved(answers, how)) && IsKept(messages, turns)
    ensures IsKept(After(messages, Resolved(answers, how)), turns + [Resolved(answers, how)])
  {
    hide Paired;
    hide WellFitted;
    hide Plays;
    hide StopHasReason;
    var assistant := turns[|turns| - 1].assistant;
    var front, results := messages[..|messages| - 1], MessagesOf(answers);
    AnswersBelong(assistant, terms.window, terms.threshold, terms.estimate(messages), answers);
    hide IsCompactionToolCall;
    hide AnswersAll;
    hide MessagesOf;
    PairedBatch(assistant, results);
    PairedConcat(front, [assistant] + results);
    assert messages + results == front + ([assistant] + results);
  }

  lemma {:induction false} OverflowNames(calls: seq<ToolCall>, answers: seq<Answered>)
    requires CallsOf(answers) == calls && forall call <- calls :: call.name != COMPACTION_TOOL_NAME
    ensures forall o <- OverflowsOf(answers) :: o.toolName != COMPACTION_TOOL_NAME
  {
    hide OverflowsOf;
    OverflowsComeFromAnswers(answers);
    forall o | o in OverflowsOf(answers) ensures o.toolName != COMPACTION_TOOL_NAME {
      var a :| a in answers && a.call.name == o.toolName;
      var i :| 0 <= i < |answers| && answers[i] == a;
      assert calls[i] in calls;
    }
  }

  /** A batch put back after the compaction that it caused. */
  lemma {:induction false} ReattachedIsKept(
    terms: RunTerms, initial: seq<Message>, turns: seq<Turn>, kept: seq<Message>)
    requires Plausible(terms, initial, turns) && AllStand(turns)
    requires |turns| > 1 && turns[|turns| - 1].Resolved? && turns[|turns| - 2].Heard?
    requires Paired(History(initial, turns))
    requires var t := turns[|turns| - 1];
             IsReattached(terms.window, terms.estimate, History(initial, turns), turns[|turns| - 2].assistant,
                          MessagesOf(t.answers), OverflowsIn(t), kept)
    ensures Paired(kept)
  {
    hide Paired;
    hide IsReattached;
    hide History;
    hide WellFitted;
    hide Plays;
    hide StopHasReason;
    hide IsCompactionToolCall;
    hide AnswersAll;
    var t, front := turns[|turns| - 1], turns[..|turns| - 1];
    var assistant := turns[|turns| - 2].assistant;
    AllStandInFront(turns);
    AllStandInFront(front);
    assert front[|front| - 1] == turns[|turns| - 2];
    assert MayFollow(terms, History(initial, front), front, t);
    AnswersBelong(assistant, terms.window, terms.threshold, terms.estimate(History(initial, front)), t.answers);
    OverflowNames(assistant.toolCalls, t.answers);
    hide MessagesOf;
    hide OverflowsOf;
    ReattachedIsPaired(
      terms.window, terms.estimate, History(initial, turns), assistant, MessagesOf(t.answers), OverflowsIn(t), kept);
  }

  lemma {:induction false} CompactedIsPaired(messages: seq<Message>, keep: int, kept: seq<Message>)
    requires Paired(messages) && IsCompacted(messages, keep, kept)
    ensures Paired(kept)
  {
    hide IsSplit;
    hide Paired;
    hide CompactedHistory;
    var s, summary :| CompactedBy(messages, keep, kept, s, summary);
    CompactionKeepsPairing(messages, keep, s, summary, true);
  }

  lemma {:induction false} ReplacedIsKept(
    terms: RunTerms, initial: seq<Message>, turns: seq<Turn>, kept: seq<Message>)
    requires Plausible(terms, initial, turns) && AllStand(turns) && IsKept(History(initial, turns), turns)
    requires MayFollow(terms, History(initial, turns), turns, Replaced(kept))
    ensures IsKept(kept, turns + [Replaced(kept)])
  {
    hide Paired;
    hide IsReattached;
    hide IsCompacted;
    hide Plausible;
    hide AllStand;
    hide OverflowsOf;
    hide MessagesOf;
    hide History;
    if OverflowsIn(turns[|turns| - 1]) != [] {
      ReattachedIsKept(terms, initial, turns, kept);
    } else {
      CompactedIsPaired(History(initial, turns), terms.keep.value, kept);
    }
  }

  /** Whatever the run does, its history is well paired, but for the calls that are
      still to be answered. */
  lemma {:induction false} HistoryIsPaired(terms: RunTerms, initial: seq<Message>, turns: seq<Turn>)
    requires Plausible(terms, initial, turns) && Paired(initial) && AllStand(turns)
    ensures IsKept(History(initial, turns), turns)
    decreases |turns|
  {
    hide Paired;
    if turns != [] {
      hide MayFollow;
      hide EndsInCall;
      var front, t := turns[..|turns| - 1], turns[|turns| - 1];
      AllStandInFront(turns);
      HistoryIsPaired(terms, initial, front);
      assert turns == front + [t];
      hide IsKept;
      hide AllStand;
      hide Plausible;
      TurnIsKept(terms, initial, front, t);
    }
  }

  lemma {:induction false} TurnIsKept(terms: RunTerms, initial: seq<Message>, turns: seq<Turn>, t: Turn)
    requires Plausible(terms, initial, turns) && MayFollow(terms, History(initial, turns), turns, t)
    requires AllStand(turns) && (t.Heard? ==> CanStand(t.assistant)) && IsKept(History(initial, turns), turns)
    ensures IsKept(After(History(initial, turns), t), turns + [t])
  {
    hide History;
    hide Resolves;
    hide Recasts;
    hide Plausible;
    hide AllStand;
    hide CanStand;
    hide Paired;
    hide EndsInCall;
    hide MessagesOf;
    var messages := History(initial, turns);
    match t
    case Heard(assistant) => HeardIsKept(messages, turns, assistant);
    case Told(e) => PairedAppend(messages, RetryMessage(e));
    case Lost(_) =>
    case Resolved(answers, how) => ResolvedIsKept(terms, messages, turns, answers, how);
    case Replaced(kept) => ReplacedIsKept(terms, initial, turns, kept);
  }

  /** And so is every request. */
  lemma {:induction false} RequestsArePaired(terms: RunTerms, prompt: string, initial: seq<Message>, turns: seq<Turn>)
    requires Plausible(terms, initial, turns) && Paired(initial) && AllStand(turns)
    ensures forall r <- RequestsOf(prompt, initial, turns) :: Paired(r)
    decreases |turns|
  {
    hide Paired;
    hide RequestMessages;
    hide History;
    if turns != [] {
      var front, t := turns[..|turns| - 1], turns[|turns| - 1];
      AllStandInFront(turns);
      hide AllStand;
      RequestsArePaired(terms, prompt, initial, front);
      if t.IsVoice() {
        HistoryIsPaired(terms, initial, front);
        RequestKeepsPairing(prompt, History(initial, front));
      }
    }
  }

  // What the turns of a run say

  lemma {:induction false} PlausibleAt(terms: RunTerms, initial: seq<Message>, turns: seq<Turn>, i: nat)
    requires Plausible(terms, initial, turns) && i < |turns|
    ensures Plausible(terms, initial, turns[..i])
    ensures MayFollow(terms, History(initial, turns[..i]), turns[..i], turns[i])
    decreases |turns|
  {
    hide MayFollow;
    hide History;
    var front := turns[..|turns| - 1];
    if i < |front| {
      PlausibleAt(terms, initial, front, i);
      assert front[..i] == turns[..i] && front[i] == turns[i];
    }
  }

  /** Answers stand behind the reply whose calls they answer. */
  lemma {:induction false} ResolvedMeans(terms: RunTerms, initial: seq<Message>, turns: seq<Turn>, i: nat)
    requires Plausible(terms, initial, turns) && i < |turns| && turns[i].Resolved?
    ensures i > 0 && turns[i - 1].Heard?
    ensures Resolves(terms, History(initial, turns[..i]), turns[i - 1].assistant.toolCalls, turns[i].answers, turns[i].how)
  {
    hide Plausible;
    hide History;
    hide Resolves;
    hide MayFollow;
    PlausibleAt(terms, initial, turns, i);
    ResolvedBehindReply(terms, History(initial, turns[..i]), turns[..i], turns[i].answers, turns[i].how);
  }

  lemma {:induction false} ResolvedBehindReply(
    terms: RunTerms, messages: seq<Message>, turns: seq<Turn>, answers: seq<Answered>, how: Handling)
    requires MayFollow(terms, messages, turns, Resolved(answers, how))
    ensures turns != [] && turns[|turns| - 1].Heard?
    ensures Resolves(terms, messages, turns[|turns| - 1].assistant.toolCalls, answers, how)
  {
    hide Resolves;
  }

  /** A batch that did not stop runs every call of a known tool, and no other. */
  lemma {:induction false} UnstoppedBatchRunsAll(
    terms: RunTerms, initial: seq<Message>, turns: seq<Turn>, i: nat, a: Answered)
    requires Plausible(terms, initial, turns) && i < |turns|
    requires turns[i].Resolved? && turns[i].how == Ran(NoStop) && a in turns[i].answers
    ensures terms.tools.Some? && (a.Executed() <==> a.call.name in terms.tools.value)
  {
    ResolvedMeans(terms, initial, turns, i);
    hide Plausible;
    hide History;
    hide WellFitted;
    hide CallsOf;
  }

  /** What the turns add to a history. */
  function Added(turns: seq<Turn>): seq<Message>
    decreases |turns|
  {
    if turns == [] then [] else Added(turns[..|turns| - 1]) + After([], turns[|turns| - 1])
  }

  /** Without a compactor nothing is ever replaced: the history is what it was at the
      start, followed by every reply, the errors told to the model, and every answer,
      in order. */
  lemma {:induction false} HistoryOnlyGrows(terms: RunTerms, initial: seq<Message>, turns: seq<Turn>)
    requires Plausible(terms, initial, turns) && terms.keep.None?
    ensures forall t <- turns :: !t.Replaced?
    ensures History(initial, turns) == initial + Added(turns)
  {
    hide Plausible;
    hide History;
    hide Added;
    NothingReplaced(terms, initial, turns);
    TurnsAddUp(initial, turns);
  }

  lemma {:induction false} NothingReplaced(terms: RunTerms, initial: seq<Message>, turns: seq<Turn>)
    requires Plausible(terms, initial, turns) && terms.keep.None?
    ensures forall t <- turns :: !t.Replaced?
    decreases |turns|
  {
    hide MayFollow;
    hide History;
    if turns != [] {
      var front, t := turns[..|turns| - 1], turns[|turns| - 1];
      NothingReplaced(terms, initial, front);
      ReplacedByCompactor(terms, History(initial, front), front, t);
      assert turns == front + [t];
    }
  }

  lemma {:induction false} TurnsAddUp(initial: seq<Message>, turns: seq<Turn>)
    requires forall t <- turns :: !t.Replaced?
    ensures History(initial, turns) == initial + Added(turns)
    decreases |turns|
  {
    hide After;
    if turns == [] {
      assert initial + [] == initial;
    } else {
      var front, t := turns[..|turns| - 1], turns[|turns| - 1];
      assert t in turns && forall x <- front :: x in turns;
      TurnsAddUp(initial, front);
      AfterAdds(initial + Added(front), t);
    }
  }

  lemma {:induction false} ReplacedByCompactor(terms: RunTerms, messages: seq<Message>, turns: seq<Turn>, t: Turn)
    requires MayFollow(terms, messages, turns, t)
    ensures t.Replaced? ==> terms.keep.Some?
  {
    hide IsReattached;
    hide IsCompacted;
    hide Resolves;
    hide Streak;
    hide GoesOn;
    hide OverflowsIn;
  }

  lemma {:induction false} AfterAdds(messages: seq<Message>, t: Turn)
    requires !t.Replaced?
    ensures After(messages, t) == messages + After([], t)
  {
    hide MessagesOf;
    hide RetryMessage;
    hide MessageEmpty;
  }

  /** A batch put back after a compaction fits the window with what stands before it,
      or some result in it has been left out visibly. */
  lemma {:induction false} ReattachedBatchFits(terms: RunTerms, initial: seq<Message>, turns: seq<Turn>, i: nat)
    requires Plausible(terms, initial, turns) && 0 < i < |turns| && terms.window > 0
    requires turns[i].Replaced? && OverflowsIn(turns[i - 1]) != []
    ensures FitsOrSaysSo(terms.window, terms.estimate, turns[i].kept, |turns[i - 1].answers|)
  {
    hide Plausible;
    hide FitsOrSaysSo;
    hide IsReattached;
    hide Resolves;
    hide History;
    hide MessagesOf;
    hide OverflowsOf;
    ReattachedMeans(terms, initial, turns, i);
    ResolvedAreShort(terms, initial, turns, i - 1);
    var t := turns[i - 1];
    SomethingOverflowed(t.answers);
    ReattachmentFits(
      terms.window, terms.estimate, History(initial, turns[..i]), turns[i - 2].assistant, MessagesOf(t.answers),
      OverflowsIn(t), turns[i].kept);
  }

  lemma {:induction false} ReattachedMeans(terms: RunTerms, initial: seq<Message>, turns: seq<Turn>, i: nat)
    requires Plausible(terms, initial, turns) && 0 < i < |turns|
    requires turns[i].Replaced? && OverflowsIn(turns[i - 1]) != []
    ensures i > 1 && turns[i - 2].Heard?
    ensures IsReattached(terms.window, terms.estimate, History(initial, turns[..i]), turns[i - 2].assistant,
                         MessagesOf(turns[i - 1].answers), OverflowsIn(turns[i - 1]), turns[i].kept)
  {
    hide Plausible;
    hide IsReattached;
    hide MayFollow;
    hide History;
    hide MessagesOf;
    hide OverflowsIn;
    PlausibleAt(terms, initial, turns, i);
    var before := turns[..i];
    assert before[i - 1] == turns[i - 1] && (i > 1 ==> before[i - 2] == turns[i - 2]);
    RecastMeans(terms, History(initial, before), before, turns[i].kept);
  }

  lemma {:induction false} RecastMeans(terms: RunTerms, messages: seq<Message>, turns: seq<Turn>, kept: seq<Message>)
    requires MayFollow(terms, messages, turns, Replaced(kept))
    ensures turns != []
    ensures var t := turns[|turns| - 1];
            OverflowsIn(t) != [] ==>
              && |turns| > 1 && turns[|turns| - 2].Heard? && t.Resolved?
              && IsReattached(
                   terms.window, terms.estimate, messages, turns[|turns| - 2].assistant, MessagesOf(t.answers),
                   OverflowsIn(t), kept)
  {
    hide IsReattached;
    hide IsCompacted;
    hide OverflowsOf;
    hide MessagesOf;
  }

  lemma {:induction false} ResolvedAreShort(terms: RunTerms, initial: seq<Message>, turns: seq<Turn>, i: nat)
    requires Plausible(terms, initial, turns) && i < |turns| && turns[i].Resolved?
    ensures forall m <- MessagesOf(turns[i].answers) :: |m.content| <= MAX_TOOL_RESULT_RUNES + 223
  {
    ResolvedMeans(terms, initial, turns, i);
    hide Plausible;
    hide History;
    hide WellFitted;
    hide Plays;
    hide StopHasReason;
    AnswersAreShort(terms.window, terms.threshold, terms.estimate(History(initial, turns[..i])), turns[i].answers);
    hide MessagesOf;
  }

  lemma {:induction false} SomethingOverflowed(answers: seq<Answered>)
    ensures OverflowsOf(answers) != [] ==> answers != []
  {
  }

  /** Every time the model is asked it is given the history as it is then, and those
      are all the requests. */
  lemma {:induction false} RequestAt(prompt: string, initial: seq<Message>, turns: seq<Turn>, i: nat)
    requires i < |turns| && turns[i].IsVoice()
    ensures var k := |RequestsOf(prompt, initial, turns[..i])|;
            && k < |RequestsOf(prompt, initial, turns)|
            && RequestsOf(prompt, initial, turns)[k] == RequestMessages(prompt, History(initial, turns[..i]))
    decreases |turns|
  {
    hide RequestMessages;
    hide History;
    var front := turns[..|turns| - 1];
    if i < |front| {
      RequestAt(prompt, initial, front, i);
      assert front[..i] == turns[..i];
    }
  }

  /** The first one is the history that the run began with. */
  lemma {:induction false} FirstRequest(terms: RunTerms, prompt: string, initial: seq<Message>, turns: seq<Turn>)
    requires Plausible(terms, initial, turns) && turns != []
    ensures RequestsOf(prompt, initial, turns) != []
    ensures RequestsOf(prompt, initial, turns)[0] == RequestMessages(prompt, initial)
  {
    PlausibleAt(terms, initial, turns, 0);
    hide Plausible;
    hide RequestMessages;
    hide Resolves;
    hide Recasts;
    assert turns[..0] == [] && turns[0].IsVoice();
    RequestAt(prompt, initial, turns, 0);
  }

  lemma {:induction false} AnswerIsIn(turns: seq<Turn>, i: nat, a: Answered)
    requires i < |turns| && turns[i].Resolved? && a in turns[i].answers
    ensures a in AnswersIn(turns)
    decreases |turns|
  {
    var front := turns[..|turns| - 1];
    if i < |front| {
      AnswerIsIn(front, i, a);
    }
  }
}
