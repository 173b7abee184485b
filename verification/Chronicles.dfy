/** The state and the account of a run against the turns of its history. */
module Chronicles {
  import opened Options
  import opened Messages
  import opened Pairing
  import opened ToolBatch
  import opened Environment
  import opened Accounts
  import opened Replies
  import opened Histories
  import opened RunInvariant

  /** The history and the requests are those of the turns, the calls have been
      answered in them, and what the model said in them is what it replied. */
  ghost predicate Chronicle(terms: RunTerms, v: RunView, turns: seq<Turn>, a: Account) {
    && Plausible(terms, v.initial, turns)
    && v.messages == History(v.initial, turns)
    && a.requests == RequestsOf(v.prompt, v.initial, turns)
    && v.answered == AnswersIn(turns)
    && Voiced(terms.world, turns, a.replies, a.sinkFailures == 0)
  }

  predicate LastHeard(turns: seq<Turn>, assistant: Message) {
    turns != [] && turns[|turns| - 1] == Heard(assistant)
  }

  /** The batch of the round, if there is one, is the last turn. */
  predicate HasBatch(terms: RunTerms, v: RunView, turns: seq<Turn>) {
    && turns != []
    && var t := turns[|turns| - 1];
       match v.toolBatch
       case None => t.Heard? && t.assistant.toolCalls == []
       case Some(batch) =>
         && |turns| > 1 && turns[|turns| - 2] == Heard(v.assistant)
         && t.Resolved? && batch.messages == MessagesOf(t.answers) && batch.overflows == OverflowsIn(t)
         && (if terms.disableTools then t.how == Refused && batch.stop == NoStop else t.how == Ran(batch.stop))
  }

  /** Where the turns stand in each phase. */
  predicate Stage(terms: RunTerms, v: RunView, turns: seq<Turn>) {
    match v.phase
    case PhaseModel => GoesOn(turns) && v.modelErrors == Streak(turns)
    case PhaseTools => LastHeard(turns, v.assistant)
    case PhaseCompact => HasBatch(terms, v, turns)
    case PhaseDone => true
  }

  lemma {:induction false} StageOfTools(terms: RunTerms, v: RunView, turns: seq<Turn>)
    requires Stage(terms, v, turns) && v.phase == PhaseTools
    ensures LastHeard(turns, v.assistant)
  {
  }

  lemma {:induction false} ChronicleBegins(terms: RunTerms, v: RunView)
    requires v.messages == v.initial && v.answered == [] && v.phase == PhaseModel && v.modelErrors == 0
    ensures Chronicle(terms, v, [], NOTHING_YET) && Stage(terms, v, [])
  {
    hide MayFollow;
    hide CameOf;
    hide After;
    hide RequestMessages;
  }

  /** Nothing has happened that concerns the history. */
  predicate SameWords(v: RunView, a: Account, w: RunView, b: Account) {
    && w.messages == v.messages && w.answered == v.answered && w.initial == v.initial && w.prompt == v.prompt
    && SameTalk(a, b)
  }

  lemma {:induction false} ChronicleMoves(
    terms: RunTerms, v: RunView, turns: seq<Turn>, a: Account, w: RunView, b: Account)
    requires Chronicle(terms, v, turns, a) && SameWords(v, a, w, b)
    ensures Chronicle(terms, w, turns, b)
  {
    hide Plausible;
    hide History;
    hide RequestsOf;
    hide AnswersIn;
    VoicedWeakens(terms.world, turns, a.replies, a.sinkFailures == 0, b.sinkFailures == 0);
    hide Voiced;
  }

  /** The model was asked. */
  lemma {:induction false} TurnOfReply(
    terms: RunTerms, v: RunView, turns: seq<Turn>, a: Account, r: Reply, t: Turn, w: RunView, b: Account)
    requires Chronicle(terms, v, turns, a) && AskedOf(v, r, a, b)
    requires t.IsVoice() && MayFollow(terms, v.messages, turns, t)
    requires CameOf(terms.world, t, r, b.sinkFailures == 0)
    requires w.messages == After(v.messages, t)
    requires w.answered == v.answered && w.initial == v.initial && w.prompt == v.prompt
    ensures Chronicle(terms, w, turns + [t], b)
  {
    hide RequestMessages;
    hide MayFollow;
    hide CameOf;
    hide After;
    OfAppend(turns, t, v.initial, v.prompt);
    PlausibleAppend(terms, v.initial, turns, t);
    VoicedWeakens(terms.world, turns, a.replies, a.sinkFailures == 0, b.sinkFailures == 0);
    VoicedAppend(terms.world, turns, t, a.replies, r, b.sinkFailures == 0);
    hide Plausible;
    hide History;
    hide RequestsOf;
    hide AnswersIn;
    hide Voiced;
    assert v.answered + [] == v.answered;
  }

  /** The calls were answered, or the history compacted. */
  lemma {:induction false} TurnOfRun(
    terms: RunTerms, v: RunView, turns: seq<Turn>, a: Account, t: Turn, w: RunView, b: Account)
    requires Chronicle(terms, v, turns, a)
    requires !t.IsVoice() && MayFollow(terms, v.messages, turns, t)
    requires w.messages == After(v.messages, t) && w.answered == v.answered + if t.Resolved? then t.answers else []
    requires w.initial == v.initial && w.prompt == v.prompt
    requires SameTalk(a, b)
    ensures Chronicle(terms, w, turns + [t], b)
  {
    hide RequestMessages;
    hide MayFollow;
    hide CameOf;
    hide After;
    OfAppend(turns, t, v.initial, v.prompt);
    PlausibleAppend(terms, v.initial, turns, t);
    VoicedWeakens(terms.world, turns, a.replies, a.sinkFailures == 0, b.sinkFailures == 0);
    VoicedAppend(terms.world, turns, t, a.replies, Reply(0, None), b.sinkFailures == 0);
    hide Plausible;
    hide History;
    hide RequestsOf;
    hide AnswersIn;
    hide Voiced;
    assert a.requests + [] == a.requests;
  }

  // Steps of the run

  /** An error, told to the model or not. */
  lemma {:induction false} ErrorTurn(
    terms: RunTerms, v: RunView, turns: seq<Turn>, a: Account, r: Reply, e: Error, b: Account)
    requires Chronicle(terms, v, turns, a) && Stage(terms, v, turns) && v.phase == PhaseModel && AskedOf(v, r, a, b)
    requires b.sinkFailures == 0 ==> !Taken(terms.world, r) && terms.world.chat(r.at).err == Some(e)
    ensures if e.status >= 500 && v.modelErrors < 2 then
              var w := v.(modelErrors := v.modelErrors + 1, messages := v.messages + [RetryMessage(e)]);
              Chronicle(terms, w, turns + [Told(e)], b) && Stage(terms, w, turns + [Told(e)])
            else
              Chronicle(terms, v, turns + [Lost(e)], b)
  {
    hide Chronicle;
    hide AskedOf;
    hide Taken;
    hide IsAccumulated;
    hide Said;
    hide Resolves;
    hide Recasts;
    hide RetryMessage;
    if e.status >= 500 && v.modelErrors < 2 {
      var w := v.(modelErrors := v.modelErrors + 1, messages := v.messages + [RetryMessage(e)]);
      TurnOfReply(terms, v, turns, a, r, Told(e), w, b);
      assert (turns + [Told(e)])[..|turns|] == turns;
    } else {
      TurnOfReply(terms, v, turns, a, r, Lost(e), v, b);
    }
  }

  /** A reply that is taken in. */
  lemma {:induction false} HeardTurn(
    terms: RunTerms, v: RunView, turns: seq<Turn>, a: Account, r: Reply, assistant: Message, canceled: bool, b: Account)
    requires Chronicle(terms, v, turns, a) && Stage(terms, v, turns) && v.phase == PhaseModel && AskedOf(v, r, a, b)
    requires IsAccumulated(terms.world.chat(r.at).responses, assistant)
    requires b.sinkFailures == 0 ==> IsReply(terms, r, assistant, canceled)
    ensures Chronicle(terms, TakenIn(v, assistant, canceled), turns + [Heard(assistant)], b)
    ensures LastHeard(turns + [Heard(assistant)], assistant)
  {
    hide Chronicle;
    hide AskedOf;
    hide Taken;
    hide Said;
    hide IsAccumulated;
    hide MessageEmpty;
    hide Streak;
    assert v.messages + [] == v.messages;
    TurnOfReply(terms, v, turns, a, r, Heard(assistant), TakenIn(v, assistant, canceled), b);
  }

  /** The open calls are answered. */
  lemma {:induction false} ResolvedTurn(
    terms: RunTerms, v: RunView, turns: seq<Turn>, a: Account, answers: seq<Answered>, how: Handling, b: Account)
    requires Chronicle(terms, v, turns, a) && LastHeard(turns, v.assistant) && Held(v)
    requires Resolves(terms, v.messages, v.pending, answers, how)
    requires SameTalk(a, b)
    ensures Chronicle(terms, WithAnswers(v, answers), turns + [Resolved(answers, how)], b)
  {
    hide Chronicle;
    hide Resolves;
    hide MessagesOf;
    TurnOfRun(terms, v, turns, a, Resolved(answers, how), WithAnswers(v, answers), b);
  }

  /** The history was compacted, or stayed as it was. */
  lemma {:induction false} ReplacedTurn(
    terms: RunTerms, v: RunView, turns: seq<Turn>, a: Account, kept: seq<Message>, notified: bool, b: Account)
    requires Chronicle(terms, v, turns, a) && HasBatch(terms, v, turns)
    requires kept == v.messages || Recasts(terms, v.messages, turns, kept)
    requires SameTalk(a, b)
    ensures Chronicle(terms, Recast(v, kept, notified), WithKept(v, turns, kept), b)
    ensures v.toolBatch.Some? && v.toolBatch.value.stop == NoStop ==>
              GoesOn(WithKept(v, turns, kept)) && Streak(WithKept(v, turns, kept)) == 0
  {
    hide Recasts;
    hide MessagesOf;
    hide OverflowsIn;
    if kept == v.messages {
      ChronicleMoves(terms, v, turns, a, Recast(v, kept, notified), b);
    } else {
      hide Chronicle;
      assert v.answered + [] == v.answered;
      TurnOfRun(terms, v, turns, a, Replaced(kept), Recast(v, kept, notified), b);
    }
  }

  function WithKept(v: RunView, turns: seq<Turn>, kept: seq<Message>): seq<Turn> {
    if kept == v.messages then turns else turns + [Replaced(kept)]
  }

  /** A round without calls is over. */
  lemma {:induction false} RoundWithoutCalls(terms: RunTerms, v: RunView, turns: seq<Turn>, a: Account)
    requires Chronicle(terms, v, turns, a) && LastHeard(turns, v.assistant) && v.assistant.toolCalls == []
    ensures var w := v.(toolBatch := None, phase := PhaseCompact);
            Chronicle(terms, w, turns, a) && Stage(terms, w, turns)
  {
    ChronicleMoves(terms, v, turns, a, v.(toolBatch := None, phase := PhaseCompact), a);
    hide Chronicle;
  }

  /** Well behaved replies can stand in the history. */
  lemma {:induction false} VoicesStand(world: World, turns: seq<Turn>, replies: seq<Reply>, sound: bool)
    requires Voiced(world, turns, replies, sound) && WellBehaved(world)
    ensures AllStand(turns)
    decreases |turns|
  {
    hide IsAccumulated;
    hide Taken;
    hide Said;
    if turns != [] {
      var front, t := turns[..|turns| - 1], turns[|turns| - 1];
      VoicesStand(world, front, if t.IsVoice() then replies[..|replies| - 1] else replies, sound);
      assert turns == front + [t];
    }
  }
}
