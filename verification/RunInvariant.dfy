/** What holds between the steps of a run, as a property of values: the state of
    the run, and the account of what it has done, agent/session.go. */
module RunInvariant {
  import opened Options
  import opened Text
  import opened Messages
  import opened Pairing
  import opened Approvals
  import opened ToolBatch
  import opened Environment
  import opened Accounts
  import opened Replies
  import opened Clearing
  import opened Histories

  datatype Phase = PhaseModel | PhaseTools | PhaseCompact | PhaseDone

  datatype Finish = Finish(status: Option<RunStatus>, ignoreCanceled: bool, err: Option<Error>)

  /** A limit on rounds is a 64-bit signed integer. */
  type Rounds = n: int | n <= MAX_INT

  /** The state of a run. The last seven tell of the calls of all accepted replies,
      of those answered so far, of those still open, of what was allowed when the
      run began and is allowed now, and of what the run began with. */
  datatype RunView = RunView(
    phase: Phase,
    messages: seq<Message>,
    assistant: Message,
    pending: seq<ToolCall>,
    canceled: bool,
    toolBatch: Option<Batch>,
    modelErrors: nat,
    toolRounds: nat,
    maxToolRounds: Rounds,
    skipNotified: bool,
    finish: Finish,
    accepted: seq<ToolCall>,
    answered: seq<Answered>,
    open: seq<ToolCall>,
    grants: Grants,
    current: Grants,
    prompt: string,
    initial: seq<Message>)

  /** A reply with calls that are still to be answered. */
  predicate Held(v: RunView) {
    v.open == v.pending == v.assistant.toolCalls && v.pending != []
  }

  predicate CanRun(terms: RunTerms, v: RunView) {
    && terms.tools.Some? && !terms.disableTools
    && (v.maxToolRounds < 0 || v.toolRounds < v.maxToolRounds)
  }

  /** Which calls are open in which phase, and what has become of the last batch. */
  ghost predicate Conversation(terms: RunTerms, v: RunView) {
    match v.phase
    case PhaseModel => v.toolBatch.None? && v.open == []
    case PhaseTools => Held(v) && CanRun(terms, v)
    case PhaseCompact =>
      && v.open == []
      && (v.toolBatch.None? ==> v.pending == [])
      && (v.toolBatch.Some? ==>
            && (terms.disableTools || CanRun(terms, v))
            && StopHasReason(terms, v.pending, v.toolBatch.value.stop))
    case PhaseDone =>
      v.open != [] ==>
        terms.tools.None? && !terms.disableTools && v.finish.status == Some(RunDone) && Held(v)
  }

  /** Without a registry only the last reply can have calls, and they stay open
      unless the reply was cut short. */
  predicate NilRegistry(terms: RunTerms, v: RunView) {
    terms.tools.None? && !terms.disableTools ==>
      match v.phase
      case PhaseModel => v.accepted == []
      case PhaseTools => true
      case PhaseCompact => v.accepted == []
      case PhaseDone => v.open != [] <==> v.accepted != [] && !v.canceled
  }

  /** Every call of an accepted reply is answered once, in order, and the events
      and executions are exactly those of the answers; the accepted calls are
      those of the replies that the model gave, unless a sink has failed; what was
      run was cleared; at most one skipped compaction was told. */
  ghost predicate Ledger(terms: RunTerms, v: RunView, a: Account) {
    && a.tools == LogOf(v.answered)
    && a.executions == ExecutionsOf(v.answered)
    && CallsOf(v.answered) + v.open == v.accepted
    && (a.sinkFailures == 0 ==> v.accepted == AcceptedCalls(terms.world, a.replies))
    && Lawful(terms.tools, terms.world, v.grants, v.current, a)
    && |a.replies| == |a.requests|
    && a.skips == (if v.skipNotified then 1 else 0)
    && a.abandoned == 0
  }

  /** The reply that the run is dealing with is the last one that the model gave. */
  ghost predicate LastReply(terms: RunTerms, v: RunView, a: Account) {
    && v.pending == v.assistant.toolCalls
    && (a.sinkFailures == 0 ==>
          && a.replies != []
          && var r := a.replies[|a.replies| - 1];
          && Taken(terms.world, r) && Said(terms.world, r) == v.assistant
          && (v.canceled <==> terms.world.chat(r.at).err.Some?))
  }

  predicate StoppedBy(v: RunView, stop: Stop) {
    v.toolBatch.Some? && v.toolBatch.value.stop == stop
  }

  /** Why a reply is the last one: it failed for good or was cut short; it has no
      calls; its calls cannot be run, or not any more; they had to be put to the
      user, who refused or could not be asked; the context was canceled; or the
      history stays too large. */
  ghost predicate EndsRun(terms: RunTerms, v: RunView, a: Account, r: Reply) {
    var err, calls := terms.world.chat(r.at).err, Said(terms.world, r).toolCalls;
    || (err.Some? && (Taken(terms.world, r) || err.value.status < 500 || v.modelErrors >= 2))
    || calls == []
    || (!terms.disableTools && terms.tools.None?)
    || (!terms.disableTools && 0 <= v.maxToolRounds <= v.toolRounds)
    || (!terms.disableTools && MayAsk(terms, calls) && (a.abandoned > 0 || StoppedBy(v, DeniedStop)))
    || (StoppedBy(v, CanceledStop) && !ContextHolds(terms.world))
    || (v.finish.err.Some? && 0 < terms.window <= terms.estimate(v.messages))
  }

  /** Why a run is over, unless a sink has failed. */
  ghost predicate Why(terms: RunTerms, v: RunView, a: Account) {
    a.sinkFailures == 0 ==> a.replies != [] && EndsRun(terms, v, a, a.replies[|a.replies| - 1])
  }

  /** No terminal event before the end, and the error of a failed run last. */
  predicate Ending(v: RunView, a: Account) {
    && (if v.phase == PhaseDone && v.finish.err.Some? then Closed(a) else a.terminals == 0 && a.afterTerminal == 0)
    && (v.phase == PhaseDone ==> (v.finish.status.Some? <==> v.finish.err.None?))
  }

  /** What is known once the model has replied, and when the run is done. */
  ghost predicate Dealing(terms: RunTerms, v: RunView, a: Account) {
    && NilRegistry(terms, v)
    && (v.phase != PhaseModel ==> LastReply(terms, v, a))
    && (v.phase == PhaseDone ==> Why(terms, v, a))
  }

  /** One to three calls of the model a round, and no more tool batches than the
      limit allows. */
  predicate Bounds(terms: RunTerms, v: RunView, a: Account) {
    && v.modelErrors <= 2 && (v.phase != PhaseModel ==> v.modelErrors == 0)
    && v.toolRounds + (if v.phase == PhaseModel then v.modelErrors else 1) <= |a.requests|
    && |a.requests| <= 3 * v.toolRounds + (if v.phase == PhaseModel then v.modelErrors else 3)
    && (terms.disableTools ==> a.batches == 0)
    && a.batches <= v.toolRounds
         + (if v.phase == PhaseDone || (v.phase == PhaseCompact && v.toolBatch.Some?) then 1 else 0)
    && (!terms.disableTools && v.maxToolRounds >= 0 ==>
          v.toolRounds <= v.maxToolRounds && a.batches <= v.maxToolRounds)
  }

  ghost predicate InvOf(terms: RunTerms, v: RunView, a: Account) {
    Conversation(terms, v) && Ledger(terms, v, a) && Dealing(terms, v, a) && Ending(v, a) && Bounds(terms, v, a)
  }

  /** The account of a run that is over: nothing was run that was not cleared, and
      unless a sink has failed the accepted calls are those of the replies, and the
      events and executions are exactly those of the answers. */
  ghost predicate Settlement(terms: RunTerms, v: RunView, a: Account) {
    && CallsOf(v.answered) + v.open == v.accepted
    && Lawful(terms.tools, terms.world, v.grants, v.current, a)
    && |a.replies| == |a.requests|
    && (a.sinkFailures == 0 ==>
          && v.accepted == AcceptedCalls(terms.world, a.replies)
          && a.tools == LogOf(v.answered)
          && a.executions == ExecutionsOf(v.answered))
  }

  /** A step failed: the run is over, its error event was the last event, and
      what it had sent and answered before stays as it should be. Unless a sink has
      failed, calls stay open exactly when the approval prompt has failed in a live
      context. */
  ghost predicate AbortedOf(terms: RunTerms, v: RunView, a: Account) {
    && Closed(a)
    && a.skips == (if v.skipNotified then 1 else 0)
    && Spent(terms, v, a)
    && Settlement(terms, v, a)
    && Why(terms, v, a)
    && (a.sinkFailures == 0 ==>
          && (v.open != [] <==> a.abandoned > 0)
          && (terms.tools.None? && !terms.disableTools ==> v.accepted == []))
  }

  /** What a run may have cost when it is over. */
  predicate Spent(terms: RunTerms, v: RunView, a: Account) {
    && v.toolRounds + 1 <= |a.requests| <= 3 * v.toolRounds + 3
    && (terms.disableTools ==> a.batches == 0)
    && a.batches <= v.toolRounds + 1
    && (!terms.disableTools && v.maxToolRounds >= 0 ==>
          v.toolRounds <= v.maxToolRounds && a.batches <= v.maxToolRounds)
  }

  /** Runs that end on their own, whatever the model does. */
  predicate Limited(terms: RunTerms, maxToolRounds: int) {
    !terms.disableTools && (terms.tools.None? || maxToolRounds >= 0)
  }

  function RoundsLeft(terms: RunTerms, v: RunView): int {
    if terms.tools.None? then 0 else v.maxToolRounds - v.toolRounds
  }

  /** The steps that a limited run has left at most. */
  function StepsLeftOf(terms: RunTerms, v: RunView): int {
    match v.phase
    case PhaseModel => 5 * RoundsLeft(terms, v) + 5 - v.modelErrors
    case PhaseTools => 5 * RoundsLeft(terms, v) + 2
    case PhaseCompact => if v.toolBatch.Some? then 5 * RoundsLeft(terms, v) + 1 else 1
    case PhaseDone => 0
  }

  /** A reply with calls has been accepted and put into the history. */
  ghost predicate PendingOf(terms: RunTerms, v: RunView, a: Account) {
    && v.phase == PhaseModel && v.modelErrors == 0 && v.toolBatch.None?
    && Held(v)
    && LastReply(terms, v, a)
    && Ledger(terms, v, a) && a.terminals == 0 && a.afterTerminal == 0
    && v.toolRounds + 1 <= |a.requests| <= 3 * v.toolRounds + 3
    && (terms.disableTools ==> a.batches == 0) && a.batches <= v.toolRounds
    && (!terms.disableTools && v.maxToolRounds >= 0 ==>
          v.toolRounds <= v.maxToolRounds && a.batches <= v.maxToolRounds)
  }

  /** Where an accepted reply with calls leads, and whether its calls stay open. */
  ghost predicate FollowsUp(terms: RunTerms, v: RunView, w: RunView) {
    if v.canceled then w.phase == PhaseDone && w.finish.status == Some(RunCanceled) && w.open == []
    else if terms.disableTools then
      w.phase == PhaseCompact && w.toolBatch.Some? && w.toolBatch.value.stop == NoStop && w.open == []
    else if terms.tools.None? then w.phase == PhaseDone && w.finish.status == Some(RunDone) && w.open == v.pending
    else if v.maxToolRounds >= 0 && v.toolRounds >= v.maxToolRounds then
      w.phase == PhaseDone && w.finish.err.Some? && w.open == []
    else w.phase == PhaseTools && w.open == v.pending
  }

  /** The reply stands, and messages have only been added behind it. */
  predicate SameReply(v: RunView, w: RunView) {
    && w.assistant == v.assistant && w.pending == v.pending && w.accepted == v.accepted
    && w.toolRounds == v.toolRounds
    && w.skipNotified == v.skipNotified && v.messages <= w.messages
  }

  /** Where a reply leads. */
  ghost predicate RepliedWith(terms: RunTerms, v: RunView, w: RunView, assistant: Message, canceled: bool) {
    && w.assistant == assistant && w.accepted == v.accepted + assistant.toolCalls
    && w.toolRounds == v.toolRounds && w.skipNotified == v.skipNotified
    && if assistant.toolCalls == [] then
         && w.phase == PhaseCompact && w.toolBatch.None? && w.canceled == canceled
         && w.messages == v.messages + if MessageEmpty(assistant) then [] else [assistant]
       else
         && v.messages + [assistant] <= w.messages
         && FollowsUp(terms, v.(canceled := canceled, pending := assistant.toolCalls), w)
  }

  // The steps keep it

  /** An event of the session itself that ends the account of a failed run. */
  predicate EndsWith(before: Account, after: Account, message: string) {
    && after == RecordEvent(before, ErrorEvent(message)).(sinkFailures := after.sinkFailures)
    && after.sinkFailures >= before.sinkFailures
  }

  /** The model was asked, with the history as it is, and gave this reply. */
  ghost predicate AskedOf(v: RunView, r: Reply, before: Account, after: Account) {
    && after == before.(
         requests := before.requests + [RequestMessages(v.prompt, v.messages)],
         replies := before.replies + [r],
         sinkFailures := after.sinkFailures)
    && after.sinkFailures >= before.sinkFailures
  }

  /** The account has not changed but for sinks that failed, and the ends of runs. */
  ghost predicate SameDeeds(before: Account, after: Account) {
    && after == before.(
         skips := after.skips, terminals := after.terminals, afterTerminal := after.afterTerminal,
         sinkFailures := after.sinkFailures)
    && after.sinkFailures >= before.sinkFailures
  }

  /** The books of the run have not changed. */
  predicate SameBooks(v: RunView, w: RunView) {
    && w.answered == v.answered && w.open == v.open && w.accepted == v.accepted
    && w.grants == v.grants && w.current == v.current && w.prompt == v.prompt && w.initial == v.initial
  }

  lemma {:induction false} InvBeforeChat(terms: RunTerms, v: RunView, a: Account)
    requires InvOf(terms, v, a) && v.phase == PhaseModel
    ensures a.terminals == 0 && a.afterTerminal == 0 && v.modelErrors <= 2
    ensures Limited(terms, v.maxToolRounds) ==> RoundsLeft(terms, v) >= 0
  {
  }

  lemma {:induction false} Retried(
    terms: RunTerms, v: RunView, a: Account, r: Reply, b: Account, e: Error)
    requires InvOf(terms, v, a) && v.phase == PhaseModel && v.modelErrors < 2 && AskedOf(v, r, a, b)
    requires b.sinkFailures == 0 ==> !Taken(terms.world, r)
    ensures var w := v.(modelErrors := v.modelErrors + 1, messages := v.messages + [RetryMessage(e)]);
            InvOf(terms, w, b) && StepsLeftOf(terms, w) < StepsLeftOf(terms, v)
  {
    hide RequestMessages;
    hide Ledger;
    LedgerAfterAsking(
      terms, v, a, r, v.(modelErrors := v.modelErrors + 1, messages := v.messages + [RetryMessage(e)]), b);
  }

  lemma {:induction false} AskedInVain(
    terms: RunTerms, v: RunView, a: Account, r: Reply, b: Account, c: Account, message: string)
    requires InvOf(terms, v, a) && v.phase == PhaseModel && AskedOf(v, r, a, b) && EndsWith(b, c, message)
    requires b.sinkFailures == 0 ==>
               var err := terms.world.chat(r.at).err;
               !Taken(terms.world, r) && err.Some? && (err.value.status < 500 || v.modelErrors >= 2)
    ensures AbortedOf(terms, v, c)
  {
    hide RequestMessages;
    hide Ledger;
    hide Held;
    LedgerAfterAsking(terms, v, a, r, v, b);
    LedgerMoves(terms, v, b, v, c);
    LedgerIsSettlement(terms, v, c);
  }

  lemma {:induction false} LedgerIsSettlement(terms: RunTerms, v: RunView, a: Account)
    requires Ledger(terms, v, a)
    ensures Settlement(terms, v, a) && a.abandoned == 0
    ensures a.skips == if v.skipNotified then 1 else 0
  {
    hide RequestMessages;
    hide LogOf;
    hide ExecutionsOf;
    hide CallsOf;
    hide Lawful;
    hide AcceptedCalls;
  }

  /** A reply as the run takes it in. */
  function TakenIn(v: RunView, assistant: Message, canceled: bool): RunView {
    v.(modelErrors := 0,
       assistant := assistant,
       pending := assistant.toolCalls,
       canceled := canceled,
       accepted := v.accepted + assistant.toolCalls,
       messages := if MessageEmpty(assistant) then v.messages else v.messages + [assistant])
  }

  /** The reply that is taken in is the one that the model gave. */
  ghost predicate IsReply(terms: RunTerms, r: Reply, assistant: Message, canceled: bool) {
    && Taken(terms.world, r) && Said(terms.world, r) == assistant
    && (canceled <==> terms.world.chat(r.at).err.Some?)
  }

  lemma {:induction false} RepliedWithoutCalls(
    terms: RunTerms, v: RunView, a: Account, r: Reply, b: Account, assistant: Message,
    canceled: bool)
    requires InvOf(terms, v, a) && v.phase == PhaseModel && AskedOf(v, r, a, b)
    requires b.sinkFailures == 0 ==> IsReply(terms, r, assistant, canceled)
    requires assistant.toolCalls == []
    ensures var w := TakenIn(v, assistant, canceled).(toolBatch := None, phase := PhaseCompact);
            && InvOf(terms, w, b)
            && RepliedWith(terms, v, w, assistant, canceled)
            && (Limited(terms, v.maxToolRounds) ==> StepsLeftOf(terms, w) < StepsLeftOf(terms, v))
  {
    hide RequestMessages;
    hide Ledger;
    hide MessageEmpty;
    hide Held;
    hide Taken;
    hide Said;
    assert v.accepted + assistant.toolCalls == v.accepted;
    LedgerAfterAsking(
      terms, v, a, r, TakenIn(v, assistant, canceled).(toolBatch := None, phase := PhaseCompact), b);
  }

  /** A reply without calls, or one that is not taken in. */
  lemma {:induction false} LedgerAfterAsking(terms: RunTerms, v: RunView, a: Account, r: Reply, w: RunView, b: Account)
    requires Ledger(terms, v, a) && SameBooks(v, w) && w.skipNotified == v.skipNotified
    requires AskedOf(v, r, a, b)
    requires b.sinkFailures == 0 ==> !Taken(terms.world, r) || Said(terms.world, r).toolCalls == []
    ensures Ledger(terms, w, b)
  {
    hide RequestMessages;
    hide LogOf;
    hide ExecutionsOf;
    hide CallsOf;
    hide Taken;
    hide Said;
    AcceptedOfAppend(terms.world, a.replies, r);
    LawStays(terms, v, a, b);
    hide AcceptedCalls;
    hide Lawful;
    assert v.accepted + [] == v.accepted;
  }

  lemma {:induction false} RepliedWithCalls(
    terms: RunTerms, v: RunView, a: Account, r: Reply, b: Account, assistant: Message,
    canceled: bool)
    requires InvOf(terms, v, a) && v.phase == PhaseModel && AskedOf(v, r, a, b)
    requires b.sinkFailures == 0 ==> IsReply(terms, r, assistant, canceled)
    requires assistant.toolCalls != []
    ensures PendingOf(terms, TakenIn(v, assistant, canceled).(open := assistant.toolCalls), b)
  {
    hide RequestMessages;
    hide Ledger;
    hide Taken;
    hide Said;
    LedgerTakesIn(terms, v, a, r, TakenIn(v, assistant, canceled).(open := assistant.toolCalls), b);
  }

  lemma {:induction false} ReplyLeads(
    terms: RunTerms, v: RunView, taken: RunView, w: RunView, assistant: Message, canceled: bool)
    requires v.phase == PhaseModel && assistant.toolCalls != []
    requires v.modelErrors <= 2 && (Limited(terms, v.maxToolRounds) ==> RoundsLeft(terms, v) >= 0)
    requires taken == TakenIn(v, assistant, canceled).(open := assistant.toolCalls)
    requires SameReply(taken, w) && FollowsUp(terms, taken, w) && w.maxToolRounds == v.maxToolRounds
    ensures RepliedWith(terms, v, w, assistant, canceled)
    ensures Limited(terms, v.maxToolRounds) ==> StepsLeftOf(terms, w) < StepsLeftOf(terms, v)
  {
  }

  lemma {:induction false} LedgerTakesIn(terms: RunTerms, v: RunView, a: Account, r: Reply, w: RunView, b: Account)
    requires Ledger(terms, v, a) && v.open == []
    requires w.answered == v.answered && w.accepted == v.accepted + w.open && w.skipNotified == v.skipNotified
    requires w.grants == v.grants && w.current == v.current && w.prompt == v.prompt && w.initial == v.initial
    requires AskedOf(v, r, a, b)
    requires b.sinkFailures == 0 ==> Taken(terms.world, r) && Said(terms.world, r).toolCalls == w.open
    ensures Ledger(terms, w, b)
  {
    hide RequestMessages;
    hide LogOf;
    hide ExecutionsOf;
    hide CallsOf;
    hide Taken;
    hide Said;
    AcceptedOfAppend(terms.world, a.replies, r);
    LawStays(terms, v, a, b);
    hide AcceptedCalls;
    hide Lawful;
    assert CallsOf(v.answered) + [] == CallsOf(v.answered);
  }

  lemma {:induction false} BrokenOff(terms: RunTerms, v: RunView, a: Account, b: Account, c: Account, message: string)
    requires PendingOf(terms, v, a) && Broke({}, a, b) && EndsWith(b, c, message)
    ensures AbortedOf(terms, v, c)
  {
    hide RequestMessages;
    hide LogOf;
    hide ExecutionsOf;
    hide CallsOf;
    hide AcceptedCalls;
    hide Held;
    NothingRan(a, b);
    LawStays(terms, v, a, c);
    hide Lawful;
  }

  lemma {:induction false} LawStays(terms: RunTerms, v: RunView, a: Account, b: Account)
    requires Lawful(terms.tools, terms.world, v.grants, v.current, a)
    requires b.prompts == a.prompts && b.executions == a.executions && b.clearances == a.clearances
    ensures Lawful(terms.tools, terms.world, v.grants, v.current, b)
  {
    hide RequestMessages;
    hide IsCleared;
    forall i: nat | i < |b.executions| ensures ClearedAt(terms.tools, terms.world, v.grants, b, i) {
      assert ClearedAt(terms.tools, terms.world, v.grants, a, i);
    }
  }

  /** A view with a batch of answers added. */
  function WithAnswers(v: RunView, answers: seq<Answered>): RunView {
    v.(messages := v.messages + MessagesOf(answers), answered := v.answered + answers, open := [])
  }

  lemma {:induction false} LedgerWithAnswers(
    terms: RunTerms, v: RunView, a: Account, b: Account, answers: seq<Answered>, current: Grants)
    requires Ledger(terms, v, a) && v.open == CallsOf(answers)
    requires b.tools == a.tools + LogOf(answers) && b.executions == a.executions + ExecutionsOf(answers)
    requires b.requests == a.requests && b.replies == a.replies && b.skips == a.skips && b.abandoned == a.abandoned
    requires b.sinkFailures >= a.sinkFailures
    requires Lawful(terms.tools, terms.world, v.grants, current, b)
    ensures Ledger(terms, WithAnswers(v, answers).(current := current), b)
  {
    hide RequestMessages;
    hide LogOf;
    hide ExecutionsOf;
    hide Lawful;
    hide AcceptedCalls;
    LogOfConcat(v.answered, answers);
    AnswersOfConcat(v.answered, answers);
    assert CallsOf(v.answered + answers) + [] == v.accepted;
  }

  /** The ledger does not depend on the phase and its fields. */
  lemma {:induction false} LedgerMoves(terms: RunTerms, v: RunView, a: Account, w: RunView, b: Account)
    requires Ledger(terms, v, a)
    requires SameBooks(v, w) && w.skipNotified == v.skipNotified
    requires SameDeeds(a, b) && b.skips == a.skips
    ensures Ledger(terms, w, b)
  {
    hide RequestMessages;
    hide LogOf;
    hide ExecutionsOf;
    hide CallsOf;
    hide AcceptedCalls;
    LawStays(terms, v, a, b);
    hide Lawful;
  }

  /** All open calls were skipped or refused. */
  lemma {:induction false} Settled(
    terms: RunTerms, v: RunView, a: Account, b: Account, answers: seq<Answered>)
    requires PendingOf(terms, v, a) && Did(a, b, answers) && forall x <- answers :: !x.Executed()
    requires CallsOf(answers) == v.pending
    ensures Ledger(terms, WithAnswers(v, answers), b)
    ensures LastReply(terms, v, b)
    ensures b.terminals == 0 && b.afterTerminal == 0 && b.batches == a.batches && b.requests == a.requests
  {
    hide RequestMessages;
    hide AcceptedCalls;
    hide Lawful;
    hide Taken;
    hide Said;
    NothingRunsUnlessOrdinary(answers);
    assert b.executions == a.executions && b.clearances == a.clearances;
    LawStays(terms, v, a, b);
    hide CallsOf;
    hide MessagesOf;
    LedgerWithAnswers(terms, v, a, b, answers, v.current);
  }

  /** The reply was cut short, and its calls were skipped. */
  lemma {:induction false} SettledAtEnd(
    terms: RunTerms, v: RunView, a: Account, b: Account, answers: seq<Answered>)
    requires PendingOf(terms, v, a) && Did(a, b, answers) && forall x <- answers :: !x.Executed()
    requires CallsOf(answers) == v.pending
    requires v.canceled
    ensures InvOf(terms, WithAnswers(v, answers).(phase := PhaseDone, finish := Finish(Some(RunCanceled), true, None)), b)
  {
    hide RequestMessages;
    hide Held;
    hide CallsOf;
    hide MessagesOf;
    hide Ledger;
    hide Did;
    hide Taken;
    hide Said;
    Settled(terms, v, a, b, answers);
    var w := WithAnswers(v, answers).(phase := PhaseDone, finish := Finish(Some(RunCanceled), true, None));
    LedgerMoves(terms, WithAnswers(v, answers), b, w, b);
  }

  /** The limit on rounds was reached, and the calls of the reply were skipped. */
  lemma {:induction false} SettledWithError(
    terms: RunTerms, v: RunView, a: Account, b: Account, c: Account, answers: seq<Answered>, e: Error)
    requires PendingOf(terms, v, a) && Did(a, b, answers) && EndsWith(b, c, e.message)
    requires CallsOf(answers) == v.pending
    requires forall x <- answers :: !x.Executed()
    requires terms.tools.Some? && !terms.disableTools && 0 <= v.maxToolRounds <= v.toolRounds
    ensures InvOf(terms, WithAnswers(v, answers).(phase := PhaseDone, finish := Finish(None, false, Some(e))), c)
  {
    hide RequestMessages;
    hide Held;
    hide CallsOf;
    hide MessagesOf;
    hide Ledger;
    hide Did;
    hide Taken;
    hide Said;
    Settled(terms, v, a, b, answers);
    var w := WithAnswers(v, answers).(phase := PhaseDone, finish := Finish(None, false, Some(e)));
    LedgerMoves(terms, WithAnswers(v, answers), b, w, c);
  }

  lemma {:induction false} SettledForNow(
    terms: RunTerms, v: RunView, a: Account, b: Account, answers: seq<Answered>, batch: Batch)
    requires PendingOf(terms, v, a) && Did(a, b, answers) && terms.disableTools
    requires CallsOf(answers) == v.pending
    requires forall x <- answers :: !x.Executed()
    requires batch == Batch(MessagesOf(answers), NoStop, [])
    ensures InvOf(terms, WithAnswers(v, answers).(phase := PhaseCompact, toolBatch := Some(batch)), b)
  {
    hide RequestMessages;
    hide Held;
    hide CallsOf;
    hide MessagesOf;
    hide Ledger;
    hide Did;
    hide Taken;
    hide Said;
    Settled(terms, v, a, b, answers);
    var w := WithAnswers(v, answers).(phase := PhaseCompact, toolBatch := Some(batch));
    LedgerMoves(terms, WithAnswers(v, answers), b, w, b);
  }

  lemma {:induction false} PendingMeans(terms: RunTerms, v: RunView, a: Account)
    requires PendingOf(terms, v, a)
    ensures a.terminals == 0 && v.phase == PhaseModel && Held(v)
  {
    hide RequestMessages;
  }

  /** Without a registry the calls stay open and the run is over. */
  lemma {:induction false} LeftOpen(terms: RunTerms, v: RunView, a: Account)
    requires PendingOf(terms, v, a) && terms.tools.None? && !terms.disableTools && !v.canceled
    ensures InvOf(terms, v.(phase := PhaseDone, finish := Finish(Some(RunDone), false, None)), a)
  {
    hide RequestMessages;
    hide LogOf;
    hide ExecutionsOf;
    hide AcceptedCalls;
    hide Lawful;
    hide Taken;
    hide Said;
    assert v.accepted == CallsOf(v.answered) + v.pending && v.pending != [];
    hide CallsOf;
  }

  lemma {:induction false} GoesToTools(terms: RunTerms, v: RunView, a: Account)
    requires PendingOf(terms, v, a) && terms.tools.Some? && !terms.disableTools
    requires v.maxToolRounds < 0 || v.toolRounds < v.maxToolRounds
    ensures InvOf(terms, v.(phase := PhaseTools), a)
  {
    hide RequestMessages;
    hide LogOf;
    hide ExecutionsOf;
    hide CallsOf;
    hide AcceptedCalls;
    hide Lawful;
    hide Taken;
    hide Said;
  }

  // The tools phase

  lemma {:induction false} ToolsMeans(terms: RunTerms, v: RunView, a: Account)
    requires InvOf(terms, v, a) && v.phase == PhaseTools
    ensures a.terminals == 0 && terms.tools.Some? && v.open == v.pending
    ensures Held(v)
  {
    hide RequestMessages;
    hide Ledger;
  }

  /** A sink failed in the batch, or the approval prompt before anything was done. */
  lemma {:induction false} ToolsFailed(
    terms: RunTerms, v: RunView, a: Account, b: Account, c: Account, current: Grants, message: string)
    requires InvOf(terms, v, a) && v.phase == PhaseTools && Attempted(a, b) && EndsWith(b, c, message)
    requires terms.tools.Some? ==> Cleared(terms.tools.value, terms.world, v.current, v.pending, a, b, current)
    requires b.sinkFailures == 0 ==>
               && b.abandoned > 0 && MayAsk(terms, v.pending)
               && b.tools == a.tools && b.executions == a.executions
    ensures AbortedOf(terms, v.(current := current), c)
  {
    hide RequestMessages;
    hide LogOf;
    hide ExecutionsOf;
    hide CallsOf;
    hide AcceptedCalls;
    hide IsCleared;
    hide Cleared;
    hide Taken;
    hide Said;
    ToolsMeans(terms, v, a);
    assert v.open != [];
    hide Held;
    BatchIsLawful(terms.tools.value, terms.world, v.grants, v.current, current, a, b, v.pending);
    LawStays(terms, v.(current := current), b, c);
    hide Lawful;
  }

  /** A batch answered every call, in order and within the budget, and what
      happened meanwhile is what the answers tell. */
  ghost predicate Handled(
    window: int, budget: int, history: nat, calls: seq<ToolCall>, batch: Batch, answers: seq<Answered>,
    before: Account, after: Account)
  {
    && CallsOf(answers) == calls && batch.messages == MessagesOf(answers)
    && batch.overflows == (if batch.stop == DeniedStop then [] else OverflowsOf(answers))
    && WellFitted(window, budget, history, answers)
    && after.tools == before.tools + LogOf(answers)
    && after.executions == before.executions + ExecutionsOf(answers)
  }

  lemma {:induction false} LedgerOfBatch(
    terms: RunTerms, v: RunView, a: Account, b: Account, window: int, budget: int, history: nat, answers: seq<Answered>,
    batch: Batch, current: Grants)
    requires Ledger(terms, v, a) && terms.tools.Some? && v.open == v.pending
    requires Attempted(a, b) && b.abandoned == a.abandoned
    requires Handled(window, budget, history, v.pending, batch, answers, a, b)
    requires Cleared(terms.tools.value, terms.world, v.current, v.pending, a, b, current)
    ensures Ledger(terms, WithAnswers(v, answers).(current := current, phase := PhaseCompact, toolBatch := Some(batch)), b)
  {
    hide RequestMessages;
    hide WellFitted;
    hide LogOf;
    hide ExecutionsOf;
    hide AcceptedCalls;
    hide Cleared;
    BatchIsLawful(terms.tools.value, terms.world, v.grants, v.current, current, a, b, v.pending);
    hide Lawful;
    hide MessagesOf;
    hide CallsOf;
    hide OverflowsOf;
    LedgerWithAnswers(terms, v, a, b, answers, current);
    var taken := WithAnswers(v, answers).(current := current);
    LedgerMoves(terms, taken, b, taken.(phase := PhaseCompact, toolBatch := Some(batch)), b);
  }

  lemma {:induction false} ToolsAnswered(
    terms: RunTerms, v: RunView, a: Account, b: Account, window: int, budget: int, history: nat, answers: seq<Answered>,
    batch: Batch, current: Grants)
    requires InvOf(terms, v, a) && v.phase == PhaseTools && Attempted(a, b) && b.abandoned == a.abandoned
    requires Handled(window, budget, history, v.pending, batch, answers, a, b)
    requires terms.tools.Some? ==> Cleared(terms.tools.value, terms.world, v.current, v.pending, a, b, current)
    requires StopHasReason(terms, v.pending, batch.stop)
    ensures batch.messages == MessagesOf(answers)
    ensures var w := WithAnswers(v, answers).(current := current, phase := PhaseCompact, toolBatch := Some(batch));
            && InvOf(terms, w, b)
            && (Limited(terms, v.maxToolRounds) ==> StepsLeftOf(terms, w) < StepsLeftOf(terms, v))
  {
    hide RequestMessages;
    hide WellFitted;
    hide LogOf;
    hide ExecutionsOf;
    hide Ledger;
    hide Cleared;
    hide Taken;
    hide Said;
    hide StopHasReason;
    ToolsMeans(terms, v, a);
    LedgerOfBatch(terms, v, a, b, window, budget, history, answers, batch, current);
    hide Held;
    hide MessagesOf;
    hide CallsOf;
    hide OverflowsOf;
  }

  // The compaction phase

  /** The history after compaction. */
  function Recast(v: RunView, kept: seq<Message>, notified: bool): RunView {
    v.(messages := kept, skipNotified := notified)
  }

  lemma {:induction false} CompactMeans(terms: RunTerms, v: RunView, a: Account)
    requires InvOf(terms, v, a) && v.phase == PhaseCompact
    ensures a.terminals == 0 && v.modelErrors == 0
  {
    hide RequestMessages;
    hide Ledger;
  }

  lemma {:induction false} CompactedLedger(
    terms: RunTerms, v: RunView, a: Account, b: Account, kept: seq<Message>, notified: bool)
    requires InvOf(terms, v, a) && v.phase == PhaseCompact
    requires Compacting(a, b, v.skipNotified, notified)
    ensures Ledger(terms, Recast(v, kept, notified), b) && b.terminals == 0 && b.afterTerminal == 0
    ensures b.batches == a.batches && b.requests == a.requests
    ensures LastReply(terms, v, b)
  {
    hide RequestMessages;
    hide LogOf;
    hide ExecutionsOf;
    hide CallsOf;
    hide AcceptedCalls;
    hide Conversation;
    hide Taken;
    hide Said;
    LawStays(terms, v, a, b);
    hide Lawful;
  }

  lemma {:induction false} CompactionFailed(
    terms: RunTerms, v: RunView, a: Account, b: Account, c: Account, kept: seq<Message>, notified: bool, e: Error)
    requires InvOf(terms, v, a) && v.phase == PhaseCompact
    requires Compacting(a, b, v.skipNotified, notified) && EndsWith(b, c, e.message)
    requires 0 < terms.window <= terms.estimate(kept)
    ensures var w := Recast(v, kept, notified).(phase := PhaseDone, finish := Finish(None, false, Some(e)));
            && InvOf(terms, w, c)
            && (Limited(terms, v.maxToolRounds) ==> StepsLeftOf(terms, w) < StepsLeftOf(terms, v))
  {
    hide RequestMessages;
    hide Ledger;
    hide Taken;
    hide Said;
    hide StopHasReason;
    CompactedLedger(terms, v, a, b, kept, notified);
    LedgerMoves(terms, Recast(v, kept, notified), b,
                Recast(v, kept, notified).(phase := PhaseDone, finish := Finish(None, false, Some(e))), c);
  }

  lemma {:induction false} RoundEndsRun(
    terms: RunTerms, v: RunView, a: Account, b: Account, kept: seq<Message>, notified: bool,
    status: RunStatus, ignoreCanceled: bool)
    requires InvOf(terms, v, a) && v.phase == PhaseCompact
    requires Compacting(a, b, v.skipNotified, notified)
    requires v.toolBatch.Some? ==> v.toolBatch.value.stop != NoStop
    ensures var w := Recast(v, kept, notified)
                     .(phase := PhaseDone, finish := Finish(Some(status), ignoreCanceled, None));
            && InvOf(terms, w, b)
            && (Limited(terms, v.maxToolRounds) ==> StepsLeftOf(terms, w) < StepsLeftOf(terms, v))
  {
    hide RequestMessages;
    hide Ledger;
    hide Taken;
    hide Said;
    hide MayAsk;
    CompactedLedger(terms, v, a, b, kept, notified);
    LedgerMoves(terms, Recast(v, kept, notified), b,
                Recast(v, kept, notified)
                .(phase := PhaseDone, finish := Finish(Some(status), ignoreCanceled, None)), b);
  }

  /** The next round. */
  function NextRound(v: RunView): RunView {
    v.(toolRounds := v.toolRounds + 1,
       assistant := Message(Other(""), "", "", [], "", ""),
       pending := [],
       toolBatch := None,
       phase := PhaseModel)
  }

  lemma {:induction false} RoundGoesOn(
    terms: RunTerms, v: RunView, a: Account, b: Account, kept: seq<Message>, notified: bool)
    requires InvOf(terms, v, a) && v.phase == PhaseCompact && v.toolBatch.Some?
    requires Compacting(a, b, v.skipNotified, notified)
    ensures var w := NextRound(Recast(v, kept, notified));
            && InvOf(terms, w, b)
            && (Limited(terms, v.maxToolRounds) ==> StepsLeftOf(terms, w) < StepsLeftOf(terms, v))
  {
    hide RequestMessages;
    hide Ledger;
    hide Taken;
    hide Said;
    hide StopHasReason;
    CompactedLedger(terms, v, a, b, kept, notified);
    LedgerMoves(terms, Recast(v, kept, notified), b, NextRound(Recast(v, kept, notified)), b);
  }

  // The end

  lemma {:induction false} InvHasStepsLeft(terms: RunTerms, v: RunView, a: Account)
    requires InvOf(terms, v, a) && Limited(terms, v.maxToolRounds)
    ensures StepsLeftOf(terms, v) >= 0
  {
    hide RequestMessages;
    hide Ledger;
    hide Held;
  }

  /** Without a registry the calls of the last reply stay open when it came whole. */
  predicate CallsLeftOpen(terms: RunTerms, a: Account) {
    && terms.tools.None? && !terms.disableTools
    && AcceptedCalls(terms.world, a.replies) != []
    && a.replies != [] && terms.world.chat(a.replies[|a.replies| - 1].at).err.None?
  }

  /** What a run promises once it is over, however it ended: one terminal event,
      the last one; a cost; an account that is settled; a reason for the end; and
      unless a sink has failed, calls that stay open exactly when the approval
      prompt failed in a live context or there was no registry for them. */
  ghost predicate RunOver(terms: RunTerms, v: RunView, a: Account) {
    && Closed(a)
    && a.skips <= 1
    && Spent(terms, v, a)
    && Settlement(terms, v, a)
    && Why(terms, v, a)
    && (a.sinkFailures == 0 ==> (v.open != [] <==> a.abandoned > 0 || CallsLeftOpen(terms, a)))
  }

  lemma {:induction false} AbortedIsOver(terms: RunTerms, v: RunView, a: Account)
    requires AbortedOf(terms, v, a)
    ensures RunOver(terms, v, a)
  {
    hide RequestMessages;
    hide LogOf;
    hide ExecutionsOf;
    hide CallsOf;
    hide Lawful;
    hide AcceptedCalls;
    hide EndsRun;
  }

  lemma {:induction false} DoneIsQuiet(terms: RunTerms, v: RunView, a: Account)
    requires InvOf(terms, v, a) && v.phase == PhaseDone && v.finish.status.Some?
    ensures a.terminals == 0
  {
    hide RequestMessages;
    hide Ledger;
  }

  /** A run in its last phase, before and after its last event. */
  lemma {:induction false} DoneIsOver(terms: RunTerms, v: RunView, a: Account, b: Account)
    requires InvOf(terms, v, a) && v.phase == PhaseDone
    requires if v.finish.status.None? then b == a
             else b == RecordEvent(a, RunFinished(v.finish.status.value)).(sinkFailures := b.sinkFailures)
                  && b.sinkFailures >= a.sinkFailures
    ensures RunOver(terms, v, b)
  {
    hide RequestMessages;
    hide Ledger;
    hide Held;
    hide Taken;
    hide Said;
    hide MayAsk;
    hide AcceptedCalls;
    LedgerMoves(terms, v, a, v, b);
    LedgerIsSettlement(terms, v, b);
    hide Lawful;
  }

  lemma {:induction false} FreshRun(terms: RunTerms, messages: seq<Message>, maxToolRounds: Rounds, v: RunView)
    requires v.phase == PhaseModel && v.messages == messages && v.maxToolRounds == maxToolRounds && v.toolBatch.None?
    requires v.modelErrors == 0 && v.toolRounds == 0 && !v.skipNotified
    requires v.accepted == [] && v.answered == [] && v.open == [] && v.current == v.grants && v.initial == messages
    ensures InvOf(terms, v, NOTHING_YET)
    ensures StepsLeftOf(terms, v) == 5 * (if terms.tools.None? then 0 else maxToolRounds) + 5
  {
    hide RequestMessages;
  }
}
