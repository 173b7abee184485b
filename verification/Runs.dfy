/** Whole runs: what follows for a run that is over, which runs leave calls open,
    and which runs need never end, agent/session.go. */
module Runs {
  import opened Options
  import opened Text
  import opened Messages
  import opened Pairing
  import opened Approvals
  import opened ToolBatch
  import opened Environment
  import opened Replies
  import opened Clearing
  import opened Histories
  import opened RunInvariant
  import opened Chronicles
  import opened Sessions

  /** With a limit of m rounds a run asks the model at least once and at most
      3 * (m + 1) times, and starts at most m batches of tools. */
  lemma {:induction false} LimitedRunIsCheap(terms: RunTerms, v: RunView, a: Account)
    requires RunOver(terms, v, a) && !terms.disableTools && v.maxToolRounds >= 0
    ensures 1 <= |a.requests| <= 3 * (v.maxToolRounds + 1)
    ensures a.batches <= v.maxToolRounds
  {
    hide Settlement;
    hide Why;
    hide CallsLeftOpen;
    assert 3 * v.toolRounds <= 3 * v.maxToolRounds;
  }

  lemma {:induction false} IDsOfConcat(a: seq<ToolCall>, b: seq<ToolCall>)
    ensures IDsOf(a + b) == IDsOf(a) + IDsOf(b)
    ensures |IDsOf(b)| == |b|
    decreases |b|
  {
    if b == [] {
      assert a + b == a;
    } else {
      assert (a + b)[..|a + b| - 1] == a + b[..|b| - 1];
      IDsOfConcat(a, b[..|b| - 1]);
    }
  }

  /** Unless a sink fails, every call of every reply that was taken in is finished
      exactly once, in the order of the calls, exactly when the run was not given up
      because the approval prompt failed in a live context, and there was a registry
      for the calls. Every start is followed at once by its own finish in any case. */
  lemma {:induction false} EveryCallIsFinishedIff(terms: RunTerms, v: RunView, a: Account)
    requires RunOver(terms, v, a) && a.sinkFailures == 0
    ensures FinishedIDs(a.tools) == IDsOf(AcceptedCalls(terms.world, a.replies))
            <==> a.abandoned == 0 && !CallsLeftOpen(terms, a)
    ensures StartsAreFinished(a.tools)
  {
    hide Lawful;
    hide Why;
    hide Spent;
    hide LogOf;
    hide FinishedIDs;
    hide StartsAreFinished;
    hide CallsLeftOpen;
    hide AcceptedCalls;
    FinishedOnceInOrder(v.answered);
    StartedThenFinished(v.answered);
    IDsOfConcat(CallsOf(v.answered), v.open);
    hide IDsOf;
    hide CallsOf;
    assert v.open == [] ==> CallsOf(v.answered) + v.open == CallsOf(v.answered);
  }

  /** What was executed in a run was a call of a known tool that needed no approval;
      or its scope had been allowed when the run began, or by something that the user
      answered before the batch; or it was put to the user in the batch itself, and
      the user allowed the batch. */
  lemma {:induction false} ExecutedCallWasCleared(terms: RunTerms, v: RunView, a: Account, i: nat)
    requires RunOver(terms, v, a) && i < |a.executions|
    ensures |a.clearances| == |a.executions| && terms.tools.Some?
    ensures var registry, call, c := terms.tools.value, a.executions[i].call, a.clearances[i];
            && call.name in registry && c.before <= c.after <= |a.prompts|
            && (|| !RequiresApproval(registry, call)
                || Covers(v.grants, ScopeOf(registry, call))
                || (exists k | 0 <= k < c.before ::
                      GrantsScope(ApprovalAt(terms.world, a.prompts[k].at), ScopeOf(registry, call)))
                || (exists k | c.before <= k < c.after :: AllowedBy(registry, terms.world, a.prompts[k], call)))
  {
    hide Why;
    hide Spent;
    hide CallsLeftOpen;
    hide LogOf;
    hide CallsOf;
    hide ExecutionsOf;
    hide AcceptedCalls;
    hide GrantsScope;
    hide AllowedBy;
    hide AppliedAll;
    hide ApprovalAt;
    hide ScopeOf;
    hide RequiresApproval;
    assert ClearedAt(terms.tools, terms.world, v.grants, a, i);
    var registry, call, c := terms.tools.value, a.executions[i].call, a.clearances[i];
    var approvals := ApprovalsOf(terms.world, a.prompts[..c.before]);
    CoveredByHistory(v.grants, approvals, ScopeOf(registry, call));
    if exists x <- approvals :: GrantsScope(x, ScopeOf(registry, call)) {
      var x :| x in approvals && GrantsScope(x, ScopeOf(registry, call));
      var k :| 0 <= k < |approvals| && approvals[k] == x;
      assert ApprovalAt(terms.world, a.prompts[k].at) == x;
    }
  }

  // A model that never stops asking

  function InsistentReply(name: Phrase): Message {
    Message(Other(""), "", "", [ToolCall("call_1", name, "{}")], "", "")
  }

  /** A world in which the model asks for the same tool for ever, and the user cannot
      be asked for anything. */
  function InsistentWorld(name: Phrase): World {
    World(
      (t: nat) => ChatOutcome([ChatResponse(InsistentReply(name), 0)], None),
      (t: nat) => Live,
      (t: nat) => None,
      (t: nat) => Err(Error("", 0, false, false)),
      (t: nat) => Err(Error("", 0, false, false)),
      (t: nat) => SummaryOutcome(0, Ok("")),
      "/",
      (dir: string) => Some(dir))
  }

  lemma {:induction false} InsistentWorldBehaves(name: Phrase)
    ensures var w := InsistentWorld(name);
            && SinksHold(w) && ContextHolds(w)
            && forall t: nat :: w.chat(t).err.None? && w.approve(t).Err?
  {
  }

  lemma {:induction false} InsistentReplySays(name: Phrase, r: Reply)
    ensures Taken(InsistentWorld(name), r)
    ensures Said(InsistentWorld(name), r) == Message(Assistant, "", "", [ToolCall("call_1", name, "{}")], "", "")
  {
    var responses := [ChatResponse(InsistentReply(name), 0)];
    assert responses[..0] == [];
    assert Accumulated(responses) == Accumulate(Accumulated([]), InsistentReply(name));
    assert InsistentWorld(name).chat(r.at).responses == responses;
  }

  /** In that world no run is over that has no limit, or that has its tools disabled,
      when the tool is an unknown one. */
  lemma {:induction false} InsistentRunGoesOn(terms: RunTerms, v: RunView, a: Account, name: Phrase)
    requires terms.world == InsistentWorld(name)
    requires terms.tools.Some? ==> name !in terms.tools.value
    requires terms.window == 0 && !Limited(terms, v.maxToolRounds) && a.sinkFailures == 0
    ensures !RunOver(terms, v, a)
  {
    hide InsistentWorld;
    hide Settlement;
    hide CallsLeftOpen;
    hide Spent;
    hide Taken;
    hide Said;
    InsistentWorldBehaves(name);
    if a.replies != [] {
      InsistentReplySays(name, a.replies[|a.replies| - 1]);
    }
  }

  method Begin(
    world: World, tools: Option<Registry>, disableTools: bool) returns (session: Session)
    ensures fresh(session) && fresh(session.env) && fresh(session.approvals) && session.env.world == world
    ensures session.Terms() == RunTerms(tools, disableTools, world, 0, 0, session.estimate, None)
    ensures session.hasClient && session.hasPrompter && session.approvals.Current() == Grants(false, {})
  {
    var env := new Env(world);
    var approvals := new ApprovalState();
    session := new Session(env, true, tools, disableTools, true, approvals, None, (ms: seq<Message>) => 0 as nat, "/");
  }

  /** The limit is what it takes: with tools disabled, or with a registry and no limit
      on rounds, there are runs that are not over after any number of steps, and in
      which the model is asked again in at least every third one. */
  method NeverEnds(
    tools: Option<Registry>, disableTools: bool, opts: RunOptions, name: Phrase, fuel: nat)
    returns (session: Session, over: bool, ghost last: Option<RunView>)
    requires opts.model != ""
    requires disableTools || (tools.Some? && ResolvedMaxToolRounds(opts.cloud, opts.maxToolRounds) < 0)
    requires tools.Some? ==> name !in tools.value
    ensures session.env.world == InsistentWorld(name) && session.tools == tools && session.disableTools == disableTools
    ensures !over && last.Some? && session.env.Seen().sinkFailures == 0
    ensures fuel <= 3 * |session.env.Seen().requests|
    ensures InvOf(session.Terms(), last.value, session.env.Seen())
  {
    hide InvOf;
    hide RunOver;
    hide InsistentWorld;
    InsistentWorldBehaves(name);
    session := Begin(InsistentWorld(name), tools, disableTools);
    var result, err;
    ghost var turns;
    over, result, err, last, turns := session.Run(opts, fuel);
    InsistentRunGoesOn(session.Terms(), last.value, session.env.Seen(), name);
  }

  // Calls that stay open

  lemma {:induction false} InsistentCallsAreLeftOpen(terms: RunTerms, v: RunView, a: Account, name: Phrase)
    requires terms.world == InsistentWorld(name)
    requires terms.tools.None? && !terms.disableTools
    requires RunOver(terms, v, a)
    ensures CallsLeftOpen(terms, a)
  {
    hide InsistentWorld;
    hide Lawful;
    hide Why;
    hide Taken;
    hide Said;
    InsistentWorldBehaves(name);
    InsistentReplySays(name, a.replies[|a.replies| - 1]);
  }

  /** Without a registry the calls of a reply stay open: the run is over, and they are
      never finished. */
  method NoRegistryLeavesCallsOpen(opts: RunOptions, name: Phrase)
    returns (session: Session, over: bool, ghost last: Option<RunView>)
    requires opts.model != ""
    ensures over && last.Some? && last.value.open != []
    ensures FinishedIDs(session.env.Seen().tools) != IDsOf(AcceptedCalls(session.env.world, session.env.Seen().replies))
  {
    hide InvOf;
    hide RunOver;
    hide InsistentWorld;
    hide CallsLeftOpen;
    InsistentWorldBehaves(name);
    session := Begin(InsistentWorld(name), None, false);
    var result, err;
    ghost var turns;
    over, result, err, last, turns := session.Run(opts, 6);
    InsistentCallsAreLeftOpen(session.Terms(), last.value, session.env.Seen(), name);
    EveryCallIsFinishedIff(session.Terms(), last.value, session.env.Seen());
    OpenMeans(session.Terms(), last.value, session.env.Seen());
  }

  lemma {:induction false} OpenMeans(terms: RunTerms, v: RunView, a: Account)
    requires RunOver(terms, v, a) && a.sinkFailures == 0
    ensures v.open != [] <==> a.abandoned > 0 || CallsLeftOpen(terms, a)
  {
  }

  /** A run in that world, with a registry and tools enabled, before its first step. */
  method BeginInsistentRun(registry: Registry, name: Phrase) returns (session: Session, st: RunState)
    ensures fresh(session) && fresh(session.env) && fresh(session.approvals) && fresh(st)
    ensures session.env.world == InsistentWorld(name) && session.tools == Some(registry)
    ensures session.hasPrompter && !session.disableTools
    ensures session.Inv(st) && st.phase == PhaseModel && st.prompt == "" && st.toolRounds == 0 && st.maxToolRounds == 1
    ensures session.approvals.Current() == Grants(false, {}) && session.env.Seen() == NOTHING_YET
  {
    hide InvOf;
    hide InsistentWorld;
    hide Chronicle;
    hide Stage;
    session := Begin(InsistentWorld(name), Some(registry), false);
    session.env.Forget();
    st := new RunState([], 1, session.approvals.Current(), "");
    FreshRun(session.Terms(), [], 1, session.View(st));
    ChronicleBegins(session.Terms(), session.View(st));
  }

  method AskInsistentModel(registry: Registry, name: Phrase) returns (session: Session, st: RunState)
    ensures fresh(session) && fresh(session.env) && fresh(session.approvals) && fresh(st)
    ensures session.env.world == InsistentWorld(name) && session.tools == Some(registry) && session.hasPrompter
    ensures session.Inv(st) && st.phase == PhaseTools && st.pending == [ToolCall("call_1", name, "{}")]
    ensures session.approvals.Current() == Grants(false, {}) && session.env.Seen().sinkFailures == 0
  {
    hide InvOf;
    hide AbortedOf;
    hide InsistentWorld;
    hide Taken;
    hide Said;
    hide Chronicle;
    hide Stage;
    hide RequestMessages;
    hide SinksHold;
    hide ContextHolds;
    InsistentWorldBehaves(name);
    session, st := BeginInsistentRun(registry, name);
    ghost var r;
    var err;
    err, r := session.RunModelStep("", st);
    InsistentReplySays(name, r);
    ToolsMeans(session.Terms(), session.View(st), session.env.Seen());
  }

  /** A failing prompt in a live context leaves the calls open, too: the first two
      steps of such a run. */
  method FailingPromptLeavesCallsOpen(registry: Registry, name: Phrase)
    returns (session: Session, st: RunState, err: Option<Error>)
    requires RequiresApproval(registry, ToolCall("call_1", name, "{}"))
    ensures err.Some? && st.open == [ToolCall("call_1", name, "{}")] && session.env.Seen().sinkFailures == 0
    ensures RunOver(session.Terms(), session.View(st), session.env.Seen())
    ensures FinishedIDs(session.env.Seen().tools) != IDsOf(AcceptedCalls(session.env.world, session.env.Seen().replies))
  {
    hide InvOf;
    hide AbortedOf;
    hide RunOver;
    hide InsistentWorld;
    hide Chronicle;
    InsistentWorldBehaves(name);
    session, st := AskInsistentModel(registry, name);
    HasToAsk(registry, session.approvals.Current(), ToolCall("call_1", name, "{}"));
    hide RequiresApproval;
    hide ApprovalCalls;
    err := session.RunToolStep(st);
    AbortedLeavesCallsOpen(session.Terms(), session.View(st), session.env.Seen());
  }

  lemma {:induction false} AbortedLeavesCallsOpen(terms: RunTerms, v: RunView, a: Account)
    requires AbortedOf(terms, v, a) && a.sinkFailures == 0 && v.open != []
    ensures RunOver(terms, v, a)
    ensures FinishedIDs(a.tools) != IDsOf(AcceptedCalls(terms.world, a.replies))
  {
    AbortedIsOver(terms, v, a);
    hide AbortedOf;
    OpenMeans(terms, v, a);
    EveryCallIsFinishedIff(terms, v, a);
    hide RunOver;
  }

  lemma {:induction false} HasToAsk(registry: Registry, g: Grants, call: ToolCall)
    requires RequiresApproval(registry, call) && g == Grants(false, {})
    ensures ApprovalCalls(registry, g, [call]) != []
  {
    hide ApprovalScope;
    var q := ApprovalToolCall(call.id, call.name, call.args, ScopeOf(registry, call));
    assert AsksAbout(registry, g, [call][0], q);
    AskedAbout(registry, g, [call], q);
  }

  // What the history says about the account

  /** Unless a sink fails, whatever call of a known tool stands in a batch that did
      not stop was executed. */
  lemma {:induction false} UnstoppedBatchWasExecuted(
    terms: RunTerms, v: RunView, turns: seq<Turn>, a: Account, i: nat, x: Answered)
    requires RunOver(terms, v, a) && Chronicle(terms, v, turns, a) && a.sinkFailures == 0
    requires i < |turns| && turns[i].Resolved? && turns[i].how == Ran(NoStop) && x in turns[i].answers
    ensures terms.tools.Some?
    ensures x.call.name in terms.tools.value ==> Execution(x.call, x.dir, x.raw) in a.executions
  {
    hide Why;
    hide Spent;
    hide CallsLeftOpen;
    hide LogOf;
    hide CallsOf;
    hide ExecutionsOf;
    hide AcceptedCalls;
    hide Lawful;
    hide Plausible;
    hide History;
    hide RequestsOf;
    hide Voiced;
    UnstoppedBatchRunsAll(terms, v.initial, turns, i, x);
    AnswerIsIn(turns, i, x);
    hide AnswersIn;
    if x.Executed() {
      ExecutionOfAnswer(v.answered, x);
    }
  }

  lemma {:induction false} ExecutionOfAnswer(answers: seq<Answered>, x: Answered)
    requires x in answers && x.Executed()
    ensures Execution(x.call, x.dir, x.raw) in ExecutionsOf(answers)
  {
    var front := answers[..|answers| - 1];
    if answers[|answers| - 1] != x {
      assert answers == front + [answers[|answers| - 1]];
      ExecutionOfAnswer(front, x);
    }
  }

  /** Without a compactor the history is the initial one, followed by what was said
      and answered since, and the first request is the initial history. */
  lemma {:induction false} HistoryWithoutCompactor(terms: RunTerms, v: RunView, turns: seq<Turn>, a: Account)
    requires Chronicle(terms, v, turns, a) && terms.keep.None?
    ensures v.messages == v.initial + Added(turns)
    ensures a.requests != [] ==> a.requests[0] == RequestMessages(v.prompt, v.initial)
  {
    HistoryOnlyGrows(terms, v.initial, turns);
    hide History;
    hide RequestMessages;
    hide Added;
    if turns != [] {
      FirstRequest(terms, v.prompt, v.initial, turns);
    }
    hide Plausible;
    hide Voiced;
  }
}
