/** The agent session: the run loop, the tool batches and the two ways in which
    a run compacts its history, agent/session.go. */
module Sessions {
  import opened Options
  import opened Text
  import opened Messages
  import opened ToolBudget
  import opened Compactor
  import opened Pairing
  import opened Approvals
  import opened ToolBatch
  import opened Reattach
  import opened Environment
  import opened Accounts
  import opened Replies
  import opened Clearing
  import opened Histories
  import opened RunInvariant
  import opened Chronicles

  datatype CompactorOptions = CompactorOptions(hasClient: bool, window: nat, threshold: nat, keepUserTurns: int)

  class Session {
    const env: Env
    const hasClient: bool
    const tools: Option<Registry>
    const disableTools: bool
    const hasPrompter: bool
    const approvals: ApprovalState
    const compactor: Option<CompactorOptions>

    /** The estimated tokens of the whole request for a history. */
    const estimate: seq<Message> -> nat

    var workingDir: string

    constructor (
      env: Env, hasClient: bool, tools: Option<Registry>, disableTools: bool, hasPrompter: bool,
      approvals: ApprovalState, compactor: Option<CompactorOptions>, estimate: seq<Message> -> nat, workingDir: string)
      ensures this.env == env && this.hasClient == hasClient && this.tools == tools
      ensures this.disableTools == disableTools && this.hasPrompter == hasPrompter && this.approvals == approvals
      ensures this.compactor == compactor && this.estimate == estimate && this.workingDir == workingDir
    {
      this.env, this.hasClient, this.tools, this.disableTools := env, hasClient, tools, disableTools;
      this.hasPrompter, this.approvals, this.compactor := hasPrompter, approvals, compactor;
      this.estimate, this.workingDir := estimate, workingDir;
    }

    function Window(): nat {
      if compactor.None? then 0 else compactor.value.window
    }

    function Threshold(): nat {
      if compactor.None? || compactor.value.window == 0 then 0 else compactor.value.threshold
    }

    // Tool batches

    /** An event that may be lost once the context is no longer live. */
    method EmitIgnoringCanceled(e: Event) returns (err: Option<Error>)
      requires env.Seen().terminals == 0
      modifies env
      ensures SinksHold(env.world) ==> env.Seen().sinkFailures == old(env.Seen()).sinkFailures
      ensures var after := env.Seen();
              && after == RecordEvent(old(env.Seen()), e).(sinkFailures := after.sinkFailures)
              && after.sinkFailures >= old(env.Seen()).sinkFailures
              && (err.Some? ==> after.sinkFailures > old(env.Seen()).sinkFailures)
    {
      err := env.Emit(e);
      if err.Some? {
        var c := env.ContextError();
        if c != Live {
          err := None;
        }
      }
    }

    method CurrentWorkingDir() returns (dir: string)
      modifies this`workingDir
      ensures dir == workingDir == if old(workingDir) != "" then old(workingDir) else env.world.currentDir
    {
      if workingDir == "" {
        workingDir := env.world.currentDir;
      }
      dir := workingDir;
    }

    /** Moves the session to the directory that a tool reports, if it is one. */
    method ApplyToolWorkingDir(next: string) returns (changed: bool)
      modifies this`workingDir
      ensures !changed ==> workingDir == if old(workingDir) != "" || TrimSpace(next) == "" then old(workingDir) else env.world.currentDir
      ensures changed ==> TrimSpace(next) != "" && env.world.canonical(TrimSpace(next)) == Some(workingDir)
    {
      var trimmed := TrimSpace(next);
      if trimmed == "" {
        return false;
      }
      var current := CurrentWorkingDir();
      var nextAbs := env.world.canonical(trimmed);
      if nextAbs == None || current == nextAbs.value {
        return false;
      }
      workingDir := nextAbs.value;
      return true;
    }

    /** Answers calls without running them. */
    method SkipToolCalls(calls: seq<ToolCall>, content: Content)
      returns (messages: seq<Message>, err: Option<Error>, ghost answers: seq<Answered>)
      requires env.Seen().terminals == 0
      modifies env
      ensures SinksHold(env.world) ==> env.Seen().sinkFailures == old(env.Seen()).sinkFailures
      ensures env.Seen().terminals == 0
      ensures env.Seen().sinkFailures >= old(env.Seen()).sinkFailures
      ensures err.None? ==>
                && CallsOf(answers) == calls && messages == MessagesOf(answers)
                && Did(old(env.Seen()), env.Seen(), answers)
                && forall a <- answers ::
                     a.outcome == Skipped && a.raw == content && a.message == ToolMessage(a.call.name, a.call.id, content)
      ensures env.Seen().executions == old(env.Seen()).executions
      ensures err.Some? ==> Broke({}, old(env.Seen()), env.Seen())
    {
      hide Tell;
      hide SinksHold;
      hide ToolMessage;
      hide LogOf;
      hide ExecutionsOf;
      messages, err, answers := [], None, [];
      DidNothing(env.Seen());
      for i := 0 to |calls|
        invariant err.None? && CallsOf(answers) == calls[..i] && messages == MessagesOf(answers)
        invariant Did(old(env.Seen()), env.Seen(), answers)
        invariant forall a <- answers ::
                    a.outcome == Skipped && a.raw == content && a.message == ToolMessage(a.call.name, a.call.id, content)
        invariant env.Seen().executions == old(env.Seen()).executions
        invariant SinksHold(env.world) ==> env.Seen().sinkFailures == old(env.Seen()).sinkFailures
      {
        var call := calls[i];
        var msg := ToolMessage(call.name, call.id, content);
        messages := messages + [msg];
        ghost var before := env.Seen();
        ghost var a := Answered(call, Skipped, content, msg, "");
        err := EmitIgnoringCanceled(ToolActivity(Finished(call.id, call.name, StatusSkipped, msg.content)));
        if err.Some? {
          DidThenBroke({}, old(env.Seen()), before, env.Seen(), answers);
          return [], err, [];
        }
        assert EventsOf(a) == [Finished(call.id, call.name, StatusSkipped, msg.content)];
        DidOne(before, env.Seen(), a);
        DidThenDid(old(env.Seen()), before, env.Seen(), answers, [a]);
        answers := answers + [a];
      }
    }

    /** Answers calls with the notice that tools are disabled. */
    method DisabledToolCalls(messages: seq<Message>, calls: seq<ToolCall>)
      returns (batch: Batch, err: Option<Error>, ghost answers: seq<Answered>)
      requires env.Seen().terminals == 0
      modifies env
      ensures SinksHold(env.world) ==> env.Seen().sinkFailures == old(env.Seen()).sinkFailures
      ensures env.Seen().terminals == 0
      ensures env.Seen().sinkFailures >= old(env.Seen()).sinkFailures
      ensures err.None? ==>
                && CallsOf(answers) == calls && batch == Batch(MessagesOf(answers), NoStop, [])
                && WellFitted(Window(), Threshold(), estimate(messages), answers)
                && Did(old(env.Seen()), env.Seen(), answers)
                && forall a <- answers :: a.outcome == Disabled && a.raw == DisabledMessage()
      ensures err.Some? ==> Broke({}, old(env.Seen()), env.Seen())
    {
      hide Tell;
      hide SinksHold;
      hide ToolMessageWithBudget;
      hide MessagesTokens;
      hide MessageTokens;
      hide Underway;
      hide WellFitted;
      hide Did;
      hide Broke;
      hide LogOf;
      hide ExecutionsOf;
      hide CallsOf;
      hide MessagesOf;
      hide DisabledMessage;
      ghost var start := env.Seen();
      batch, err, answers := Batch([], NoStop, []), None, [];
      var historyTokens := estimate(messages);
      var batchTokens: nat := 0;
      NoAnswers();
      UnderwayAtStart(Window(), Threshold(), historyTokens, start);
      for i := 0 to |calls|
        invariant err.None? && CallsOf(answers) == calls[..i] && batch == Batch(MessagesOf(answers), NoStop, [])
        invariant Underway(Window(), Threshold(), historyTokens, answers, batchTokens, start, env.Seen())
        invariant forall a <- answers :: a.outcome == Disabled && a.raw == DisabledMessage()
        invariant env.Seen().terminals == 0
        invariant SinksHold(env.world) ==> env.Seen().sinkFailures == old(env.Seen()).sinkFailures
      {
        var call := calls[i];
        var msg := ToolMessageWithBudget(
          call.name, call.id, DisabledMessage(), Window(), historyTokens + batchTokens, Threshold());
        batch := batch.(messages := batch.messages + [msg]);
        ghost var before := env.Seen();
        ghost var a := Answered(call, Disabled, DisabledMessage(), msg, "");
        err := EmitIgnoringCanceled(ToolActivity(Finished(call.id, call.name, StatusDisabled, msg.content)));
        if err.Some? {
          BreaksOff({}, Window(), Threshold(), historyTokens, answers, batchTokens, start, before, env.Seen());
          return Batch([], NoStop, []), err, [];
        }
        FinishedUnrun(before, env.Seen(), a);
        MovesOn(Window(), Threshold(), historyTokens, answers, batchTokens, start, before, env.Seen(), a);
        batchTokens := batchTokens + MessageTokens(msg);
        answers := answers + [a];
      }
      assert calls[..|calls|] == calls;
      UnderwayMeans(Window(), Threshold(), historyTokens, answers, batchTokens, start, env.Seen());
    }

    /** Puts a batch to the user, unless nothing needs to be asked. */
    method AuthorizeToolCalls(calls: seq<ApprovalToolCall>) returns (r: Result<Approval, Error>)
      modifies env, approvals
      ensures calls == [] || old(approvals.Current()).all ==>
                && r.Ok? && r.value.allow
                && env.Seen() == old(env.Seen()) && approvals.Current() == old(approvals.Current())
                && env.now == old(env.now)
      ensures calls != [] && !old(approvals.Current()).all && !hasPrompter ==>
                && r.Ok? && !r.value.allow && r.value.reason == NoPrompterReason()
                && env.Seen() == old(env.Seen()) && approvals.Current() == old(approvals.Current())
                && env.now == old(env.now)
      ensures calls != [] && !old(approvals.Current()).all && hasPrompter ==>
                && r == Verdict(env.world.approve(old(env.now))) && env.now == old(env.now) + 1
                && if r.Ok? then
                  && env.Seen() == Record(old(env.Seen()), Prompted(calls, old(env.now)))
                  && r.value.allow == Granted(r.value)
                  && approvals.Current() == Applied(old(approvals.Current()), r.value)
                else
                  && env.Seen() == Record(old(env.Seen()), PromptFailed)
                  && approvals.Current() == old(approvals.Current())
    {
      var all := approvals.AllGranted();
      if calls == [] || all {
        return Ok(Approval(true, false, [], ""));
      }
      if !hasPrompter {
        return Ok(Approval(false, false, [], NoPrompterReason()));
      }
      r := env.PromptApproval(calls);
      if r.Ok? {
        var granted := approvals.Apply(r.value);
        if granted {
          r := Ok(r.value.(allow := true));
        }
      }
    }

    /** The message made of a raw result, and whether the result was left out. */
    function Fitted(call: ToolCall, raw: Content, base: nat): (Message, Option<Overflow>) {
      var msg := ToolMessageWithBudget(call.name, call.id, raw, Window(), base, Threshold());
      (msg, if FullyOmitted(msg.content) then Some(Overflow(call.name, call.id, raw)) else None)
    }

    lemma {:induction false} FittedMeans(call: ToolCall, raw: Content, base: nat)
      ensures var fitted := Fitted(call, raw, base);
              && fitted.0 == ToolMessageWithBudget(call.name, call.id, raw, Window(), base, Threshold())
              && fitted.1 == if FullyOmitted(fitted.0.content) then Some(Overflow(call.name, call.id, raw)) else None
    {
    }

    /** One call of a batch: run it if its tool is known, and put the result, cut
        to the budget, into a message. */
    method RunOne(call: ToolCall, dir: string, base: nat)
      returns (msg: Message, overflow: Option<Overflow>, err: Option<Error>, ghost a: Answered)
      requires tools.Some? && env.Seen().terminals == 0
      modifies this`workingDir, env
      ensures SinksHold(env.world) ==> env.Seen().sinkFailures == old(env.Seen()).sinkFailures
      ensures err.None? ==>
                && a.call == call && a.message == msg && a.dir == dir && Ordinary(tools.value, a)
                && (msg, overflow) == Fitted(call, a.raw, base)
                && Did(old(env.Seen()), env.Seen(), [a])
      ensures err.Some? ==> Broke(Known(tools.value, [call]), old(env.Seen()), env.Seen())
    {
      hide Tell;
      hide Fitted;
      hide Did;
      hide UnknownToolText;
      ghost var start := env.Seen();
      if call.name in tools.value {
        msg, overflow, err, a := RunKnown(call, dir, base);
        return;
      }
      var unknown := UnknownToolText(call.name);
      var fitted := Fitted(call, unknown, base);
      msg, overflow := fitted.0, fitted.1;
      a := Answered(call, Unknown, unknown, msg, dir);
      err := env.Emit(ToolActivity(Finished(call.id, call.name, StatusFailed, msg.content)));
      if err.None? {
        FinishedUnrun(start, env.Seen(), a);
      }
    }

    method RunKnown(call: ToolCall, dir: string, base: nat)
      returns (msg: Message, overflow: Option<Overflow>, err: Option<Error>, ghost a: Answered)
      requires env.Seen().terminals == 0
      modifies this`workingDir, env
      ensures SinksHold(env.world) ==> env.Seen().sinkFailures == old(env.Seen()).sinkFailures
      ensures err.None? ==>
                && a.call == call && a.message == msg && a.dir == dir && a.Executed()
                && (msg, overflow) == Fitted(call, a.raw, base)
                && Did(old(env.Seen()), env.Seen(), [a])
      ensures err.Some? ==> Broke({call}, old(env.Seen()), env.Seen())
    {
      hide Tell;
      hide Fitted;
      hide Did;
      hide TrimSpace;
      ghost var start := env.Seen();
      err := env.Emit(ToolActivity(Started(call.id, call.name, dir)));
      if err.Some? {
        msg, overflow := ToolResultMessage(call.name, call.id, ""), None;
        a := Answered(call, Failed, "", msg, dir);
        return;
      }
      var result;
      ghost var output;
      result, output := env.Execute(call, dir);
      var fitted, status;
      match result {
        case Err(e) =>
          fitted, status := Fitted(call, "Error: " + e.message, base), StatusFailed;
        case Ok(value) =>
          var changed := ApplyToolWorkingDir(value.workingDir);
          fitted, status := Fitted(call, value.content, base), StatusDone;
      }
      msg, overflow := fitted.0, fitted.1;
      a := Answered(call, if result.Ok? then Done else Failed, output, msg, dir);
      err := EmitIgnoringCanceled(ToolActivity(Finished(call.id, call.name, status, msg.content)));
      if err.None? {
        RanAndFinished(start, env.Seen(), a);
      }
    }

    /** What the user has to be asked about, collected call by call. */
    method CollectApprovals(calls: seq<ToolCall>) returns (asked: seq<ApprovalToolCall>)
      requires tools.Some?
      ensures asked == ApprovalCalls(tools.value, approvals.Current(), calls)
    {
      hide Tell;
      hide SinksHold;
      hide TrimSpace;
      asked := [];
      for i := 0 to |calls|
        invariant asked == ApprovalCalls(tools.value, approvals.Current(), calls[..i])
      {
        assert calls[..i + 1][..i] == calls[..i];
        var call := calls[i];
        if call.name in tools.value {
          var tool := tools.value[call.name];
          var scope := ApprovalScope(tool, call.name, call.args);
          if tool.requiresApproval(call.args) && !approvals.Allows(scope) {
            asked := asked + [ApprovalToolCall(call.id, call.name, call.args, scope)];
          }
        }
      }
      assert calls[..|calls|] == calls;
    }

    /** Answers every call of a denied batch with the reason. */
    method DenyToolCalls(calls: seq<ToolCall>, content: Content, historyTokens: nat)
      returns (messages: seq<Message>, err: Option<Error>, ghost answers: seq<Answered>)
      requires env.Seen().terminals == 0
      modifies env
      ensures SinksHold(env.world) ==> env.Seen().sinkFailures == old(env.Seen()).sinkFailures
      ensures err.None? ==>
                && CallsOf(answers) == calls && messages == MessagesOf(answers)
                && WellFitted(Window(), Threshold(), historyTokens, answers)
                && Did(old(env.Seen()), env.Seen(), answers)
                && forall a <- answers :: a.outcome == Denied && a.raw == content
      ensures env.Seen().executions == old(env.Seen()).executions
      ensures err.Some? ==> Broke({}, old(env.Seen()), env.Seen())
    {
      hide Tell;
      hide ToolMessageWithBudget;
      hide MessagesTokens;
      hide MessageTokens;
      hide Underway;
      hide WellFitted;
      hide Broke;
      hide LogOf;
      hide ExecutionsOf;
      hide Did;
      ghost var start := env.Seen();
      messages, err, answers := [], None, [];
      var batchTokens: nat := 0;
      UnderwayAtStart(Window(), Threshold(), historyTokens, start);
      for i := 0 to |calls|
        invariant err.None? && CallsOf(answers) == calls[..i] && messages == MessagesOf(answers)
        invariant Underway(Window(), Threshold(), historyTokens, answers, batchTokens, start, env.Seen())
        invariant forall a <- answers :: a.outcome == Denied && a.raw == content
        invariant env.Seen().terminals == 0
        invariant env.Seen().executions == old(env.Seen()).executions
        invariant SinksHold(env.world) ==> env.Seen().sinkFailures == old(env.Seen()).sinkFailures
      {
        var call := calls[i];
        var msg := ToolMessageWithBudget(
          call.name, call.id, content, Window(), historyTokens + batchTokens, Threshold());
        messages := messages + [msg];
        ghost var before := env.Seen();
        ghost var a := Answered(call, Denied, content, msg, "");
        err := env.Emit(ToolActivity(Finished(call.id, call.name, StatusDenied, msg.content)));
        if err.Some? {
          BreaksOff({}, Window(), Threshold(), historyTokens, answers, batchTokens, start, before, env.Seen());
          return [], err, [];
        }
        FinishedUnrun(before, env.Seen(), a);
        MovesOn(Window(), Threshold(), historyTokens, answers, batchTokens, start, before, env.Seen(), a);
        batchTokens := batchTokens + MessageTokens(msg);
        answers := answers + [a];
      }
      UnderwayMeans(Window(), Threshold(), historyTokens, answers, batchTokens, start, env.Seen());
    }

    /** The calls of a cleared batch, one after the other, until the context is
        canceled; the rest is skipped then. */
    method RunToolCalls(calls: seq<ToolCall>, dir: string, historyTokens: nat)
      returns (batch: Batch, err: Option<Error>, ghost answers: seq<Answered>)
      requires tools.Some? && env.Seen().terminals == 0
      modifies this`workingDir, env
      ensures SinksHold(env.world) ==> env.Seen().sinkFailures == old(env.Seen()).sinkFailures
      ensures RunsCalls(calls, historyTokens, dir, old(env.Seen()), env.Seen(), batch, err, answers)
    {
      hide Tell;
      hide SinksHold;
      hide Fitted;
      hide MessageTokens;
      hide InPlay;
      hide LogOf;
      hide ExecutionsOf;
      hide Ordinary;
      hide Plays;
      hide CallsOf;
      hide WellFitted;
      hide MessagesOf;
      hide OverflowsOf;
      ghost var start := env.Seen();
      batch, err, answers := Batch([], NoStop, []), None, [];
      var batchTokens: nat := 0;
      InPlayAtStart(historyTokens, dir, start);
      for i := 0 to |calls|
        invariant err.None? && CallsOf(answers) == calls[..i]
        invariant InPlay(historyTokens, answers, batch, batchTokens, dir, start, env.Seen())
        invariant env.Seen().terminals == 0
        invariant SinksHold(env.world) ==> env.Seen().sinkFailures == old(env.Seen()).sinkFailures
      {
        var context := env.ContextError();
        if context != Live {
          batch, err, answers := SkipTheRest(calls, i, batch, historyTokens, batchTokens, dir, answers, start);
          return;
        }
        ghost var before := env.Seen();
        var msg, overflow;
        ghost var a;
        msg, overflow, err, a := RunOne(calls[i], dir, historyTokens + batchTokens);
        if err.Some? {
          BrokeMore(Known(tools.value, [calls[i]]), Known(tools.value, calls), before, env.Seen());
          PlayBreaksOff(calls, i, historyTokens, answers, batch, batchTokens, dir, start, before, env.Seen());
          return Batch([], NoStop, []), err, [];
        }
        PlayGoesOn(historyTokens, answers, batch, batchTokens, dir, start, before, env.Seen(), a, overflow);
        batch := Batch(batch.messages + [msg], NoStop,
                       if overflow.Some? then batch.overflows + [overflow.value] else batch.overflows);
        batchTokens := batchTokens + MessageTokens(msg);
        answers := answers + [a];
        if calls[i].name in tools.value {
          context := env.ContextError();
          if context != Live {
            batch, err, answers := SkipTheRest(calls, i + 1, batch, historyTokens, batchTokens, dir, answers, start);
            return;
          }
        }
      }
      InPlayMeans(historyTokens, answers, batch, batchTokens, dir, start, env.Seen());
      assert calls[..|calls|] == calls;
    }

    /** The calls so far have all been run, or found unknown. */
    ghost predicate InPlay(
      historyTokens: nat, answers: seq<Answered>, batch: Batch, batchTokens: nat, dir: string, start: Account, now: Account)
      requires tools.Some?
    {
      && batch == Batch(MessagesOf(answers), NoStop, OverflowsOf(answers))
      && Underway(Window(), Threshold(), historyTokens, answers, batchTokens, start, now)
      && forall a <- answers :: Ordinary(tools.value, a) && a.dir == dir
    }

    lemma {:induction false} InPlayAtStart(historyTokens: nat, dir: string, start: Account)
      requires tools.Some?
      ensures InPlay(historyTokens, [], Batch([], NoStop, []), 0, dir, start, start)
      ensures CallsOf([]) == []
    {
      UnderwayAtStart(Window(), Threshold(), historyTokens, start);
      NoAnswers();
    }

    lemma {:induction false} InPlayMeans(
      historyTokens: nat, answers: seq<Answered>, batch: Batch, batchTokens: nat, dir: string, start: Account, now: Account)
      requires tools.Some? && InPlay(historyTokens, answers, batch, batchTokens, dir, start, now)
      ensures batch.messages == MessagesOf(answers) && batch.stop == NoStop && batch.overflows == OverflowsOf(answers)
      ensures Plays(tools.value, NoStop, answers)
      ensures WellFitted(Window(), Threshold(), historyTokens, answers)
      ensures Did(start, now, answers)
      ensures forall a <- answers :: a.dir == dir
    {
      hide Tell;
      hide SinksHold;
      hide Ordinary;
      hide WellFitted;
      hide Did;
      PlaysToTheEnd(tools.value, answers);
    }

    lemma {:induction false} PlayBreaksOff(
      calls: seq<ToolCall>, n: nat, historyTokens: nat, answers: seq<Answered>, batch: Batch, batchTokens: nat,
      dir: string, start: Account, before: Account, after: Account)
      requires tools.Some? && InPlay(historyTokens, answers, batch, batchTokens, dir, start, before)
      requires n <= |calls| && CallsOf(answers) == calls[..n]
      requires Broke(Known(tools.value, calls), before, after)
      ensures Broke(Known(tools.value, calls), start, after)
    {
      hide WellFitted;
      PlayedAmong(tools.value, calls, n, answers);
      hide Ordinary;
      BreaksOff(
        Known(tools.value, calls), Window(), Threshold(), historyTokens, answers, batchTokens, start, before, after);
    }

    lemma {:induction false} PlayGoesOn(
      historyTokens: nat, answers: seq<Answered>, batch: Batch, batchTokens: nat, dir: string,
      start: Account, before: Account, after: Account, a: Answered, overflow: Option<Overflow>)
      requires tools.Some? && InPlay(historyTokens, answers, batch, batchTokens, dir, start, before)
      requires Did(before, after, [a]) && Ordinary(tools.value, a) && a.dir == dir
      requires (a.message, overflow) == Fitted(a.call, a.raw, historyTokens + batchTokens)
      ensures CallsOf(answers + [a]) == CallsOf(answers) + [a.call]
      ensures InPlay(
                historyTokens, answers + [a],
                Batch(batch.messages + [a.message], NoStop,
                      if overflow.Some? then batch.overflows + [overflow.value] else batch.overflows),
                batchTokens + MessageTokens(a.message), dir, start, after)
    {
      hide Tell;
      hide SinksHold;
      hide Fitted;
      hide Ordinary;
      hide WellFitted;
      hide Did;
      hide ToolMessageWithBudget;
      hide FullyOmitted;
      hide MessageTokens;
      hide Underway;
      hide OverflowsOf;
      hide CallsOf;
      hide MessagesOf;
      OrdinaryMeans(tools.value, a);
      FittedMeans(a.call, a.raw, historyTokens + batchTokens);
      MovesOn(Window(), Threshold(), historyTokens, answers, batchTokens, start, before, after, a);
      OverflowsOfAppend(answers, a, overflow);
    }

    method SkipTheRest(
      calls: seq<ToolCall>, from: nat, batch: Batch, ghost historyTokens: nat, ghost batchTokens: nat,
      ghost dir: string, ghost played: seq<Answered>, ghost start: Account)
      returns (whole: Batch, err: Option<Error>, ghost answers: seq<Answered>)
      requires tools.Some? && env.Seen().terminals == 0
      requires from <= |calls| && CallsOf(played) == calls[..from]
      requires InPlay(historyTokens, played, batch, batchTokens, dir, start, env.Seen())
      modifies env
      ensures SinksHold(env.world) ==> env.Seen().sinkFailures == old(env.Seen()).sinkFailures
      ensures err.None? ==>
                && CallsOf(answers) == calls
                && whole == Batch(MessagesOf(answers), CanceledStop, OverflowsOf(answers))
                && Plays(tools.value, CanceledStop, answers)
                && WellFitted(Window(), Threshold(), historyTokens, answers)
                && Did(start, env.Seen(), answers)
                && forall a <- answers :: a.Executed() ==> a.dir == dir
      ensures err.Some? ==> Broke(Known(tools.value, calls), start, env.Seen())
    {
      hide Tell;
      hide SinksHold;
      hide InPlay;
      hide Did;
      hide SkippedMessage;
      hide CallsOf;
      hide MessagesOf;
      hide OverflowsOf;
      hide WellFitted;
      hide Plays;
      hide ToolMessage;
      ghost var before := env.Seen();
      var skipped;
      ghost var rest;
      skipped, err, rest := SkipToolCalls(calls[from..], SkippedMessage());
      if err.Some? {
        BrokeMore({}, Known(tools.value, calls), before, env.Seen());
        PlayBreaksOff(calls, from, historyTokens, played, batch, batchTokens, dir, start, before, env.Seen());
        return batch, err, [];
      }
      PlayIsSkipped(historyTokens, played, batch, batchTokens, dir, start, before, env.Seen(), rest);
      whole := Batch(batch.messages + skipped, CanceledStop, batch.overflows);
      answers := played + rest;
      assert calls[..from] + calls[from..] == calls;
    }

    lemma {:induction false} PlayIsSkipped(
      historyTokens: nat, played: seq<Answered>, batch: Batch, batchTokens: nat, dir: string,
      start: Account, before: Account, after: Account, rest: seq<Answered>)
      requires tools.Some? && InPlay(historyTokens, played, batch, batchTokens, dir, start, before)
      requires Did(before, after, rest)
      requires forall a <- rest :: a.outcome == Skipped && a.raw == SkippedMessage() && a.message == ToolMessage(a.call.name, a.call.id, a.raw)
      ensures CallsOf(played + rest) == CallsOf(played) + CallsOf(rest)
      ensures Batch(batch.messages + MessagesOf(rest), CanceledStop, batch.overflows)
              == Batch(MessagesOf(played + rest), CanceledStop, OverflowsOf(played + rest))
      ensures Plays(tools.value, CanceledStop, played + rest)
      ensures WellFitted(Window(), Threshold(), historyTokens, played + rest)
      ensures Did(start, after, played + rest)
      ensures forall a <- played + rest :: a.Executed() ==> a.dir == dir
    {
      hide Tell;
      hide SinksHold;
      hide OverflowsOf;
      hide WellFitted;
      hide Did;
      hide SkippedMessage;
      hide ToolMessage;
      hide Ordinary;
      hide Plays;
      hide CallsOf;
      hide MessagesOf;
      UnderwayMeans(Window(), Threshold(), historyTokens, played, batchTokens, start, before);
      DidThenDid(start, before, after, played, rest);
      WellFittedThenSkipped(Window(), Threshold(), historyTokens, played, rest);
      OverflowsOfSkipped(played, rest);
      AnswersOfConcat(played, rest);
      PlaysUntilCanceled(tools.value, played, rest);
    }

    /** What a denied batch is answered with: the reason that the user gave at that
        moment, if any. */
    function DenialText(asked: nat): Content {
      var reason := if !hasPrompter then NoPrompterReason()
                    else match env.world.approve(asked) case Ok(a) => a.reason case Err(_) => "";
      if reason == "" then DeniedMessage() else reason
    }

    /** The prompt that is put at some moment fails while the context is live. */
    predicate PromptIsFatal(at: nat) {
      hasPrompter && env.world.approve(at).Err? && env.world.context(at + 1) == Live
    }

    /** Some call has to be put to the user. */
    predicate MustAsk(g: Grants, calls: seq<ToolCall>) {
      tools.Some? && ApprovalCalls(tools.value, g, calls) != []
    }

    /** Some call has to be put to the user, and the prompt fails. */
    predicate CannotAsk(g: Grants, calls: seq<ToolCall>, at: nat) {
      MustAsk(g, calls) && PromptIsFatal(at)
    }

    /** What a batch has done when it returns: it began, ran only what was cleared,
        and either answered every call or, unless a sink has failed, did nothing
        because the user could not be asked. */
    ghost predicate BatchDone(
      calls: seq<ToolCall>, historyTokens: nat, dir: string, g: Grants, start: Account, after: Account, current: Grants,
      batch: Batch, err: Option<Error>, answers: seq<Answered>)
      requires tools.Some?
    {
      && Attempted(start, after)
      && Cleared(tools.value, env.world, g, calls, start, after, current)
      && (err.None? ==>
            && after.abandoned == start.abandoned
            && Handled(Window(), Threshold(), historyTokens, calls, batch, answers, start, after)
            && Plays(tools.value, batch.stop, answers)
            && (batch.stop == DeniedStop ==> MayAsk(Terms(), calls))
            && (batch.stop == CanceledStop ==> !ContextHolds(env.world))
            && forall a <- answers :: a.Executed() ==> a.dir == dir)
      && (err.Some? && after.sinkFailures == start.sinkFailures ==>
            && after.abandoned == start.abandoned + 1 && MayAsk(Terms(), calls)
            && after.tools == start.tools && after.executions == start.executions)
    }

    /** A batch of tool calls: ask for approval where needed, then run the calls
        or answer them without running. Unless a sink fails, it fails exactly when
        the user has to be asked and cannot be. */
    method ExecuteToolCalls(messages: seq<Message>, calls: seq<ToolCall>)
      returns (batch: Batch, err: Option<Error>, ghost answers: seq<Answered>)
      requires tools.Some? && env.Seen().terminals == 0
      modifies this`workingDir, env, approvals
      ensures SinksHold(env.world) ==> env.Seen().sinkFailures == old(env.Seen()).sinkFailures
      ensures env.Seen().terminals == 0 && env.Seen().sinkFailures >= old(env.Seen()).sinkFailures
      ensures BatchDone(calls, estimate(messages), RunDir(old(workingDir)), old(approvals.Current()),
                        old(env.Seen()), env.Seen(), approvals.Current(), batch, err, answers)
      ensures env.Seen().sinkFailures == old(env.Seen()).sinkFailures ==>
                (err.Some? <==> CannotAsk(old(approvals.Current()), calls, old(env.now)))
      ensures err.None? && batch.stop == DeniedStop ==>
                && MustAsk(old(approvals.Current()), calls)
                && forall a <- answers :: a.outcome == Denied && a.raw == DenialText(old(env.now))
      ensures err.None? && !MustAsk(old(approvals.Current()), calls) && ContextHolds(env.world) ==> batch.stop == NoStop
      ensures err.None? && batch.stop == NoStop && calls != [] && Threshold() > 0 ==>
                batch.overflows != [] || estimate(messages) + MessagesTokens(batch.messages) < Threshold()
    {
      hide Tell;
      hide SinksHold;
      hide ContextHolds;
      hide BatchDone;
      hide ApprovalCalls;
      hide MessagesTokens;
      ghost var start := env.Seen();
      env.Happened(BatchBegun);
      var historyTokens := estimate(messages);
      var dir := CurrentWorkingDir();
      var asked := CollectApprovals(calls);
      if |asked| > 0 {
        batch, err, answers := AskAndRun(calls, asked, dir, historyTokens, start);
      } else {
        ghost var begun := env.Seen();
        batch, err, answers := RunToolCalls(calls, dir, historyTokens);
        RanWithoutPrompt(calls, historyTokens, dir, approvals.Current(), start, begun, env.Seen(), batch, err, answers);
      }
      StaysBelowThreshold(calls, historyTokens, dir, old(approvals.Current()), start, env.Seen(), approvals.Current(),
                          batch, err, answers);
    }

    lemma {:induction false} StaysBelowThreshold(
      calls: seq<ToolCall>, historyTokens: nat, dir: string, g: Grants, start: Account, after: Account, current: Grants,
      batch: Batch, err: Option<Error>, answers: seq<Answered>)
      requires tools.Some? && BatchDone(calls, historyTokens, dir, g, start, after, current, batch, err, answers)
      ensures err.None? && batch.stop == NoStop && calls != [] && Threshold() > 0 ==>
                batch.overflows != [] || historyTokens + MessagesTokens(batch.messages) < Threshold()
    {
      hide WellFitted;
      hide Cleared;
      hide OverflowsOf;
      hide MessagesTokens;
      if err.None? && batch.stop == NoStop && calls != [] && Threshold() > 0 {
        forall a | a in answers ensures a.Executed() || a.outcome == Unknown {
          assert Ordinary(tools.value, a);
        }
        BatchStaysBelowThreshold(Window(), Threshold(), historyTokens, answers);
      }
    }

    lemma {:induction false} RanWithoutPrompt(
      calls: seq<ToolCall>, historyTokens: nat, dir: string, g: Grants, start: Account, begun: Account, after: Account,
      batch: Batch, err: Option<Error>, answers: seq<Answered>)
      requires tools.Some? && begun == Record(start, BatchBegun) && start.terminals == 0
      requires ApprovalCalls(tools.value, g, calls) == []
      requires RunsCalls(calls, historyTokens, dir, begun, after, batch, err, answers)
      ensures BatchDone(calls, historyTokens, dir, g, start, after, g, batch, err, answers)
    {
      hide ApprovalCalls;
      hide WellFitted;
      hide LogOf;
      hide ExecutionsOf;
      hide OverflowsOf;
      hide CallsOf;
      hide MessagesOf;
      hide Plays;
      hide ContextHolds;
      RunsOnlyKnown(calls, historyTokens, dir, begun, after, batch, err, answers);
      ClearedWithoutPrompt(tools.value, env.world, g, calls, start, begun, after);
      hide Cleared;
    }

    /** A batch that has to be put to the user first. */
    method AskAndRun(
      calls: seq<ToolCall>, asked: seq<ApprovalToolCall>, dir: string, historyTokens: nat, ghost start: Account)
      returns (batch: Batch, err: Option<Error>, ghost answers: seq<Answered>)
      requires tools.Some? && start.terminals == 0 && env.Seen() == Record(start, BatchBegun)
      requires asked == ApprovalCalls(tools.value, approvals.Current(), calls) && asked != []
      modifies this`workingDir, env, approvals
      ensures SinksHold(env.world) ==> env.Seen().sinkFailures == old(env.Seen()).sinkFailures
      ensures env.Seen().terminals == 0 && env.Seen().sinkFailures >= old(env.Seen()).sinkFailures
      ensures BatchDone(calls, historyTokens, dir, old(approvals.Current()), start, env.Seen(), approvals.Current(),
                        batch, err, answers)
      ensures env.Seen().sinkFailures == start.sinkFailures ==> (err.Some? <==> PromptIsFatal(old(env.now)))
      ensures err.None? && batch.stop == DeniedStop ==>
                forall a <- answers :: a.outcome == Denied && a.raw == DenialText(old(env.now))
    {
      hide Tell;
      hide SinksHold;
      hide ContextHolds;
      hide Plays;
      hide BatchDone;
      hide NoPrompterReason;
      hide LogOf;
      hide ExecutionsOf;
      hide WellFitted;
      hide OverflowsOf;
      hide ApprovalCalls;
      hide CallsOf;
      hide MessagesOf;
      hide ToolMessage;
      hide SkippedMessage;
      hide GrantedScopes;
      hide DeniedMessage;
      hide UnknownToolText;
      ghost var g, at, begun := approvals.Current(), env.now, env.Seen();
      if g.all {
        NothingToAsk(tools.value, g, calls);
      }
      AskingMeansMayAsk(calls, g);
      var verdict := AuthorizeToolCalls(asked);
      ghost var prompted := env.Seen();
      if verdict.Err? {
        batch, err, answers := AbandonBatch(calls, historyTokens, verdict.error);
        AbandonedBatch(calls, historyTokens, dir, g, start, begun, env.Seen(), batch, err, answers);
      } else if !verdict.value.allow {
        batch, err, answers := DenyBatch(calls, verdict.value.reason, historyTokens);
        DeniedBatch(calls, asked, historyTokens, dir, g, at, start, prompted, env.Seen(), approvals.Current(),
                    batch, err, answers);
      } else {
        batch, err, answers := RunToolCalls(calls, dir, historyTokens);
        AllowedBatch(calls, asked, historyTokens, dir, g, at, start, prompted, env.Seen(), approvals.Current(),
                     batch, err, answers);
      }
    }

    lemma {:induction false} AskingMeansMayAsk(calls: seq<ToolCall>, g: Grants)
      requires tools.Some? && ApprovalCalls(tools.value, g, calls) != []
      ensures MayAsk(Terms(), calls)
    {
      var q := ApprovalCalls(tools.value, g, calls)[0];
      hide ApprovalCalls;
      AskedAbout(tools.value, g, calls, q);
      var call :| call in calls && AsksAbout(tools.value, g, call, q);
      assert RequiresApproval(tools.value, call);
    }

    lemma {:induction false} AbandonedBatch(
      calls: seq<ToolCall>, historyTokens: nat, dir: string, g: Grants, start: Account, begun: Account, after: Account,
      batch: Batch, err: Option<Error>, answers: seq<Answered>)
      requires tools.Some? && begun == Record(start, BatchBegun) && start.terminals == 0
      requires MayAsk(Terms(), calls)
      requires Abandons(calls, historyTokens, begun, after, batch, err, answers)
      ensures BatchDone(calls, historyTokens, dir, g, start, after, g, batch, err, answers)
    {
      hide ApprovalCalls;
      hide WellFitted;
      hide LogOf;
      hide ExecutionsOf;
      hide OverflowsOf;
      hide CallsOf;
      hide MessagesOf;
      hide Plays;
      hide ContextHolds;
      hide MayAsk;
      if err.Some? && after.abandoned == begun.abandoned {
        NothingRan(begun, after);
      }
      assert after.executions == start.executions && after.clearances == start.clearances;
      assert start.prompts + [] == start.prompts;
      assert RanOnly({}, begun, after);
      RanMore({}, Known(tools.value, calls), begun, after);
      ClearedWithoutPrompt(tools.value, env.world, g, calls, start, begun, after);
      hide Cleared;
    }

    lemma {:induction false} DeniedBatch(
      calls: seq<ToolCall>, asked: seq<ApprovalToolCall>, historyTokens: nat, dir: string, g: Grants, at: nat,
      start: Account, prompted: Account, after: Account, current: Grants,
      batch: Batch, err: Option<Error>, answers: seq<Answered>)
      requires tools.Some? && start.terminals == 0 && MayAsk(Terms(), calls)
      requires asked == ApprovalCalls(tools.value, g, calls) && asked != []
      requires Consulted(asked, g, at, start, prompted, current)
      requires Denies(calls, historyTokens, prompted, after, batch, err, answers)
      ensures BatchDone(calls, historyTokens, dir, g, start, after, current, batch, err, answers)
    {
      hide ApprovalCalls;
      hide WellFitted;
      hide LogOf;
      hide OverflowsOf;
      hide CallsOf;
      hide MessagesOf;
      hide ContextHolds;
      hide MayAsk;
      hide Consulted;
      NothingRanInDenial(calls, historyTokens, prompted, after, batch, err, answers);
      RanMore({}, Known(tools.value, calls), prompted, after);
      ConsultedAndRan(asked, calls, g, at, start, prompted, after, current);
      hide Cleared;
      hide ExecutionsOf;
      hide Plays;
      ConsultedMeans(asked, g, at, start, prompted, current);
    }

    lemma {:induction false} NothingRanInDenial(
      calls: seq<ToolCall>, historyTokens: nat, before: Account, after: Account,
      batch: Batch, err: Option<Error>, answers: seq<Answered>)
      requires tools.Some? && Denies(calls, historyTokens, before, after, batch, err, answers)
      ensures RanOnly({}, before, after) && after.executions == before.executions
      ensures after.clearances == before.clearances && after.prompts == before.prompts
    {
      hide WellFitted;
      hide LogOf;
      hide OverflowsOf;
      hide CallsOf;
      hide MessagesOf;
      if err.Some? {
        NothingRan(before, after);
      } else {
        NoExecutions(answers);
        assert after.clearances == before.clearances;
      }
    }

    lemma {:induction false} ConsultedMeans(
      asked: seq<ApprovalToolCall>, g: Grants, at: nat, start: Account, prompted: Account, current: Grants)
      requires Consulted(asked, g, at, start, prompted, current) && start.terminals == 0
      ensures prompted == start.(batches := start.batches + 1, batchStart := |start.prompts|, prompts := prompted.prompts)
    {
    }

    lemma {:induction false} AllowedBatch(
      calls: seq<ToolCall>, asked: seq<ApprovalToolCall>, historyTokens: nat, dir: string, g: Grants, at: nat,
      start: Account, prompted: Account, after: Account, current: Grants,
      batch: Batch, err: Option<Error>, answers: seq<Answered>)
      requires tools.Some? && start.terminals == 0 && MayAsk(Terms(), calls)
      requires asked == ApprovalCalls(tools.value, g, calls) && asked != []
      requires Consulted(asked, g, at, start, prompted, current) && hasPrompter && Granted(ApprovalAt(env.world, at))
      requires RunsCalls(calls, historyTokens, dir, prompted, after, batch, err, answers)
      ensures BatchDone(calls, historyTokens, dir, g, start, after, current, batch, err, answers)
    {
      hide ApprovalCalls;
      hide WellFitted;
      hide LogOf;
      hide ExecutionsOf;
      hide OverflowsOf;
      hide CallsOf;
      hide MessagesOf;
      hide Plays;
      hide ContextHolds;
      hide MayAsk;
      RunsOnlyKnown(calls, historyTokens, dir, prompted, after, batch, err, answers);
      hide Known;
      hide RanOnly;
      ConsultedAndRan(asked, calls, g, at, start, prompted, after, current);
      hide Cleared;
      ConsultedMeans(asked, g, at, start, prompted, current);
      hide Consulted;
    }

    /** The user was asked, if there is a prompter, and the answer was taken in. */
    ghost predicate Consulted(
      asked: seq<ApprovalToolCall>, g: Grants, at: nat, start: Account, prompted: Account, current: Grants)
    {
      if hasPrompter then
        && prompted == Record(Record(start, BatchBegun), Prompted(asked, at))
        && current == Applied(g, ApprovalAt(env.world, at))
      else
        prompted == Record(start, BatchBegun) && current == g
    }

    lemma {:induction false} ConsultedAndRan(
      asked: seq<ApprovalToolCall>, calls: seq<ToolCall>, g: Grants, at: nat,
      start: Account, prompted: Account, after: Account, current: Grants)
      requires tools.Some? && start.terminals == 0
      requires asked == ApprovalCalls(tools.value, g, calls) && asked != []
      requires Consulted(asked, g, at, start, prompted, current)
      requires RanOnly(Known(tools.value, calls), prompted, after) && after.prompts == prompted.prompts
      requires after.executions == prompted.executions || (hasPrompter && Granted(ApprovalAt(env.world, at)))
      ensures Cleared(tools.value, env.world, g, calls, start, after, current)
    {
      hide ApprovalCalls;
      hide Cleared;
      if hasPrompter {
        ClearedWithPrompt(tools.value, env.world, g, calls, start, prompted, after, at);
      } else {
        ClearedWithoutPrompt(tools.value, env.world, g, calls, start, prompted, after);
      }
    }

    /** What a cleared batch does: it answers every call, or a sink fails in it. */
    ghost predicate RunsCalls(
      calls: seq<ToolCall>, historyTokens: nat, dir: string, before: Account, after: Account,
      batch: Batch, err: Option<Error>, answers: seq<Answered>)
      requires tools.Some?
    {
      && (err.None? ==>
            && CallsOf(answers) == calls && batch.messages == MessagesOf(answers)
            && batch.stop != DeniedStop && Plays(tools.value, batch.stop, answers)
            && batch.overflows == OverflowsOf(answers)
            && WellFitted(Window(), Threshold(), historyTokens, answers)
            && Did(before, after, answers)
            && (batch.stop == CanceledStop ==> !ContextHolds(env.world))
            && forall a <- answers :: a.Executed() ==> a.dir == dir)
      && (err.Some? ==> Broke(Known(tools.value, calls), before, after))
    }

    lemma {:induction false} RunsOnlyKnown(
      calls: seq<ToolCall>, historyTokens: nat, dir: string, before: Account, after: Account,
      batch: Batch, err: Option<Error>, answers: seq<Answered>)
      requires tools.Some? && RunsCalls(calls, historyTokens, dir, before, after, batch, err, answers)
      ensures RanOnly(Known(tools.value, calls), before, after) && after.prompts == before.prompts
    {
      hide WellFitted;
      hide OverflowsOf;
      hide MessagesOf;
      hide LogOf;
      if err.None? {
        forall a | a in answers ensures Ordinary(tools.value, a) || !a.Executed() {
          PlaysMeans(tools.value, batch.stop, answers, a);
        }
        hide Ordinary;
        hide Plays;
        assert calls[..|calls|] == calls;
        PlayedAmong(tools.value, calls, |calls|, answers);
        DidMeansRanOnly(Known(tools.value, calls), before, after, answers);
      }
    }

    /** What refusing a batch does. */
    ghost predicate Denies(
      calls: seq<ToolCall>, historyTokens: nat, before: Account, after: Account,
      batch: Batch, err: Option<Error>, answers: seq<Answered>)
      requires tools.Some?
    {
      && (err.None? ==>
            && batch.stop == DeniedStop && Plays(tools.value, DeniedStop, answers)
            && Handled(Window(), Threshold(), historyTokens, calls, batch, answers, before, after)
            && Did(before, after, answers))
      && (err.Some? ==> Broke({}, before, after))
    }

    /** What giving a batch up does: with a live context nothing, otherwise every
        call is skipped. */
    ghost predicate Abandons(
      calls: seq<ToolCall>, historyTokens: nat, before: Account, after: Account,
      batch: Batch, err: Option<Error>, answers: seq<Answered>)
      requires tools.Some?
    {
      && (err.None? ==>
            && CallsOf(answers) == calls && batch == Batch(MessagesOf(answers), CanceledStop, [])
            && Plays(tools.value, CanceledStop, answers)
            && OverflowsOf(answers) == [] && ExecutionsOf(answers) == []
            && WellFitted(Window(), Threshold(), historyTokens, answers)
            && Did(before, after, answers)
            && !ContextHolds(env.world)
            && forall a <- answers :: !a.Executed())
      && (err.Some? ==>
            after == before.(abandoned := before.abandoned + 1) || Broke({}, before, after))
    }

    /** Refuses a whole batch, with the reason given or a standard one. */
    method DenyBatch(calls: seq<ToolCall>, reason: Content, historyTokens: nat)
      returns (batch: Batch, err: Option<Error>, ghost answers: seq<Answered>)
      requires tools.Some? && env.Seen().terminals == 0
      modifies env
      ensures SinksHold(env.world) ==> env.Seen().sinkFailures == old(env.Seen()).sinkFailures
      ensures Denies(calls, historyTokens, old(env.Seen()), env.Seen(), batch, err, answers)
      ensures err.None? ==>
                forall a <- answers :: a.outcome == Denied && a.raw == if reason == "" then DeniedMessage() else reason
    {
      hide Tell;
      hide SinksHold;
      hide LogOf;
      hide ExecutionsOf;
      hide WellFitted;
      hide CallsOf;
      hide MessagesOf;
      hide DeniedMessage;
      var content := if reason == "" then DeniedMessage() else reason;
      var denied;
      denied, err, answers := DenyToolCalls(calls, content, historyTokens);
      batch := Batch(denied, DeniedStop, []);
      if err.None? {
        NoExecutions(answers);
      }
    }

    /** The approval prompt failed: with the context canceled the batch is
        skipped, otherwise the failure is that of the run. */
    method AbandonBatch(calls: seq<ToolCall>, ghost historyTokens: nat, failure: Error)
      returns (batch: Batch, err: Option<Error>, ghost answers: seq<Answered>)
      requires tools.Some? && env.Seen().terminals == 0
      modifies env
      ensures SinksHold(env.world) ==> env.Seen().sinkFailures == old(env.Seen()).sinkFailures
      ensures Abandons(calls, historyTokens, old(env.Seen()), env.Seen(), batch, err, answers)
      ensures env.Seen().sinkFailures == old(env.Seen()).sinkFailures ==>
                (err.Some? <==> env.world.context(old(env.now)) == Live)
      ensures err.None? ==> batch.stop == CanceledStop
    {
      hide Tell;
      hide SinksHold;
      hide LogOf;
      hide ExecutionsOf;
      hide WellFitted;
      hide OverflowsOf;
      hide CallsOf;
      hide MessagesOf;
      hide ToolMessage;
      hide SkippedMessage;
      hide Plays;
      var context := env.ContextAfterPrompt();
      if context == Live {
        return Batch([], NoStop, []), Some(failure), [];
      }
      var skipped;
      skipped, err, answers := SkipToolCalls(calls, SkippedMessage());
      batch := Batch(skipped, CanceledStop, []);
      if err.None? {
        AllSkipped(tools.value, answers);
        WellFittedSkips(Window(), Threshold(), historyTokens, answers);
      }
    }

    function RunDir(dir: string): string {
      if dir != "" then dir else env.world.currentDir
    }

    // Compaction

    /** An event whose loss is ignored. */
    method Announce(e: Event)
      requires env.Seen().terminals == 0
      modifies env
      ensures SinksHold(env.world) ==> env.Seen().sinkFailures == old(env.Seen()).sinkFailures
      ensures env.Seen() == RecordEvent(old(env.Seen()), e).(sinkFailures := env.Seen().sinkFailures)
      ensures env.Seen().sinkFailures >= old(env.Seen()).sinkFailures
      ensures env.now == old(env.now) + 1
    {
      var err := env.Emit(e);
    }

    /** The error event that ends a run. */
    method Fail(e: Error)
      requires env.Seen().terminals == 0
      modifies env
      ensures EndsWith(old(env.Seen()), env.Seen(), e.message)
      ensures SinksHold(env.world) ==> env.Seen().sinkFailures == old(env.Seen()).sinkFailures
    {
      Announce(ErrorEvent(e.message));
    }

    predicate ShouldCompact(messages: seq<Message>, promptEvalCount: nat)
      requires compactor.Some?
    {
      var threshold := compactor.value.threshold;
      && threshold > 0
      && ((promptEvalCount > 0 && promptEvalCount >= threshold) || estimate(messages) >= threshold)
    }

    /** One model call for a summary, with its progress reports. */
    method Summarize() returns (r: Result<string, Error>)
      requires env.Seen().terminals == 0
      modifies env
      ensures SinksHold(env.world) ==> env.Seen().sinkFailures == old(env.Seen()).sinkFailures
      ensures Quiet(old(env.Seen()), env.Seen())
      ensures r == env.world.summarize(old(env.now)).text && env.now == AfterSummary(env.world, old(env.now))
    {
      var outcome := env.Summarize();
      for i := 0 to outcome.progress
        invariant Quiet(old(env.Seen()), env.Seen()) && env.now == old(env.now) + 1 + i
        invariant SinksHold(env.world) ==> env.Seen().sinkFailures == old(env.Seen()).sinkFailures
      {
        Announce(CompactionProgress);
      }
      r := outcome.text;
    }

    /** Asks again, without thinking, when the first summary came back empty. */
    method SummarizeEmptyFallback(think: bool) returns (r: Result<string, Error>)
      requires env.Seen().terminals == 0
      modifies env
      ensures SinksHold(env.world) ==> env.Seen().sinkFailures == old(env.Seen()).sinkFailures
      ensures Quiet(old(env.Seen()), env.Seen())
      ensures r == FallbackText(env.world, old(env.now), think)
    {
      r := Summarize();
      if r.Ok? || !r.error.unsupportedThink {
        return;
      }
      if !think {
        return Ok("");
      }
      r := Summarize();
    }

    /** The compactor: archives what the split says and puts a summary in its
        place, or leaves the history alone and says why. */
    method MaybeCompact(
      messages: seq<Message>, promptEvalCount: nat, think: bool, force: bool, keepOverride: Option<nat>)
      returns (r: CompactionResult, err: Option<Error>, ghost split: Split)
      requires compactor.Some? && env.Seen().terminals == 0
      modifies env
      ensures SinksHold(env.world) ==> env.Seen().sinkFailures == old(env.Seen()).sinkFailures
      ensures Quiet(old(env.Seen()), env.Seen())
      ensures r.due <==> force || ShouldCompact(messages, promptEvalCount)
      ensures !r.compacted ==> r.messages == messages
      ensures !compactor.value.hasClient ==> !r.compacted
      ensures r.compacted ==>
                && err.None? && r.due && r.summary != ""
                && IsSplit(messages, KeepTurns(keepOverride), split) && split.ok
                && r.messages == CompactedHistory(split, r.summary, true)
      ensures r.due && compactor.value.hasClient ==> IsSplit(messages, KeepTurns(keepOverride), split)
      ensures r.due && compactor.value.hasClient && split.ok ==>
                match SummaryOf(env.world, old(env.now), think)
                case Err(e) => !r.compacted && err == Some(e) && r.reason == e.message
                case Ok(summary) =>
                  && err.None?
                  && if summary != "" then r.compacted && r.summary == summary
                     else !r.compacted && r.reason == "summary was empty"
    {
      hide Tell;
      hide SinksHold;
      hide IsSplit;
      hide WrittenSummary;
      hide CompactedHistory;
      var due := force || ShouldCompact(messages, promptEvalCount);
      r, err := CompactionResult(messages, false, due, "", ""), None;
      split := Split([], "", [], [], 0, false);
      if !due {
        return;
      }
      if !compactor.value.hasClient {
        r := r.(reason := "compaction is unavailable");
        return;
      }
      var s := SplitCompactionMessages(messages, KeepTurns(keepOverride));
      split := s;
      SplitHasArchive(messages, KeepTurns(keepOverride), s);
      if !s.ok || |s.archive| == 0 {
        r := r.(reason := "nothing to compact");
        return;
      }
      var text := Summarize();
      if text.Err? {
        r, err := r.(reason := text.error.message), Some(text.error);
        return;
      }
      var summary := WrittenSummary(text.value);
      if summary == "" {
        text := SummarizeEmptyFallback(think);
        if text.Err? {
          r, err := r.(reason := text.error.message), Some(text.error);
          return;
        }
        summary := WrittenSummary(text.value);
      }
      if summary == "" {
        r := r.(reason := "summary was empty");
        return;
      }
      r := CompactionResult(CompactedHistory(s, summary, true), true, due, summary, "");
    }

    function KeepTurns(keepOverride: Option<nat>): nat
      requires compactor.Some?
    {
      match keepOverride
      case Some(n) => n
      case None => KeepUserTurns(compactor.value.window, compactor.value.keepUserTurns)
    }

    /** The notice that a compaction was due but did not happen, once a run. */
    method NotifySkipped(due: bool, reason: string, skipNotified: bool) returns (notified: bool)
      requires env.Seen().terminals == 0
      modifies env
      ensures SinksHold(env.world) ==> env.Seen().sinkFailures == old(env.Seen()).sinkFailures
      ensures notified == (due || skipNotified)
      ensures Compacting(old(env.Seen()), env.Seen(), skipNotified, notified)
    {
      notified := skipNotified;
      if due && !skipNotified {
        Announce(CompactionSkipped(SkippedReason(reason)));
        notified := true;
      }
    }

    /** The check after a compaction: it must have made enough room. */
    function PostCompactionError(messages: seq<Message>): (err: Option<Error>)
      ensures err.Some? <==> 0 < Window() <= estimate(messages)
    {
      if Window() <= 0 || estimate(messages) < Window() then None
      else Some(Error(StillTooLarge(), 0, false, false))
    }

    /** Compaction between two rounds. */
    method MaybeCompactHistory(messages: seq<Message>, promptEvalCount: nat, think: bool, skipNotified: bool)
      returns (kept: seq<Message>, notified: bool, err: Option<Error>)
      requires env.Seen().terminals == 0
      modifies env
      ensures SinksHold(env.world) ==> env.Seen().sinkFailures == old(env.Seen()).sinkFailures
      ensures compactor.None? ==>
                kept == messages && notified == skipNotified && err.None? && env.Seen() == old(env.Seen())
      ensures Compacting(old(env.Seen()), env.Seen(), skipNotified, notified)
      ensures Paired(messages) ==> Paired(kept)
      ensures kept == messages || (compactor.Some? && IsCompacted(messages, KeepTurns(None), kept))
      ensures compactor.Some? && !(compactor.value.hasClient && ShouldCompact(messages, promptEvalCount)) ==>
                kept == messages && err.None?
      ensures compactor.Some? && ShouldCompact(messages, promptEvalCount) && compactor.value.hasClient ==>
                match SummaryOf(env.world, old(env.now) + 1, think)
                case Err(_) => kept == messages
                case Ok(summary) =>
                  if summary == "" then kept == messages
                  else CompactedIfPossible(messages, KeepTurns(None), kept, summary)
      ensures kept != messages || err.Some? ==> err == PostCompactionError(kept)
    {
      hide Tell;
      hide SinksHold;
      hide IsSplit;
      hide Paired;
      hide CompactedHistory;
      hide IsCompacted;
      hide CompactedIfPossible;
      hide SummaryOf;
      hide Record;
      if compactor.None? {
        return messages, skipNotified, None;
      }
      if ShouldCompact(messages, promptEvalCount) {
        Announce(CompactionStarted);
      }
      ghost var split;
      var result, failed;
      result, failed, split := MaybeCompact(messages, promptEvalCount, think, false, None);
      if !result.compacted {
        if result.due && compactor.value.hasClient && !split.ok {
          forall summary {
            NothingToCompact(messages, KeepTurns(None), split, summary);
          }
        }
        notified := NotifySkipped(result.due, result.reason, skipNotified);
        return messages, notified, None;
      }
      Announce(Compacted(result.messages, result.summary));
      kept, notified, err := result.messages, skipNotified, PostCompactionError(result.messages);
      CompactionMeans(messages, KeepTurns(None), kept, split, result.summary);
    }

    /** The overflows of a batch by call ID; a later one replaces an earlier. */
    method IndexOverflows(overflows: seq<Overflow>) returns (byID: map<string, Overflow>)
      ensures forall id :: (if id in byID then Some(byID[id]) else None) == LastOverflow(overflows, id)
    {
      hide Tell;
      hide SinksHold;
      hide LastOverflow;
      byID := map[];
      NoOverflowRecorded();
      for i := 0 to |overflows|
        invariant forall id :: (if id in byID then Some(byID[id]) else None) == LastOverflow(overflows[..i], id)
      {
        assert overflows[..i + 1] == overflows[..i] + [overflows[i]];
        forall id {
          LastOverflowOfAppend(overflows[..i], overflows[i], id);
        }
        byID := byID[overflows[i].toolCallID := overflows[i]];
      }
      assert overflows[..|overflows|] == overflows;
    }

    /** Puts the results of a batch back behind a compacted history. */
    method ReattachResults(history: seq<Message>, toolMessages: seq<Message>, overflows: seq<Overflow>)
      returns (refits: seq<Message>)
      ensures |refits| == |toolMessages|
      ensures WellRefitted(Window(), estimate(history), toolMessages, overflows, refits)
    {
      hide Tell;
      hide SinksHold;
      hide ToolMessageWithBudget;
      hide MessageTokens;
      hide MessagesTokens;
      hide WellRefitted;
      hide LastOverflow;
      var byID := IndexOverflows(overflows);
      var historyTokens := estimate(history);
      var batchTokens: nat := 0;
      refits := [];
      NothingRefitted(Window(), historyTokens, toolMessages, overflows);
      for i := 0 to |toolMessages|
        invariant |refits| == i && batchTokens == MessagesTokens(refits)
        invariant WellRefitted(Window(), historyTokens, toolMessages, overflows, refits)
      {
        var msg := toolMessages[i];
        var content, toolName := msg.content, msg.toolName;
        if msg.toolCallID in byID {
          var overflow := byID[msg.toolCallID];
          content := overflow.content;
          if overflow.toolName != "" {
            toolName := overflow.toolName;
          }
        }
        var refit := ToolMessageWithBudget(
          toolName, msg.toolCallID, content, Window(), historyTokens + batchTokens, Window());
        assert refit == Refit(Window(), historyTokens, overflows, refits, msg);
        WellRefittedAppend(Window(), historyTokens, toolMessages, overflows, refits, refit);
        MessagesTokensOfAppend(refits, refit);
        refits := refits + [refit];
        batchTokens := batchTokens + MessageTokens(refit);
      }
    }

    /** Compaction after results had to be left out: everything is archived, and
        the last batch is put back behind the summary. */
    method CompactForToolOutputOverflow(
      messages: seq<Message>, promptEvalCount: nat, think: bool, assistant: Message,
      toolMessages: seq<Message>, overflows: seq<Overflow>, skipNotified: bool)
      returns (kept: seq<Message>, notified: bool, err: Option<Error>)
      requires env.Seen().terminals == 0
      modifies env
      ensures SinksHold(env.world) ==> env.Seen().sinkFailures == old(env.Seen()).sinkFailures
      ensures compactor.None? ==>
                kept == messages && notified == skipNotified && err.None? && env.Seen() == old(env.Seen())
      ensures Compacting(old(env.Seen()), env.Seen(), skipNotified, notified)
      ensures kept == messages || IsReattached(Window(), estimate, messages, assistant, toolMessages, overflows, kept)
      ensures err.Some? ==> 0 < Window() <= estimate(kept)
      ensures compactor.Some? && !compactor.value.hasClient ==> kept == messages
      ensures compactor.Some? && compactor.value.hasClient ==>
                match SummaryOf(env.world, old(env.now) + 1, think)
                case Err(_) => kept == messages
                case Ok(summary) =>
                  if summary == "" then kept == messages
                  else ReattachedIfPossible(messages, assistant, toolMessages, overflows, kept, summary)
      ensures kept != messages && Window() > 0 && toolMessages != []
              && (forall m <- toolMessages :: |m.content| <= MAX_INT) ==>
                FitsOrSaysSo(Window(), estimate, kept, |toolMessages|)
      ensures kept != messages || err.Some? ==> err == PostCompactionError(kept)
    {
      hide Tell;
      hide SinksHold;
      hide IsSplit;
      hide CompactedHistory;
      hide WellRefitted;
      hide ReattachedIfPossible;
      hide ReattachedBy;
      hide IsReattached;
      hide SummaryOf;
      hide FitsOrSaysSo;
      hide MessageEmpty;
      if compactor.None? {
        return messages, skipNotified, None;
      }
      Announce(CompactionStarted);
      ghost var split;
      var result, failed;
      result, failed, split := MaybeCompact(messages, promptEvalCount, think, true, Some(0));
      if !result.compacted {
        if compactor.value.hasClient && !split.ok {
          forall summary {
            NothingToReattach(messages, assistant, toolMessages, overflows, split, summary);
          }
        }
        notified := NotifySkipped(result.due, result.reason, skipNotified);
        return messages, notified, None;
      }
      var compacted := result.messages;
      if !MessageEmpty(assistant) {
        compacted := compacted + [assistant];
      }
      assert compacted == result.messages + (if MessageEmpty(assistant) then [] else [assistant]);
      var refits := ReattachResults(compacted, toolMessages, overflows);
      kept := compacted + refits;
      Announce(Compacted(kept, result.summary));
      notified, err := skipNotified, PostCompactionError(kept);
      Reattached(messages, assistant, toolMessages, overflows, kept, split, result.summary, refits);
      if Window() > 0 && toolMessages != [] && forall m <- toolMessages :: |m.content| <= MAX_INT {
        ReattachmentFits(Window(), estimate, messages, assistant, toolMessages, overflows, kept);
      }
    }

    lemma {:induction false} Reattached(
      messages: seq<Message>, assistant: Message, toolMessages: seq<Message>, overflows: seq<Overflow>,
      kept: seq<Message>, s: Split, summary: string, refits: seq<Message>)
      requires IsSplit(messages, 0, s) && s.ok
      requires var base := CompactedHistory(s, summary, true) + (if MessageEmpty(assistant) then [] else [assistant]);
               && kept == base + refits && |refits| == |toolMessages|
               && WellRefitted(Window(), estimate(base), toolMessages, overflows, refits)
      ensures IsReattached(Window(), estimate, messages, assistant, toolMessages, overflows, kept)
      ensures ReattachedIfPossible(messages, assistant, toolMessages, overflows, kept, summary)
    {
      hide Tell;
      hide SinksHold;
      hide IsSplit;
      hide CompactedHistory;
      hide WellRefitted;
      hide MessageEmpty;
      assert ReattachedBy(Window(), estimate, messages, assistant, toolMessages, overflows, kept, s, summary, refits);
    }

    lemma {:induction false} NothingToReattach(
      messages: seq<Message>, assistant: Message, toolMessages: seq<Message>, overflows: seq<Overflow>,
      s: Split, summary: string)
      requires IsSplit(messages, 0, s) && !s.ok
      ensures ReattachedIfPossible(messages, assistant, toolMessages, overflows, messages, summary)
    {
      hide Tell;
      hide SinksHold;
      hide IsSplit;
      assert !ReattachedBy(Window(), estimate, messages, assistant, toolMessages, overflows, messages, s, summary, []);
    }

    ghost predicate ReattachedIfPossible(
      messages: seq<Message>, assistant: Message, toolMessages: seq<Message>, overflows: seq<Overflow>,
      kept: seq<Message>, summary: string)
    {
      exists s, refits ::
        && IsSplit(messages, 0, s)
        && if s.ok then ReattachedBy(Window(), estimate, messages, assistant, toolMessages, overflows, kept, s, summary, refits)
           else kept == messages
    }

    // One round with the model

    /** Streams one reply. A reply that the cancellation of the context cut
        short counts as a reply; any other failure does not. */
    method ChatRound(systemPrompt: string, messages: seq<Message>, latest: nat)
      returns (assistant: Message, canceled: bool, promptEvalCount: nat, err: Option<Error>, ghost r: Reply)
      requires env.Seen().terminals == 0
      modifies env
      ensures SinksHold(env.world) ==> env.Seen().sinkFailures == old(env.Seen()).sinkFailures
      ensures r.at == old(env.now)
      ensures var before, after := old(env.Seen()), env.Seen();
              && after == before.(
                   requests := before.requests + [RequestMessages(systemPrompt, messages)],
                   replies := before.replies + [r],
                   sinkFailures := after.sinkFailures)
              && after.sinkFailures >= before.sinkFailures
      ensures IsAccumulated(env.world.chat(r.at).responses, assistant)
      ensures env.Seen().sinkFailures == old(env.Seen()).sinkFailures ==>
                && assistant == Said(env.world, r)
                && var failed := env.world.chat(r.at).err;
                if Taken(env.world, r) then err.None? && canceled == failed.Some?
                else err.Some? && err == failed && !canceled
      ensures canceled ==> err.None?
      ensures env.Seen().sinkFailures == old(env.Seen()).sinkFailures ==>
                var responses := env.world.chat(r.at).responses;
                && promptEvalCount == (if responses == [] then latest else responses[|responses| - 1].promptEvalCount)
                && old(env.trace) + [Asked(RequestMessages(systemPrompt, messages), r.at)] + AllDeltas(responses)
                   <= env.trace
    {
      hide Tell;
      hide SinksHold;
      hide RequestMessages;
      hide Contains;
      hide Accumulated;
      hide IsAccumulated;
      hide AllDeltas;
      ghost var at := env.now;
      var outcome := env.Chat(RequestMessages(systemPrompt, messages));
      canceled := false;
      r := Reply(at, None);
      assistant, promptEvalCount, err := TakeStream(outcome.responses, latest);
      if err.None? {
        err := outcome.err;
      }
      if err.Some? {
        ghost var check;
        canceled, check := IsContextCanceledError(err.value);
        r := Reply(at, check);
        if canceled {
          err := None;
        }
      }
    }

    /** The pieces of a reply, taken in and passed on one by one until a sink fails. */
    method TakeStream(responses: seq<ChatResponse>, latest: nat)
      returns (assistant: Message, promptEvalCount: nat, err: Option<Error>)
      requires env.Seen().terminals == 0
      modifies env
      ensures SinksHold(env.world) ==> env.Seen().sinkFailures == old(env.Seen()).sinkFailures
      ensures Quiet(old(env.Seen()), env.Seen())
      ensures IsAccumulated(responses, assistant)
      ensures err.Some? ==> env.Seen().sinkFailures > old(env.Seen()).sinkFailures
      ensures err.None? ==>
                && assistant == Accumulated(responses)
                && env.trace == old(env.trace) + AllDeltas(responses)
                && promptEvalCount == if responses == [] then latest else responses[|responses| - 1].promptEvalCount
    {
      hide Tell;
      hide SinksHold;
      hide DeltasOf;
      promptEvalCount, err := latest, None;
      assistant := Accumulated([]);
      var i := 0;
      while i < |responses|
        invariant 0 <= i <= |responses|
        invariant assistant == Accumulated(responses[..i]) && err.None?
        invariant Quiet(old(env.Seen()), env.Seen())
        invariant env.trace == old(env.trace) + AllDeltas(responses[..i])
        invariant promptEvalCount == if i == 0 then latest else responses[i - 1].promptEvalCount
        invariant SinksHold(env.world) ==> env.Seen().sinkFailures == old(env.Seen()).sinkFailures
      {
        assert responses[..i + 1][..i] == responses[..i];
        var m := responses[i].message;
        var part := 3;
        if !MessageEmpty(m) {
          part, err := EmitDeltas(m);
        } else {
          NothingToEmit(m);
        }
        assistant := Accumulate(assistant, PartOf(m, part));
        if err.Some? {
          assert CutOff(responses, assistant, i, part);
          return;
        }
        promptEvalCount := responses[i].promptEvalCount;
        i := i + 1;
      }
      assert responses[..|responses|] == responses;
    }

    /** The events for one response of a stream, and how many of its three parts
        (thinking, content, tool calls) were taken in before a sink failed. */
    method EmitDeltas(m: Message) returns (part: nat, err: Option<Error>)
      requires env.Seen().terminals == 0
      modifies env
      ensures SinksHold(env.world) ==> env.Seen().sinkFailures == old(env.Seen()).sinkFailures
      ensures Quiet(old(env.Seen()), env.Seen())
      ensures 1 <= part <= 3 && (err.None? ==> part == 3)
      ensures err.Some? ==> env.Seen().sinkFailures > old(env.Seen()).sinkFailures
      ensures err.None? ==> env.trace == old(env.trace) + DeltasOf(m)
    {
      hide Tell;
      hide SinksHold;
      hide Quiet;
      QuietAtStart(env.Seen());
      ghost var start := env.Seen();
      err := None;
      if m.thinking != "" {
        err := PassOn(ThinkingDelta(m.thinking), start);
        if err.Some? {
          return 1, err;
        }
      }
      if m.content != "" {
        err := PassOn(MessageDelta(m.content), start);
        if err.Some? {
          return 2, err;
        }
      }
      if |m.toolCalls| > 0 {
        err := PassOn(ToolCallDetected(m.toolCalls), start);
      }
      part := 3;
    }

    /** One piece of a reply goes to the sinks. */
    method PassOn(e: Event, ghost start: Account) returns (err: Option<Error>)
      requires env.Seen().terminals == 0 && (e.ThinkingDelta? || e.MessageDelta? || e.ToolCallDetected?)
      requires Quiet(start, env.Seen())
      modifies env
      ensures SinksHold(env.world) ==> env.Seen().sinkFailures == old(env.Seen()).sinkFailures
      ensures Quiet(start, env.Seen()) && env.Seen().terminals == 0
      ensures env.Seen().sinkFailures >= old(env.Seen()).sinkFailures
      ensures err.Some? ==> env.Seen().sinkFailures > old(env.Seen()).sinkFailures
      ensures err.None? ==> env.trace == old(env.trace) + [Emitted(e, false)]
    {
      hide Tell;
      err := env.Emit(e);
    }

    lemma {:induction false} QuietAtStart(a: Account)
      ensures Quiet(a, a)
    {
    }

    /** The context's own error counts, and a text that says the context was
        canceled counts only when the context reports it. */
    method IsContextCanceledError(e: Error) returns (canceled: bool, ghost check: Option<Context>)
      modifies env
      ensures canceled <==> EndsTaken(e, check)
      ensures check == if e.canceled then None else Some(env.world.context(old(env.now)))
      ensures env.trace == old(env.trace) + if e.canceled then [] else [ReplyChecked(check.value)]
      ensures env.Seen() == if e.canceled then old(env.Seen()) else Record(old(env.Seen()), ReplyChecked(check.value))
    {
      check := None;
      if e.canceled {
        return true, None;
      }
      var context := env.ContextAfterReply();
      return context == Canceled && Contains(e.message, "context canceled"), Some(context);
    }

    // The run loop

    ghost function View(st: RunState): RunView
      reads st, approvals
    {
      RunView(st.phase, st.messages, st.assistant, st.pending, st.canceled, st.toolBatch, st.modelErrors, st.toolRounds,
              st.maxToolRounds, st.skipNotified, st.finish, st.accepted, st.answered, st.open, st.grants,
              approvals.Current(), st.prompt, st.initial)
    }

    ghost function Terms(): RunTerms {
      RunTerms(tools, disableTools, env.world, Window(), Threshold(), estimate,
               if compactor.None? then None else Some(KeepTurns(None)))
    }

    /** The turns of the history are those that the account tells of. */
    ghost predicate Tells(st: RunState)
      reads st, env, approvals
    {
      Chronicle(Terms(), View(st), st.turns, env.Seen())
    }

    ghost predicate Inv(st: RunState)
      reads st, env, approvals
    {
      InvOf(Terms(), View(st), env.Seen()) && Tells(st) && Stage(Terms(), View(st), st.turns)
    }

    /** A step has failed. */
    ghost predicate Aborted(st: RunState)
      reads st, env, approvals
    {
      AbortedOf(Terms(), View(st), env.Seen()) && Tells(st)
    }

    ghost function StepsLeft(st: RunState): int
      reads st, approvals
    {
      StepsLeftOf(Terms(), View(st))
    }

    /** One chat round, and what follows from it. */
    method RunModelStep(systemPrompt: string, st: RunState) returns (err: Option<Error>, ghost r: Reply)
      requires Inv(st) && st.phase == PhaseModel && systemPrompt == st.prompt
      modifies env, st
      ensures SinksHold(env.world) ==> env.Seen().sinkFailures == old(env.Seen()).sinkFailures
      ensures err.None? ==> Inv(st)
      ensures err.None? && Limited(Terms(), st.maxToolRounds) ==> StepsLeft(st) < old(StepsLeft(st))
      ensures err.Some? ==> Aborted(st)
      ensures r.at == old(env.now)
      ensures env.Seen().requests == old(env.Seen()).requests + [RequestMessages(systemPrompt, old(st.messages))]
      ensures env.Seen().replies == old(env.Seen()).replies + [r]
      ensures env.Seen().sinkFailures == old(env.Seen()).sinkFailures ==>
                var failed := env.world.chat(r.at).err;
                if Taken(env.world, r) then
                  err.None? && RepliedWith(Terms(), old(View(st)), View(st), Said(env.world, r), failed.Some?)
                else
                  RetriedOrFailed(old(View(st)), View(st), failed.value, err)
    {
      hide Tell;
      hide Taken;
      hide Said;
      hide SinksHold;
      hide InvOf;
      hide PendingOf;
      hide AbortedOf;
      hide RequestMessages;
      hide IsAccumulated;
      hide Accumulated;
      hide RetryMessage;
      hide Chronicle;
      hide Stage;
      hide AllDeltas;
      hide RepliedWith;
      ghost var start, view := env.Seen(), View(st);
      InvBeforeChat(Terms(), view, start);
      var assistant, canceled, latest;
      assistant, canceled, latest, err, r := ChatRound(systemPrompt, st.messages, st.latest);
      st.latest := latest;
      if err.Some? {
        err := RetryOrFail(st, err.value, r, start);
        return;
      }
      err := TakeReply(st, assistant, canceled, r, start);
    }

    /** A reply that is not taken in: the error goes back to the model, or ends the
        run. */
    method RetryOrFail(st: RunState, e: Error, ghost r: Reply, ghost start: Account) returns (err: Option<Error>)
      requires InvOf(Terms(), View(st), start) && st.phase == PhaseModel
      requires Chronicle(Terms(), View(st), st.turns, start) && Stage(Terms(), View(st), st.turns)
      requires AskedOf(View(st), r, start, env.Seen()) && env.Seen().terminals == 0
      requires env.Seen().sinkFailures == 0 ==> !Taken(env.world, r) && env.world.chat(r.at).err == Some(e)
      modifies env, st
      ensures SinksHold(env.world) ==> env.Seen().sinkFailures == old(env.Seen()).sinkFailures
      ensures SameTalk(old(env.Seen()), env.Seen())
      ensures err.None? ==> Inv(st)
      ensures err.None? && Limited(Terms(), st.maxToolRounds) ==> StepsLeft(st) < old(StepsLeft(st))
      ensures err.Some? ==> Aborted(st)
      ensures RetriedOrFailed(old(View(st)), View(st), e, err)
    {
      hide Tell;
      hide SinksHold;
      hide InvOf;
      hide AbortedOf;
      hide AskedOf;
      hide Record;
      hide RecordEvent;
      hide Said;
      hide RoundsLeft;
      hide IsReply;
      hide RetryMessage;
      hide Taken;
      hide StepsLeftOf;
      hide Limited;
      hide EndsWith;
      hide Chronicle;
      hide Stage;
      ghost var view, asked := View(st), env.Seen();
      InvBeforeChat(Terms(), view, start);
      ErrorTurn(Terms(), view, st.turns, start, r, e, asked);
      if e.status >= 500 && st.modelErrors < 2 {
        st.modelErrors := st.modelErrors + 1;
        st.messages := st.messages + [RetryMessage(e)];
        st.turns := st.turns + [Told(e)];
        Retried(Terms(), view, start, r, asked, e);
        return None;
      }
      st.turns := st.turns + [Lost(e)];
      Fail(e);
      EndsAreQuiet(asked, env.Seen(), e.message);
      AskedInVain(Terms(), view, start, r, asked, env.Seen(), e.message);
      ChronicleMoves(Terms(), view, st.turns, asked, view, env.Seen());
      return Some(e);
    }

    lemma {:induction false} EndsAreQuiet(before: Account, after: Account, message: string)
      requires EndsWith(before, after, message)
      ensures SameTalk(before, after)
    {
    }

    /** A reply becomes part of the history; one without calls ends the round. */
    method TakeReply(
      st: RunState, assistant: Message, canceled: bool, ghost r: Reply, ghost start: Account)
      returns (err: Option<Error>)
      requires InvOf(Terms(), View(st), start) && st.phase == PhaseModel
      requires Chronicle(Terms(), View(st), st.turns, start) && Stage(Terms(), View(st), st.turns)
      requires AskedOf(View(st), r, start, env.Seen()) && env.Seen().terminals == 0
      requires IsAccumulated(env.world.chat(r.at).responses, assistant)
      requires env.Seen().sinkFailures == 0 ==> IsReply(Terms(), r, assistant, canceled)
      modifies env, st
      ensures SinksHold(env.world) ==> env.Seen().sinkFailures == old(env.Seen()).sinkFailures
      ensures SameTalk(old(env.Seen()), env.Seen())
      ensures err.None? ==> Inv(st) && RepliedWith(Terms(), old(View(st)), View(st), assistant, canceled)
      ensures err.None? && Limited(Terms(), st.maxToolRounds) ==> StepsLeft(st) < old(StepsLeft(st))
      ensures err.Some? ==> Aborted(st) && env.Seen().sinkFailures > old(env.Seen()).sinkFailures
    {
      hide Tell;
      hide SinksHold;
      hide IsReply;
      hide RoundsLeft;
      hide Limited;
      hide InvOf;
      hide AbortedOf;
      hide AskedOf;
      hide RepliedWith;
      hide StepsLeftOf;
      hide MessageEmpty;
      hide Chronicle;
      hide LastHeard;
      hide IsAccumulated;
      hide Stage;
      ghost var view := View(st);
      HearReply(st, assistant, canceled, r, start);
      if |st.pending| == 0 {
        ReplyEndsRound(view, st.turns, start, r, env.Seen(), assistant, canceled);
        st.ToCompaction();
        return None;
      }
      err := TakeCalls(st, assistant, canceled, r, view, start);
    }

    method HearReply(st: RunState, assistant: Message, canceled: bool, ghost r: Reply, ghost start: Account)
      requires Chronicle(Terms(), View(st), st.turns, start) && Stage(Terms(), View(st), st.turns)
      requires st.phase == PhaseModel && AskedOf(View(st), r, start, env.Seen())
      requires IsAccumulated(env.world.chat(r.at).responses, assistant)
      requires env.Seen().sinkFailures == 0 ==> IsReply(Terms(), r, assistant, canceled)
      modifies st
      ensures View(st) == TakenIn(old(View(st)), assistant, canceled) && st.pending == assistant.toolCalls
      ensures Tells(st) && LastHeard(st.turns, assistant)
    {
      hide Tell;
      hide Chronicle;
      hide Stage;
      hide LastHeard;
      hide AskedOf;
      hide IsAccumulated;
      hide IsReply;
      hide MessageEmpty;
      HeardTurn(Terms(), View(st), st.turns, start, r, assistant, canceled, env.Seen());
      st.TakeIn(assistant, canceled);
    }

    lemma {:induction false} ReplyEndsRound(
      view: RunView, turns: seq<Turn>, start: Account, r: Reply, after: Account, assistant: Message, canceled: bool)
      requires InvOf(Terms(), view, start) && view.phase == PhaseModel && AskedOf(view, r, start, after)
      requires after.sinkFailures == 0 ==> IsReply(Terms(), r, assistant, canceled)
      requires assistant.toolCalls == [] && LastHeard(turns, assistant)
      requires Chronicle(Terms(), TakenIn(view, assistant, canceled), turns, after)
      ensures var w := TakenIn(view, assistant, canceled).(toolBatch := None, phase := PhaseCompact);
              && InvOf(Terms(), w, after) && Chronicle(Terms(), w, turns, after) && Stage(Terms(), w, turns)
              && RepliedWith(Terms(), view, w, assistant, canceled)
              && (Limited(Terms(), view.maxToolRounds) ==> StepsLeftOf(Terms(), w) < StepsLeftOf(Terms(), view))
    {
      hide IsReply;
      hide InvOf;
      hide AskedOf;
      hide RepliedWith;
      hide StepsLeftOf;
      hide MessageEmpty;
      hide Chronicle;
      RepliedWithoutCalls(Terms(), view, start, r, after, assistant, canceled);
      RoundWithoutCalls(Terms(), TakenIn(view, assistant, canceled), turns, after);
    }

    /** A reply with calls, which has become part of the history. */
    method TakeCalls(
      st: RunState, ghost assistant: Message, ghost canceled: bool, ghost r: Reply, ghost view: RunView,
      ghost start: Account)
      returns (err: Option<Error>)
      requires InvOf(Terms(), view, start) && view.phase == PhaseModel
      requires AskedOf(view, r, start, env.Seen()) && env.Seen().terminals == 0
      requires env.Seen().sinkFailures == 0 ==> IsReply(Terms(), r, assistant, canceled)
      requires assistant.toolCalls != [] && View(st) == TakenIn(view, assistant, canceled)
      requires Tells(st) && LastHeard(st.turns, assistant)
      modifies env, st
      ensures SinksHold(env.world) ==> env.Seen().sinkFailures == old(env.Seen()).sinkFailures
      ensures SameTalk(old(env.Seen()), env.Seen())
      ensures err.None? ==> Inv(st) && RepliedWith(Terms(), view, View(st), assistant, canceled)
      ensures err.None? && Limited(Terms(), st.maxToolRounds) ==> StepsLeft(st) < StepsLeftOf(Terms(), view)
      ensures err.Some? ==> Aborted(st) && env.Seen().sinkFailures > old(env.Seen()).sinkFailures
    {
      hide Tell;
      hide SinksHold;
      hide InvOf;
      hide PendingOf;
      hide AbortedOf;
      hide AskedOf;
      hide RepliedWith;
      hide FollowsUp;
      hide StepsLeftOf;
      hide RoundsLeft;
      hide Limited;
      hide IsReply;
      hide MessageEmpty;
      hide Chronicle;
      hide LastHeard;
      hide Stage;
      InvBeforeChat(Terms(), view, start);
      CallsAreOpen(view, st.turns, start, r, env.Seen(), assistant, canceled);
      st.open := st.pending;
      ghost var taken := View(st);
      assert taken == TakenIn(view, assistant, canceled).(open := assistant.toolCalls);
      hide TakenIn;
      err := FollowUp(st);
      if err.None? {
        ReplyLeads(Terms(), view, taken, View(st), assistant, canceled);
      }
    }

    lemma {:induction false} CallsAreOpen(
      view: RunView, turns: seq<Turn>, start: Account, r: Reply, after: Account, assistant: Message, canceled: bool)
      requires InvOf(Terms(), view, start) && view.phase == PhaseModel && AskedOf(view, r, start, after)
      requires after.sinkFailures == 0 ==> IsReply(Terms(), r, assistant, canceled)
      requires assistant.toolCalls != [] && Chronicle(Terms(), TakenIn(view, assistant, canceled), turns, after)
      ensures var taken := TakenIn(view, assistant, canceled).(open := assistant.toolCalls);
              PendingOf(Terms(), taken, after) && Chronicle(Terms(), taken, turns, after)
    {
      hide IsReply;
      hide InvOf;
      hide AskedOf;
      hide PendingOf;
      hide MessageEmpty;
      hide Chronicle;
      var taken := TakenIn(view, assistant, canceled).(open := assistant.toolCalls);
      RepliedWithCalls(Terms(), view, start, r, after, assistant, canceled);
      ChronicleMoves(Terms(), TakenIn(view, assistant, canceled), turns, after, taken, after);
    }

    /** An accepted reply with calls: they are skipped, refused or left open, or
        they go to the tools phase. */
    method FollowUp(st: RunState) returns (err: Option<Error>)
      requires PendingOf(Terms(), View(st), env.Seen()) && Tells(st) && LastHeard(st.turns, st.assistant)
      modifies env, st
      ensures SinksHold(env.world) ==> env.Seen().sinkFailures == old(env.Seen()).sinkFailures
      ensures SameTalk(old(env.Seen()), env.Seen())
      ensures SameReply(old(View(st)), View(st))
      ensures err.None? ==> Inv(st) && FollowsUp(Terms(), old(View(st)), View(st))
      ensures err.Some? ==> Aborted(st) && env.Seen().sinkFailures > old(env.Seen()).sinkFailures
    {
      hide Tell;
      hide SinksHold;
      hide InvOf;
      hide PendingOf;
      hide AbortedOf;
      hide SkippedMessage;
      hide LimitError;
      hide LastHeard;
      hide Aborted;
      hide LimitMessage;
      hide Chronicle;
      ghost var view := View(st);
      PendingMeans(Terms(), view, env.Seen());
      err := None;
      if st.canceled {
        err := SkipOpenCalls(st, SkippedMessage(), None);
      } else if disableTools {
        err := RefuseOpenCalls(st);
      } else if tools.None? {
        LeftOpen(Terms(), View(st), env.Seen());
        st.FinishWith(RunDone);
        ChronicleMoves(Terms(), view, st.turns, env.Seen(), View(st), env.Seen());
      } else if st.maxToolRounds >= 0 && st.toolRounds >= st.maxToolRounds {
        err := SkipOpenCalls(st, LimitMessage(st.maxToolRounds), Some(LimitError(st.maxToolRounds)));
      } else {
        GoesToTools(Terms(), View(st), env.Seen());
        st.phase := PhaseTools;
        ChronicleMoves(Terms(), view, st.turns, env.Seen(), View(st), env.Seen());
      }
    }

    /** Skips the open calls and ends the run: as canceled, or with an error. */
    method SkipOpenCalls(st: RunState, content: Content, failure: Option<Error>) returns (err: Option<Error>)
      requires PendingOf(Terms(), View(st), env.Seen()) && Tells(st) && LastHeard(st.turns, st.assistant)
      requires if failure.None? then st.canceled
               else tools.Some? && !disableTools && 0 <= st.maxToolRounds <= st.toolRounds
      modifies env, st
      ensures SinksHold(env.world) ==> env.Seen().sinkFailures == old(env.Seen()).sinkFailures
      ensures SameTalk(old(env.Seen()), env.Seen())
      ensures SameReply(old(View(st)), View(st))
      ensures err.None? ==>
                && Inv(st) && st.phase == PhaseDone && st.open == []
                && st.finish == (if failure.None? then Finish(Some(RunCanceled), true, None) else Finish(None, false, failure))
      ensures err.Some? ==> Aborted(st) && env.Seen().sinkFailures > old(env.Seen()).sinkFailures
    {
      hide Tell;
      hide SinksHold;
      hide InvOf;
      hide PendingOf;
      hide AbortedOf;
      hide Did;
      hide Broke;
      hide WellFitted;
      hide ToolMessage;
      hide CallsOf;
      hide MessagesOf;
      hide EndsWith;
      hide Record;
      hide RecordEvent;
      hide Chronicle;
      hide LastHeard;
      hide SkippedMessage;
      hide ExecutionsOf;
      hide LogOf;
      hide Aborted;
      hide FullyOmitted;
      hide SameBooks;
      ghost var start, view := env.Seen(), View(st);
      ghost var answers;
      var skipped;
      PendingMeans(Terms(), view, start);
      skipped, err, answers := SkipToolCalls(st.pending, content);
      if err.Some? {
        FailStep(st, view, start, err.value);
        return;
      }
      WellFittedSkips(Window(), Threshold(), estimate(st.messages), answers);
      WithheldTurn(view, st.turns, start, env.Seen(), answers);
      st.AddResults(skipped, answers, Withheld);
      EndSkipped(st, failure, view, start, answers);
    }

    /** Ends a run whose open calls have been skipped. */
    method EndSkipped(
      st: RunState, failure: Option<Error>, ghost view: RunView, ghost start: Account, ghost answers: seq<Answered>)
      requires PendingOf(Terms(), view, start) && Did(start, env.Seen(), answers)
      requires View(st) == WithAnswers(view, answers) && env.Seen().terminals == 0
      requires CallsOf(answers) == view.pending && forall x <- answers :: !x.Executed()
      requires Tells(st)
      requires if failure.None? then view.canceled
               else tools.Some? && !disableTools && 0 <= view.maxToolRounds <= view.toolRounds
      modifies env, st
      ensures SinksHold(env.world) ==> env.Seen().sinkFailures == old(env.Seen()).sinkFailures
      ensures SameTalk(old(env.Seen()), env.Seen())
      ensures SameReply(old(View(st)), View(st)) && Inv(st) && st.phase == PhaseDone && st.open == []
      ensures st.finish == if failure.None? then Finish(Some(RunCanceled), true, None) else Finish(None, false, failure)
    {
      hide Tell;
      hide SinksHold;
      hide InvOf;
      hide PendingOf;
      hide Did;
      hide WellFitted;
      hide CallsOf;
      hide MessagesOf;
      hide Chronicle;
      ghost var answered, settled := env.Seen(), View(st);
      if failure.None? {
        st.FinishWith(RunCanceled);
        SettledAtEnd(Terms(), view, start, answered, answers);
      } else {
        Fail(failure.value);
        st.FinishError(failure.value);
        SettledWithError(Terms(), view, start, answered, env.Seen(), answers, failure.value);
      }
      ChronicleMoves(Terms(), settled, st.turns, answered, View(st), env.Seen());
    }

    /** Answers the open calls with the notice that tools are disabled. */
    method RefuseOpenCalls(st: RunState) returns (err: Option<Error>)
      requires PendingOf(Terms(), View(st), env.Seen()) && Tells(st) && LastHeard(st.turns, st.assistant) && disableTools
      modifies env, st
      ensures SinksHold(env.world) ==> env.Seen().sinkFailures == old(env.Seen()).sinkFailures
      ensures SameTalk(old(env.Seen()), env.Seen())
      ensures SameReply(old(View(st)), View(st))
      ensures err.None? ==>
                && Inv(st) && st.phase == PhaseCompact && st.open == []
                && st.toolBatch.Some? && st.toolBatch.value.stop == NoStop
      ensures err.Some? ==> Aborted(st) && env.Seen().sinkFailures > old(env.Seen()).sinkFailures
    {
      hide Tell;
      hide SinksHold;
      hide InvOf;
      hide PendingOf;
      hide AbortedOf;
      hide Did;
      hide Broke;
      hide WellFitted;
      hide CallsOf;
      hide Chronicle;
      hide LastHeard;
      hide Stage;
      hide DisabledMessage;
      hide MessagesOf;
      ghost var start, view := env.Seen(), View(st);
      ghost var answers;
      var batch;
      PendingMeans(Terms(), view, start);
      batch, err, answers := DisabledToolCalls(st.messages, st.pending);
      if err.Some? {
        FailStep(st, view, start, err.value);
        return;
      }
      SettledForNow(Terms(), view, start, env.Seen(), answers, batch);
      RefusedTurn(view, st.turns, start, env.Seen(), answers, batch);
      st.AddBatch(batch, answers, Refused);
    }

    lemma {:induction false} WithheldTurn(
      view: RunView, turns: seq<Turn>, start: Account, after: Account, answers: seq<Answered>)
      requires Chronicle(Terms(), view, turns, start) && LastHeard(turns, view.assistant) && Held(view)
      requires Did(start, after, answers) && CallsOf(answers) == view.pending
      requires WellFitted(Window(), Threshold(), estimate(view.messages), answers)
      requires forall a <- answers :: a.outcome == Skipped
      ensures SameTalk(start, after)
      ensures Chronicle(Terms(), WithAnswers(view, answers), turns + [Resolved(answers, Withheld)], after)
    {
      hide Chronicle;
      hide WellFitted;
      DidIsQuiet(start, after, answers);
      hide Did;
      hide CallsOf;
      hide MessagesOf;
      ResolvedTurn(Terms(), view, turns, start, answers, Withheld, after);
    }

    lemma {:induction false} RefusedTurn(
      view: RunView, turns: seq<Turn>, start: Account, after: Account, answers: seq<Answered>, batch: Batch)
      requires Chronicle(Terms(), view, turns, start) && LastHeard(turns, view.assistant) && Held(view)
      requires Did(start, after, answers) && CallsOf(answers) == view.pending && disableTools
      requires WellFitted(Window(), Threshold(), estimate(view.messages), answers)
      requires forall a <- answers :: a.outcome == Disabled && a.raw == DisabledMessage()
      requires batch == Batch(MessagesOf(answers), NoStop, [])
      ensures SameTalk(start, after)
      ensures var w := WithAnswers(view, answers).(phase := PhaseCompact, toolBatch := Some(batch));
              var more := turns + [Resolved(answers, Refused)];
              Chronicle(Terms(), w, more, after) && Stage(Terms(), w, more)
    {
      hide Chronicle;
      hide WellFitted;
      hide DisabledMessage;
      DidIsQuiet(start, after, answers);
      hide Did;
      hide CallsOf;
      hide MessagesOf;
      var more := turns + [Resolved(answers, Refused)];
      ResolvedTurn(Terms(), view, turns, start, answers, Refused, after);
      ChronicleMoves(
        Terms(), WithAnswers(view, answers), more, after,
        WithAnswers(view, answers).(phase := PhaseCompact, toolBatch := Some(batch)), after);
    }

    /** A sink failed in the middle of a batch that runs no tools. */
    method FailStep(ghost st: RunState, ghost view: RunView, ghost start: Account, e: Error)
      requires PendingOf(Terms(), view, start) && Broke({}, start, env.Seen()) && env.Seen().terminals == 0
      requires View(st) == view && Chronicle(Terms(), view, st.turns, start)
      modifies env
      ensures SinksHold(env.world) ==> env.Seen().sinkFailures == old(env.Seen()).sinkFailures
      ensures SameTalk(start, env.Seen())
      ensures Aborted(st) && env.Seen().sinkFailures > start.sinkFailures
    {
      hide Tell;
      hide SinksHold;
      hide PendingOf;
      hide AbortedOf;
      hide Chronicle;
      ghost var broke := env.Seen();
      Fail(e);
      BrokenOff(Terms(), view, start, broke, env.Seen(), e.message);
      ChronicleMoves(Terms(), view, st.turns, start, view, env.Seen());
    }

    /** The tools phase: the batch is executed and its results are added. Unless a
        sink fails, the step fails exactly when the user has to be asked and cannot
        be, and then the calls stay open. */
    method RunToolStep(st: RunState) returns (err: Option<Error>)
      requires Inv(st) && st.phase == PhaseTools
      modifies this`workingDir, env, approvals, st
      ensures SinksHold(env.world) ==> env.Seen().sinkFailures == old(env.Seen()).sinkFailures
      ensures err.None? ==>
                && Inv(st) && st.phase == PhaseCompact && st.toolBatch.Some? && st.open == []
                && st.toolRounds == old(st.toolRounds)
                && st.messages == old(st.messages) + st.toolBatch.value.messages
      ensures err.None? && Limited(Terms(), st.maxToolRounds) ==> StepsLeft(st) < old(StepsLeft(st))
      ensures err.Some? ==> Aborted(st) && st.open == old(st.pending)
      ensures SameTalk(old(env.Seen()), env.Seen())
      ensures env.Seen().sinkFailures == old(env.Seen()).sinkFailures ==>
                (err.Some? <==> CannotAsk(old(approvals.Current()), old(st.pending), old(env.now)))
      ensures err.None? && !MustAsk(old(approvals.Current()), old(st.pending)) && ContextHolds(env.world) ==>
                st.toolBatch.value.stop == NoStop
    {
      hide Tell;
      hide SinksHold;
      hide ContextHolds;
      hide InvOf;
      hide AbortedOf;
      hide StepsLeftOf;
      hide Limited;
      hide MessagesOf;
      hide MessagesTokens;
      hide Held;
      hide BatchDone;
      hide Attempted;
      hide EndsWith;
      hide Record;
      hide RecordEvent;
      hide Aborted;
      hide SameTalk;
      hide DenialText;
      hide CannotAsk;
      hide MustAsk;
      hide LastHeard;
      hide Stage;
      hide Chronicle;
      ghost var start, view, dir := env.Seen(), View(st), RunDir(workingDir);
      StageOfTools(Terms(), view, st.turns);
      ghost var answers;
      var batch;
      ToolsMeans(Terms(), view, start);
      batch, err, answers := ExecuteToolCalls(st.messages, st.pending);
      SettleBatch(st, view, dir, start, batch, err, answers);
    }

    /** Adds the results of a batch, or fails when there are none. */
    method SettleBatch(
      st: RunState, ghost view: RunView, ghost dir: string, ghost start: Account, batch: Batch, err: Option<Error>,
      ghost answers: seq<Answered>)
      requires InvOf(Terms(), view, start) && view.phase == PhaseTools && tools.Some?
      requires Chronicle(Terms(), view, st.turns, start) && LastHeard(st.turns, view.assistant)
      requires View(st) == view.(current := approvals.Current())
      requires BatchDone(view.pending, estimate(view.messages), dir, view.current,
                         start, env.Seen(), approvals.Current(), batch, err, answers)
      requires env.Seen().terminals == 0
      modifies env, st
      ensures SinksHold(env.world) ==> env.Seen().sinkFailures == old(env.Seen()).sinkFailures
      ensures env.Seen().sinkFailures >= old(env.Seen()).sinkFailures
      ensures err.None? ==> env.Seen().sinkFailures == old(env.Seen()).sinkFailures
      ensures err.None? ==>
                && Inv(st) && st.phase == PhaseCompact && st.toolBatch == Some(batch) && st.open == []
                && st.toolRounds == view.toolRounds && st.maxToolRounds == view.maxToolRounds
                && st.messages == view.messages + batch.messages
                && (Limited(Terms(), view.maxToolRounds) ==> StepsLeft(st) < StepsLeftOf(Terms(), view))
      ensures err.Some? ==> Aborted(st) && View(st) == old(View(st))
      ensures SameTalk(start, env.Seen())
    {
      hide Tell;
      hide SinksHold;
      hide InvOf;
      hide AbortedOf;
      hide StepsLeftOf;
      hide Limited;
      hide MessagesOf;
      hide BatchDone;
      hide Chronicle;
      hide LastHeard;
      hide Stage;
      if err.Some? {
        FailTools(st, view, dir, start, batch, answers, err.value);
        return;
      }
      BatchIsAdded(view, dir, start, env.Seen(), approvals.Current(), batch, answers);
      BatchTurn(view, st.turns, dir, start, env.Seen(), approvals.Current(), batch, answers);
      st.AddBatch(batch, answers, Ran(batch.stop));
    }

    /** The batch is the next turn. */
    lemma {:induction false} BatchTurn(
      view: RunView, turns: seq<Turn>, dir: string, start: Account, after: Account, current: Grants,
      batch: Batch, answers: seq<Answered>)
      requires InvOf(Terms(), view, start) && view.phase == PhaseTools && tools.Some?
      requires Chronicle(Terms(), view, turns, start) && LastHeard(turns, view.assistant)
      requires BatchDone(view.pending, estimate(view.messages), dir, view.current,
                         start, after, current, batch, None, answers)
      ensures var w := WithAnswers(view, answers).(current := current, phase := PhaseCompact, toolBatch := Some(batch));
              var more := turns + [Resolved(answers, Ran(batch.stop))];
              Chronicle(Terms(), w, more, after) && Stage(Terms(), w, more) && SameTalk(start, after)
    {
      hide Cleared;
      hide Plays;
      hide Ledger;
      hide MayAsk;
      hide ContextHolds;
      hide WellFitted;
      hide LogOf;
      hide ExecutionsOf;
      hide Chronicle;
      ToolsMeans(Terms(), view, start);
      hide InvOf;
      hide MessagesOf;
      hide CallsOf;
      hide OverflowsOf;
      ResolvedTurn(Terms(), view, turns, start, answers, Ran(batch.stop), after);
      ChronicleMoves(
        Terms(), WithAnswers(view, answers), turns + [Resolved(answers, Ran(batch.stop))], after,
        WithAnswers(view, answers).(current := current, phase := PhaseCompact, toolBatch := Some(batch)), after);
    }

    lemma {:induction false} BatchIsAdded(
      view: RunView, dir: string, start: Account, after: Account, current: Grants, batch: Batch, answers: seq<Answered>)
      requires InvOf(Terms(), view, start) && view.phase == PhaseTools && tools.Some?
      requires BatchDone(view.pending, estimate(view.messages), dir, view.current,
                         start, after, current, batch, None, answers)
      ensures batch.messages == MessagesOf(answers)
      ensures var w := WithAnswers(view, answers).(current := current, phase := PhaseCompact, toolBatch := Some(batch));
              && InvOf(Terms(), w, after)
              && (Limited(Terms(), view.maxToolRounds) ==> StepsLeftOf(Terms(), w) < StepsLeftOf(Terms(), view))
    {
      hide Cleared;
      hide Handled;
      hide Plays;
      hide Ledger;
      hide Held;
      hide MayAsk;
      hide ContextHolds;
      hide MessagesOf;
      ToolsAnswered(Terms(), view, start, after, Window(), Threshold(), estimate(view.messages), answers, batch, current);
    }

    /** A batch could not be finished: a sink failed, or the approval prompt. */
    method FailTools(
      st: RunState, ghost view: RunView, ghost dir: string, ghost start: Account, ghost batch: Batch,
      ghost answers: seq<Answered>, e: Error)
      requires InvOf(Terms(), view, start) && view.phase == PhaseTools && tools.Some?
      requires Chronicle(Terms(), view, st.turns, start)
      requires View(st) == view.(current := approvals.Current())
      requires BatchDone(view.pending, estimate(view.messages), dir, view.current,
                         start, env.Seen(), approvals.Current(), batch, Some(e), answers)
      requires env.Seen().terminals == 0
      modifies env
      ensures SinksHold(env.world) ==> env.Seen().sinkFailures == old(env.Seen()).sinkFailures
      ensures env.Seen().sinkFailures >= old(env.Seen()).sinkFailures && SameTalk(start, env.Seen())
      ensures Aborted(st)
    {
      hide Tell;
      hide SinksHold;
      hide InvOf;
      hide AbortedOf;
      hide Cleared;
      hide Handled;
      hide Plays;
      hide MayAsk;
      hide Attempted;
      hide EndsWith;
      hide Chronicle;
      ghost var executed := env.Seen();
      Fail(e);
      BatchFailed(view, dir, start, executed, env.Seen(), approvals.Current(), batch, answers, e);
      ChronicleMoves(Terms(), view, st.turns, start, View(st), env.Seen());
    }

    lemma {:induction false} BatchFailed(
      view: RunView, dir: string, start: Account, executed: Account, after: Account, current: Grants, batch: Batch,
      answers: seq<Answered>, e: Error)
      requires InvOf(Terms(), view, start) && view.phase == PhaseTools && tools.Some?
      requires BatchDone(view.pending, estimate(view.messages), dir, view.current,
                         start, executed, current, batch, Some(e), answers)
      requires EndsWith(executed, after, e.message)
      ensures AbortedOf(Terms(), view.(current := current), after) && SameTalk(start, after)
    {
      hide AbortedOf;
      hide Cleared;
      hide Handled;
      hide Plays;
      hide MayAsk;
      hide Held;
      hide LogOf;
      hide ExecutionsOf;
      hide Lawful;
      hide AcceptedCalls;
      hide CallsOf;
      ToolsFailed(Terms(), view, start, executed, after, current, e.message);
    }

    /** The compaction phase: after an overflow everything but the last batch is
        archived, otherwise the history is compacted when it is time to. Then
        the round is over, and with it perhaps the run. */
    method RunCompactionStep(st: RunState, think: bool)
      requires Inv(st) && st.phase == PhaseCompact
      modifies env, st
      ensures SinksHold(env.world) ==> env.Seen().sinkFailures == old(env.Seen()).sinkFailures
      ensures Inv(st)
      ensures Limited(Terms(), st.maxToolRounds) ==> StepsLeft(st) < old(StepsLeft(st))
      ensures RoundEnded(old(View(st)), View(st)) && st.phase in {PhaseModel, PhaseDone}
      ensures compactor.None? ==> st.finish.err.None? || st.phase == PhaseModel
      ensures SameTalk(old(env.Seen()), env.Seen())
      ensures st.messages == old(st.messages) || Recasts(Terms(), old(st.messages), old(st.turns), st.messages)
      ensures CompactsWhenDue(old(View(st)), old(st.latest), think, old(env.now), st.messages)
      ensures st.turns == WithKept(old(View(st)), old(st.turns), st.messages)
    {
      hide Tell;
      hide SinksHold;
      hide InvOf;
      hide Chronicle;
      hide HasBatch;
      hide Recasts;
      hide Compacting;
      hide StepsLeftOf;
      hide CompactsWhenDue;
      hide RoundEnded;
      ghost var start, view := env.Seen(), View(st);
      CompactMeans(Terms(), view, start);
      var kept, notified, err := CompactRound(st, think);
      CompactedLedger(Terms(), view, start, env.Seen(), kept, notified);
      CompactingIsQuiet(start, env.Seen(), view.skipNotified, notified);
      ReplacedTurn(Terms(), view, st.turns, start, kept, notified, env.Seen());
      st.Recast(kept, notified);
      assert View(st) == Recast(view, kept, notified);
      EndRound(st, err, view, start);
    }

    /** After compaction the round is over, and its turns have all been told. */
    method EndRound(st: RunState, err: Option<Error>, ghost view: RunView, ghost start: Account)
      requires InvOf(Terms(), view, start) && view.phase == PhaseCompact && Tells(st)
      requires View(st) == Recast(view, st.messages, st.skipNotified)
      requires Compacting(start, env.Seen(), view.skipNotified, st.skipNotified) && env.Seen().terminals == 0
      requires err.Some? ==> 0 < Window() <= estimate(st.messages)
      requires view.toolBatch.Some? && view.toolBatch.value.stop == NoStop ==> GoesOn(st.turns) && Streak(st.turns) == 0
      modifies env, st
      ensures SinksHold(env.world) ==> env.Seen().sinkFailures == old(env.Seen()).sinkFailures
      ensures Inv(st) && SameTalk(old(env.Seen()), env.Seen())
      ensures st.messages == old(st.messages) && st.turns == old(st.turns)
      ensures Limited(Terms(), st.maxToolRounds) ==> StepsLeft(st) < StepsLeftOf(Terms(), view)
      ensures err.Some? ==> st.phase == PhaseDone && st.finish.err == err
      ensures err.None? ==> st.finish.err.None? || st.phase == PhaseModel
      ensures RoundEnded(view, View(st)) && st.phase in {PhaseModel, PhaseDone}
    {
      hide Tell;
      hide SinksHold;
      hide InvOf;
      hide Chronicle;
      hide Compacting;
      hide StepsLeftOf;
      hide GoesOn;
      hide Streak;
      ghost var compacted, recast := env.Seen(), View(st);
      CompactMeans(Terms(), view, start);
      CloseRound(st, err, view, start);
      ChronicleMoves(Terms(), recast, st.turns, compacted, View(st), env.Seen());
    }

    /** The run ends, or the next round begins. */
    method CloseRound(st: RunState, err: Option<Error>, ghost view: RunView, ghost start: Account)
      requires InvOf(Terms(), view, start) && view.phase == PhaseCompact
      requires View(st) == Recast(view, st.messages, st.skipNotified)
      requires Compacting(start, env.Seen(), view.skipNotified, st.skipNotified) && env.Seen().terminals == 0
      requires err.Some? ==> 0 < Window() <= estimate(st.messages)
      modifies env, st
      ensures SinksHold(env.world) ==> env.Seen().sinkFailures == old(env.Seen()).sinkFailures
      ensures InvOf(Terms(), View(st), env.Seen())
      ensures SameWords(old(View(st)), old(env.Seen()), View(st), env.Seen()) && st.turns == old(st.turns)
      ensures Limited(Terms(), st.maxToolRounds) ==> StepsLeft(st) < StepsLeftOf(Terms(), view)
      ensures err.Some? ==> st.phase == PhaseDone && st.finish.err == err
      ensures err.None? ==> st.finish.err.None? || st.phase == PhaseModel
      ensures RoundEnded(view, View(st)) && (st.phase == PhaseDone || (st.phase == PhaseModel && view.toolBatch.Some? && view.toolBatch.value.stop == NoStop))
      ensures st.modelErrors == view.modelErrors
    {
      hide Tell;
      hide SinksHold;
      hide InvOf;
      hide Compacting;
      hide StepsLeftOf;
      hide EndsWith;
      ghost var compacted := env.Seen();
      if err.Some? {
        Fail(err.value);
        CompactionFailed(Terms(), view, start, compacted, env.Seen(), st.messages, st.skipNotified, err.value);
        EndsAreQuiet(compacted, env.Seen(), err.value.message);
        st.FinishError(err.value);
      } else if st.toolBatch.None? {
        RoundEndsRun(Terms(), view, start, compacted, st.messages, st.skipNotified,
                     if st.canceled then RunCanceled else RunDone, st.canceled);
        st.FinishWith(if st.canceled then RunCanceled else RunDone);
      } else if st.toolBatch.value.stop == NoStop {
        RoundGoesOn(Terms(), view, start, compacted, st.messages, st.skipNotified);
        st.NextRound();
      } else {
        var status := if st.toolBatch.value.stop == DeniedStop then RunDenied else RunCanceled;
        RoundEndsRun(Terms(), view, start, compacted, st.messages, st.skipNotified, status, status == RunCanceled);
        st.FinishWith(status);
      }
    }

    /** A round compacts the history exactly when a result was left out or it is time
        to, and the summariser gives a summary of what there is to archive. */
    ghost predicate CompactsWhenDue(v: RunView, latest: nat, think: bool, at: nat, kept: seq<Message>) {
      if compactor.None? || !compactor.value.hasClient then kept == v.messages
      else if v.toolBatch.Some? && v.toolBatch.value.overflows != [] then
        match SummaryOf(env.world, at + 1, think)
        case Err(_) => kept == v.messages
        case Ok(summary) =>
          if summary == "" then kept == v.messages
          else ReattachedIfPossible(
                 v.messages, v.assistant, v.toolBatch.value.messages, v.toolBatch.value.overflows, kept, summary)
      else if ShouldCompact(v.messages, latest) then
        match SummaryOf(env.world, at + 1, think)
        case Err(_) => kept == v.messages
        case Ok(summary) =>
          if summary == "" then kept == v.messages
          else CompactedIfPossible(v.messages, KeepTurns(None), kept, summary)
      else kept == v.messages
    }

    /** The compaction of one round, of the one kind or the other. */
    method CompactRound(st: RunState, think: bool) returns (kept: seq<Message>, notified: bool, err: Option<Error>)
      requires env.Seen().terminals == 0 && HasBatch(Terms(), View(st), st.turns)
      modifies env
      ensures SinksHold(env.world) ==> env.Seen().sinkFailures == old(env.Seen()).sinkFailures
      ensures Compacting(old(env.Seen()), env.Seen(), st.skipNotified, notified)
      ensures compactor.None? ==> kept == st.messages && err.None?
      ensures err.Some? ==> 0 < Window() <= estimate(kept)
      ensures CompactsWhenDue(View(st), st.latest, think, old(env.now), kept)
      ensures kept == st.messages || Recasts(Terms(), st.messages, st.turns, kept)
    {
      hide Tell;
      hide SinksHold;
      hide IsReattached;
      hide IsCompacted;
      hide Compacting;
      hide MessagesOf;
      hide SummaryOf;
      hide CompactedIfPossible;
      hide ReattachedIfPossible;
      hide OverflowsOf;
      if st.toolBatch.Some? && |st.toolBatch.value.overflows| > 0 {
        var batch := st.toolBatch.value;
        kept, notified, err := CompactForToolOutputOverflow(
          st.messages, st.latest, think, st.assistant, batch.messages, batch.overflows, st.skipNotified);
      } else {
        kept, notified, err := MaybeCompactHistory(st.messages, st.latest, think, st.skipNotified);
      }
    }

    /** The last event of a run, unless it has failed already. */
    method FinishRun(st: RunState) returns (result: Option<RunResult>, err: Option<Error>)
      requires Inv(st) && st.phase == PhaseDone
      modifies env
      ensures SinksHold(env.world) ==> env.Seen().sinkFailures == old(env.Seen()).sinkFailures
      ensures RunOver(Terms(), View(st), env.Seen()) && Tells(st)
      ensures result.Some? ==> result.value.messages == st.messages && err == st.finish.err
      ensures result.None? ==> err.Some? && env.Seen().sinkFailures > old(env.Seen()).sinkFailures
    {
      hide Tell;
      hide InvOf;
      hide RunOver;
      hide Chronicle;
      ghost var start := env.Seen();
      err := None;
      if st.finish.status.Some? {
        DoneIsQuiet(Terms(), View(st), start);
        var event := RunFinished(st.finish.status.value);
        if st.finish.ignoreCanceled {
          err := EmitIgnoringCanceled(event);
        } else {
          err := env.Emit(event);
        }
      }
      DoneIsOver(Terms(), View(st), start, env.Seen());
      ChronicleMoves(Terms(), View(st), st.turns, start, View(st), env.Seen());
      if err.Some? {
        return None, err;
      }
      return Some(RunResult(st.messages, workingDir)), st.finish.err;
    }

    /** One turn of the run loop. */
    method Step(opts: RunOptions, st: RunState)
      returns (over: bool, result: Option<RunResult>, err: Option<Error>)
      requires Inv(st) && st.prompt == opts.systemPrompt
      modifies this`workingDir, env, approvals, st
      ensures SinksHold(env.world) ==> env.Seen().sinkFailures == old(env.Seen()).sinkFailures
      ensures !over ==> Inv(st) && (Limited(Terms(), st.maxToolRounds) ==> StepsLeft(st) < old(StepsLeft(st)))
      ensures over ==> RunOver(Terms(), View(st), env.Seen()) && Tells(st)
      ensures over && result.Some? ==> result.value.messages == st.messages && err == st.finish.err
      ensures !over ==> Pace(st) > old(Pace(st))
      ensures over <== old(st.phase) == PhaseDone
    {
      hide Tell;
      hide SinksHold;
      hide InvOf;
      hide RunOver;
      hide AbortedOf;
      hide Chronicle;
      hide StepsLeftOf;
      hide RepliedWith;
      hide RoundEnded;
      hide Recasts;
      hide RequestMessages;
      over, result, err := false, None, None;
      match st.phase {
        case PhaseModel =>
          ghost var r;
          err, r := RunModelStep(opts.systemPrompt, st);
        case PhaseTools =>
          err := RunToolStep(st);
        case PhaseCompact =>
          RunCompactionStep(st, opts.think);
        case PhaseDone =>
          result, err := FinishRun(st);
          over := true;
          return;
      }
      if err.Some? {
        AbortedIsOver(Terms(), View(st), env.Seen());
        over := true;
      }
    }

    /** Three steps for every request to the model, less those of its round that are
        still to come. */
    ghost function Pace(st: RunState): int
      reads st, env
    {
      3 * |env.Seen().requests| - match st.phase case PhaseTools => 2 case PhaseCompact => 1 case _ => 0
    }

    /** A run, followed for as many steps as fuel allows: whatever the world
        does, every state on the way is as it should be, and so is the end. */
    method Run(opts: RunOptions, fuel: nat)
      returns (over: bool, result: Option<RunResult>, err: Option<Error>, ghost last: Option<RunView>, ghost turns: seq<Turn>)
      modifies this`workingDir, env, approvals
      ensures Includes(approvals.Current(), old(approvals.Current()))
      ensures !hasClient || opts.model == "" ==> over && result.None? && err.Some? && env.Seen() == NOTHING_YET
      ensures hasClient && opts.model != "" && last.None? ==>
                && over && result.None? && err.Some?
                && 0 < Window() <= estimate(SanitizeMessages(opts.messages + opts.newMessages))
                && Closed(env.Seen()) && env.Seen().requests == [] && env.Seen().executions == []
      ensures last.Some? ==>
                && BeganWith(opts, old(approvals.Current()), last.value) && last.value.current == approvals.Current()
                && Chronicle(Terms(), last.value, turns, env.Seen())
                && if over then RunOver(Terms(), last.value, env.Seen()) else InvOf(Terms(), last.value, env.Seen())
      ensures last.Some? && over && result.Some? ==>
                result.value.messages == last.value.messages && err == last.value.finish.err
      ensures last.Some? && Paired(opts.messages + opts.newMessages) && WellBehaved(env.world) ==>
                && (forall r <- env.Seen().requests :: Paired(r))
                && IsKept(last.value.messages, turns)
      ensures SinksHold(env.world) ==> env.Seen().sinkFailures == 0
      ensures last.Some? && !over ==> fuel <= 3 * |env.Seen().requests|
      ensures var limit := ResolvedMaxToolRounds(opts.cloud, opts.maxToolRounds);
              Limited(Terms(), limit) && fuel >= StepLimit(limit) ==> over
    {
      hide Tell;
      hide SinksHold;
      hide InvOf;
      hide RunOver;
      hide Paired;
      hide StepsLeftOf;
      hide Chronicle;
      hide WellBehaved;
      hide Stage;
      hide Limited;
      hide IsKept;
      env.Forget();
      over, result, err, last, turns := true, None, None, None, [];
      if !hasClient || opts.model == "" {
        return true, None, Some(INVALID_RUN), None, [];
      }
      var messages := SanitizeMessages(opts.messages + opts.newMessages);
      if 0 < Window() <= estimate(messages) {
        Fail(PROMPT_TOO_LARGE);
        return true, None, Some(PROMPT_TOO_LARGE), None, [];
      }
      var limit := ResolvedMaxToolRounds(opts.cloud, opts.maxToolRounds);
      var st := new RunState(messages, limit, approvals.Current(), opts.systemPrompt);
      FreshRun(Terms(), messages, limit, View(st));
      ChronicleBegins(Terms(), View(st));
      over, result, err := RunLoop(opts, st, fuel);
      last, turns := Some(View(st)), st.turns;
      GrantsHaveGrown(View(st), env.Seen(), over);
      RunIsPaired(View(st), st.turns, env.Seen(), opts.messages + opts.newMessages);
    }

    /** The loop over the phases. */
    method RunLoop(opts: RunOptions, st: RunState, fuel: nat)
      returns (over: bool, result: Option<RunResult>, err: Option<Error>)
      requires Inv(st) && st.prompt == opts.systemPrompt
      modifies this`workingDir, env, approvals, st
      ensures SinksHold(env.world) ==> env.Seen().sinkFailures == old(env.Seen()).sinkFailures
      ensures if over then RunOver(Terms(), View(st), env.Seen()) && Tells(st) else Inv(st)
      ensures over && result.Some? ==> result.value.messages == st.messages && err == st.finish.err
      ensures !over ==> fuel + old(Pace(st)) <= Pace(st)
      ensures Limited(Terms(), st.maxToolRounds) && fuel > old(StepsLeft(st)) ==> over
    {
      hide Tell;
      hide SinksHold;
      hide InvOf;
      hide RunOver;
      hide StepsLeftOf;
      hide Chronicle;
      hide Stage;
      hide Limited;
      over, result, err := false, None, None;
      var steps := 0;
      while steps < fuel && !over
        invariant steps <= fuel
        invariant if over then RunOver(Terms(), View(st), env.Seen()) && Tells(st) else Inv(st)
        invariant over && result.Some? ==> result.value.messages == st.messages && err == st.finish.err
        invariant !over && Limited(Terms(), st.maxToolRounds) ==> steps + StepsLeft(st) <= old(StepsLeft(st))
        invariant !over ==> steps + old(Pace(st)) <= Pace(st)
        invariant SinksHold(env.world) ==> env.Seen().sinkFailures == old(env.Seen()).sinkFailures
        decreases fuel - steps
      {
        over, result, err := Step(opts, st);
        steps := steps + 1;
      }
      if !over && Limited(Terms(), st.maxToolRounds) {
        InvHasStepsLeft(Terms(), View(st), env.Seen());
      }
    }

    lemma {:induction false} RunIsPaired(v: RunView, turns: seq<Turn>, a: Account, messages: seq<Message>)
      requires Chronicle(Terms(), v, turns, a) && v.initial == SanitizeMessages(messages)
      ensures Paired(messages) && WellBehaved(env.world) ==>
                (forall r <- a.requests :: Paired(r)) && IsKept(v.messages, turns)
    {
      hide Paired;
      hide IsKept;
      if Paired(messages) && WellBehaved(env.world) {
        SanitizeKeepsPairing(messages);
        VoicesStand(env.world, turns, a.replies, a.sinkFailures == 0);
        HistoryIsPaired(Terms(), v.initial, turns);
        RequestsArePaired(Terms(), v.prompt, v.initial, turns);
      }
    }

    lemma {:induction false} GrantsHaveGrown(v: RunView, a: Account, over: bool)
      requires if over then RunOver(Terms(), v, a) else InvOf(Terms(), v, a)
      ensures Includes(v.current, v.grants)
    {
      hide Lawful;
      LawfulGrows(tools, env.world, v.grants, v.current, a);
    }

    function StepLimit(limit: Rounds): int {
      5 * (if tools.None? then 0 else limit) + 6
    }
  }

  datatype RunOptions = RunOptions(
    model: string, systemPrompt: string, messages: seq<Message>, newMessages: seq<Message>,
    think: bool, cloud: bool, maxToolRounds: Rounds)

  /** The run was begun with these options, and this had been allowed by then. */
  predicate BeganWith(opts: RunOptions, grants: Grants, v: RunView) {
    && v.maxToolRounds == ResolvedMaxToolRounds(opts.cloud, opts.maxToolRounds)
    && v.grants == grants
    && v.prompt == opts.systemPrompt
    && v.initial == SanitizeMessages(opts.messages + opts.newMessages)
  }

  const DEFAULT_MAX_TOOL_ROUNDS := 100

  /** The limit on rounds: as asked for, or none for a cloud model, or 100. */
  function ResolvedMaxToolRounds(cloud: bool, value: Rounds): (limit: Rounds)
    ensures limit != 0 && (limit < 0 <==> value < 0 || (value == 0 && cloud))
    ensures limit > 0 ==> limit == if value > 0 then value else 100
  {
    if value != 0 then value else if cloud then -1 else DEFAULT_MAX_TOOL_ROUNDS
  }

  function NoPrompterReason(): Content {
    var text := "Tool execution requires approval, but no approval prompter is available.";
    assert |text| == 72;
    text
  }

  /** An answer of the user: granting everything or scopes allows the batch, too. */
  function Verdict(answer: Result<Approval, Error>): Result<Approval, Error> {
    match answer
    case Ok(a) => Ok(a.(allow := Granted(a)))
    case Err(e) => Err(e)
  }

  const INVALID_RUN := Error("invalid session", 0, false, false)
  const PROMPT_TOO_LARGE := Error("prompt is too large", 0, false, false)

  datatype RunResult = RunResult(messages: seq<Message>, workingDir: string)

  /** How a round ends: with an error, or by the way its batch stopped. */
  predicate RoundEnded(v: RunView, w: RunView) {
    || (w.phase == PhaseDone && w.finish.err.Some?)
    || (v.toolBatch.None? && w.phase == PhaseDone
        && w.finish.status == Some(if v.canceled then RunCanceled else RunDone))
    || (v.toolBatch.Some? && v.toolBatch.value.stop == DeniedStop && w.phase == PhaseDone
        && w.finish.status == Some(RunDenied))
    || (v.toolBatch.Some? && v.toolBatch.value.stop == CanceledStop && w.phase == PhaseDone
        && w.finish.status == Some(RunCanceled))
    || (v.toolBatch.Some? && v.toolBatch.value.stop == NoStop && w.phase == PhaseModel
        && w.toolRounds == v.toolRounds + 1)
  }

  class RunState {
    var phase: Phase
    var messages: seq<Message>
    var latest: nat
    var assistant: Message
    var pending: seq<ToolCall>
    var canceled: bool
    var toolBatch: Option<Batch>
    var modelErrors: nat
    var toolRounds: nat
    const maxToolRounds: Rounds
    var skipNotified: bool
    var finish: Finish

    /** The calls of all accepted replies, those answered so far with their
        answers, and those not answered yet. */
    ghost var accepted: seq<ToolCall>
    ghost var answered: seq<Answered>
    ghost var open: seq<ToolCall>

    /** What has happened to the history. */
    ghost var turns: seq<Turn>

    /** What was allowed when the run began, and what it began with. */
    ghost const grants: Grants
    ghost const prompt: string
    ghost const initial: seq<Message>

    constructor (messages: seq<Message>, maxToolRounds: Rounds, ghost grants: Grants, ghost prompt: string)
      ensures phase == PhaseModel && this.messages == messages && this.maxToolRounds == maxToolRounds
      ensures latest == 0 && toolBatch.None? && modelErrors == 0 && toolRounds == 0 && !skipNotified
      ensures accepted == [] && answered == [] && open == [] && this.grants == grants
      ensures this.prompt == prompt && initial == messages && turns == []
    {
      phase, this.messages, this.maxToolRounds := PhaseModel, messages, maxToolRounds;
      latest, assistant, pending, canceled := 0, Message(Other(""), "", "", [], "", ""), [], false;
      toolBatch, modelErrors, toolRounds, skipNotified := None, 0, 0, false;
      finish := Finish(None, false, None);
      accepted, answered, open, turns := [], [], [], [];
      this.grants, this.prompt, initial := grants, prompt, messages;
    }

    method TakeIn(reply: Message, canceled: bool)
      modifies this`modelErrors, this`assistant, this`pending, this`canceled, this`accepted, this`messages, this`turns
      ensures modelErrors == 0 && assistant == reply && pending == reply.toolCalls && this.canceled == canceled
      ensures accepted == old(accepted) + reply.toolCalls && turns == old(turns) + [Heard(reply)]
      ensures messages == if MessageEmpty(reply) then old(messages) else old(messages) + [reply]
    {
      modelErrors := 0;
      assistant := reply;
      pending := reply.toolCalls;
      this.canceled := canceled;
      accepted, turns := accepted + reply.toolCalls, turns + [Heard(reply)];
      if !MessageEmpty(reply) {
        messages := messages + [reply];
      }
    }

    /** There is nothing to run. */
    method ToCompaction()
      modifies this`toolBatch, this`phase
      ensures toolBatch.None? && phase == PhaseCompact
    {
      toolBatch := None;
      phase := PhaseCompact;
    }

    /** The results of the open calls. */
    method AddResults(results: seq<Message>, ghost answers: seq<Answered>, ghost how: Handling)
      modifies this`messages, this`answered, this`open, this`turns
      ensures messages == old(messages) + results && answered == old(answered) + answers && open == []
      ensures turns == old(turns) + [Resolved(answers, how)]
    {
      messages := messages + results;
      answered, open, turns := answered + answers, [], turns + [Resolved(answers, how)];
    }

    /** The results of a batch that has been executed. */
    method AddBatch(batch: Batch, ghost answers: seq<Answered>, ghost how: Handling)
      modifies this`messages, this`answered, this`open, this`toolBatch, this`phase, this`turns
      ensures messages == old(messages) + batch.messages && answered == old(answered) + answers && open == []
      ensures toolBatch == Some(batch) && phase == PhaseCompact && turns == old(turns) + [Resolved(answers, how)]
    {
      AddResults(batch.messages, answers, how);
      toolBatch := Some(batch);
      phase := PhaseCompact;
    }

    method Recast(kept: seq<Message>, notified: bool)
      modifies this`messages, this`skipNotified, this`turns
      ensures messages == kept && skipNotified == notified
      ensures turns == if kept == old(messages) then old(turns) else old(turns) + [Replaced(kept)]
    {
      turns := if kept == messages then turns else turns + [Replaced(kept)];
      messages, skipNotified := kept, notified;
    }

    method NextRound()
      modifies this`toolRounds, this`assistant, this`pending, this`toolBatch, this`phase
      ensures toolRounds == old(toolRounds) + 1 && phase == PhaseModel && toolBatch.None? && pending == []
      ensures assistant == Message(Other(""), "", "", [], "", "")
    {
      toolRounds := toolRounds + 1;
      assistant := Message(Other(""), "", "", [], "", "");
      pending := [];
      toolBatch := None;
      phase := PhaseModel;
    }

    method FinishWith(status: RunStatus)
      modifies this`finish, this`phase
      ensures phase == PhaseDone && finish == Finish(Some(status), status == RunCanceled, None)
    {
      finish := Finish(Some(status), status == RunCanceled, None);
      phase := PhaseDone;
    }

    method FinishError(e: Error)
      modifies this`finish, this`phase
      ensures phase == PhaseDone && finish == Finish(None, false, Some(e))
    {
      finish := Finish(None, false, Some(e));
      phase := PhaseDone;
    }
  }

  function WithNumber(front: string, n: Rounds, back: string): Phrase
    requires n >= 0 && |front| + |back| <= 1000
  {
    DecimalWidthOfInt(n);
    front + Decimal(n) + back
  }

  function LimitMessage(limit: Rounds): Content
    requires limit >= 0
  {
    var front := "Tool execution skipped because the max tool-round limit of ";
    assert |front| == 59;
    WithNumber(front, limit, " was reached. Send another message to continue.")
  }

  function LimitError(limit: Rounds): Error
    requires limit >= 0
  {
    Error(WithNumber("tool round limit reached after ", limit, " rounds; send another message to continue"),
          0, false, false)
  }

  /** Server errors are told to the model, up to twice in a row; others, and the
      third one, end the run. */
  predicate RetriedOrFailed(v: RunView, w: RunView, e: Error, err: Option<Error>) {
    if e.status >= 500 && v.modelErrors < 2 then
      err == None && w == v.(modelErrors := v.modelErrors + 1, messages := v.messages + [RetryMessage(e)])
    else
      err == Some(e) && w == v
  }

  lemma {:induction false} NoOverflowRecorded()
    ensures forall id :: LastOverflow([], id) == None
  {
  }

  lemma {:induction false} NothingRefitted(
    window: int, history: nat, toolMessages: seq<Message>, overflows: seq<Overflow>)
    ensures WellRefitted(window, history, toolMessages, overflows, [])
    ensures MessagesTokens([]) == 0
  {
  }

  function StillTooLarge(): Phrase {
    var text := "history is still too large after compaction";
    assert |text| == 43;
    text
  }

  datatype CompactionResult = CompactionResult(
    messages: seq<Message>, compacted: bool, due: bool, summary: string, reason: string)

  function SkippedReason(reason: string): string {
    if TrimSpace(reason) == "" then "compaction could not run" else TrimSpace(reason)
  }

  lemma {:induction false} SplitHasArchive(messages: seq<Message>, keep: int, s: Split)
    requires IsSplit(messages, keep, s)
    ensures s.ok ==> s.archive != []
  {
  }

  /** What is kept of the text that the summariser gives. */
  function WrittenSummary(text: string): string {
    TruncateSummary(TrimSpace(text))
  }

  /** The moment after a question to the summariser and its progress reports. */
  function AfterSummary(world: World, at: nat): nat {
    at + 1 + world.summarize(at).progress
  }

  /** What the fallback gives: asked again without thinking, and once more as before
      if that is not supported and thinking had been asked for. */
  function FallbackText(world: World, at: nat, think: bool): Result<string, Error> {
    match world.summarize(at).text
    case Ok(text) => Ok(text)
    case Err(e) =>
      if !e.unsupportedThink then Err(e)
      else if !think then Ok("")
      else world.summarize(AfterSummary(world, at)).text
  }

  /** The summary that is asked for at some moment, with the fallback for an empty
      one. */
  function SummaryOf(world: World, at: nat, think: bool): Result<string, Error> {
    match world.summarize(at).text
    case Err(e) => Err(e)
    case Ok(text) =>
      if WrittenSummary(text) != "" then Ok(WrittenSummary(text))
      else
        match FallbackText(world, AfterSummary(world, at), think)
        case Err(e) => Err(e)
        case Ok(more) => Ok(WrittenSummary(more))
  }

  ghost predicate CompactedIfPossible(messages: seq<Message>, keep: int, kept: seq<Message>, summary: string) {
    exists s :: IsSplit(messages, keep, s) && kept == if s.ok then CompactedHistory(s, summary, true) else messages
  }

  lemma {:induction false} CompactionMeans(
    messages: seq<Message>, keep: int, kept: seq<Message>, s: Split, summary: string)
    requires IsSplit(messages, keep, s) && s.ok && kept == CompactedHistory(s, summary, true)
    ensures IsCompacted(messages, keep, kept) && CompactedIfPossible(messages, keep, kept, summary)
    ensures Paired(messages) ==> Paired(kept)
  {
    hide IsSplit;
    hide Paired;
    hide CompactedHistory;
    assert CompactedBy(messages, keep, kept, s, summary);
    if Paired(messages) {
      CompactionKeepsPairing(messages, keep, s, summary, true);
    }
  }

  lemma {:induction false} NothingToCompact(messages: seq<Message>, keep: int, s: Split, summary: string)
    requires IsSplit(messages, keep, s) && !s.ok
    ensures CompactedIfPossible(messages, keep, messages, summary)
  {
    hide IsSplit;
  }

  lemma {:induction false} AllSkipped(registry: Registry, answers: seq<Answered>)
    requires forall a <- answers :: a.outcome == Skipped && a.raw == SkippedMessage()
    ensures Plays(registry, CanceledStop, answers)
    ensures ExecutionsOf(answers) == [] && OverflowsOf(answers) == []
  {
    hide SkippedMessage;
    PlaysUntilCanceled(registry, [], answers);
    assert [] + answers == answers;
    NothingRunsUnlessOrdinary(answers);
  }

  lemma {:induction false} NoExecutions(answers: seq<Answered>)
    requires forall a <- answers :: a.outcome == Denied
    ensures ExecutionsOf(answers) == []
  {
    NothingRunsUnlessOrdinary(answers);
  }

  lemma {:induction false} OrdinaryMeans(registry: Registry, a: Answered)
    requires Ordinary(registry, a)
    ensures if a.call.name in registry then a.Executed() else a.outcome == Unknown
  {
  }

  lemma {:induction false} NoAnswers()
    ensures OverflowsOf([]) == [] && CallsOf([]) == [] && MessagesOf([]) == []
  {
  }

  lemma {:induction false} PlaysToTheEnd(registry: Registry, answers: seq<Answered>)
    requires forall a <- answers :: Ordinary(registry, a)
    ensures Plays(registry, NoStop, answers)
  {
    hide Ordinary;
  }

  lemma {:induction false} PlaysMeans(registry: Registry, stop: Stop, answers: seq<Answered>, a: Answered)
    requires Plays(registry, stop, answers) && a in answers
    ensures Ordinary(registry, a) || !a.Executed()
  {
    if stop == CanceledStop {
      var k :| CanceledAt(registry, answers, k);
      var i :| 0 <= i < |answers| && answers[i] == a;
      assert i < k || i >= k;
    }
  }

  lemma {:induction false} PlaysUntilCanceled(registry: Registry, played: seq<Answered>, skipped: seq<Answered>)
    requires forall a <- played :: Ordinary(registry, a)
    requires forall a <- skipped :: a.outcome == Skipped && a.raw == SkippedMessage()
    ensures Plays(registry, CanceledStop, played + skipped)
  {
    hide Ordinary;
    hide SkippedMessage;
    assert CanceledAt(registry, played + skipped, |played|);
  }

  lemma {:induction false} OverflowsOfAppend(answers: seq<Answered>, a: Answered, overflow: Option<Overflow>)
    requires a.Executed() || a.outcome == Unknown
    requires overflow == if FullyOmitted(a.message.content) then Some(Overflow(a.call.name, a.call.id, a.raw)) else None
    ensures OverflowsOf(answers + [a]) == if overflow.Some? then OverflowsOf(answers) + [overflow.value] else OverflowsOf(answers)
  {
    hide FullyOmitted;
    assert (answers + [a])[..|answers|] == answers;
  }

  lemma {:induction false} OverflowsOfSkipped(played: seq<Answered>, skipped: seq<Answered>)
    requires forall a <- skipped :: a.outcome == Skipped
    ensures OverflowsOf(played + skipped) == OverflowsOf(played)
  {
    hide FullyOmitted;
    if skipped == [] {
      assert played + skipped == played;
    } else {
      var last := |skipped| - 1;
      assert (played + skipped)[..|played| + last] == played + skipped[..last];
      OverflowsOfSkipped(played, skipped[..last]);
    }
  }

  /** Part of a batch is answered: its cost is tallied and its events are out. */
  ghost predicate Underway(
    window: int, budget: int, history: nat, answers: seq<Answered>, tokens: nat, start: Account, now: Account) {
    && tokens == MessagesTokens(MessagesOf(answers))
    && WellFitted(window, budget, history, answers)
    && Did(start, now, answers)
  }

  lemma {:induction false} UnderwayAtStart(window: int, budget: int, history: nat, start: Account)
    ensures Underway(window, budget, history, [], 0, start, start)
  {
    DidNothing(start);
  }

  lemma {:induction false} UnderwayMeans(
    window: int, budget: int, history: nat, answers: seq<Answered>, tokens: nat, start: Account, now: Account)
    requires Underway(window, budget, history, answers, tokens, start, now)
    ensures WellFitted(window, budget, history, answers)
    ensures Did(start, now, answers)
  {
  }

  lemma {:induction false} BreaksOff(
    may: set<ToolCall>, window: int, budget: int, history: nat, answers: seq<Answered>, tokens: nat,
    start: Account, before: Account, after: Account)
    requires Underway(window, budget, history, answers, tokens, start, before)
    requires RanAmong(may, answers) && Broke(may, before, after)
    ensures Broke(may, start, after)
  {
    DidThenBroke(may, start, before, after, answers);
  }

  lemma {:induction false} BrokeMore(may: set<ToolCall>, more: set<ToolCall>, a: Account, b: Account)
    requires Broke(may, a, b) && may <= more
    ensures Broke(more, a, b)
  {
  }

  /** Of the calls that were played only those of known tools were run. */
  lemma {:induction false} PlayedAmong(registry: Registry, calls: seq<ToolCall>, n: nat, answers: seq<Answered>)
    requires n <= |calls| && CallsOf(answers) == calls[..n]
    requires forall a <- answers :: Ordinary(registry, a) || !a.Executed()
    ensures RanAmong(Known(registry, calls), answers)
  {
    forall a | a in answers && a.Executed() ensures a.call in Known(registry, calls) {
      var i :| 0 <= i < |answers| && answers[i] == a;
      assert CallsOf(answers)[i] == calls[i];
    }
  }

  /** One more call is answered. */
  lemma {:induction false} MovesOn(
    window: int, budget: int, history: nat, answers: seq<Answered>, tokens: nat,
    start: Account, before: Account, after: Account, a: Answered)
    requires Underway(window, budget, history, answers, tokens, start, before)
    requires Did(before, after, [a]) && a.outcome != Skipped
    requires a.message == ToolMessageWithBudget(a.call.name, a.call.id, a.raw, window, history + tokens, budget)
    ensures Underway(window, budget, history, answers + [a], tokens + MessageTokens(a.message), start, after)
    ensures MessagesOf(answers + [a]) == MessagesOf(answers) + [a.message]
    ensures CallsOf(answers + [a]) == CallsOf(answers) + [a.call]
  {
    hide ToolMessageWithBudget;
    hide MessageTokens;
    hide MessagesTokens;
    hide Did;
    assert MessagesOf(answers + [a]) == MessagesOf(answers) + [a.message];
    MessagesTokensOfAppend(MessagesOf(answers), a.message);
    WellFittedAppend(window, budget, history, answers, a);
    DidThenDid(start, before, after, answers, [a]);
  }

  lemma {:induction false} WellFittedAppend(window: int, budget: int, history: nat, answers: seq<Answered>, a: Answered)
    requires WellFitted(window, budget, history, answers)
    requires a.outcome != Skipped
    requires a.message == ToolMessageWithBudget(
               a.call.name, a.call.id, a.raw, window, history + MessagesTokens(MessagesOf(answers)), budget)
    ensures WellFitted(window, budget, history, answers + [a])
  {
    hide ToolMessageWithBudget;
    hide MessagesTokens;
    var more := answers + [a];
    forall i | 0 <= i < |more|
      ensures more[i].message ==
              if more[i].outcome == Skipped then ToolMessage(more[i].call.name, more[i].call.id, more[i].raw)
              else ToolMessageWithBudget(
                     more[i].call.name, more[i].call.id, more[i].raw, window,
                     history + MessagesTokens(MessagesOf(more[..i])), budget)
    {
      if i < |answers| {
        assert more[..i] == answers[..i];
      } else {
        assert more[..i] == answers;
      }
    }
  }
}
