/** One batch of tool calls as a value: how each call was answered, which
    events that produced, and what it cost, agent/session.go. */
module ToolBatch {
  import opened Text
  import opened Messages
  import opened ToolBudget
  import opened Compactor
  import opened Pairing
  import opened Approvals
  import opened Options

  /** A registered tool: which arguments need approval, and its own scoping. */
  datatype Tool = Tool(requiresApproval: string -> bool, scope: Option<string -> string>)

  type Registry = map<string, Tool>

  datatype ApprovalToolCall = ApprovalToolCall(toolCallID: string, toolName: string, args: string, scope: string)

  function ApprovalScope(tool: Tool, toolName: string, args: string): string {
    match tool.scope
    case Some(scopeOf) => scopeOf(args)
    case None => TrimSpace(toolName)
  }

  predicate NeedsApproval(g: Grants, tool: Tool, toolName: string, args: string) {
    tool.requiresApproval(args) && !Covers(g, ApprovalScope(tool, toolName, args))
  }

  /** What has to be put to the user before a batch runs. */
  function ApprovalCalls(registry: Registry, g: Grants, calls: seq<ToolCall>): seq<ApprovalToolCall> {
    if calls == [] then []
    else
      var last := calls[|calls| - 1];
      ApprovalCalls(registry, g, calls[..|calls| - 1])
      + if last.name in registry && NeedsApproval(g, registry[last.name], last.name, last.args)
        then [ApprovalToolCall(last.id, last.name, last.args, ApprovalScope(registry[last.name], last.name, last.args))]
        else []
  }

  /** Once everything is allowed nothing is asked any more. */
  lemma {:induction false} NothingToAsk(registry: Registry, g: Grants, calls: seq<ToolCall>)
    requires g.all
    ensures ApprovalCalls(registry, g, calls) == []
  {
    hide ApprovalScope;
    if calls != [] {
      NothingToAsk(registry, g, calls[..|calls| - 1]);
    }
  }

  lemma {:induction false} UnknownToolsNeedNoApproval(registry: Registry, g: Grants, calls: seq<ToolCall>)
    requires forall call <- calls :: call.name !in registry
    ensures ApprovalCalls(registry, g, calls) == []
  {
    hide ApprovalScope;
    if calls != [] {
      assert calls[|calls| - 1] in calls;
      UnknownToolsNeedNoApproval(registry, g, calls[..|calls| - 1]);
    }
  }

  /** The question q is about this call of a known tool, which needs approval. */
  predicate AsksAbout(registry: Registry, g: Grants, call: ToolCall, q: ApprovalToolCall) {
    && call.name in registry
    && NeedsApproval(g, registry[call.name], call.name, call.args)
    && q == ApprovalToolCall(call.id, call.name, call.args, ApprovalScope(registry[call.name], call.name, call.args))
  }

  /** Exactly the calls of known tools that need approval are asked about. */
  lemma {:induction false} AskedAbout(registry: Registry, g: Grants, calls: seq<ToolCall>, q: ApprovalToolCall)
    ensures q in ApprovalCalls(registry, g, calls) <==> exists call <- calls :: AsksAbout(registry, g, call, q)
  {
    hide ApprovalScope;
    hide NeedsApproval;
    if calls != [] {
      var front, last := calls[..|calls| - 1], calls[|calls| - 1];
      AskedAbout(registry, g, front, q);
      assert calls == front + [last];
      assert q in ApprovalCalls(registry, g, calls)
             <==> q in ApprovalCalls(registry, g, front) || AsksAbout(registry, g, last, q);
      hide AsksAbout;
      assert last in calls && forall call <- front :: call in calls;
      if exists call <- front :: AsksAbout(registry, g, call, q) {
        var call :| call in front && AsksAbout(registry, g, call, q);
        assert call in calls;
      }
    }
  }

  datatype Outcome = Skipped | Denied | Disabled | Unknown | Failed | Done

  /** A call and its answer: the raw text, and the message made from it. */
  datatype Answered = Answered(call: ToolCall, outcome: Outcome, raw: Content, message: Message, dir: string) {
    /** The tool itself was called. */
    predicate Executed() {
      outcome == Failed || outcome == Done
    }
  }

  datatype Stop = NoStop | DeniedStop | CanceledStop

  datatype Overflow = Overflow(toolName: string, toolCallID: string, content: Content)

  datatype Batch = Batch(messages: seq<Message>, stop: Stop, overflows: seq<Overflow>)

  function SkippedMessage(): Content {
    var text := "Tool execution skipped because the run was canceled.";
    assert |text| == 52;
    text
  }

  function DisabledMessage(): Content {
    "Tool execution disabled."
  }

  function DeniedMessage(): Content {
    "Tool execution denied."
  }

  function UnknownToolText(name: Phrase): Content {
    "Error: unknown tool: " + name
  }

  function CallsOf(answers: seq<Answered>): (calls: seq<ToolCall>)
    ensures |calls| == |answers| && forall i | 0 <= i < |answers| :: calls[i] == answers[i].call
  {
    seq(|answers|, i requires 0 <= i < |answers| => answers[i].call)
  }

  function MessagesOf(answers: seq<Answered>): (ms: seq<Message>)
    ensures |ms| == |answers| && forall i | 0 <= i < |answers| :: ms[i] == answers[i].message
  {
    seq(|answers|, i requires 0 <= i < |answers| => answers[i].message)
  }

  lemma {:induction false} AnswersOfConcat(a: seq<Answered>, b: seq<Answered>)
    ensures CallsOf(a + b) == CallsOf(a) + CallsOf(b)
    ensures MessagesOf(a + b) == MessagesOf(a) + MessagesOf(b)
  {
  }

  // Events

  datatype ToolStatus = StatusDone | StatusFailed | StatusDenied | StatusDisabled | StatusSkipped

  datatype ToolEvent =
    | Started(toolCallID: string, toolName: string, dir: string)
    | Finished(toolCallID: string, toolName: string, status: ToolStatus, content: string)

  function StatusOf(outcome: Outcome): ToolStatus {
    match outcome
    case Skipped => StatusSkipped
    case Denied => StatusDenied
    case Disabled => StatusDisabled
    case Unknown => StatusFailed
    case Failed => StatusFailed
    case Done => StatusDone
  }

  function EventsOf(a: Answered): seq<ToolEvent> {
    (if a.Executed() then [Started(a.call.id, a.call.name, a.dir)] else [])
    + [Finished(a.call.id, a.call.name, StatusOf(a.outcome), a.message.content)]
  }

  function LogOf(answers: seq<Answered>): seq<ToolEvent> {
    if answers == [] then []
    else LogOf(answers[..|answers| - 1]) + EventsOf(answers[|answers| - 1])
  }

  /** A tool that ran: the call, where, and the text it gave. */
  datatype Execution = Execution(call: ToolCall, dir: string, output: string)

  function ExecutionsOf(answers: seq<Answered>): seq<Execution> {
    if answers == [] then []
    else
      var a := answers[|answers| - 1];
      ExecutionsOf(answers[..|answers| - 1]) + if a.Executed() then [Execution(a.call, a.dir, a.raw)] else []
  }

  lemma {:induction false} LogOfConcat(a: seq<Answered>, b: seq<Answered>)
    ensures LogOf(a + b) == LogOf(a) + LogOf(b)
    ensures ExecutionsOf(a + b) == ExecutionsOf(a) + ExecutionsOf(b)
  {
    hide EventsOf;
    if b == [] {
      assert a + b == a;
    } else {
      assert (a + b)[..|a + b| - 1] == a + b[..|b| - 1];
      LogOfConcat(a, b[..|b| - 1]);
    }
  }

  /** Every call is finished exactly once, in order. */
  lemma {:induction false} FinishedOnceInOrder(answers: seq<Answered>)
    ensures FinishedIDs(LogOf(answers)) == IDsOf(CallsOf(answers))
  {
    if answers != [] {
      var front := answers[..|answers| - 1];
      var a := answers[|answers| - 1];
      FinishedOnceInOrder(front);
      FinishedIDsOfConcat(LogOf(front), EventsOf(a));
      FinishedIDOfOne(a);
      assert CallsOf(answers)[..|answers| - 1] == CallsOf(front);
    }
  }

  lemma {:induction false} FinishedIDOfOne(a: Answered)
    ensures FinishedIDs(EventsOf(a)) == [a.call.id]
  {
    var started := Started(a.call.id, a.call.name, a.dir);
    var finished := Finished(a.call.id, a.call.name, StatusOf(a.outcome), a.message.content);
    assert FinishedIDs([started]) == FinishedIDs([]) + [] == [];
    assert FinishedIDs([finished]) == FinishedIDs([]) + [a.call.id] == [a.call.id];
    FinishedIDsOfConcat([started], [finished]);
    FinishedIDsOfConcat([], [finished]);
  }

  function IDsOf(calls: seq<ToolCall>): seq<string> {
    if calls == [] then [] else IDsOf(calls[..|calls| - 1]) + [calls[|calls| - 1].id]
  }

  /** The IDs in the finished events, in order. */
  function FinishedIDs(events: seq<ToolEvent>): seq<string> {
    if events == [] then []
    else
      var last := events[|events| - 1];
      FinishedIDs(events[..|events| - 1]) + if last.Finished? then [last.toolCallID] else []
  }

  lemma {:induction false} FinishedIDsOfConcat(a: seq<ToolEvent>, b: seq<ToolEvent>)
    ensures FinishedIDs(a + b) == FinishedIDs(a) + FinishedIDs(b)
  {
    if b == [] {
      assert a + b == a;
    } else {
      assert (a + b)[..|a + b| - 1] == a + b[..|b| - 1];
      FinishedIDsOfConcat(a, b[..|b| - 1]);
    }
  }

  /** No event log has a start without its own finish right behind it. */
  ghost predicate StartsAreFinished(log: seq<ToolEvent>) {
    forall i | 0 <= i < |log| && log[i].Started? ::
      && i + 1 < |log|
      && log[i + 1].Finished?
      && log[i + 1].toolCallID == log[i].toolCallID
      && log[i + 1].status in {StatusDone, StatusFailed}
  }

  /** A started event is followed at once by the finished event of its call:
      no other call starts in between. */
  lemma {:induction false} StartedThenFinished(answers: seq<Answered>)
    ensures StartsAreFinished(LogOf(answers))
  {
    if answers != [] {
      var front := LogOf(answers[..|answers| - 1]);
      var events := EventsOf(answers[|answers| - 1]);
      StartedThenFinished(answers[..|answers| - 1]);
      assert StartsAreFinished(events);
      assert LogOf(answers) == front + events;
      hide LogOf;
      hide EventsOf;
      assert StartsAreFinished(front + events);
    }
  }

  // Costs

  /** The message of every answer is the one the budget rules make of the raw
      text, at the running total of the history and the batch so far. Results
      of skipped calls are cut to the fixed limit only. */
  ghost predicate WellFitted(window: int, budget: int, history: nat, answers: seq<Answered>) {
    forall i | 0 <= i < |answers| ::
      var a := answers[i];
      a.message ==
      if a.outcome == Skipped then ToolMessage(a.call.name, a.call.id, a.raw)
      else ToolMessageWithBudget(
             a.call.name, a.call.id, a.raw, window, history + MessagesTokens(MessagesOf(answers[..i])), budget)
  }

  /** The calls that went through the loop and whose text was left out in full. */
  function OverflowsOf(answers: seq<Answered>): seq<Overflow> {
    if answers == [] then []
    else
      var a := answers[|answers| - 1];
      OverflowsOf(answers[..|answers| - 1])
      + if (a.Executed() || a.outcome == Unknown) && FullyOmitted(a.message.content)
        then [Overflow(a.call.name, a.call.id, a.raw)]
        else []
  }

  /** A batch that ran to its end either records an overflow, or the history
      with the batch in it is still below the threshold. */
  lemma {:induction false} BatchStaysBelowThreshold(window: int, threshold: int, history: nat, answers: seq<Answered>)
    requires threshold > 0 && answers != []
    requires WellFitted(window, threshold, history, answers)
    requires forall a <- answers :: a.Executed() || a.outcome == Unknown
    ensures OverflowsOf(answers) != [] || history + MessagesTokens(MessagesOf(answers)) < threshold
  {
    hide ToolMessageWithBudget;
    hide FullyOmitted;
    hide MessageTokens;
    hide MessagesTokens;
    var front := answers[..|answers| - 1];
    var a := answers[|answers| - 1];
    var base := history + MessagesTokens(MessagesOf(front));
    assert a in answers;
    assert a.message == ToolMessageWithBudget(a.call.name, a.call.id, a.raw, window, base, threshold);
    ResultFitsOrIsOmitted(a.call.name, a.call.id, a.raw, window, base, threshold);
    assert MessagesOf(answers) == MessagesOf(front) + [a.message];
    MessagesTokensOfAppend(MessagesOf(front), a.message);
  }

  // What a batch may look like

  predicate Ordinary(registry: Registry, a: Answered) {
    if a.call.name in registry then a.Executed()
    else a.outcome == Unknown && a.raw == UnknownToolText(a.call.name)
  }

  /** The calls before position k are played as usual, the others skipped. */
  ghost predicate CanceledAt(registry: Registry, answers: seq<Answered>, k: nat) {
    && k <= |answers|
    && (forall i | 0 <= i < k :: Ordinary(registry, answers[i]))
    && (forall i | k <= i < |answers| :: answers[i].outcome == Skipped && answers[i].raw == SkippedMessage())
  }

  /** Which calls are run, refused or skipped, by how the batch stopped: a
      denied batch runs nothing, a canceled one runs the calls up to some point
      and skips the others, and any other runs every call of a known tool. */
  ghost predicate Plays(registry: Registry, stop: Stop, answers: seq<Answered>) {
    match stop
    case NoStop => forall a <- answers :: Ordinary(registry, a)
    case DeniedStop => forall a <- answers :: a.outcome == Denied
    case CanceledStop => exists k :: CanceledAt(registry, answers, k)
  }

  /** Each message is the result of its own call, and none is a summary as long
      as no call is one of the summary tool. */
  lemma {:induction false} AnswersArePaired(
    calls: seq<ToolCall>, window: int, budget: int, history: nat, answers: seq<Answered>)
    requires CallsOf(answers) == calls
    requires WellFitted(window, budget, history, answers)
    requires forall call <- calls :: call.name != COMPACTION_TOOL_NAME
    ensures AnswersAll(calls, MessagesOf(answers), false)
    ensures forall i | 0 <= i < |calls| :: MessagesOf(answers)[i].toolName == calls[i].name
  {
    hide ToolMessageWithBudget;
    hide TruncateToolResult;
    hide MessagesTokens;
    forall i | 0 <= i < |calls|
      ensures Answers(calls[i], MessagesOf(answers)[i], false) && MessagesOf(answers)[i].toolName == calls[i].name
    {
      assert answers[i].call == calls[i];
      assert calls[i] in calls;
    }
  }

  lemma {:induction false} NothingRunsUnlessOrdinary(answers: seq<Answered>)
    requires forall a <- answers :: !a.Executed()
    ensures ExecutionsOf(answers) == []
    ensures OverflowsOf(answers) == [] || exists a <- answers :: a.outcome == Unknown
  {
    if answers != [] {
      var front := answers[..|answers| - 1];
      assert answers[|answers| - 1] in answers;
      assert forall a <- front :: a in answers;
      NothingRunsUnlessOrdinary(front);
    }
  }

  lemma {:induction false} WellFittedThenSkipped(
    window: int, budget: int, history: nat, answers: seq<Answered>, skipped: seq<Answered>)
    requires WellFitted(window, budget, history, answers)
    requires forall a <- skipped :: a.outcome == Skipped && a.message == ToolMessage(a.call.name, a.call.id, a.raw)
    ensures WellFitted(window, budget, history, answers + skipped)
  {
    hide ToolMessageWithBudget;
    hide ToolMessage;
    hide MessagesTokens;
    var all := answers + skipped;
    forall i | 0 <= i < |all|
      ensures all[i].message ==
              if all[i].outcome == Skipped then ToolMessage(all[i].call.name, all[i].call.id, all[i].raw)
              else ToolMessageWithBudget(
                     all[i].call.name, all[i].call.id, all[i].raw, window,
                     history + MessagesTokens(MessagesOf(all[..i])), budget)
    {
      if i < |answers| {
        assert all[..i] == answers[..i];
        assert all[i] == answers[i];
      } else {
        assert all[i] in skipped;
      }
    }
  }

  lemma {:induction false} WellFittedSkips(window: int, budget: int, history: nat, answers: seq<Answered>)
    requires forall a <- answers :: a.outcome == Skipped && a.message == ToolMessage(a.call.name, a.call.id, a.raw)
    ensures WellFitted(window, budget, history, answers)
  {
    hide ToolMessage;
    hide ToolMessageWithBudget;
    WellFittedThenSkipped(window, budget, history, [], answers);
    assert [] + answers == answers;
  }

  /** Whatever the tools gave, the messages of a batch are short. */
  lemma {:induction false} AnswersAreShort(window: int, budget: int, history: nat, answers: seq<Answered>)
    requires WellFitted(window, budget, history, answers)
    ensures forall m <- MessagesOf(answers) :: |m.content| <= MAX_TOOL_RESULT_RUNES + 223
  {
    hide ToolMessageWithBudget;
    hide ToolMessage;
    hide MessagesTokens;
    forall m | m in MessagesOf(answers) ensures |m.content| <= MAX_TOOL_RESULT_RUNES + 223 {
      var i :| 0 <= i < |answers| && answers[i].message == m;
      var a := answers[i];
      ResultIsShort(a.call.name, a.call.id, a.raw, window, history + MessagesTokens(MessagesOf(answers[..i])), budget);
    }
  }
}
