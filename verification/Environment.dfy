/** Everything an agent run asks of the outside: the model, the tools, the user,
    the summariser, the event sinks and the cancellation of its context. The
    world answers arbitrarily, by the moment it is asked; an Env puts the
    questions and keeps a trace of what happened. */
module Environment {
  import opened Options
  import opened Text
  import opened Messages
  import opened Approvals
  import opened ToolBatch

  /** status is 0 unless the error is a status error of the API. */
  datatype Error = Error(message: Phrase, status: int, canceled: bool, unsupportedThink: bool)

  /** What the context reports. */
  datatype Context = Live | Canceled | DeadlineExceeded

  datatype ChatResponse = ChatResponse(message: Message, promptEvalCount: nat)

  /** A streamed reply, and the error it ends with, if any. */
  datatype ChatOutcome = ChatOutcome(responses: seq<ChatResponse>, err: Option<Error>)

  datatype ToolResult = ToolResult(content: Content, workingDir: string)

  /** A streamed summary: how many progress reports it made, and its text. */
  datatype SummaryOutcome = SummaryOutcome(progress: nat, text: Result<string, Error>)

  datatype World = World(
    chat: nat -> ChatOutcome,
    context: nat -> Context,
    sinks: nat -> Option<Error>,
    execute: nat -> Result<ToolResult, Error>,
    approve: nat -> Result<Approval, Error>,
    summarize: nat -> SummaryOutcome,
    currentDir: string,
    canonical: string -> Option<string>)

  datatype RunStatus = RunDone | RunDenied | RunCanceled

  datatype Event =
    | ThinkingDelta(text: string)
    | MessageDelta(text: string)
    | ToolCallDetected(calls: seq<ToolCall>)
    | ToolActivity(activity: ToolEvent)
    | CompactionStarted
    | CompactionProgress
    | CompactionSkipped(reason: string)
    | Compacted(messages: seq<Message>, summary: string)
    | RunFinished(status: RunStatus)
    | ErrorEvent(message: string)

  /** What a run asked and what it did, in order. Questions to the model and to
      the user are recorded with the moment at which they were asked: the world
      says what the answer was. */
  datatype Happening =
    | Emitted(event: Event, failed: bool)
    | Asked(messages: seq<Message>, at: nat)
    | ReplyChecked(context: Context)
    | BatchBegun
    | Executed(execution: Execution)
    | Prompted(calls: seq<ApprovalToolCall>, at: nat)
    | PromptFailed
    | PromptChecked(context: Context)

  /** A reply of the model: when it was asked for, and what the context reported
      after it, if that mattered. */
  datatype Reply = Reply(at: nat, check: Option<Context>)

  /** A question to the user that was answered. */
  datatype Prompt = Prompt(calls: seq<ApprovalToolCall>, at: nat)

  /** How many prompts had been answered when the batch of an execution began, and
      how many when the tool was called. */
  datatype Clearance = Clearance(before: nat, after: nat)

  /** What a run has done so far, as far as its promises speak of it. */
  datatype Account = Account(
    tools: seq<ToolEvent>,
    executions: seq<Execution>,
    clearances: seq<Clearance>,
    requests: seq<seq<Message>>,
    replies: seq<Reply>,
    prompts: seq<Prompt>,
    batches: nat,
    batchStart: nat,
    skips: nat,
    terminals: nat,
    afterTerminal: nat,
    sinkFailures: nat,
    abandoned: nat)

  const NOTHING_YET := Account([], [], [], [], [], [], 0, 0, 0, 0, 0, 0, 0)

  predicate Terminal(e: Event) {
    e.RunFinished? || e.ErrorEvent?
  }

  function RecordEvent(a: Account, e: Event): Account {
    match e
    case ToolActivity(t) => a.(tools := a.tools + [t])
    case CompactionSkipped(_) => a.(skips := a.skips + 1)
    case RunFinished(_) => a.(terminals := a.terminals + 1)
    case ErrorEvent(_) => a.(terminals := a.terminals + 1)
    case _ => a
  }

  function Record(a: Account, h: Happening): Account {
    var b := if a.terminals > 0 then a.(afterTerminal := a.afterTerminal + 1) else a;
    match h
    case Emitted(e, failed) =>
      var c := RecordEvent(b, e);
      if failed then c.(sinkFailures := c.sinkFailures + 1) else c
    case Asked(ms, at) => b.(requests := b.requests + [ms], replies := b.replies + [Reply(at, None)])
    case ReplyChecked(c) =>
      if b.replies == [] then b
      else
        var last := |b.replies| - 1;
        b.(replies := b.replies[..last] + [b.replies[last].(check := Some(c))])
    case BatchBegun => b.(batches := b.batches + 1, batchStart := |b.prompts|)
    case Executed(x) =>
      b.(executions := b.executions + [x], clearances := b.clearances + [Clearance(b.batchStart, |b.prompts|)])
    case Prompted(calls, at) => b.(prompts := b.prompts + [Prompt(calls, at)])
    case PromptFailed => b
    case PromptChecked(c) => if c == Live then b.(abandoned := b.abandoned + 1) else b
  }

  function Tell(trace: seq<Happening>): Account {
    if trace == [] then NOTHING_YET
    else Record(Tell(trace[..|trace| - 1]), trace[|trace| - 1])
  }

  lemma {:induction false} TellOfAppend(trace: seq<Happening>, h: Happening)
    ensures Tell(trace + [h]) == Record(Tell(trace), h)
  {
    assert (trace + [h])[..|trace|] == trace;
  }

  /** A run that ended: its one terminal event is the last thing that happened. */
  predicate Closed(a: Account) {
    a.terminals == 1 && a.afterTerminal == 0
  }

  lemma {:induction false} ClosedMeansLast(trace: seq<Happening>)
    requires Closed(Tell(trace))
    ensures trace != []
    ensures var last := trace[|trace| - 1]; last.Emitted? && Terminal(last.event)
    ensures forall h <- trace[..|trace| - 1] :: h.Emitted? ==> !Terminal(h.event)
  {
    var front, last := trace[..|trace| - 1], trace[|trace| - 1];
    LastIsTerminal(Tell(front), last);
    NoTerminals(front);
  }

  lemma {:induction false} LastIsTerminal(a: Account, h: Happening)
    requires Closed(Record(a, h))
    ensures a.terminals == 0 && h.Emitted? && Terminal(h.event)
  {
  }

  lemma {:induction false} RecordKeepsTerminals(a: Account, h: Happening)
    requires Record(a, h).terminals == 0
    ensures a.terminals == 0 && (h.Emitted? ==> !Terminal(h.event))
  {
  }

  lemma {:induction false} NoTerminals(trace: seq<Happening>)
    requires Tell(trace).terminals == 0
    ensures forall h <- trace :: h.Emitted? ==> !Terminal(h.event)
  {
    if trace != [] {
      RecordKeepsTerminals(Tell(trace[..|trace| - 1]), trace[|trace| - 1]);
      hide Record;
      NoTerminals(trace[..|trace| - 1]);
      assert trace == trace[..|trace| - 1] + [trace[|trace| - 1]];
    }
  }

  /** No sink ever fails. */
  ghost predicate SinksHold(world: World) {
    forall t: nat :: world.sinks(t) == None
  }

  /** The context is never canceled and never times out. */
  ghost predicate ContextHolds(world: World) {
    forall t: nat :: world.context(t) == Live
  }

  class Env {
    const world: World
    var now: nat
    ghost var trace: seq<Happening>

    constructor (world: World)
      ensures this.world == world && trace == [] && now == 0
    {
      this.world := world;
      now := 0;
      trace := [];
    }

    ghost function Seen(): Account
      reads this`trace
    {
      Tell(trace)
    }

    /** A new run starts with a clean account. */
    ghost method Forget()
      modifies this`trace
      ensures trace == [] && Seen() == NOTHING_YET
    {
      trace := [];
    }

    ghost method Happened(h: Happening)
      modifies this`trace
      ensures trace == old(trace) + [h] && Seen() == Record(old(Seen()), h)
    {
      TellOfAppend(trace, h);
      trace := trace + [h];
    }

    method ContextError() returns (c: Context)
      modifies this`now
      ensures c == world.context(old(now)) && now == old(now) + 1
    {
      c := world.context(now);
      now := now + 1;
    }

    /** Every sink gets the event; the errors of all of them are joined. */
    method Emit(e: Event) returns (err: Option<Error>)
      modifies this
      ensures err == world.sinks(old(now)) && now == old(now) + 1
      ensures trace == old(trace) + [Emitted(e, err.Some?)]
      ensures Seen() == Record(old(Seen()), Emitted(e, err.Some?))
    {
      err := world.sinks(now);
      now := now + 1;
      Happened(Emitted(e, err.Some?));
    }

    method Chat(messages: seq<Message>) returns (outcome: ChatOutcome)
      modifies this
      ensures outcome == world.chat(old(now)) && now == old(now) + 1
      ensures trace == old(trace) + [Asked(messages, old(now))]
      ensures Seen() == Record(old(Seen()), Asked(messages, old(now)))
    {
      outcome := world.chat(now);
      Happened(Asked(messages, now));
      now := now + 1;
    }

    /** Looks at the context because a reply ended in an error. */
    method ContextAfterReply() returns (c: Context)
      modifies this
      ensures c == world.context(old(now)) && now == old(now) + 1
      ensures trace == old(trace) + [ReplyChecked(c)]
      ensures Seen() == Record(old(Seen()), ReplyChecked(c))
    {
      c := world.context(now);
      now := now + 1;
      Happened(ReplyChecked(c));
    }

    /** Looks at the context because the approval prompt failed. */
    method ContextAfterPrompt() returns (c: Context)
      modifies this
      ensures c == world.context(old(now)) && now == old(now) + 1
      ensures Seen() == Record(old(Seen()), PromptChecked(c))
    {
      c := world.context(now);
      now := now + 1;
      Happened(PromptChecked(c));
    }

    method Execute(call: ToolCall, dir: string) returns (r: Result<ToolResult, Error>, ghost output: Content)
      modifies this
      ensures r == world.execute(old(now)) && now == old(now) + 1
      ensures output == if r.Ok? then r.value.content else "Error: " + r.error.message
      ensures Seen() == Record(old(Seen()), Executed(Execution(call, dir, output)))
    {
      r := world.execute(now);
      now := now + 1;
      output := if r.Ok? then r.value.content else "Error: " + r.error.message;
      Happened(Executed(Execution(call, dir, output)));
    }

    method PromptApproval(calls: seq<ApprovalToolCall>) returns (r: Result<Approval, Error>)
      modifies this
      ensures r == world.approve(old(now)) && now == old(now) + 1
      ensures Seen() == Record(old(Seen()), if r.Ok? then Prompted(calls, old(now)) else PromptFailed)
    {
      r := world.approve(now);
      Happened(if r.Ok? then Prompted(calls, now) else PromptFailed);
      now := now + 1;
    }

    /** The summariser's model call, which is not one of the run's own. */
    method Summarize() returns (outcome: SummaryOutcome)
      modifies this`now
      ensures outcome == world.summarize(old(now)) && now == old(now) + 1
    {
      outcome := world.summarize(now);
      now := now + 1;
    }
  }

  /** The batch may run: allowed outright, or by granting everything or scopes. */
  predicate Granted(a: Approval) {
    a.allow || a.allowAll || a.allowScopes != []
  }
}
