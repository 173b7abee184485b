/** How the account of a run moves on while a batch is answered or a history is
    compacted. */
module Accounts {
  import opened Messages
  import opened ToolBatch
  import opened Environment

  /** The clearances of n tools that are called now. */
  function Stamps(a: Account, n: nat): (stamps: seq<Clearance>)
    ensures |stamps| == n
  {
    seq(n, _ => Clearance(a.batchStart, |a.prompts|))
  }

  /** The batch went on from one account to another and answered these calls. */
  ghost predicate Did(before: Account, after: Account, answers: seq<Answered>) {
    && after == before.(
         tools := before.tools + LogOf(answers),
         executions := before.executions + ExecutionsOf(answers),
         clearances := before.clearances + Stamps(before, |ExecutionsOf(answers)|),
         sinkFailures := after.sinkFailures)
    && after.sinkFailures >= before.sinkFailures
  }

  /** No tools have been called since but for these calls. */
  ghost predicate RanOnly(may: set<ToolCall>, before: Account, after: Account) {
    && before.executions <= after.executions
    && after.clearances == before.clearances + Stamps(before, |after.executions| - |before.executions|)
    && forall i | |before.executions| <= i < |after.executions| :: after.executions[i].call in may
  }

  /** A sink refused an event in the middle of a batch; of the calls that could
      have been run some may have been. */
  ghost predicate Broke(may: set<ToolCall>, before: Account, after: Account) {
    && after == before.(
         tools := after.tools, executions := after.executions, clearances := after.clearances,
         sinkFailures := after.sinkFailures)
    && after.sinkFailures > before.sinkFailures
    && RanOnly(may, before, after)
  }

  /** Nothing happened that an account counts, except that sinks may have failed. */
  ghost predicate Quiet(before: Account, after: Account) {
    && after == before.(sinkFailures := after.sinkFailures)
    && after.sinkFailures >= before.sinkFailures
  }

  lemma {:induction false} DidThenDid(a: Account, b: Account, c: Account, first: seq<Answered>, second: seq<Answered>)
    requires Did(a, b, first) && Did(b, c, second)
    ensures Did(a, c, first + second)
  {
    LogOfConcat(first, second);
    assert a.tools + LogOf(first) + LogOf(second) == a.tools + LogOf(first + second);
    assert a.executions + ExecutionsOf(first) + ExecutionsOf(second) == a.executions + ExecutionsOf(first + second);
    assert c.clearances == a.clearances + Stamps(a, |ExecutionsOf(first + second)|);
  }

  /** The calls of the answers that were run are among those that may be. */
  ghost predicate RanAmong(may: set<ToolCall>, answers: seq<Answered>) {
    forall a <- answers :: a.Executed() ==> a.call in may
  }

  lemma {:induction false} ExecutedAmong(may: set<ToolCall>, answers: seq<Answered>)
    requires RanAmong(may, answers)
    ensures forall x <- ExecutionsOf(answers) :: x.call in may
    decreases |answers|
  {
    if answers != [] {
      assert forall a <- answers[..|answers| - 1] :: a in answers;
      assert answers[|answers| - 1] in answers;
      ExecutedAmong(may, answers[..|answers| - 1]);
    }
  }

  lemma {:induction false} DidMeansRanOnly(may: set<ToolCall>, a: Account, b: Account, answers: seq<Answered>)
    requires Did(a, b, answers) && RanAmong(may, answers)
    ensures RanOnly(may, a, b)
  {
    hide LogOf;
    ExecutedAmong(may, answers);
    hide ExecutionsOf;
    forall i | |a.executions| <= i < |b.executions| ensures b.executions[i].call in may {
      assert b.executions[i] == ExecutionsOf(answers)[i - |a.executions|];
    }
  }

  lemma {:induction false} DidThenBroke(
    may: set<ToolCall>, a: Account, b: Account, c: Account, first: seq<Answered>)
    requires Did(a, b, first) && RanAmong(may, first) && Broke(may, b, c)
    ensures Broke(may, a, c)
  {
    hide LogOf;
    DidMeansRanOnly(may, a, b, first);
    hide ExecutionsOf;
    assert c.clearances == a.clearances + Stamps(a, |c.executions| - |a.executions|);
    forall i | |a.executions| <= i < |c.executions| ensures c.executions[i].call in may {
      assert i < |b.executions| ==> c.executions[i] == b.executions[i];
    }
  }

  lemma {:induction false} RanMore(may: set<ToolCall>, more: set<ToolCall>, a: Account, b: Account)
    requires RanOnly(may, a, b) && may <= more
    ensures RanOnly(more, a, b)
  {
  }

  lemma {:induction false} RanSomething(may: set<ToolCall>, a: Account, b: Account)
    requires RanOnly(may, a, b) && b.executions != a.executions
    ensures may != {}
  {
    assert b.executions[|a.executions|].call in may;
  }

  lemma {:induction false} NothingRan(a: Account, b: Account)
    requires Broke({}, a, b)
    ensures b == a.(tools := b.tools, sinkFailures := b.sinkFailures) && b.sinkFailures > a.sinkFailures
  {
    if b.executions != a.executions {
      RanSomething({}, a, b);
    }
    assert b.clearances == a.clearances;
  }

  lemma {:induction false} DidNothing(a: Account)
    ensures Did(a, a, [])
  {
    assert a.tools + [] == a.tools && a.executions + [] == a.executions && a.clearances + [] == a.clearances;
  }

  lemma {:induction false} DidOne(a: Account, b: Account, x: Answered)
    requires b == a.(tools := a.tools + EventsOf(x),
                     executions := a.executions + (if x.Executed() then [Execution(x.call, x.dir, x.raw)] else []),
                     clearances := a.clearances + (if x.Executed() then [Clearance(a.batchStart, |a.prompts|)] else []),
                     sinkFailures := b.sinkFailures)
    requires b.sinkFailures >= a.sinkFailures
    ensures Did(a, b, [x])
  {
    assert [x][..0] == [];
    assert LogOf([x]) == LogOf([]) + EventsOf(x) == EventsOf(x);
    assert ExecutionsOf([x]) == ExecutionsOf([]) + (if x.Executed() then [Execution(x.call, x.dir, x.raw)] else []);
    assert b.clearances == a.clearances + Stamps(a, |ExecutionsOf([x])|);
  }

  /** A call that was not run is only finished. */
  lemma {:induction false} FinishedUnrun(before: Account, after: Account, a: Answered)
    requires !a.Executed()
    requires after == RecordEvent(before, ToolActivity(Finished(a.call.id, a.call.name, StatusOf(a.outcome), a.message.content)))
                      .(sinkFailures := after.sinkFailures)
    requires after.sinkFailures >= before.sinkFailures
    ensures Did(before, after, [a])
  {
    DidOne(before, after, a);
  }

  lemma {:induction false} RanAndFinished(before: Account, after: Account, a: Answered)
    requires a.Executed()
    requires after == before.(
               tools := before.tools + [Started(a.call.id, a.call.name, a.dir)]
                        + [Finished(a.call.id, a.call.name, StatusOf(a.outcome), a.message.content)],
               executions := before.executions + [Execution(a.call, a.dir, a.raw)],
               clearances := before.clearances + [Clearance(before.batchStart, |before.prompts|)],
               sinkFailures := after.sinkFailures)
    requires after.sinkFailures >= before.sinkFailures
    ensures Did(before, after, [a])
  {
    assert after.tools == before.tools + EventsOf(a);
    DidOne(before, after, a);
  }

  /** Only compaction events happened; a skip was told exactly when the mark
      that it was told has been set. */
  ghost predicate Compacting(before: Account, after: Account, skipNotified: bool, notified: bool) {
    && (skipNotified ==> notified)
    && after == before.(
         skips := before.skips + (if notified && !skipNotified then 1 else 0),
         sinkFailures := after.sinkFailures)
    && after.sinkFailures >= before.sinkFailures
  }

  /** One batch was begun, and no event of any other kind than tool events. */
  ghost predicate Attempted(before: Account, after: Account) {
    && after == before.(
         batches := before.batches + 1, batchStart := |before.prompts|,
         tools := after.tools, executions := after.executions, clearances := after.clearances,
         prompts := after.prompts, sinkFailures := after.sinkFailures, abandoned := after.abandoned)
    && after.sinkFailures >= before.sinkFailures
    && after.abandoned >= before.abandoned
  }

  /** The model has not been asked again. */
  predicate SameTalk(before: Account, after: Account) {
    after.requests == before.requests && after.replies == before.replies && after.sinkFailures >= before.sinkFailures
  }

  lemma {:induction false} DidIsQuiet(before: Account, after: Account, answers: seq<Answered>)
    requires Did(before, after, answers)
    ensures SameTalk(before, after)
  {
  }

  lemma {:induction false} CompactingIsQuiet(before: Account, after: Account, skipNotified: bool, notified: bool)
    requires Compacting(before, after, skipNotified, notified)
    ensures SameTalk(before, after)
  {
  }
}
