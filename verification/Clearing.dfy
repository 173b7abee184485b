/** Which tool calls may run: those that need no approval, those whose scope had
    been allowed, and those that the user allowed in the batch itself,
    agent/session.go and agent/approval.go. */
module Clearing {
  import opened Options
  import opened Messages
  import opened Approvals
  import opened ToolBatch
  import opened Environment
  import opened Accounts

  /** What the user answered at some moment; a prompt that failed grants nothing. */
  function ApprovalAt(world: World, at: nat): Approval {
    match world.approve(at)
    case Ok(a) => a
    case Err(_) => Approval(false, false, [], "")
  }

  function ApprovalsOf(world: World, prompts: seq<Prompt>): (approvals: seq<Approval>)
    ensures |approvals| == |prompts|
  {
    seq(|prompts|, i requires 0 <= i < |prompts| => ApprovalAt(world, prompts[i].at))
  }

  predicate RequiresApproval(registry: Registry, call: ToolCall) {
    call.name in registry && registry[call.name].requiresApproval(call.args)
  }

  function ScopeOf(registry: Registry, call: ToolCall): string
    requires call.name in registry
  {
    ApprovalScope(registry[call.name], call.name, call.args)
  }

  /** The call was put to the user, with others, and the user allowed it. */
  predicate AllowedBy(registry: Registry, world: World, p: Prompt, call: ToolCall)
    requires call.name in registry
  {
    && Granted(ApprovalAt(world, p.at))
    && ApprovalToolCall(call.id, call.name, call.args, ScopeOf(registry, call)) in p.calls
  }

  /** A known tool that needed no approval, or whose scope was covered when the
      batch began, or that was allowed in the batch. */
  ghost predicate IsCleared(
    registry: Registry, world: World, grants: Grants, prompts: seq<Prompt>, call: ToolCall, c: Clearance)
  {
    && c.before <= c.after <= |prompts|
    && call.name in registry
    && (|| !RequiresApproval(registry, call)
        || Covers(AppliedAll(grants, ApprovalsOf(world, prompts[..c.before])), ScopeOf(registry, call))
        || exists i | c.before <= i < c.after :: AllowedBy(registry, world, prompts[i], call))
  }

  /** The execution at position i was cleared. */
  ghost predicate ClearedAt(tools: Option<Registry>, world: World, grants: Grants, a: Account, i: nat)
    requires i < |a.executions| == |a.clearances|
  {
    tools.Some? && IsCleared(tools.value, world, grants, a.prompts, a.executions[i].call, a.clearances[i])
  }

  /** Everything that was run was cleared, and what is allowed now is what was
      allowed at the start and what the user allowed since. */
  ghost predicate Lawful(tools: Option<Registry>, world: World, grants: Grants, current: Grants, a: Account) {
    && current == AppliedAll(grants, ApprovalsOf(world, a.prompts))
    && |a.clearances| == |a.executions|
    && forall i: nat | i < |a.executions| :: ClearedAt(tools, world, grants, a, i)
  }

  /** The calls of known tools. */
  ghost function Known(registry: Registry, calls: seq<ToolCall>): set<ToolCall> {
    set call | call in calls && call.name in registry
  }

  /** What a batch does to the account as far as approval is concerned: at most one
      prompt, for exactly what has to be asked, and no tool is called unless there
      was nothing to ask or the prompt was answered with leave to run. */
  ghost predicate Cleared(
    registry: Registry, world: World, g: Grants, calls: seq<ToolCall>, before: Account, after: Account, current: Grants)
  {
    && before.prompts <= after.prompts
    && var asked, put := ApprovalCalls(registry, g, calls), after.prompts[|before.prompts|..];
    && (put == [] || (asked != [] && |put| == 1 && put[0].calls == asked))
    && current == AppliedAll(g, ApprovalsOf(world, put))
    && before.executions <= after.executions
    && after.clearances == before.clearances
         + seq(|after.executions| - |before.executions|, _ => Clearance(|before.prompts|, |after.prompts|))
    && (forall i | |before.executions| <= i < |after.executions| :: after.executions[i].call in Known(registry, calls))
    && (after.executions == before.executions || asked == [] ||
        (put != [] && Granted(ApprovalAt(world, put[0].at))))
  }

  lemma {:induction false} ClearedStays(
    registry: Registry, world: World, grants: Grants, prompts: seq<Prompt>, later: seq<Prompt>, call: ToolCall,
    c: Clearance)
    requires IsCleared(registry, world, grants, prompts, call, c) && prompts <= later
    ensures IsCleared(registry, world, grants, later, call, c)
  {
    hide AllowedBy;
    hide AppliedAll;
    assert later[..c.before] == prompts[..c.before];
  }

  lemma {:induction false} NewlyCleared(
    registry: Registry, world: World, grants: Grants, g: Grants, current: Grants, a: Account, b: Account,
    calls: seq<ToolCall>, call: ToolCall)
    requires g == AppliedAll(grants, ApprovalsOf(world, a.prompts))
    requires Cleared(registry, world, g, calls, a, b, current)
    requires b.executions != a.executions && call in Known(registry, calls)
    ensures IsCleared(registry, world, grants, b.prompts, call, Clearance(|a.prompts|, |b.prompts|))
  {
    hide AppliedAll;
    hide ApprovalScope;
    hide ApprovalCalls;
    assert b.prompts[..|a.prompts|] == a.prompts;
    if RequiresApproval(registry, call) && !Covers(g, ScopeOf(registry, call)) {
      var q := ApprovalToolCall(call.id, call.name, call.args, ScopeOf(registry, call));
      assert AsksAbout(registry, g, call, q);
      AskedAbout(registry, g, calls, q);
      assert AllowedBy(registry, world, b.prompts[|a.prompts|], call);
    }
  }

  lemma {:induction false} ClearedWithoutPrompt(
    registry: Registry, world: World, g: Grants, calls: seq<ToolCall>, a: Account, b: Account, c: Account)
    requires b.prompts == a.prompts && b.batchStart == |a.prompts|
    requires b.executions == a.executions && b.clearances == a.clearances
    requires RanOnly(Known(registry, calls), b, c) && c.prompts == b.prompts
    requires ApprovalCalls(registry, g, calls) == [] || c.executions == b.executions
    ensures Cleared(registry, world, g, calls, a, c, g)
  {
    hide ApprovalCalls;
    var n := |c.executions| - |a.executions|;
    assert Stamps(b, n) == seq(n, _ => Clearance(|a.prompts|, |c.prompts|));
    assert c.prompts[|a.prompts|..] == [];
    assert ApprovalsOf(world, []) == [];
  }

  lemma {:induction false} ClearedWithPrompt(
    registry: Registry, world: World, g: Grants, calls: seq<ToolCall>, a: Account, b: Account, c: Account, at: nat)
    requires ApprovalCalls(registry, g, calls) != []
    requires b.prompts == a.prompts + [Prompt(ApprovalCalls(registry, g, calls), at)] && b.batchStart == |a.prompts|
    requires b.executions == a.executions && b.clearances == a.clearances
    requires RanOnly(Known(registry, calls), b, c) && c.prompts == b.prompts
    requires Granted(ApprovalAt(world, at)) || c.executions == b.executions
    ensures Cleared(registry, world, g, calls, a, c, Applied(g, ApprovalAt(world, at)))
  {
    var asked := ApprovalCalls(registry, g, calls);
    hide ApprovalCalls;
    hide Applied;
    hide ApprovalAt;
    var n := |c.executions| - |a.executions|;
    assert Stamps(b, n) == seq(n, _ => Clearance(|a.prompts|, |c.prompts|));
    assert c.prompts[|a.prompts|..] == [Prompt(asked, at)];
    var approvals := ApprovalsOf(world, [Prompt(asked, at)]);
    assert approvals == [ApprovalAt(world, at)];
    assert approvals[..0] == [] && AppliedAll(g, []) == g;
  }

  /** A batch keeps the account lawful. */
  lemma {:induction false} BatchIsLawful(
    registry: Registry, world: World, grants: Grants, g: Grants, current: Grants, a: Account, b: Account,
    calls: seq<ToolCall>)
    requires Lawful(Some(registry), world, grants, g, a)
    requires Cleared(registry, world, g, calls, a, b, current)
    ensures Lawful(Some(registry), world, grants, current, b)
  {
    hide IsCleared;
    hide AppliedAll;
    hide ApprovalCalls;
    var put := b.prompts[|a.prompts|..];
    assert b.prompts == a.prompts + put;
    assert ApprovalsOf(world, b.prompts) == ApprovalsOf(world, a.prompts) + ApprovalsOf(world, put);
    AppliedAllOfConcat(grants, ApprovalsOf(world, a.prompts), ApprovalsOf(world, put));
    forall i: nat | i < |b.executions| ensures ClearedAt(Some(registry), world, grants, b, i) {
      if i < |a.executions| {
        assert ClearedAt(Some(registry), world, grants, a, i);
        assert b.executions[i] == a.executions[i] && b.clearances[i] == a.clearances[i];
        ClearedStays(registry, world, grants, a.prompts, b.prompts, b.executions[i].call, b.clearances[i]);
      } else {
        NewlyCleared(registry, world, grants, g, current, a, b, calls, b.executions[i].call);
      }
    }
  }

  /** What is allowed only grows. */
  lemma {:induction false} LawfulGrows(
    tools: Option<Registry>, world: World, grants: Grants, current: Grants, a: Account)
    requires Lawful(tools, world, grants, current, a)
    ensures Includes(current, grants)
  {
    hide IsCleared;
    GrantsOnlyGrow(grants, ApprovalsOf(world, a.prompts));
  }
}
