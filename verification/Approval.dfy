/** What the user has allowed so far in a session, agent/approval.go. */
module Approvals {
  import opened Text

  /** An approval as a value: everything, or a set of scopes. */
  datatype Grants = Grants(all: bool, scopes: set<string>)

  predicate Covers(g: Grants, scope: string) {
    g.all || scope in g.scopes
  }

  predicate Includes(larger: Grants, smaller: Grants) {
    (smaller.all ==> larger.all) && smaller.scopes <= larger.scopes
  }

  datatype Approval = Approval(allow: bool, allowAll: bool, allowScopes: seq<string>, reason: Content)

  /** The scopes that granting a list adds: trimmed, and not the empty one. */
  function GrantedScopes(scopes: seq<string>): set<string> {
    set scope | scope in scopes && TrimSpace(scope) != "" :: TrimSpace(scope)
  }

  lemma {:induction false} GrantedScopesOfAppend(scopes: seq<string>, scope: string)
    ensures GrantedScopes(scopes + [scope])
            == GrantedScopes(scopes) + (if TrimSpace(scope) != "" then {TrimSpace(scope)} else {})
  {
    hide TrimSpace;
    assert scope in scopes + [scope];
    forall s | s in GrantedScopes(scopes) ensures s in GrantedScopes(scopes + [scope]) {
      var t :| t in scopes && TrimSpace(t) != "" && TrimSpace(t) == s;
      assert t in scopes + [scope];
    }
  }

  lemma {:induction false} NothingGranted()
    ensures GrantedScopes([]) == {}
  {
  }

  /** The scopes that a table of flags allows. */
  function AllowedIn(table: map<string, bool>): set<string> {
    set scope | scope in table && table[scope]
  }

  lemma {:induction false} AllowedInOfUpdate(table: map<string, bool>, scope: string)
    ensures AllowedIn(table[scope := true]) == AllowedIn(table) + {scope}
  {
  }

  function Applied(g: Grants, a: Approval): Grants {
    Grants(g.all || a.allowAll, g.scopes + GrantedScopes(a.allowScopes))
  }

  class ApprovalState {
    var allowAll: bool
    var scopes: map<string, bool>

    ghost function Current(): Grants
      reads this
    {
      Grants(allowAll, AllowedIn(scopes))
    }

    constructor ()
      ensures Current() == Grants(false, {})
    {
      allowAll, scopes := false, map[];
    }

    method Set(allowAll: bool, scopes: map<string, bool>)
      modifies this
      ensures Current() == Grants(allowAll, AllowedIn(scopes))
    {
      this.allowAll := allowAll;
      this.scopes := map scope | scope in scopes && scopes[scope] :: true;
    }

    method GrantAll()
      modifies this
      ensures Current() == old(Current()).(all := true)
    {
      allowAll := true;
    }

    method AllGranted() returns (all: bool)
      ensures all <==> Current().all
    {
      all := allowAll;
    }

    predicate Allows(scope: string)
      reads this
      ensures Allows(scope) <==> Covers(Current(), scope)
    {
      allowAll || (scope in scopes && scopes[scope])
    }

    method GrantScopes(list: seq<string>)
      modifies this
      ensures Current() == Grants(old(Current()).all, old(Current()).scopes + GrantedScopes(list))
    {
      hide TrimSpace;
      hide GrantedScopes;
      hide AllowedIn;
      assert GrantedScopes(list[..0]) == {} by { NothingGranted(); }
      for i := 0 to |list|
        invariant allowAll == old(allowAll)
        invariant AllowedIn(scopes) == old(AllowedIn(scopes)) + GrantedScopes(list[..i])
      {
        assert list[..i + 1] == list[..i] + [list[i]];
        GrantedScopesOfAppend(list[..i], list[i]);
        var scope := TrimSpace(list[i]);
        if scope != "" {
          AllowedInOfUpdate(scopes, scope);
          scopes := scopes[scope := true];
        }
      }
      assert list[..|list|] == list;
    }

    /** Merges an approval. The answer says whether it grants anything, by its
        form: a list of scopes grants even when every scope in it is blank. */
    method Apply(result: Approval) returns (granted: bool)
      modifies this
      ensures Current() == Applied(old(Current()), result)
      ensures granted <==> result.allowAll || result.allowScopes != []
    {
      granted := false;
      if result.allowAll {
        allowAll := true;
        granted := true;
      }
      if |result.allowScopes| > 0 {
        granted := true;
        GrantScopes(result.allowScopes);
      }
    }
  }

  /** What is allowed stays allowed. */
  lemma {:induction false} AppliedOnlyAdds(g: Grants, a: Approval)
    ensures Includes(Applied(g, a), g)
  {
  }

  /** Allowing the very scope that was asked for has an effect on the next
      request for it exactly when the scope is not blank and has no white space
      around it: granting trims the scope, asking does not. */
  lemma {:induction false} AllowedScopeIsRemembered(g: Grants, a: Approval, scope: string)
    requires !Covers(g, scope) && !a.allowAll && a.allowScopes == [scope]
    ensures Covers(Applied(g, a), scope) <==> TrimSpace(scope) == scope && scope != ""
  {
    hide TrimSpace;
    assert [scope][0] == scope;
    assert scope in [scope];
  }

  /** What is allowed after a list of approvals. */
  function AppliedAll(g: Grants, approvals: seq<Approval>): Grants
    decreases |approvals|
  {
    if approvals == [] then g
    else Applied(AppliedAll(g, approvals[..|approvals| - 1]), approvals[|approvals| - 1])
  }

  lemma {:induction false} AppliedAllOfConcat(g: Grants, first: seq<Approval>, second: seq<Approval>)
    ensures AppliedAll(g, first + second) == AppliedAll(AppliedAll(g, first), second)
    decreases |second|
  {
    hide Applied;
    if second == [] {
      assert first + second == first;
    } else {
      assert (first + second)[..|first + second| - 1] == first + second[..|second| - 1];
      AppliedAllOfConcat(g, first, second[..|second| - 1]);
    }
  }

  /** Over any list of approvals, what is allowed only grows. */
  lemma {:induction false} GrantsOnlyGrow(g: Grants, approvals: seq<Approval>)
    ensures Includes(AppliedAll(g, approvals), g)
    decreases |approvals|
  {
    hide Applied;
    if approvals != [] {
      GrantsOnlyGrow(g, approvals[..|approvals| - 1]);
      AppliedOnlyAdds(AppliedAll(g, approvals[..|approvals| - 1]), approvals[|approvals| - 1]);
    }
  }

  ghost predicate GrantsScope(a: Approval, scope: string) {
    a.allowAll || exists s <- a.allowScopes :: TrimSpace(s) == scope && scope != ""
  }

  /** After any list of approvals a scope is covered exactly when it was before,
      or one of them allowed everything or listed a text that trims to it. */
  lemma {:induction false} CoveredByHistory(g: Grants, approvals: seq<Approval>, scope: string)
    ensures Covers(AppliedAll(g, approvals), scope)
            <==> Covers(g, scope) || exists a <- approvals :: GrantsScope(a, scope)
    decreases |approvals|
  {
    if approvals != [] {
      var front, a := approvals[..|approvals| - 1], approvals[|approvals| - 1];
      var before := AppliedAll(g, front);
      assert Covers(Applied(before, a), scope) <==> Covers(before, scope) || GrantsScope(a, scope);
      CoveredByHistory(g, front, scope);
      assert approvals == front + [a];
    }
  }
}
