/** The policy engine: grants for and against a capability, and which capabilities need approval. */
module Policy {
  import opened Wrappers

  datatype Effect = Allow | Deny

  datatype Grant = Grant(id: string, principal: string, capability: string, scope: string, effect: Effect)

  datatype Requirement = Auto | Approval

  datatype Reason = DeniedBy(id: string, scope: string) | NoGrant | NeedsApproval | ByPolicy

  datatype Decision = Decision(allowed: bool, approvalRequired: bool, reason: Reason)

  predicate EndsWith(s: string, suffix: string) {
    |suffix| <= |s| && s[|s| - |suffix|..] == suffix
  }

  /** Everything, everything with a prefix, or one scope exactly. */
  predicate ScopeMatches(pattern: string, scope: string) {
    if pattern == "*" then true
    else if EndsWith(pattern, "**") then pattern[..|pattern| - 2] <= scope
    else if EndsWith(pattern, "*") then pattern[..|pattern| - 1] <= scope
    else pattern == scope
  }

  predicate Relevant(g: Grant, principal: string, capability: string, scope: string) {
    g.principal == principal && g.capability == capability && ScopeMatches(g.scope, scope)
  }

  function Filter(grants: seq<Grant>, principal: string, capability: string, scope: string): seq<Grant> {
    if grants == [] then []
    else
      (if Relevant(grants[0], principal, capability, scope) then [grants[0]] else [])
      + Filter(grants[1..], principal, capability, scope)
  }

  /** The first grant with an effect. */
  function Find(grants: seq<Grant>, effect: Effect): Option<Grant> {
    if grants == [] then None else if grants[0].effect == effect then Some(grants[0]) else Find(grants[1..], effect)
  }

  function Evaluate(
      grants: seq<Grant>, approvals: map<string, Requirement>, principal: string, capability: string,
        scope: string): Decision {
    var relevant := Filter(grants, principal, capability, scope);
    var deny, allow := Find(relevant, Deny), Find(relevant, Allow);
    if deny.Some? then Decision(false, false, DeniedBy(deny.value.id, deny.value.scope))
    else if allow.None? then Decision(false, false, NoGrant)
    else if (if capability in approvals then approvals[capability] else Approval) == Approval then
      Decision(true, true, NeedsApproval)
    else Decision(true, false, ByPolicy)
  }

  lemma {:induction false} FilterMembers(grants: seq<Grant>, principal: string, capability: string, scope: string,
      g: Grant)
    ensures g in Filter(grants, principal, capability, scope) <==>
              g in grants && Relevant(g, principal, capability, scope)
  {
    if grants != [] {
      FilterMembers(grants[1..], principal, capability, scope, g);
      assert grants == [grants[0]] + grants[1..];
    }
  }

  lemma {:induction false} FindFinds(grants: seq<Grant>, effect: Effect)
    ensures Find(grants, effect).Some? <==> exists g :: g in grants && g.effect == effect
    ensures Find(grants, effect).Some? ==>
              Find(grants, effect).value in grants && Find(grants, effect).value.effect == effect
  {
    if grants != [] {
      FindFinds(grants[1..], effect);
      assert grants == [grants[0]] + grants[1..];
    }
  }

  ghost predicate Has(grants: seq<Grant>, effect: Effect, principal: string, capability: string, scope: string) {
    exists g :: g in grants && g.effect == effect && Relevant(g, principal, capability, scope)
  }

  /**
   A capability is allowed exactly when some relevant grant allows it and none denies it, whatever their order; approval
   is required of what is allowed unless the approval policy says otherwise.
   */
  lemma {:induction false} DenyTakesPrecedence(
      grants: seq<Grant>, approvals: map<string, Requirement>, principal: string, capability: string, scope: string)
    ensures var d := Evaluate(grants, approvals, principal, capability, scope);
            && (d.allowed <==>
                  Has(grants, Allow, principal, capability, scope) && !Has(grants, Deny, principal, capability, scope))
            && (d.approvalRequired <==> d.allowed && !(capability in approvals && approvals[capability].Auto?))
  {
    var relevant := Filter(grants, principal, capability, scope);
    FindIsHas(grants, Deny, principal, capability, scope);
    FindIsHas(grants, Allow, principal, capability, scope);
  }

  lemma {:induction false} FindIsHas(grants: seq<Grant>, effect: Effect, principal: string, capability: string,
      scope: string)
    ensures Find(Filter(grants, principal, capability, scope), effect).Some? <==>
              Has(grants, effect, principal, capability, scope)
  {
    hide Relevant;
    var relevant := Filter(grants, principal, capability, scope);
    FindFinds(relevant, effect);
    forall g
      ensures g in relevant <==> g in grants && Relevant(g, principal, capability, scope)
    {
      FilterMembers(grants, principal, capability, scope, g);
    }
  }

  /** The grants but those with an identifier, in their order. */
  function Without(grants: seq<Grant>, id: string): seq<Grant> {
    if grants == [] then []
    else
      var last := grants[|grants| - 1];
      Without(grants[..|grants| - 1], id) + (if last.id == id then [] else [last])
  }

  predicate Knows(grants: seq<Grant>, id: string) {
    exists g :: g in grants && g.id == id
  }

  lemma {:induction false} WithoutUnknown(grants: seq<Grant>, id: string)
    requires !Knows(grants, id)
    ensures Without(grants, id) == grants
  {
    if grants != [] {
      var front, last := grants[..|grants| - 1], grants[|grants| - 1];
      assert grants == front + [last];
      assert forall g | g in front :: g in grants;
      WithoutUnknown(front, id);
    }
  }

  /**
   A grant taken back leaves no trace: after an accepted grant and its removal the list is as before, so every decision
   is too.
   */
  lemma {:induction false} RemoveUndoesAdd(grants: seq<Grant>, g: Grant, approvals: map<string, Requirement>,
      principal: string, capability: string, scope: string)
    requires !Knows(grants, g.id)
    ensures Without(grants + [g], g.id) == grants
    ensures Evaluate(Without(grants + [g], g.id), approvals, principal, capability, scope) ==
            Evaluate(grants, approvals, principal, capability, scope)
  {
    hide Evaluate;
    WithoutUnknown(grants, g.id);
    assert (grants + [g])[..|grants|] == grants;
  }

  class PolicyEngine {
    var grants: seq<Grant>
    const approvals: map<string, Requirement>

    constructor (grants: seq<Grant>, approvals: map<string, Requirement>)
      ensures this.grants == grants && this.approvals == approvals
    {
      this.grants := grants;
      this.approvals := approvals;
    }

    /** Refused when a grant with that identifier exists. */
    method AddGrant(g: Grant) returns (added: bool)
      modifies this`grants
      ensures added <==> !Knows(old(grants), g.id)
      ensures grants == if added then old(grants) + [g] else old(grants)
    {
      if exists h :: h in grants && h.id == g.id { return false; }
      grants := grants + [g];
      return true;
    }

    method RemoveGrant(id: string)
      modifies this`grants
      ensures grants == Without(old(grants), id)
    {
      var kept: seq<Grant> := [];
      var i := 0;
      while i < |grants|
        invariant 0 <= i <= |grants| && grants == old(grants)
        invariant kept == Without(grants[..i], id)
      {
        assert grants[..i + 1][..i] == grants[..i];
        if grants[i].id != id { kept := kept + [grants[i]]; }
        i := i + 1;
      }
      assert grants[..i] == grants;
      grants := kept;
    }
  }
}
