/**
 * The claims that validations have been granted.  A validation may present its claim
 * long after its job was consumed; the journal then looks at owner, revision and
 * lease, and not at the state.  While no validation writes back an older revision,
 * no such claim is accepted on an activated job.
 */
module RotationGrants {
  import opened Wrappers
  import opened RotationSaga
  import opened RotationWorld
  import opened RotationRuns
  import opened RotationSafety

  /** The write that ends a validation takes effect and brings back an older revision. */
  predicate Rewinds(v: World, e: Event) {
    e.Publish? && e.job in v.jobs && e.revision < v.jobs[e.job].revision && After(v, e) != v
  }

  /** No write of the run rewinds a revision. */
  ghost predicate Unrewound(states: seq<System>, actions: seq<Action>)
    requires |actions| <= |states|
  {
    forall i {:trigger actions[i]} :: 0 <= i < |actions| && actions[i].Outside? ==> !Rewinds(states[i].world, actions[i].event)
  }

  /** A grant is as old as its job's row at most, and older once the job is activated. */
  predicate GrantOk(v: World, g: Grant) {
    && g.job in v.jobs && g.revision <= v.jobs[g.job].revision
    && (v.jobs[g.job].phase == Activated ==> g.revision < v.jobs[g.job].revision)
  }

  ghost predicate GrantsOk(v: World) { forall g :: g in v.grants ==> GrantOk(v, g) }

  lemma EventGrants(v: World, e: Event)
    requires GrantsOk(v) && !Rewinds(v, e)
    ensures GrantsOk(After(v, e))
  {
    var u := After(v, e);
    forall g | g in u.grants ensures GrantOk(u, g) {
      assert g in v.grants ==> GrantOk(v, g);
    }
  }

  lemma PresentGrants(v: World, g: Grant, use: Use)
    requires GrantsOk(v)
    ensures GrantsOk(DoPresent(v, g, use))
  {
    var u := DoPresent(v, g, use);
    assert Accepts(v, g) ==> GrantOk(v, g);
    forall h | h in u.grants ensures GrantOk(u, h) {
      assert h in v.grants ==> GrantOk(v, h);
    }
  }

  /** A write by a worker raises the revision. */
  lemma ShapeGrants(s: System, u: System, w: nat)
    requires GrantsOk(s.world) && w in s.tasks && StepShape(s, u, w) && u.world.grants == s.world.grants
    ensures GrantsOk(u.world)
  {
    forall g | g in u.world.grants ensures GrantOk(u.world, g) {
      assert GrantOk(s.world, g);
    }
  }

  /** Workers are granted no validation. */
  lemma PerformGrantsNothing(s: System, w: nat, out: Outcome, lease: nat)
    requires w in s.tasks
    ensures DoPerform(s, w, out, lease).world.grants == s.world.grants
  {
    if Quiet(s.tasks[w].pc) {
      QuietGrantsNothing(s, w, out, lease);
    } else if Renewing(s.tasks[w].pc) {
      RenewingGrantsNothing(s, w, out, lease);
    } else {
      MarkGrantsNothing(s, w, out, lease);
    }
  }

  lemma QuietGrantsNothing(s: System, w: nat, out: Outcome, lease: nat)
    requires w in s.tasks && Quiet(s.tasks[w].pc)
    ensures DoPerform(s, w, out, lease).world.grants == s.world.grants
  {
  }

  lemma RenewingGrantsNothing(s: System, w: nat, out: Outcome, lease: nat)
    requires w in s.tasks && Renewing(s.tasks[w].pc)
    ensures DoPerform(s, w, out, lease).world.grants == s.world.grants
  {
  }

  lemma MarkGrantsNothing(s: System, w: nat, out: Outcome, lease: nat)
    requires w in s.tasks && !Quiet(s.tasks[w].pc) && !Renewing(s.tasks[w].pc)
    ensures DoPerform(s, w, out, lease).world.grants == s.world.grants
  {
  }

  lemma ClaimGrants(s: System, w: nat, j: nat, owner: nat, lease: nat)
    requires GrantsOk(s.world)
    ensures GrantsOk(DoClaim(s, w, j, owner, lease).world)
  {
    var u := DoClaim(s, w, j, owner, lease).world;
    forall g | g in u.grants ensures GrantOk(u, g) {
      assert GrantOk(s.world, g);
    }
  }

  lemma StepGrants(s: System, exclusive: bool, a: Action)
    requires GrantsOk(s.world) && (a.Outside? ==> !Rewinds(s.world, a.event))
    ensures GrantsOk(Apply(s, exclusive, a).world)
  {
    match a
    case Outside(e) => EventGrants(s.world, e);
    case Present(g, use) => PresentGrants(s.world, g, use);
    case Claim(w, j, owner, lease) => ClaimGrants(s, w, j, owner, lease);
    case Renew(w, lease) =>
      if w in s.tasks {
        RenewShape(s, w, lease, s.tasks[w].pc);
        ShapeGrants(s, DoRenew(s, w, lease, s.tasks[w].pc), w);
      }
    case Perform(w, out, lease) =>
      if w in s.tasks {
        PerformShape(s, w, out, lease);
        PerformGrantsNothing(s, w, out, lease);
        ShapeGrants(s, DoPerform(s, w, out, lease), w);
      }
    case Stop(w) =>
  }

  lemma {:induction false} RunGrants(exclusive: bool, states: seq<System>, actions: seq<Action>, k: nat)
    requires IsRun(exclusive, states, actions) && Unrewound(states, actions) && k < |states|
    ensures GrantsOk(states[k].world)
    decreases k
  {
    if k > 0 {
      RunGrants(exclusive, states, actions, k - 1);
      var a := actions[k - 1];
      StepGrants(states[k - 1], exclusive, a);
      assert states[k] == Apply(states[k - 1], exclusive, a);
    }
  }

  /**
   * While no revision is rewound, interrupted or not, no claim of a validation is
   * accepted on an activated job, and so none does harm.
   */
  lemma UnrewoundClaimsEnd(exclusive: bool, states: seq<System>, actions: seq<Action>, k: nat, g: Grant)
    requires IsRun(exclusive, states, actions) && Unrewound(states, actions) && k < |states|
    requires Accepts(states[k].world, g)
    ensures states[k].world.jobs[g.job].phase != Activated
  {
    RunGrants(exclusive, states, actions, k);
    assert GrantOk(states[k].world, g);
  }
}
