/** Credential rotation over whole runs. */
module RotationTheorems {
  import opened Wrappers
  import opened RotationSaga
  import opened RotationWorld
  import opened RotationRuns
  import opened RotationSafety
  import opened RotationLoop
  import opened RotationGrants

  // ---------------------------------------------------------------------------
  // Fencing, in every run.

  lemma NextIs(exclusive: bool, states: seq<System>, actions: seq<Action>, k: nat)
    requires IsRun(exclusive, states, actions) && k < |actions|
    ensures states[k + 1] == Apply(states[k], exclusive, actions[k])
  {
    var a := actions[k];
  }

  lemma {:induction false} RunFences(exclusive: bool, states: seq<System>, actions: seq<Action>, k: nat)
    requires IsRun(exclusive, states, actions) && k < |states|
    ensures FenceOk(states[k].world, states[k].tasks)
    decreases k
  {
    if k > 0 {
      RunFences(exclusive, states, actions, k - 1);
      NextIs(exclusive, states, actions, k - 1);
      StepFences(states[k - 1], exclusive, actions[k - 1]);
    }
  }

  /**
   * In every state of every run, interrupted or not and whatever validations do to
   * the revision before the job is saved, at most one worker holds a job, and its
   * copy is the job's row.
   */
  lemma Fencing(exclusive: bool, states: seq<System>, actions: seq<Action>, k: nat)
    requires IsRun(exclusive, states, actions) && k < |states|
    ensures forall w, x :: w in states[k].tasks && x in states[k].tasks && w != x ==>
              !Rivals(states[k].world, states[k].tasks[w], states[k].tasks[x])
    ensures forall w :: w in states[k].tasks && Holds(states[k].world, states[k].tasks[w]) ==>
              states[k].world.jobs[states[k].tasks[w].job] == states[k].tasks[w].cur
  {
    RunFences(exclusive, states, actions, k);
    forall w | w in states[k].tasks && Holds(states[k].world, states[k].tasks[w])
      ensures states[k].world.jobs[states[k].tasks[w].job] == states[k].tasks[w].cur
    {
      assert CopyOk(states[k].world, states[k].tasks[w]);
    }
  }

  /** A worker that lost its job never gets it back without a new claim. */
  lemma LostForGood(exclusive: bool, states: seq<System>, actions: seq<Action>, k: nat, w: nat)
    requires IsRun(exclusive, states, actions) && k < |actions|
    requires w in states[k].tasks && w in states[k + 1].tasks && !Holds(states[k].world, states[k].tasks[w])
    ensures !Holds(states[k + 1].world, states[k + 1].tasks[w])
  {
    RunFences(exclusive, states, actions, k);
    StaleStaysStale(states[k], exclusive, actions[k], w);
  }

  /** Saved jobs only ever grow in revision. */
  lemma StepFollows(s: System, exclusive: bool, a: Action)
    requires FenceOk(s.world, s.tasks)
    ensures JobsFollow(s.world, Apply(s, exclusive, a).world)
  {
    match a
    case Outside(e) => EventFences(s.world, e);
    case Perform(w, out, lease) => if w in s.tasks { WorkerFollows(s, w, out, lease); }
    case Renew(w, lease) => if w in s.tasks { RenewFollows(s, w, lease); }
    case _ =>
  }

  lemma WorkerFollows(s: System, w: nat, out: Outcome, lease: nat)
    requires FenceOk(s.world, s.tasks) && w in s.tasks
    ensures JobsFollow(s.world, DoPerform(s, w, out, lease).world)
  {
    assert CopyOk(s.world, s.tasks[w]);
    PerformShape(s, w, out, lease);
  }

  lemma RenewFollows(s: System, w: nat, lease: nat)
    requires FenceOk(s.world, s.tasks) && w in s.tasks
    ensures JobsFollow(s.world, DoRenew(s, w, lease, s.tasks[w].pc).world)
  {
    assert CopyOk(s.world, s.tasks[w]);
    RenewShape(s, w, lease, s.tasks[w].pc);
  }

  lemma StaleStaysStale(s: System, exclusive: bool, a: Action, w: nat)
    requires FenceOk(s.world, s.tasks) && w in s.tasks && w in Apply(s, exclusive, a).tasks
    requires !Holds(s.world, s.tasks[w])
    ensures var t := Apply(s, exclusive, a); !Holds(t.world, t.tasks[w])
  {
    assert CopyOk(s.world, s.tasks[w]);
    StepFollows(s, exclusive, a);
    if a.Perform? && a.worker in s.tasks {
      PerformShape(s, a.worker, a.outcome, a.lease);
    }
  }

  /** A worker that lost its job writes no job, whatever it does next, and a failed renewal ends it. */
  lemma StaleWritesNothing(s: System, exclusive: bool, a: Action, w: nat)
    requires w in s.tasks && !Holds(s.world, s.tasks[w])
    requires a.Perform? || a.Renew?
    requires a.worker == w
    ensures Apply(s, exclusive, a).world.jobs == s.world.jobs
    ensures a.Renew? && !(exclusive && s.loop.Some?) && Awaits(s.tasks[w].pc) ==> w !in Apply(s, exclusive, a).tasks
  {
    if a.Perform? {
      PerformShape(s, w, a.outcome, a.lease);
    }
  }

  /**
   * Between awaits uninterrupted, a worker that lost its job moreover leaves the
   * registry row alone, sends the Agent nothing, and deletes nothing but the
   * credential of a compensation it has already recorded.
   */
  lemma StaleChangesNothing(s: System, a: Action, w: nat)
    requires LoopInvariant(s) && w in s.tasks && !Holds(s.world, s.tasks[w])
    requires a.Perform? || a.Renew?
    requires a.worker == w
    ensures var u := Apply(s, true, a).world;
            && u.jobs == s.world.jobs && u.row == s.world.row && u.sent == s.world.sent
            && (u.store == s.world.store ||
                (s.tasks[w].pc.DeleteNew? && u.store == s.world.store - {s.tasks[w].pc.ref}))
  {
    assert !ActsOnCopy(s.tasks[w].pc);
    StaleWritesNothing(s, true, a, w);
  }

  // ---------------------------------------------------------------------------
  // Runs in which swaps are held.

  /** No claim of a validation fails an activated job whose new credential the row names. */
  ghost predicate IsHarmless(exclusive: bool, states: seq<System>, actions: seq<Action>)
    requires |actions| <= |states|
  {
    forall i {:trigger actions[i]} :: 0 <= i < |actions| ==> Harmless(states[i], exclusive, actions[i])
  }

  /**
   * Every swap that takes effect is made by a worker with the current owner and
   * revision of its job, and no validation does harm.
   */
  ghost predicate IsHeldRun(exclusive: bool, states: seq<System>, actions: seq<Action>) {
    && IsRun(exclusive, states, actions) && IsHarmless(exclusive, states, actions)
    && forall i {:trigger actions[i]} :: 0 <= i < |actions| ==> HeldSwap(states[i], exclusive, actions[i])
  }

  /** One event loop is enough for the former. */
  lemma ExclusiveRunsAreHeld(states: seq<System>, actions: seq<Action>)
    requires IsRun(true, states, actions) && IsHarmless(true, states, actions)
    ensures IsHeldRun(true, states, actions)
  {
    forall i | 0 <= i < |actions| ensures HeldSwap(states[i], true, actions[i]) {
      ExclusiveSwapsAreHeld(states, actions, i);
    }
  }

  /** That no revision is rewound is enough for the latter. */
  lemma UnrewoundRunsAreHarmless(exclusive: bool, states: seq<System>, actions: seq<Action>)
    requires IsRun(exclusive, states, actions) && Unrewound(states, actions)
    ensures IsHarmless(exclusive, states, actions)
  {
    forall i | 0 <= i < |actions| ensures Harmless(states[i], exclusive, actions[i]) {
      if actions[i].Present? && Accepts(states[i].world, actions[i].grant) {
        UnrewoundClaimsEnd(exclusive, states, actions, i, actions[i].grant);
      }
    }
  }

  lemma InitiallyKept(s: System)
    requires Initial(s)
    ensures Kept(s)
  {
    InitialOk(s);
    KeptIsInvariant(s);
  }

  lemma {:induction false} RunKeeps(exclusive: bool, states: seq<System>, actions: seq<Action>, k: nat)
    requires IsHeldRun(exclusive, states, actions) && k < |states|
    ensures Kept(states[k])
    decreases k
  {
    if k == 0 {
      InitiallyKept(states[0]);
    } else {
      RunKeeps(exclusive, states, actions, k - 1);
      var a := actions[k - 1];
      StepKeeps(states[k - 1], exclusive, a);
      assert states[k] == Apply(states[k - 1], exclusive, a);
    }
  }

  lemma RunInvariant(exclusive: bool, states: seq<System>, actions: seq<Action>, k: nat)
    requires IsHeldRun(exclusive, states, actions) && k < |states|
    ensures Invariant(states[k])
  {
    RunKeeps(exclusive, states, actions, k);
    KeptIsInvariant(states[k]);
  }

  lemma StepLater(exclusive: bool, states: seq<System>, actions: seq<Action>, k: nat)
    requires IsHeldRun(exclusive, states, actions) && 0 < k < |states|
    ensures Later(states[k - 1].world, states[k].world)
  {
    RunKeeps(exclusive, states, actions, k - 1);
    var a := actions[k - 1];
    StepKeeps(states[k - 1], exclusive, a);
    assert states[k] == Apply(states[k - 1], exclusive, a);
  }

  lemma LaterTrans(a: World, b: World, c: World)
    requires Later(a, b) && Later(b, c)
    ensures Later(a, c)
  {
    LaterIsFollows(a, b);
    LaterIsFollows(b, c);
    FollowsTrans(a, b, c);
    LaterIsFollows(a, c);
  }

  lemma {:induction false} LaterAcross(exclusive: bool, states: seq<System>, actions: seq<Action>, i: nat, k: nat)
    requires IsHeldRun(exclusive, states, actions) && i <= k < |states|
    ensures Later(states[i].world, states[k].world)
    decreases k
  {
    if i == k {
      SelfKept(states[i]);
    } else {
      LaterAcross(exclusive, states, actions, i, k - 1);
      StepLater(exclusive, states, actions, k);
      LaterTrans(states[i].world, states[k - 1].world, states[k].world);
    }
  }

  lemma FollowsAcross(exclusive: bool, states: seq<System>, actions: seq<Action>, i: nat, k: nat)
    requires IsHeldRun(exclusive, states, actions) && i <= k < |states|
    ensures Follows(states[i].world, states[k].world)
  {
    LaterAcross(exclusive, states, actions, i, k);
    LaterIsFollows(states[i].world, states[k].world);
  }

  /** The registry row names a stored credential, and a managed one is active on the Agent. */
  predicate RowUsable(v: World) {
    v.row.ref in v.store && (v.row.kind.Managed? ==> StatusOf(v, v.row.kind.rid) == Active)
  }

  /**
   * However workers interrupt each other: as long as every swap that takes effect is
   * made by a worker that still has the current owner and revision of its job, and
   * no validation fails a job whose new credential the row names, the row's
   * credential stays stored and active.
   */
  lemma HeldSwapsAreSafe(exclusive: bool, states: seq<System>, actions: seq<Action>, k: nat)
    requires IsHeldRun(exclusive, states, actions) && k < |states|
    ensures RowUsable(states[k].world)
  {
    RunInvariant(exclusive, states, actions, k);
  }

  /**
   * Through crashes, competing workers, lost replies and delayed effects, the
   * registry row always names a stored credential, and a managed one is active on
   * the Agent, when the workers share an event loop and no validation writes back
   * an older revision.
   */
  lemma RotationIsSafe(states: seq<System>, actions: seq<Action>, k: nat)
    requires IsRun(true, states, actions) && Unrewound(states, actions) && k < |states|
    ensures RowUsable(states[k].world)
  {
    UnrewoundRunsAreHarmless(true, states, actions);
    ExclusiveRunsAreHeld(states, actions);
    HeldSwapsAreSafe(true, states, actions, k);
  }

  /**
   * The condition on validations is exact.  Where a validation fails a job, the
   * cleanup of the failed job leaves the row usable if and only if the failure was
   * harmless.
   */
  lemma FailureHarmsExactlyWhen(exclusive: bool, states: seq<System>, actions: seq<Action>, k: nat, g: Grant, recorded: bool)
    requires IsHeldRun(exclusive, states, actions) && k < |states| && Accepts(states[k].world, g)
    ensures var failed := DoPresent(states[k].world, g, Failure);
            RowUsable(After(failed, CleanTerminal(g.job, recorded))) <==> !Harms(states[k].world, g, Failure)
  {
    RunInvariant(exclusive, states, actions, k);
    var v := states[k].world;
    assert JobOk(v, v.jobs[g.job]);
    assert DoPresent(v, g, Failure).jobs[g.job] == Closed(v.jobs[g.job], Failed);
  }

  /** What the Agent was once asked to revoke, and what has left the store, the row never names again. */
  lemma RetiredForGood(exclusive: bool, states: seq<System>, actions: seq<Action>, i: nat, k: nat)
    requires IsHeldRun(exclusive, states, actions) && i <= k < |states|
    ensures forall rid :: Revoke(rid) in states[i].world.sent ==> states[k].world.row.kind != Managed(rid)
    ensures forall ref :: ref in states[i].world.used && ref !in states[i].world.store ==> states[k].world.row.ref != ref
  {
    FollowsAcross(exclusive, states, actions, i, k);
    RunInvariant(exclusive, states, actions, k);
    RetiredNow(states[i].world, states[k].world);
  }

  lemma RetiredNow(a: World, b: World)
    requires WorldOk(b) && Follows(a, b)
    ensures forall rid :: Revoke(rid) in a.sent ==> b.row.kind != Managed(rid)
    ensures forall ref :: ref in a.used && ref !in a.store ==> b.row.ref != ref
  {
  }

  /** The row takes another managed credential only from an activated job, and that credential is stored and active. */
  lemma SwapAfterActivation(exclusive: bool, states: seq<System>, actions: seq<Action>, i: nat)
    requires IsHeldRun(exclusive, states, actions) && i < |actions|
    requires states[i + 1].world.row.kind != states[i].world.row.kind
    ensures exists k :: k in states[i].world.jobs && SwapsIn(states[i].world, states[i + 1].world, k)
  {
    RunInvariant(exclusive, states, actions, i);
    var a := actions[i];
    assert states[i + 1] == Apply(states[i], exclusive, a);
    KindChange(states[i], exclusive, a);
  }

  /** The job whose swap leads from one world to the next. */
  ghost predicate SwapsIn(a: World, b: World, k: nat) {
    && k in a.jobs && a.jobs[k].phase == Activated && a.jobs[k].incoming.Some? && CanSwap(a.jobs[k], a.row)
    && var c := a.jobs[k].incoming.value;
    && b.row.ref == c.ref && b.row.kind == Managed(c.rid) && b.row.instance == Some(c.instance)
    && c.ref in a.store && StatusOf(a, c.rid) == Active && c.rid !in a.namedRids
  }

  /** The one call that gives the row another managed credential. */
  lemma KindChanger(s: System, exclusive: bool, a: Action)
    requires Apply(s, exclusive, a).world.row.kind != s.world.row.kind
    ensures a.Perform? && a.worker in s.tasks && (exclusive ==> MayRun(s, a.worker)) && Swaps(s, a.worker, a.outcome)
    ensures Apply(s, exclusive, a).world == Swapped(s.world, s.tasks[a.worker].cur.incoming.value)
  {
  }

  lemma KindChange(s: System, exclusive: bool, a: Action)
    requires Invariant(s) && HeldSwap(s, exclusive, a) && Apply(s, exclusive, a).world.row.kind != s.world.row.kind
    ensures exists k :: k in s.world.jobs && SwapsIn(s.world, Apply(s, exclusive, a).world, k)
  {
    KindChanger(s, exclusive, a);
    var task := s.tasks[a.worker];
    assert PcOk(s.world, task) && CopyOk(s.world, task);
    var j := s.world.jobs[task.job];
    assert JobOk(s.world, j) && Ready(s.world, j) && Stored(s.world, j);
    assert SwapsIn(s.world, Swapped(s.world, j.incoming.value), task.job);
  }

  /**
   * A revocation leaves only for the old credential of a job after the row has
   * taken its new one, or for the new credential of a job that can no longer be
   * swapped in and that the row names at no time, before or after.
   */
  lemma RevokesOnlyRetired(exclusive: bool, states: seq<System>, actions: seq<Action>, i: nat, rid: nat, k: nat)
    requires IsHeldRun(exclusive, states, actions) && i < |actions| && k < |states|
    requires Revoke(rid) in states[i + 1].world.sent && Revoke(rid) !in states[i].world.sent
    ensures exists j :: RetiresOldOf(states[i].world, j, rid) || RetiresNewOf(states[i].world, j, rid)
    ensures (forall j :: !RetiresOldOf(states[i].world, j, rid)) ==> states[k].world.row.kind != Managed(rid)
  {
    RunInvariant(exclusive, states, actions, i);
    var a := actions[i];
    assert states[i + 1] == Apply(states[i], exclusive, a);
    NewRevocation(states[i], exclusive, a, rid);
    if k <= i {
      NeverNamedBefore(exclusive, states, actions, k, i, rid);
    } else {
      RetiredForGood(exclusive, states, actions, i + 1, k);
    }
  }

  /** What the row has not named by some state it named in none before. */
  lemma NeverNamedBefore(exclusive: bool, states: seq<System>, actions: seq<Action>, k: nat, i: nat, rid: nat)
    requires IsHeldRun(exclusive, states, actions) && k <= i < |states|
    ensures rid !in states[i].world.namedRids ==> states[k].world.row.kind != Managed(rid)
  {
    FollowsAcross(exclusive, states, actions, k, i);
    RunInvariant(exclusive, states, actions, k);
  }

  /** The row has taken the job's new credential, so the old one may go. */
  ghost predicate RetiresOldOf(v: World, k: nat, rid: nat) {
    && k in v.jobs && v.jobs[k].phase == Activated && v.jobs[k].oldKind == Managed(rid) && Left(v, v.jobs[k])
    && v.jobs[k].incoming.Some? && v.row.ref == v.jobs[k].incoming.value.ref
  }

  /** The row has never named the job's new credential and the job cannot swap it in. */
  ghost predicate RetiresNewOf(v: World, k: nat, rid: nat) {
    && k in v.jobs && v.jobs[k].phase == Activated && v.jobs[k].incoming.Some? && v.jobs[k].incoming.value.rid == rid
    && !CanSwap(v.jobs[k], v.row) && rid !in v.namedRids
  }

  /** The two calls that send a revocation, and that they are fenced. */
  lemma RevocationSender(s: System, exclusive: bool, a: Action, rid: nat)
    requires Revoke(rid) in Apply(s, exclusive, a).world.sent && Revoke(rid) !in s.world.sent
    ensures a.Perform? && a.worker in s.tasks && Holds(s.world, s.tasks[a.worker])
    ensures var t := s.tasks[a.worker];
            || (t.pc == RenewAfterSwap && t.cur.oldKind == Managed(rid))
            || (t.pc == MarkChanged && t.cur.incoming.Some? && t.cur.incoming.value.rid == rid)
  {
    if a.Outside? {
      EventSendsNothing(s.world, a.event);
    } else if a.Perform? && a.worker in s.tasks {
      PerformSends(s, a.worker, a.outcome, a.lease, rid);
    }
  }

  lemma EventSendsNothing(v: World, e: Event)
    ensures After(v, e).sent == v.sent
  {
  }

  lemma PerformSends(s: System, w: nat, out: Outcome, lease: nat, rid: nat)
    requires w in s.tasks && Revoke(rid) in DoPerform(s, w, out, lease).world.sent && Revoke(rid) !in s.world.sent
    ensures var t := s.tasks[w];
            && Holds(s.world, t)
            && ((t.pc == RenewAfterSwap && t.cur.oldKind == Managed(rid)) ||
                (t.pc == MarkChanged && t.cur.incoming.Some? && t.cur.incoming.value.rid == rid))
  {
  }

  lemma NewRevocation(s: System, exclusive: bool, a: Action, rid: nat)
    requires Invariant(s) && Revoke(rid) in Apply(s, exclusive, a).world.sent && Revoke(rid) !in s.world.sent
    ensures exists j :: RetiresOldOf(s.world, j, rid) || RetiresNewOf(s.world, j, rid)
  {
    RevocationSender(s, exclusive, a, rid);
    var task := s.tasks[a.worker];
    assert PcOk(s.world, task) && CopyOk(s.world, task);
    assert JobOk(s.world, s.world.jobs[task.job]);
    if task.pc == RenewAfterSwap {
      assert RetiresOldOf(s.world, task.job, rid);
    } else {
      assert RetiresNewOf(s.world, task.job, rid);
    }
  }

  /** A rotation never changes the instance identity in the row. */
  lemma InstanceNeverChanges(exclusive: bool, states: seq<System>, actions: seq<Action>, k: nat)
    requires IsHeldRun(exclusive, states, actions) && k < |states|
    ensures states[k].world.row.instance == states[0].world.row.instance
  {
    FollowsAcross(exclusive, states, actions, 0, k);
  }
}
