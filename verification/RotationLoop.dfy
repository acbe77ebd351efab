/**
 * Workers that share one event loop: between two awaits none is interrupted by
 * another, so a worker about to act on its copy of a job still holds it.
 */
module RotationLoop {
  import opened Wrappers
  import opened RotationSaga
  import opened RotationWorld
  import opened RotationRuns
  import opened RotationSafety

  /** Between awaits at most one worker runs. */
  ghost predicate LoopOk(s: System) {
    && (s.loop.Some? ==> s.loop.value in s.tasks)
    && (forall w :: w in s.tasks ==> (s.loop == Some(w) <==> !Awaits(s.tasks[w].pc)))
  }

  /** The next call acts on the worker's copy of the job. */
  predicate ActsOnCopy(pc: Pc) {
    pc in {Start, MarkActivated, ReadRow, SwapRow, RenewAfterSwap, DeleteOld, MarkConsumed, MarkChanged, MarkFailed, Residual}
  }

  ghost predicate ActorsHold(s: System) {
    forall w :: w in s.tasks && ActsOnCopy(s.tasks[w].pc) ==> Holds(s.world, s.tasks[w])
  }

  ghost predicate LoopInvariant(s: System) {
    LoopOk(s) && ActorsHold(s) && FenceOk(s.world, s.tasks)
  }

  /** Steps outside the workers leave saved jobs alone. */
  lemma EventSparesSaved(v: World, e: Event, k: nat)
    requires k in v.jobs && Saved(v.jobs[k].phase)
    ensures k in After(v, e).jobs && After(v, e).jobs[k] == v.jobs[k]
  {
  }

  lemma EventLoops(s: System, e: Event)
    requires LoopInvariant(s)
    ensures var t := s.(world := After(s.world, e)); LoopOk(t) && ActorsHold(t)
  {
    forall w | w in s.tasks && ActsOnCopy(s.tasks[w].pc) ensures Holds(After(s.world, e), s.tasks[w]) {
      assert CopyOk(s.world, s.tasks[w]) && Holds(s.world, s.tasks[w]);
      EventSparesSaved(s.world, e, s.tasks[w].job);
    }
  }

  /** The loop is the worker's, if it goes on without awaiting. */
  predicate Runs(u: System, w: nat) {
    u.loop == if w in u.tasks && !Awaits(u.tasks[w].pc) then Some(w) else None
  }

  lemma QuietLoop(s: System, w: nat, out: Outcome, lease: nat)
    requires w in s.tasks && Quiet(s.tasks[w].pc)
    ensures Runs(DoPerform(s, w, out, lease), w)
  {
  }

  lemma RenewingLoop(s: System, w: nat, out: Outcome, lease: nat)
    requires w in s.tasks && Renewing(s.tasks[w].pc)
    ensures Runs(DoPerform(s, w, out, lease), w)
  {
  }

  lemma MarkLoop(s: System, w: nat, out: Outcome, lease: nat)
    requires w in s.tasks && !Quiet(s.tasks[w].pc) && !Renewing(s.tasks[w].pc)
    ensures Runs(DoPerform(s, w, out, lease), w)
  {
  }

  lemma PerformLoop(s: System, w: nat, out: Outcome, lease: nat)
    requires w in s.tasks
    ensures Runs(DoPerform(s, w, out, lease), w)
  {
    if Quiet(s.tasks[w].pc) {
      QuietLoop(s, w, out, lease);
    } else if Renewing(s.tasks[w].pc) {
      RenewingLoop(s, w, out, lease);
    } else {
      MarkLoop(s, w, out, lease);
    }
  }

  lemma RenewLoop(s: System, w: nat, lease: nat, next: Pc)
    requires w in s.tasks
    ensures Runs(DoRenew(s, w, lease, next), w)
  {
  }

  /** If the worker acts on its copy next, it holds its job. */
  predicate HoldsNext(u: System, w: nat) {
    w in u.tasks && ActsOnCopy(u.tasks[w].pc) ==> Holds(u.world, u.tasks[w])
  }

  lemma QuietHolds(s: System, w: nat, out: Outcome, lease: nat)
    requires w in s.tasks && Quiet(s.tasks[w].pc) && (ActsOnCopy(s.tasks[w].pc) ==> Holds(s.world, s.tasks[w]))
    ensures HoldsNext(DoPerform(s, w, out, lease), w)
  {
  }

  lemma RenewingHolds(s: System, w: nat, out: Outcome, lease: nat)
    requires w in s.tasks && Renewing(s.tasks[w].pc)
    ensures HoldsNext(DoPerform(s, w, out, lease), w)
  {
  }

  lemma MarkHolds(s: System, w: nat, out: Outcome, lease: nat)
    requires w in s.tasks && !Quiet(s.tasks[w].pc) && !Renewing(s.tasks[w].pc)
    ensures HoldsNext(DoPerform(s, w, out, lease), w)
  {
  }

  /** A worker that acts on its copy next holds its job: it did before, or has just written it. */
  lemma PerformHolds(s: System, w: nat, out: Outcome, lease: nat)
    requires w in s.tasks && (ActsOnCopy(s.tasks[w].pc) ==> Holds(s.world, s.tasks[w]))
    ensures HoldsNext(DoPerform(s, w, out, lease), w)
  {
    if Quiet(s.tasks[w].pc) {
      QuietHolds(s, w, out, lease);
    } else if Renewing(s.tasks[w].pc) {
      RenewingHolds(s, w, out, lease);
    } else {
      MarkHolds(s, w, out, lease);
    }
  }

  lemma WorkerLoops(s: System, u: System, w: nat)
    requires LoopInvariant(s) && w in s.tasks && MayRun(s, w) && StepShape(s, u, w)
    requires Runs(u, w) && HoldsNext(u, w)
    ensures LoopOk(u) && ActorsHold(u)
  {
    forall x | x in u.tasks && x != w ensures Awaits(u.tasks[x].pc) {
      assert u.tasks[x] == s.tasks[x];
    }
  }

  lemma PerformLoops(s: System, w: nat, out: Outcome, lease: nat)
    requires LoopInvariant(s) && w in s.tasks && MayRun(s, w)
    ensures var u := DoPerform(s, w, out, lease); LoopOk(u) && ActorsHold(u)
  {
    PerformShape(s, w, out, lease);
    PerformLoop(s, w, out, lease);
    PerformHolds(s, w, out, lease);
    WorkerLoops(s, DoPerform(s, w, out, lease), w);
  }

  lemma RenewLoops(s: System, w: nat, lease: nat)
    requires LoopInvariant(s) && w in s.tasks && s.loop.None? && Awaits(s.tasks[w].pc)
    ensures var u := DoRenew(s, w, lease, s.tasks[w].pc); LoopOk(u) && ActorsHold(u)
  {
    RenewShape(s, w, lease, s.tasks[w].pc);
    RenewLoop(s, w, lease, s.tasks[w].pc);
    WorkerLoops(s, DoRenew(s, w, lease, s.tasks[w].pc), w);
  }

  lemma ClaimLoops(s: System, w: nat, j: nat, owner: nat, lease: nat)
    requires LoopInvariant(s) && s.loop.None?
    ensures var u := DoClaim(s, w, j, owner, lease); LoopOk(u) && ActorsHold(u)
  {
  }

  lemma StepLoops(s: System, a: Action)
    requires LoopInvariant(s)
    ensures LoopInvariant(Apply(s, true, a))
  {
    StepFences(s, true, a);
    match a
    case Outside(e) => EventLoops(s, e);
    case Claim(w, j, owner, lease) => if s.loop.None? { ClaimLoops(s, w, j, owner, lease); }
    case Renew(w, lease) => if w in s.tasks && s.loop.None? && Awaits(s.tasks[w].pc) { RenewLoops(s, w, lease); }
    case Perform(w, out, lease) => if w in s.tasks && MayRun(s, w) { PerformLoops(s, w, out, lease); }
    case _ =>
  }

  lemma {:induction false} RunLoops(states: seq<System>, actions: seq<Action>, k: nat)
    requires IsRun(true, states, actions) && k < |states|
    ensures LoopInvariant(states[k])
    decreases k
  {
    if k > 0 {
      RunLoops(states, actions, k - 1);
      StepLoops(states[k - 1], actions[k - 1]);
      assert states[k] == Apply(states[k - 1], true, actions[k - 1]);
    }
  }

  /** In an exclusive system every swap is made by a worker that holds its job. */
  lemma ExclusiveSwapsAreHeld(states: seq<System>, actions: seq<Action>, k: nat)
    requires IsRun(true, states, actions) && k < |actions|
    ensures HeldSwap(states[k], true, actions[k])
  {
    RunLoops(states, actions, k);
  }
}
