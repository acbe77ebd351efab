/**
 * What recovery of a rotation achieves when one worker runs alone, every call
 * succeeds and the Agent acts on what it is sent.
 */
module RotationProgress {
  import opened Wrappers
  import opened RotationSaga
  import opened RotationWorld
  import opened RotationRuns
  import opened RotationSafety
  import opened RotationLoop
  import opened RotationTheorems

  // ---------------------------------------------------------------------------
  // The run.

  /** The request whose reply the worker awaits. */
  function Asked(t: Task): Option<Request> {
    match t.pc
    case AwaitActivate => if t.cur.incoming.Some? then Some(Activate(t.cur.incoming.value.rid)) else None
    case AwaitRevokeOld => if t.cur.oldKind.Managed? then Some(Revoke(t.cur.oldKind.rid)) else None
    case AwaitRevokeNew => if t.cur.incoming.Some? then Some(Revoke(t.cur.incoming.value.rid)) else None
    case _ => None
  }

  /** The Agent has acted on the request the worker awaits, if any. */
  function Answered(s: System, w: nat): System
    requires w in s.tasks
  {
    if Asked(s.tasks[w]).Some? then s.(world := DoAgentActs(s.world, Asked(s.tasks[w]).value)) else s
  }

  /** One turn of the worker. */
  function Turn(s: System, w: nat, lease: nat): System
    requires w in s.tasks
  {
    DoPerform(Answered(s, w), w, Ok, lease)
  }

  /** How many turns a worker has before it at most. */
  function Rank(pc: Pc): nat {
    match pc
    case Start => 12
    case AwaitActivate => 11
    case ActivateReplied => 10
    case MarkActivated => 9
    case ReadRow => 8
    case SwapRow => 7
    case RenewAfterSwap => 6
    case AwaitRevokeOld => 5
    case OldRevoked => 4
    case DeleteOld => 3
    case MarkConsumed => 2
    case MarkChanged => 6
    case AwaitRevokeNew => 5
    case NewRevoked => 4
    case MarkFailed => 3
    case DeleteNew(_) => 2
    case ErrorReplied => 2
    case Residual => 1
  }

  lemma QuietDrops(s: System, w: nat, lease: nat)
    requires w in s.tasks && Quiet(s.tasks[w].pc) && w in DoPerform(s, w, Ok, lease).tasks
    ensures Rank(DoPerform(s, w, Ok, lease).tasks[w].pc) < Rank(s.tasks[w].pc)
  {
  }

  lemma RenewingDrops(s: System, w: nat, lease: nat)
    requires w in s.tasks && Renewing(s.tasks[w].pc) && w in DoPerform(s, w, Ok, lease).tasks
    ensures Rank(DoPerform(s, w, Ok, lease).tasks[w].pc) < Rank(s.tasks[w].pc)
  {
  }

  lemma MarkDrops(s: System, w: nat, lease: nat)
    requires w in s.tasks && !Quiet(s.tasks[w].pc) && !Renewing(s.tasks[w].pc) && w in DoPerform(s, w, Ok, lease).tasks
    ensures Rank(DoPerform(s, w, Ok, lease).tasks[w].pc) < Rank(s.tasks[w].pc)
  {
  }

  lemma RankDrops(s: System, w: nat, lease: nat)
    requires w in s.tasks && w in Turn(s, w, lease).tasks
    ensures Rank(Turn(s, w, lease).tasks[w].pc) < Rank(s.tasks[w].pc)
  {
    var u := Answered(s, w);
    if Quiet(s.tasks[w].pc) {
      QuietDrops(u, w, lease);
    } else if Renewing(s.tasks[w].pc) {
      RenewingDrops(u, w, lease);
    } else {
      MarkDrops(u, w, lease);
    }
  }

  /** The worker runs alone to its end. */
  function Alone(s: System, w: nat, lease: nat): System
    decreases if w in s.tasks then 1 + Rank(s.tasks[w].pc) else 0
  {
    if w !in s.tasks then s
    else
      var u := Turn(s, w, lease);
      if w in u.tasks then
        RankDrops(s, w, lease);
        Alone(u, w, lease)
      else u
  }

  /** A new worker claims the job and runs alone. */
  function Recovered(s: System, w: nat, j: nat, owner: nat, lease: nat): System {
    Alone(DoClaim(s, w, j, owner, lease), w, lease)
  }

  // ---------------------------------------------------------------------------
  // What becomes of the job.

  /** The checks before the first request: the new credential is stored, and a managed Agent's identity is unchanged. */
  predicate Starts(v: World, j: Job) {
    && j.incoming.Some? && j.oldRef.Some? && j.incoming.value.ref in v.store
    && (j.oldKind.Managed? ==> Some(j.incoming.value.instance) == j.oldInstance)
  }

  /** The row is as the job captured it and can be swapped, or has been. */
  predicate WillComplete(v: World, j: Job) {
    CanSwap(j, v.row) || Brings(j, v.row.ref)
  }

  datatype Fate = Completed | Compensated | Released

  function FateAtClaim(v: World, j: Job): Fate {
    if !Starts(v, j) then Released else if WillComplete(v, j) then Completed else Compensated
  }

  /** The fate of a job whose worker stands at `t`. */
  function FateOf(v: World, t: Task): Fate {
    match t.pc
    case Start => FateAtClaim(v, t.cur)
    case AwaitActivate => if WillComplete(v, t.cur) then Completed else Compensated
    case ActivateReplied => if WillComplete(v, t.cur) then Completed else Compensated
    case MarkActivated => if WillComplete(v, t.cur) then Completed else Compensated
    case ReadRow => if WillComplete(v, t.cur) then Completed else Compensated
    case SwapRow => if CanSwap(t.cur, v.row) then Completed else Compensated
    case ErrorReplied => Released
    case Residual => Released
    case MarkChanged => Compensated
    case AwaitRevokeNew => Compensated
    case NewRevoked => Compensated
    case MarkFailed => Compensated
    case DeleteNew(_) => Compensated
    case _ => Completed
  }

  /** The job as it was claimed, and the row it found. */
  datatype Origin = Origin(id: nat, job: Job, row: Row)

  function Incoming(o: Origin): Credential
    requires o.job.incoming.Some?
  {
    o.job.incoming.value
  }

  /** How each fate leaves the world. */
  predicate Ended(v: World, o: Origin, fate: Fate) {
    && o.id in v.jobs
    && match fate
       case Released => v.jobs[o.id].phase == o.job.phase && v.jobs[o.id].owner.None? && v.row == o.row
       case Completed =>
         && v.jobs[o.id].phase == Consumed
         && o.job.incoming.Some? && o.job.oldRef.Some?
         && v.row.ref == Incoming(o).ref && v.row.kind == Managed(Incoming(o).rid) && StatusOf(v, Incoming(o).rid) == Active
         && o.job.oldRef.value !in v.store
         && (o.job.oldKind.Managed? ==> StatusOf(v, o.job.oldKind.rid) == Revoked)
       case Compensated =>
         && v.jobs[o.id].phase == Failed && v.row == o.row
         && o.job.incoming.Some? && StatusOf(v, Incoming(o).rid) == Revoked && Incoming(o).ref !in v.store
  }

  predicate SameSnapshot(a: Job, b: Job) {
    && a.incoming == b.incoming && a.oldRef == b.oldRef && a.oldKind == b.oldKind
    && a.oldRevision == b.oldRevision && a.oldInstance == b.oldInstance
  }

  predicate BeforeChange(pc: Pc) {
    pc in {Start, AwaitActivate, ActivateReplied, MarkActivated, ReadRow, SwapRow, MarkChanged, AwaitRevokeNew, NewRevoked, MarkFailed, Residual}
    || pc.DeleteNew?
  }

  predicate AfterSwap(pc: Pc) { pc in {RenewAfterSwap, AwaitRevokeOld, OldRevoked, DeleteOld, MarkConsumed} }

  /** What a worker that has been alone since its claim moreover knows. */
  ghost predicate AloneOk(s: System, w: nat, o: Origin) {
    && w in s.tasks && s.tasks[w].job == o.id && o.id in s.world.jobs && SameSnapshot(s.tasks[w].cur, o.job)
    && var v, t := s.world, s.tasks[w];
    && o.job.incoming.Some? && o.job.oldRef.Some?
    && (if t.pc.DeleteNew? then t.pc.ref == Incoming(o).ref && v.jobs[o.id].phase == Failed
        else Holds(v, t) && v.jobs[o.id].leaseUntil > v.now)
    && (BeforeChange(t.pc) ==> v.row == o.row) && (AfterSwap(t.pc) ==> Brings(o.job, v.row.ref))
    && (t.pc == Start || t.pc == Residual ==> t.cur.phase == o.job.phase)
    && (t.pc == AwaitActivate ==> Activate(Incoming(o).rid) in v.sent)
    && (t.pc == AwaitRevokeOld ==> o.job.oldKind.Managed? && Revoke(o.job.oldKind.rid) in v.sent)
    && (t.pc in {OldRevoked, DeleteOld, MarkConsumed} && o.job.oldKind.Managed? ==> StatusOf(v, o.job.oldKind.rid) == Revoked)
    && (t.pc == MarkConsumed ==> o.job.oldRef.value !in v.store)
    && ((t.pc in {NewRevoked, MarkFailed} || t.pc.DeleteNew?) ==> StatusOf(v, Incoming(o).rid) == Revoked)
    && t.pc != ErrorReplied
  }

  /** After a turn the worker goes on with the same fate before it, or has met it. */
  ghost predicate Proceeds(s: System, u: System, w: nat, o: Origin)
    requires w in s.tasks
  {
    if w in u.tasks then AloneOk(u, w, o) && FateOf(u.world, u.tasks[w]) == FateOf(s.world, s.tasks[w])
    else Ended(u.world, o, FateOf(s.world, s.tasks[w]))
  }

  // ---------------------------------------------------------------------------
  // Each turn.

  /** A worker at work alone, in a system that keeps the invariant. */
  ghost predicate AtWork(s: System, w: nat, o: Origin) {
    Invariant(s) && AloneOk(s, w, o)
  }

  /** What the invariant says of the job the worker holds, and of the row. */
  ghost predicate Informed(s: System, w: nat, o: Origin) {
    && AloneOk(s, w, o)
    && var v, t := s.world, s.tasks[w];
    && PcOk(v, t) && (v.row.kind.Managed? ==> StatusOf(v, v.row.kind.rid) == Active)
    && (!t.pc.DeleteNew? ==>
          && v.jobs[o.id] == t.cur && t.cur.owner.Some? && Saved(t.cur.phase) && NewOk(v, t.cur) && MutationAllowed(v, Some(o.id))
          && (t.cur.phase == Requested ==> StatusOf(v, Incoming(o).rid) != Revoked))
  }

  lemma GetInformed(s: System, w: nat, o: Origin)
    requires AtWork(s, w, o)
    ensures Informed(s, w, o)
  {
    assert CopyOk(s.world, s.tasks[w]) && PcOk(s.world, s.tasks[w]);
    if !s.tasks[w].pc.DeleteNew? {
      assert JobOk(s.world, s.world.jobs[o.id]) && Barred(s.world, s.world.jobs[o.id]);
      HolderMayMutate(s.world, s.tasks[w]);
    }
  }

  lemma StartTurn(s: System, w: nat, o: Origin)
    requires Informed(s, w, o) && s.tasks[w].pc == Start
    ensures Proceeds(s, DoStart(s, w, Ok), w, o)
  {
  }

  /** A renewal in time. */
  lemma RenewTurn(s: System, w: nat, lease: nat, next: Pc)
    requires w in s.tasks && s.tasks[w].job in s.world.jobs
    requires LiveToken(s.world.jobs[s.tasks[w].job], s.tasks[w].cur, s.world.now)
    ensures var u, t := DoRenew(s, w, lease, next), s.tasks[w];
            var job := s.world.jobs[t.job].(leaseUntil := s.world.now + lease, revision := s.world.jobs[t.job].revision + 1);
            u.world == SetJob(s.world, t.job, job) && w in u.tasks && u.tasks[w] == Task(t.job, job, next)
  {
  }

  lemma RenewingTurn(s: System, w: nat, o: Origin, lease: nat)
    requires Informed(s, w, o) && s.tasks[w].pc in {ActivateReplied, OldRevoked, NewRevoked} && lease > 0
    ensures Proceeds(s, DoPerform(s, w, Ok, lease), w, o)
  {
    RenewTurn(s, w, lease,
              match s.tasks[w].pc
              case ActivateReplied => MarkActivated
              case OldRevoked => DeleteOld
              case _ => MarkFailed);
  }

  /** The Agent activates: what was never revoked is then active. */
  lemma ActivateTurn(s: System, w: nat, o: Origin, lease: nat)
    requires Informed(s, w, o) && s.tasks[w].pc == AwaitActivate
    ensures Proceeds(s, Turn(s, w, lease), w, o)
  {
  }

  lemma MarkActivatedTurn(s: System, w: nat, o: Origin)
    requires Informed(s, w, o) && s.tasks[w].pc == MarkActivated
    ensures Proceeds(s, DoMarkActivated(s, w, Ok), w, o)
  {
  }

  lemma ReadRowTurn(s: System, w: nat, o: Origin)
    requires Informed(s, w, o) && s.tasks[w].pc == ReadRow
    ensures Proceeds(s, DoReadRow(s, w, Ok), w, o)
  {
  }

  lemma SwapTurn(s: System, w: nat, o: Origin)
    requires Informed(s, w, o) && s.tasks[w].pc == SwapRow
    ensures Proceeds(s, DoSwap(s, w, Ok), w, o)
  {
  }

  lemma RenewAfterSwapTurn(s: System, w: nat, o: Origin, lease: nat)
    requires Informed(s, w, o) && s.tasks[w].pc == RenewAfterSwap && lease > 0
    ensures Proceeds(s, DoRenewAfterSwap(s, w, lease), w, o)
  {
    RenewTurn(s, w, lease, AwaitRevokeOld);
    RenewTurn(s, w, lease, DeleteOld);
  }

  lemma RevokeOldTurn(s: System, w: nat, o: Origin, lease: nat)
    requires Informed(s, w, o) && s.tasks[w].pc == AwaitRevokeOld
    ensures Proceeds(s, Turn(s, w, lease), w, o)
  {
  }

  lemma DeleteOldTurn(s: System, w: nat, o: Origin, lease: nat)
    requires Informed(s, w, o) && s.tasks[w].pc == DeleteOld
    ensures Proceeds(s, DoPerform(s, w, Ok, lease), w, o)
  {
  }

  lemma MarkConsumedTurn(s: System, w: nat, o: Origin, lease: nat)
    requires Informed(s, w, o) && s.tasks[w].pc == MarkConsumed
    ensures Proceeds(s, DoPerform(s, w, Ok, lease), w, o)
  {
  }

  lemma MarkChangedTurn(s: System, w: nat, o: Origin)
    requires Informed(s, w, o) && s.tasks[w].pc == MarkChanged
    ensures Proceeds(s, DoMarkChanged(s, w, Ok), w, o)
  {
  }

  lemma RevokeNewTurn(s: System, w: nat, o: Origin, lease: nat)
    requires Informed(s, w, o) && s.tasks[w].pc == AwaitRevokeNew
    ensures Proceeds(s, Turn(s, w, lease), w, o)
  {
  }

  lemma MarkFailedTurn(s: System, w: nat, o: Origin, lease: nat)
    requires Informed(s, w, o) && s.tasks[w].pc == MarkFailed
    ensures Proceeds(s, DoPerform(s, w, Ok, lease), w, o)
  {
  }

  lemma DeleteNewTurn(s: System, w: nat, o: Origin, lease: nat)
    requires Informed(s, w, o) && s.tasks[w].pc.DeleteNew?
    ensures Proceeds(s, DoPerform(s, w, Ok, lease), w, o)
  {
  }

  lemma ResidualTurn(s: System, w: nat, o: Origin)
    requires Informed(s, w, o) && s.tasks[w].pc == Residual
    ensures Proceeds(s, DoResidual(s, w), w, o)
  {
  }

  lemma AwaitTurn(s: System, w: nat, o: Origin, lease: nat)
    requires Informed(s, w, o) && Awaits(s.tasks[w].pc)
    ensures Proceeds(s, Turn(s, w, lease), w, o)
  {
    match s.tasks[w].pc
    case AwaitActivate => ActivateTurn(s, w, o, lease);
    case AwaitRevokeOld => RevokeOldTurn(s, w, o, lease);
    case AwaitRevokeNew => RevokeNewTurn(s, w, o, lease);
  }

  lemma CallTurn(s: System, w: nat, o: Origin, lease: nat)
    requires Informed(s, w, o) && !Awaits(s.tasks[w].pc) && lease > 0
    ensures Proceeds(s, DoPerform(s, w, Ok, lease), w, o)
  {
    match s.tasks[w].pc
    case Start => StartTurn(s, w, o);
    case MarkActivated => MarkActivatedTurn(s, w, o);
    case ReadRow => ReadRowTurn(s, w, o);
    case SwapRow => SwapTurn(s, w, o);
    case RenewAfterSwap => RenewAfterSwapTurn(s, w, o, lease);
    case DeleteOld => DeleteOldTurn(s, w, o, lease);
    case MarkConsumed => MarkConsumedTurn(s, w, o, lease);
    case MarkChanged => MarkChangedTurn(s, w, o);
    case MarkFailed => MarkFailedTurn(s, w, o, lease);
    case DeleteNew(_) => DeleteNewTurn(s, w, o, lease);
    case Residual => ResidualTurn(s, w, o);
    case _ => RenewingTurn(s, w, o, lease);
  }

  lemma TurnProceeds(s: System, w: nat, o: Origin, lease: nat)
    requires Kept(s) && AloneOk(s, w, o) && lease > 0
    ensures Proceeds(s, Turn(s, w, lease), w, o)
  {
    KeptIsInvariant(s);
    GetInformed(s, w, o);
    if Awaits(s.tasks[w].pc) {
      AwaitTurn(s, w, o, lease);
    } else {
      assert Turn(s, w, lease) == DoPerform(s, w, Ok, lease);
      CallTurn(s, w, o, lease);
    }
  }

  lemma AnswerKept(s: System, w: nat)
    requires Kept(s) && w in s.tasks
    ensures Kept(Answered(s, w)) && Answered(s, w).tasks == s.tasks && Answered(s, w).world.jobs == s.world.jobs
  {
    if Asked(s.tasks[w]).Some? {
      EventKept(s, AgentActs(Asked(s.tasks[w]).value));
    }
  }

  lemma TurnKept(s: System, w: nat, o: Origin, lease: nat)
    requires Kept(s) && AloneOk(s, w, o)
    ensures Kept(Turn(s, w, lease))
  {
    AnswerKept(s, w);
    PerformKept(Answered(s, w), w, Ok, lease);
  }

  lemma {:induction false} AloneEnds(s: System, w: nat, o: Origin, lease: nat)
    requires Kept(s) && AloneOk(s, w, o) && lease > 0
    ensures Ended(Alone(s, w, lease).world, o, FateOf(s.world, s.tasks[w]))
    decreases Rank(s.tasks[w].pc)
  {
    var u := Turn(s, w, lease);
    TurnProceeds(s, w, o, lease);
    if w in u.tasks {
      TurnKept(s, w, o, lease);
      RankDrops(s, w, lease);
      AloneEnds(u, w, o, lease);
    }
  }

  // ---------------------------------------------------------------------------
  // From the claim to the end.

  /** A worker that has just claimed a job has it to itself. */
  lemma ClaimBegins(s: System, w: nat, j: nat, owner: nat, lease: nat)
    requires Kept(s) && w !in s.tasks && Claimable(s.world, j) && lease > 0
    ensures var u := DoClaim(s, w, j, owner, lease);
            && AloneOk(u, w, Origin(j, s.world.jobs[j], s.world.row))
            && FateOf(u.world, u.tasks[w]) == FateAtClaim(s.world, s.world.jobs[j])
  {
    KeptIsInvariant(s);
    assert JobOk(s.world, s.world.jobs[j]);
  }

  /** Recovery of a saved job by one worker alone ends as could be told at the claim. */
  lemma RecoveryEnds(s: System, w: nat, j: nat, owner: nat, lease: nat)
    requires Kept(s) && w !in s.tasks && Claimable(s.world, j) && lease > 0
    ensures Ended(Recovered(s, w, j, owner, lease).world, Origin(j, s.world.jobs[j], s.world.row), FateAtClaim(s.world, s.world.jobs[j]))
  {
    ClaimKept(s, w, j, owner, lease);
    ClaimBegins(s, w, j, owner, lease);
    AloneEnds(DoClaim(s, w, j, owner, lease), w, Origin(j, s.world.jobs[j], s.world.row), lease);
  }

  /** In a system that keeps the invariant only the identity check can hold a saved job up. */
  lemma StartsUnlessIdentityChanged(s: System, j: nat)
    requires Invariant(s) && j in s.world.jobs && Saved(s.world.jobs[j].phase)
    ensures var job := s.world.jobs[j];
            && job.incoming.Some?
            && (Starts(s.world, job) <==> (job.oldKind.Managed? ==> Some(job.incoming.value.instance) == job.oldInstance))
            && (WillComplete(s.world, job) ==> StatusOf(s.world, job.incoming.value.rid) != Revoked)
  {
    var job := s.world.jobs[j];
    assert JobOk(s.world, job) && Stored(s.world, job) && Barred(s.world, job);
  }

  // ---------------------------------------------------------------------------
  // At any point of any run.

  /**
   * At any point of a run, recovery of a claimable job by one worker alone consumes
   * the job with the row naming its new credential if and only if, at the claim, the
   * new credential is stored, the identity check passes, and the row is as captured
   * and can be swapped or names the new credential already.  Otherwise, where the
   * checks pass, it fails the job, with the new credential revoked and deleted and the
   * row untouched; where they do not, it releases the job.
   */
  lemma RecoveryCompletesExactlyWhen(exclusive: bool, states: seq<System>, actions: seq<Action>, k: nat, w: nat, j: nat, owner: nat, lease: nat)
    requires IsHeldRun(exclusive, states, actions) && k < |states|
    requires w !in states[k].tasks && Claimable(states[k].world, j) && lease > 0
    ensures var v, job := states[k].world, states[k].world.jobs[j];
            var u := Recovered(states[k], w, j, owner, lease).world;
            && j in u.jobs && job.incoming.Some?
            && (u.jobs[j].phase == Consumed <==> Starts(v, job) && WillComplete(v, job))
            && (u.jobs[j].phase == Consumed ==> Brings(job, u.row.ref) && RowUsable(u))
            && (u.jobs[j].phase == Failed <==> Starts(v, job) && !WillComplete(v, job))
            && (u.jobs[j].phase == Failed ==>
                  u.row == v.row && StatusOf(u, job.incoming.value.rid) == Revoked && job.incoming.value.ref !in u.store)
            && (!Starts(v, job) ==> u.jobs[j].phase == job.phase && u.jobs[j].owner.None? && u.row == v.row)
  {
    RunKeeps(exclusive, states, actions, k);
    RecoveryEnds(states[k], w, j, owner, lease);
    RecoveryUsable(states[k], w, j, owner, lease);
    KeptIsInvariant(states[k]);
    StartsUnlessIdentityChanged(states[k], j);
  }

  lemma {:induction false} AloneKept(s: System, w: nat, o: Origin, lease: nat)
    requires Kept(s) && AloneOk(s, w, o) && lease > 0
    ensures Kept(Alone(s, w, lease))
    decreases Rank(s.tasks[w].pc)
  {
    var u := Turn(s, w, lease);
    TurnProceeds(s, w, o, lease);
    TurnKept(s, w, o, lease);
    if w in u.tasks {
      RankDrops(s, w, lease);
      AloneKept(u, w, o, lease);
    }
  }

  lemma RecoveryUsable(s: System, w: nat, j: nat, owner: nat, lease: nat)
    requires Kept(s) && w !in s.tasks && Claimable(s.world, j) && lease > 0
    ensures RowUsable(Recovered(s, w, j, owner, lease).world)
  {
    ClaimKept(s, w, j, owner, lease);
    ClaimBegins(s, w, j, owner, lease);
    AloneKept(DoClaim(s, w, j, owner, lease), w, Origin(j, s.world.jobs[j], s.world.row), lease);
    KeptIsInvariant(Recovered(s, w, j, owner, lease));
  }

  /**
   * A job captured from a row without an instance identity is never swapped in, and
   * recovery of it by one worker alone ends with its new credential revoked and
   * deleted, whenever the identity check lets it start.
   */
  lemma NoInstanceNoRotation(exclusive: bool, states: seq<System>, actions: seq<Action>, k: nat, w: nat, j: nat, owner: nat, lease: nat)
    requires IsHeldRun(exclusive, states, actions) && k < |states| && j in states[k].world.jobs
    requires states[k].world.jobs[j].oldInstance.None? && states[k].world.jobs[j].incoming.Some?
    ensures !Brings(states[k].world.jobs[j], states[k].world.row.ref)
    ensures w !in states[k].tasks && Claimable(states[k].world, j) && lease > 0 && states[k].world.jobs[j].oldKind.Legacy? ==>
              var u, c := Recovered(states[k], w, j, owner, lease).world, states[k].world.jobs[j].incoming.value;
              j in u.jobs && u.jobs[j].phase == Failed && u.row == states[k].world.row && StatusOf(u, c.rid) == Revoked && c.ref !in u.store
  {
    RunInvariant(exclusive, states, actions, k);
    assert JobOk(states[k].world, states[k].world.jobs[j]);
    if w !in states[k].tasks && Claimable(states[k].world, j) && lease > 0 && states[k].world.jobs[j].oldKind.Legacy? {
      StartsUnlessIdentityChanged(states[k], j);
      RecoveryCompletesExactlyWhen(exclusive, states, actions, k, w, j, owner, lease);
    }
  }
}
