/**
 * What recovery of a registration achieves when one worker runs alone, every call
 * succeeds and the Agent acts on what it is sent.
 */
module EnrollmentProgress {
  import opened Wrappers
  import opened EnrollmentSaga
  import opened EnrollmentSafety
  import opened EnrollmentTheorems

  // ---------------------------------------------------------------------------
  // The run.

  /** The Agent has acted on the request the worker awaits, if any. */
  function Answered(s: System, w: nat): System
    requires w in s.tasks
  {
    var t := s.tasks[w];
    if t.cur.rid.None? then s
    else if t.pc == AwaitActivate then s.(world := DoAgentActs(s.world, Activate(t.cur.rid.value)))
    else if t.pc == AwaitRevoke then s.(world := DoAgentActs(s.world, Revoke(t.cur.rid.value)))
    else s
  }

  function Turn(s: System, w: nat, lease: nat): System
    requires w in s.tasks
  {
    DoPerform(Answered(s, w), w, Ok, lease)
  }

  /** How many turns a worker has before it at most. */
  function Rank(pc: Pc): nat {
    match pc
    case Start => 12
    case AwaitActivate => 11
    case ActivateReplied => 10
    case MarkActivated => 9
    case RenewForCommit => 8
    case Commit => 7
    case ReadRow => 6
    case Compensate => 5
    case AwaitRevoke => 4
    case RevokeReplied => 3
    case DeleteNew => 2
    case ErrorReplied => 2
    case RevokeFailed => 2
    case MarkFailed => 1
    case Residual => 1
    case GiveUp => 1
  }

  lemma WritesDrop(s: System, w: nat, lease: nat)
    requires w in s.tasks && Writes(s.tasks[w].pc) && w in DoPerform(s, w, Ok, lease).tasks
    ensures Rank(DoPerform(s, w, Ok, lease).tasks[w].pc) < Rank(s.tasks[w].pc)
  {
  }

  lemma OthersDrop(s: System, w: nat, lease: nat)
    requires w in s.tasks && !Writes(s.tasks[w].pc) && w in DoPerform(s, w, Ok, lease).tasks
    ensures Rank(DoPerform(s, w, Ok, lease).tasks[w].pc) < Rank(s.tasks[w].pc)
  {
  }

  lemma RankDrops(s: System, w: nat, lease: nat)
    requires w in s.tasks && w in Turn(s, w, lease).tasks
    ensures Rank(Turn(s, w, lease).tasks[w].pc) < Rank(s.tasks[w].pc)
  {
    if Writes(s.tasks[w].pc) {
      WritesDrop(Answered(s, w), w, lease);
    } else {
      OthersDrop(Answered(s, w), w, lease);
    }
  }

  /** The worker runs alone to its end. */
  function Alone(s: System, w: nat, lease: nat): System
    decreases if w in s.tasks then 1 + Rank(s.tasks[w].pc) else 0
  {
    if w !in s.tasks then s
    else
      var u := Turn(s, w, lease);
      if w in u.tasks then
        RankDrops(s, w, lease);
        Alone(u, w, lease)
      else u
  }

  /** A new worker claims the job and runs alone. */
  function Recovered(s: System, w: nat, j: nat, owner: nat, lease: nat): System {
    Alone(DoClaim(s, w, j, owner, lease), w, lease)
  }

  // ---------------------------------------------------------------------------
  // What becomes of the job.

  /** The job at its claim, and the world it found. */
  datatype Origin = Origin(id: nat, job: Job, world: World)

  datatype Fate = Registered | Undone | Released | GivenUp

  /** The token with which to ask the Agent cannot be read. */
  predicate Unreadable(o: Origin) { o.job.rid.Some? && o.job.ref.Some? && o.job.ref.value !in o.world.store }

  predicate InTheWay(o: Origin) { Taken(o.world, o.id, o.job.instance, o.job.endpoint) }

  function FateOf(o: Origin): Fate {
    if o.job.phase == Requested && Unreadable(o) then GivenUp
    else if !InTheWay(o) then Registered
    else if Unreadable(o) then Released
    else Undone
  }

  /** How each fate leaves the world. */
  predicate Ended(v: World, o: Origin) {
    && o.id in v.jobs && o.job.ref.Some?
    && match FateOf(o)
       case Registered =>
         && v.jobs[o.id].phase == Consumed && v.rows == o.world.rows[o.id := RecordOf(o.job, o.world.now)]
         && v.store == o.world.store && (o.job.rid.Some? ==> StatusOf(v, o.job.rid.value) != Waiting)
       case Undone =>
         && v.jobs[o.id].phase == Failed && v.rows == o.world.rows
         && v.store == o.world.store - {o.job.ref.value} && (o.job.rid.Some? ==> StatusOf(v, o.job.rid.value) == Revoked)
       case Released =>
         v.jobs[o.id].phase == o.job.phase && v.jobs[o.id].owner.None? && v.rows == o.world.rows && v.store == o.world.store
       case GivenUp => v.jobs[o.id].phase == Failed && v.rows == o.world.rows && v.store == o.world.store
  }

  /** The points of the program on the way to each fate. */
  predicate Fits(pc: Pc, fate: Fate) {
    match pc
    case GiveUp => fate == GivenUp
    case Residual => fate == Released
    case ReadRow => fate == Released || fate == Undone
    case Compensate => fate == Released || fate == Undone
    case AwaitRevoke => fate == Undone
    case RevokeReplied => fate == Undone
    case DeleteNew => fate == Undone
    case MarkFailed => fate == Undone
    case ErrorReplied => false
    case RevokeFailed => false
    case Start => true
    case _ => fate != GivenUp
  }

  predicate SameOffer(a: Job, b: Job) {
    && a.ref == b.ref && a.rid == b.rid && a.local == b.local && a.instance == b.instance && a.endpoint == b.endpoint && a.details == b.details
  }

  /** What a worker that has been alone since its claim knows. */
  ghost predicate AloneOk(s: System, w: nat, o: Origin) {
    && Prepared(s, w) && s.tasks[w].job == o.id && Saved(o.job.phase)
    && var v, t := s.world, s.tasks[w];
    && Holds(v, t) && t.cur.leaseUntil > v.now && SameOffer(t.cur, o.job)
    && v.rows == o.world.rows && v.now == o.world.now && Fits(t.pc, FateOf(o))
    && (t.pc in {Start, Residual} ==> t.cur.phase == o.job.phase)
    && (t.pc == Residual ==> o.job.phase == Activated)
    && v.store == (if t.pc == MarkFailed then o.world.store - {t.cur.ref.value} else o.world.store)
    && (t.pc == AwaitActivate ==> Activate(t.cur.rid.value) in v.sent)
    && (t.pc == AwaitRevoke ==> Revoke(t.cur.rid.value) in v.sent)
    && (t.pc in {RevokeReplied, DeleteNew, MarkFailed} && t.cur.rid.Some? ==> StatusOf(v, t.cur.rid.value) == Revoked)
  }

  ghost predicate Proceeds(u: System, w: nat, o: Origin) {
    if w in u.tasks then AloneOk(u, w, o) else Ended(u.world, o)
  }

  // ---------------------------------------------------------------------------
  // Each turn.

  lemma StartTurn(s: System, w: nat, o: Origin)
    requires AloneOk(s, w, o) && s.tasks[w].pc == Start
    ensures Proceeds(DoStart(s, w, Ok), w, o)
  {
    HeldJob(s, w);
    StartSound(s, w, Ok);
  }

  /** A renewal in time. */
  lemma RenewTurn(s: System, w: nat, o: Origin, lease: nat, next: Pc)
    requires AloneOk(s, w, o) && lease > 0 && Writes(s.tasks[w].pc) && s.tasks[w].pc in {ActivateReplied, RenewForCommit, RevokeReplied}
    requires next == match s.tasks[w].pc case ActivateReplied => MarkActivated case RenewForCommit => Commit case _ => DeleteNew
    ensures Proceeds(DoRenew(s, w, lease, next), w, o)
  {
    HeldJob(s, w);
    RenewSound(s, w, lease, next);
  }

  lemma ActivateTurn(s: System, w: nat, o: Origin, lease: nat)
    requires AloneOk(s, w, o) && s.tasks[w].pc == AwaitActivate
    ensures Proceeds(Turn(s, w, lease), w, o)
  {
    var u := Answered(s, w);
    ActsFollow(s.world, Activate(s.tasks[w].cur.rid.value));
    assert StatusOf(u.world, s.tasks[w].cur.rid.value) != Waiting;
    ReplySound(u, w, Ok, lease);
  }

  lemma RevokeTurn(s: System, w: nat, o: Origin, lease: nat)
    requires AloneOk(s, w, o) && s.tasks[w].pc == AwaitRevoke
    ensures Proceeds(Turn(s, w, lease), w, o)
  {
    var u := Answered(s, w);
    ActsFollow(s.world, Revoke(s.tasks[w].cur.rid.value));
    assert StatusOf(u.world, s.tasks[w].cur.rid.value) == Revoked;
    ReplySound(u, w, Ok, lease);
  }

  lemma MarkActivatedTurn(s: System, w: nat, o: Origin, lease: nat)
    requires AloneOk(s, w, o) && s.tasks[w].pc == MarkActivated
    ensures Proceeds(DoPerform(s, w, Ok, lease), w, o)
  {
    HeldJob(s, w);
    MarkActivatedSound(s, w, Ok, lease);
  }

  lemma CommitTurn(s: System, w: nat, o: Origin)
    requires AloneOk(s, w, o) && s.tasks[w].pc == Commit
    ensures Proceeds(DoCommit(s, w, Ok), w, o)
  {
    HeldJob(s, w);
    var t := s.tasks[w];
    assert Clash(s.world, t.job, RecordOf(t.cur, s.world.now)) <==> InTheWay(o);
    if InTheWay(o) {
      CommitSound(s, w, Ok);
    }
  }

  lemma ReadRowTurn(s: System, w: nat, o: Origin)
    requires AloneOk(s, w, o) && s.tasks[w].pc == ReadRow
    ensures Proceeds(DoReadRow(s, w, Ok), w, o)
  {
    HeldJob(s, w);
    ReadRowSound(s, w, Ok);
  }

  lemma CompensateTurn(s: System, w: nat, o: Origin)
    requires AloneOk(s, w, o) && s.tasks[w].pc == Compensate
    ensures Proceeds(DoCompensate(s, w, Ok), w, o)
  {
    HeldJob(s, w);
    CompensateSound(s, w, Ok);
  }

  lemma DeleteNewTurn(s: System, w: nat, o: Origin, lease: nat)
    requires AloneOk(s, w, o) && s.tasks[w].pc == DeleteNew
    ensures Proceeds(DoPerform(s, w, Ok, lease), w, o)
  {
    HeldJob(s, w);
    DeleteNewSound(s, w, Ok, lease);
  }

  lemma ClosingTurn(s: System, w: nat, o: Origin, lease: nat)
    requires AloneOk(s, w, o) && s.tasks[w].pc in {MarkFailed, Residual, GiveUp}
    ensures Proceeds(DoPerform(s, w, Ok, lease), w, o)
  {
    HeldJob(s, w);
    match s.tasks[w].pc
    case MarkFailed => FailingTurn(s, w, o, lease);
    case Residual => ReleasingTurn(s, w, o);
    case GiveUp => GivingUpTurn(s, w, o);
  }

  lemma FailingTurn(s: System, w: nat, o: Origin, lease: nat)
    requires AloneOk(s, w, o) && s.tasks[w].pc == MarkFailed && s.world.jobs[o.id] == s.tasks[w].cur
    ensures Proceeds(DoPerform(s, w, Ok, lease), w, o)
  {
    assert DoPerform(s, w, Ok, lease) == WriteAndEnd(s, w, s.world, Closed(s.tasks[w].cur).(ref := None));
  }

  lemma ReleasingTurn(s: System, w: nat, o: Origin)
    requires AloneOk(s, w, o) && s.tasks[w].pc == Residual && s.world.jobs[o.id] == s.tasks[w].cur
    ensures Proceeds(DoResidual(s, w), w, o)
  {
  }

  lemma GivingUpTurn(s: System, w: nat, o: Origin)
    requires AloneOk(s, w, o) && s.tasks[w].pc == GiveUp && s.world.jobs[o.id] == s.tasks[w].cur
    ensures Proceeds(DoGiveUp(s, w), w, o)
  {
  }

  lemma CallTurn(s: System, w: nat, o: Origin, lease: nat)
    requires AloneOk(s, w, o) && !Awaits(s.tasks[w].pc) && lease > 0
    ensures Proceeds(DoPerform(s, w, Ok, lease), w, o)
  {
    match s.tasks[w].pc
    case Start => StartTurn(s, w, o);
    case ActivateReplied => RenewTurn(s, w, o, lease, MarkActivated);
    case MarkActivated => MarkActivatedTurn(s, w, o, lease);
    case RenewForCommit => RenewTurn(s, w, o, lease, Commit);
    case Commit => CommitTurn(s, w, o);
    case ReadRow => ReadRowTurn(s, w, o);
    case Compensate => CompensateTurn(s, w, o);
    case RevokeReplied => RenewTurn(s, w, o, lease, DeleteNew);
    case DeleteNew => DeleteNewTurn(s, w, o, lease);
    case _ => ClosingTurn(s, w, o, lease);
  }

  lemma TurnProceeds(s: System, w: nat, o: Origin, lease: nat)
    requires AloneOk(s, w, o) && lease > 0
    ensures Proceeds(Turn(s, w, lease), w, o)
  {
    if s.tasks[w].pc == AwaitActivate {
      ActivateTurn(s, w, o, lease);
    } else if s.tasks[w].pc == AwaitRevoke {
      RevokeTurn(s, w, o, lease);
    } else {
      assert Turn(s, w, lease) == DoPerform(s, w, Ok, lease);
      CallTurn(s, w, o, lease);
    }
  }

  lemma {:induction false} AloneEnds(s: System, w: nat, o: Origin, lease: nat)
    requires AloneOk(s, w, o) && lease > 0
    ensures Ended(Alone(s, w, lease).world, o)
    decreases Rank(s.tasks[w].pc)
  {
    TurnProceeds(s, w, o, lease);
    if w in Turn(s, w, lease).tasks {
      RankDrops(s, w, lease);
      AloneEnds(Turn(s, w, lease), w, o, lease);
    }
  }

  lemma ClaimBegins(s: System, w: nat, j: nat, owner: nat, lease: nat)
    requires Basic(s) && w !in s.tasks && Claimable(s.world, j) && lease > 0
    ensures AloneOk(DoClaim(s, w, j, owner, lease), w, Origin(j, s.world.jobs[j], s.world))
  {
    assert JobOk(s.world, s.world.jobs[j]);
    ClaimKeeps(s, w, j, owner, lease);
  }

  /**
   * At any point of any run, recovery of a claimable job by one worker alone
   * registers the Agent if and only if at the claim no other row has its endpoint or
   * instance and, where the activation is still to be requested, the token is stored.
   * Otherwise, where the token is stored or none is needed, it fails the job, with
   * the credential revoked and deleted; an activated job whose token is gone is
   * released as it was, and a requested one failed.
   */
  lemma RecoveryRegistersExactlyWhen(exclusive: bool, states: seq<System>, actions: seq<Action>, k: nat, w: nat, j: nat, owner: nat, lease: nat)
    requires IsRun(exclusive, states, actions) && k < |states|
    requires w !in states[k].tasks && Claimable(states[k].world, j) && lease > 0
    ensures var v, u := states[k].world, Recovered(states[k], w, j, owner, lease).world;
            var o := Origin(j, v.jobs[j], v);
            && Ended(u, o)
            && (j in u.rows <==> FateOf(o) == Registered)
  {
    RunBasic(exclusive, states, actions, k);
    ClaimBegins(states[k], w, j, owner, lease);
    AloneEnds(DoClaim(states[k], w, j, owner, lease), w, Origin(j, states[k].world.jobs[j], states[k].world), lease);
    assert JobOk(states[k].world, states[k].world.jobs[j]) && j !in states[k].world.rows;
  }
}
