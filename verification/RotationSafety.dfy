/**
 * Safety of credential rotation when every swap that takes effect is made by a
 * worker that still holds its job.  Workers may be interrupted anywhere.
 */
module RotationSafety {
  import opened Wrappers
  import opened RotationSaga
  import opened RotationWorld
  import opened RotationRuns

  predicate Activating(pc: Pc) { pc in {AwaitActivate, ActivateReplied, MarkActivated} }

  predicate Finishing(pc: Pc) {
    pc in {ReadRow, SwapRow, RenewAfterSwap, AwaitRevokeOld, OldRevoked, DeleteOld, MarkConsumed,
           MarkChanged, AwaitRevokeNew, NewRevoked, MarkFailed}
  }

  predicate RetiresOld(pc: Pc) { pc in {AwaitRevokeOld, OldRevoked, DeleteOld} }

  predicate RetiresNew(pc: Pc) { pc in {AwaitRevokeNew, NewRevoked, MarkFailed} }

  /** The row names something else than the job's old credential. */
  predicate Left(v: World, j: Job) {
    j.oldRef != Some(v.row.ref) && (j.oldKind.Managed? ==> v.row.kind != j.oldKind)
  }

  ghost predicate NobodysNew(v: World, ref: nat) {
    forall k :: k in v.jobs ==> !Brings(v.jobs[k], ref)
  }

  /** What a worker that holds its job knows about the row. */
  predicate HeldOk(v: World, t: Task) {
    && (t.pc == SwapRow ==> !Brings(t.cur, v.row.ref))
    && (t.pc == MarkChanged ==> !Brings(t.cur, v.row.ref) && !CanSwap(t.cur, v.row))
    && (t.pc == RenewAfterSwap ==> Brings(t.cur, v.row.ref) && Left(v, t.cur))
  }

  /** What a worker knows at each point of its program, whether or not it still holds its job. */
  ghost predicate PcOk(v: World, t: Task) {
    && SnapshotOk(v, t.cur)
    && (Activating(t.pc) ==> t.cur.phase == Requested && t.cur.incoming.Some? && t.cur.oldRef.Some?)
    && (t.pc == ActivateReplied || t.pc == MarkActivated ==> StatusOf(v, t.cur.incoming.value.rid) != Waiting)
    && (Finishing(t.pc) ==> t.cur.phase == Activated && t.cur.incoming.Some? && t.cur.oldRef.Some?)
    && (RetiresOld(t.pc) ==> Left(v, t.cur))
    && (RetiresNew(t.pc) ==> Revoke(t.cur.incoming.value.rid) in v.sent)
    && (t.pc.DeleteNew? ==> t.pc.ref in v.used && v.row.ref != t.pc.ref && NobodysNew(v, t.pc.ref))
    && (Holds(v, t) ==> HeldOk(v, t))
  }

  ghost predicate PcsOk(v: World, tasks: map<nat, Task>) {
    forall w :: w in tasks ==> PcOk(v, tasks[w])
  }

  ghost predicate Invariant(s: System) {
    WorldOk(s.world) && FenceOk(s.world, s.tasks) && PcsOk(s.world, s.tasks)
  }

  // ---------------------------------------------------------------------------
  // What other steps leave a worker.

  /** A step by someone else, which does not touch the row while this worker holds its job. */
  lemma OtherKept(a: World, b: World, t: Task)
    requires CopyOk(a, t) && CopyOk(b, t) && PcOk(a, t) && Follows(a, b) && Newcomers(a, b)
    requires Holds(b, t) ==> Holds(a, t) && b.row == a.row
    ensures PcOk(b, t)
  {
    if t.pc.DeleteNew? {
      forall k | k in b.jobs ensures !Brings(b.jobs[k], t.pc.ref) {
        assert k in a.jobs ==> !Brings(a.jobs[k], t.pc.ref);
      }
    }
  }

  // ---------------------------------------------------------------------------
  // A worker's own steps.

  /** A step keeps the world and leaves its worker, if it goes on, knowing what it needs. */
  ghost predicate Sound(s: System, t: System, w: nat) {
    && WorldOk(t.world) && Follows(s.world, t.world)
    && (w in t.tasks ==> PcOk(t.world, t.tasks[w]))
  }

  ghost predicate Prepared(s: System, w: nat) {
    WorldOk(s.world) && w in s.tasks && CopyOk(s.world, s.tasks[w]) && PcOk(s.world, s.tasks[w])
  }

  lemma FollowsSelf(v: World)
    ensures Follows(v, v)
  {
  }

  /** Rewriting the claim of the job one holds. */
  lemma PcRetoken(v: World, t: Task, job: Job)
    requires PcOk(v, t) && Holds(v, t) && Retoken(t.cur, job) && !t.pc.DeleteNew?
    ensures PcOk(SetJob(v, t.job, job), t.(cur := job))
  {
  }

  lemma RenewSound(s: System, w: nat, lease: nat, next: Pc)
    requires Prepared(s, w) && !next.DeleteNew?
    requires Holds(s.world, s.tasks[w]) ==> PcOk(s.world, s.tasks[w].(pc := next))
    ensures Sound(s, DoRenew(s, w, lease, next), w)
  {
    RenewIs(s, w, lease, next);
    if LiveToken(s.world.jobs[s.tasks[w].job], s.tasks[w].cur, s.world.now) {
      RetokenSound(s, w, Renewed(s, w, lease), next);
    } else {
      EndSound(s, w);
    }
  }

  function Renewed(s: System, w: nat, lease: nat): Job
    requires w in s.tasks && s.tasks[w].job in s.world.jobs
  {
    var j := s.world.jobs[s.tasks[w].job];
    j.(leaseUntil := s.world.now + lease, revision := j.revision + 1)
  }

  lemma RenewIs(s: System, w: nat, lease: nat, next: Pc)
    requires w in s.tasks && s.tasks[w].job in s.world.jobs
    ensures DoRenew(s, w, lease, next) ==
            if LiveToken(s.world.jobs[s.tasks[w].job], s.tasks[w].cur, s.world.now) then Write(s, w, Renewed(s, w, lease), next)
            else End(s, w)
  {
  }

  /** The holder of a job rewrites its claim. */
  lemma RetokenSound(s: System, w: nat, job: Job, next: Pc)
    requires Prepared(s, w) && !next.DeleteNew? && Holds(s.world, s.tasks[w]) && Retoken(s.tasks[w].cur, job)
    requires PcOk(s.world, s.tasks[w].(pc := next))
    ensures Sound(s, Write(s, w, job, next), w)
  {
    var t := s.tasks[w];
    RetokenKeeps(s.world, t.job, job);
    PcRetoken(s.world, t.(pc := next), job);
    assert Write(s, w, job, next).tasks[w] == Task(t.job, job, next);
  }

  /** A move without any change to the world. */
  lemma GotoSound(s: System, w: nat, pc: Pc)
    requires Prepared(s, w) && PcOk(s.world, s.tasks[w].(pc := pc))
    ensures Sound(s, Goto(s, w, s.tasks[w].cur, pc), w)
  {
    FollowsSelf(s.world);
    assert Goto(s, w, s.tasks[w].cur, pc).tasks[w] == s.tasks[w].(pc := pc);
  }

  lemma EndSound(s: System, w: nat)
    requires Prepared(s, w)
    ensures Sound(s, End(s, w), w)
  {
    FollowsSelf(s.world);
  }

  lemma StartSound(s: System, w: nat, out: Outcome)
    requires Prepared(s, w) && s.tasks[w].pc == Start
    ensures Sound(s, DoStart(s, w, out), w)
  {
    var cur := s.tasks[w].cur;
    var t := DoStart(s, w, out);
    if t.world == s.world {
      GotoSound(s, w, t.tasks[w].pc);
    } else {
      SendActivateKeeps(s.world, cur.incoming.value.rid);
    }
  }

  lemma RepliesSound(s: System, w: nat, out: Outcome, lease: nat)
    requires Prepared(s, w) && s.tasks[w].pc in {AwaitActivate, AwaitRevokeOld, AwaitRevokeNew}
    ensures Sound(s, DoPerform(s, w, out, lease), w)
  {
    GotoSound(s, w, DoPerform(s, w, out, lease).tasks[w].pc);
  }

  lemma RenewalsSound(s: System, w: nat, out: Outcome, lease: nat)
    requires Prepared(s, w) && s.tasks[w].pc in {ActivateReplied, ErrorReplied, OldRevoked, NewRevoked}
    ensures Sound(s, DoPerform(s, w, out, lease), w)
  {
    RenewSound(s, w, lease,
               match s.tasks[w].pc
               case ActivateReplied => MarkActivated
               case OldRevoked => DeleteOld
               case NewRevoked => MarkFailed
               case _ => Residual);
  }

  /** What a worker knows once its activation is recorded. */
  lemma ActivatedPc(v: World, t: Task, job: Job)
    requires PcOk(v, t) && t.pc == MarkActivated && t.job in v.jobs && t.cur.revision == v.jobs[t.job].revision
    requires job == t.cur.(phase := Activated, revision := t.cur.revision + 1)
    ensures PcOk(SetJob(v, t.job, job), Task(t.job, job, ReadRow))
  {
  }

  lemma WriteSound(s: System, w: nat, job: Job, pc: Pc)
    requires w in s.tasks
    requires var u := SetJob(s.world, s.tasks[w].job, job);
             WorldOk(u) && Follows(s.world, u) && PcOk(u, Task(s.tasks[w].job, job, pc))
    ensures Sound(s, Write(s, w, job, pc), w)
  {
    assert Write(s, w, job, pc).tasks[w] == Task(s.tasks[w].job, job, pc);
  }

  lemma ActivationRecorded(s: System, w: nat, job: Job)
    requires Prepared(s, w) && s.tasks[w].pc == MarkActivated && Holds(s.world, s.tasks[w])
    requires job == s.tasks[w].cur.(phase := Activated, revision := s.tasks[w].cur.revision + 1)
    ensures Sound(s, Write(s, w, job, ReadRow), w)
  {
    ActivatedKeeps(s.world, s.tasks[w].job, job);
    ActivatedPc(s.world, s.tasks[w], job);
    WriteSound(s, w, job, ReadRow);
  }

  lemma MarkActivatedSound(s: System, w: nat, out: Outcome)
    requires Prepared(s, w) && s.tasks[w].pc == MarkActivated
    ensures Sound(s, DoMarkActivated(s, w, out), w)
  {
    var cur := s.tasks[w].cur;
    if out == Ok && Fenced(s, w) {
      var job := cur.(phase := Activated, revision := cur.revision + 1);
      assert DoMarkActivated(s, w, out) == Write(s, w, job, ReadRow);
      ActivationRecorded(s, w, job);
    } else {
      assert DoMarkActivated(s, w, out) == End(s, w);
      EndSound(s, w);
    }
  }

  lemma ReadRowSound(s: System, w: nat, out: Outcome)
    requires Prepared(s, w) && s.tasks[w].pc == ReadRow
    ensures Sound(s, DoReadRow(s, w, out), w)
  {
    assert JobOk(s.world, s.world.jobs[s.tasks[w].job]);
    if out != Ok {
      EndSound(s, w);
    } else {
      GotoSound(s, w, DoReadRow(s, w, out).tasks[w].pc);
    }
  }

  /** What the worker knows after its swap. */
  lemma SwappedPc(v: World, t: Task, pc: Pc)
    requires WorldOk(v) && CopyOk(v, t) && PcOk(v, t) && Holds(v, t) && t.pc == SwapRow && (pc == RenewAfterSwap || pc == Residual)
    ensures PcOk(Swapped(v, t.cur.incoming.value), t.(pc := pc))
  {
    assert JobOk(v, v.jobs[t.job]);
  }

  lemma SwapMade(s: System, w: nat, pc: Pc)
    requires Prepared(s, w) && s.tasks[w].pc == SwapRow && CanSwap(s.tasks[w].cur, s.world.row) && Holds(s.world, s.tasks[w])
    requires pc == RenewAfterSwap || pc == Residual
    ensures Sound(s, Goto(s.(world := Swapped(s.world, s.tasks[w].cur.incoming.value)), w, s.tasks[w].cur, pc), w)
  {
    SwapKeeps(s.world, s.tasks[w].job);
    SwappedPc(s.world, s.tasks[w], pc);
  }

  /** The job a worker holds is the only one past the point of no return. */
  lemma HolderMayMutate(v: World, t: Task)
    requires WorldOk(v) && CopyOk(v, t) && Holds(v, t)
    ensures MutationAllowed(v, Some(t.job))
  {
    assert Open(v.jobs[t.job].phase);
  }

  /** The swap takes effect. */
  predicate Swaps(s: System, w: nat, out: Outcome)
    requires w in s.tasks
  {
    var t := s.tasks[w];
    && t.pc == SwapRow && out != Err && t.cur.incoming.Some?
    && CanSwap(t.cur, s.world.row) && MutationAllowed(s.world, Some(t.job))
  }

  lemma SwapSound(s: System, w: nat, out: Outcome)
    requires Prepared(s, w) && s.tasks[w].pc == SwapRow && (Swaps(s, w, out) ==> Holds(s.world, s.tasks[w]))
    ensures Sound(s, DoSwap(s, w, out), w)
  {
    var t := s.tasks[w];
    if Swaps(s, w, out) {
      var pc := if out == Ok then RenewAfterSwap else Residual;
      assert DoSwap(s, w, out) == Goto(s.(world := Swapped(s.world, t.cur.incoming.value)), w, t.cur, pc);
      SwapMade(s, w, pc);
    } else {
      if Holds(s.world, t) {
        HolderMayMutate(s.world, t);
      }
      var pc := if out == Err then Residual else MarkChanged;
      assert DoSwap(s, w, out) == Goto(s, w, t.cur, pc);
      GotoSound(s, w, pc);
    }
  }

  /** The old credential is revoked only once the row has left it. */
  lemma RevokeOldSound(s: System, w: nat, lease: nat)
    requires Prepared(s, w) && s.tasks[w].pc == RenewAfterSwap
    ensures Sound(s, DoRenewAfterSwap(s, w, lease), w)
  {
    var t := s.tasks[w];
    if t.cur.oldKind.Managed? {
      RenewSound(s, w, lease, AwaitRevokeOld);
      var u := DoRenew(s, w, lease, AwaitRevokeOld);
      if w in u.tasks {
        var rid := t.cur.oldKind.rid;
        forall k | k in u.world.jobs && u.world.jobs[k].incoming.Some? && u.world.jobs[k].incoming.value.rid == rid
          ensures !CanSwap(u.world.jobs[k], u.world.row) && u.world.jobs[k].phase == Activated
        {
          assert JobOk(u.world, u.world.jobs[k]);
        }
        SendRevokeKeeps(u.world, rid);
        var v := Send(u, Revoke(rid));
        FollowsTrans(s.world, u.world, v.world);
        SentPc(u.world, u.tasks[w], Revoke(rid));
      }
    } else {
      RenewSound(s, w, lease, DeleteOld);
    }
  }

  /** What a worker knows outlasts what it sends. */
  lemma SentPc(v: World, t: Task, r: Request)
    requires PcOk(v, t)
    ensures PcOk(v.(sent := v.sent + {r}), t)
  {
  }

  lemma FollowsTrans(a: World, b: World, c: World)
    requires Follows(a, b) && Follows(b, c)
    ensures Follows(a, c)
  {
  }

  /** The old reference is neither the row's nor any job's new one. */
  lemma OldIsFree(v: World, t: Task)
    requires WorldOk(v) && PcOk(v, t) && t.pc == DeleteOld
    ensures v.row.ref != t.cur.oldRef.value
    ensures forall k :: k in v.jobs && Open(v.jobs[k].phase) && v.jobs[k].incoming.Some? ==> v.jobs[k].incoming.value.ref != t.cur.oldRef.value
  {
    forall k | k in v.jobs && v.jobs[k].incoming.Some? ensures v.jobs[k].incoming.value.ref != t.cur.oldRef.value {
      assert JobOk(v, v.jobs[k]);
    }
  }

  /** A deletion leaves a worker that only has its result to report. */
  lemma DeletedPc(v: World, t: Task, ref: nat, pc: Pc)
    requires PcOk(v, t) && t.pc == DeleteOld && (pc == MarkConsumed || pc == Residual)
    ensures PcOk(DropRef(v, ref), t.(pc := pc))
  {
  }

  lemma DeletingSound(s: System, w: nat, pc: Pc)
    requires Prepared(s, w) && s.tasks[w].pc == DeleteOld && (pc == MarkConsumed || pc == Residual)
    ensures Sound(s, Goto(s.(world := DropRef(s.world, s.tasks[w].cur.oldRef.value)), w, s.tasks[w].cur, pc), w)
  {
    var t := s.tasks[w];
    OldIsFree(s.world, t);
    DropRefKeeps(s.world, t.cur.oldRef.value);
    DeletedPc(s.world, t, t.cur.oldRef.value, pc);
  }

  lemma DeleteOldSound(s: System, w: nat, out: Outcome, lease: nat)
    requires Prepared(s, w) && s.tasks[w].pc == DeleteOld
    ensures Sound(s, DoPerform(s, w, out, lease), w)
  {
    var t := s.tasks[w];
    if out == Err {
      assert DoPerform(s, w, out, lease) == Goto(s, w, t.cur, Residual);
      GotoSound(s, w, Residual);
    } else {
      var pc := if out == Ok then MarkConsumed else Residual;
      assert DoPerform(s, w, out, lease) == Goto(s.(world := DropRef(s.world, t.cur.oldRef.value)), w, t.cur, pc);
      DeletingSound(s, w, pc);
    }
  }

  lemma MarkConsumedSound(s: System, w: nat, out: Outcome, lease: nat)
    requires Prepared(s, w) && s.tasks[w].pc == MarkConsumed
    ensures Sound(s, DoPerform(s, w, out, lease), w)
  {
    if out == Ok && Fenced(s, w) {
      EmptiedKeeps(s.world, s.tasks[w].job, Consumed);
    } else {
      EndSound(s, w);
    }
  }

  lemma OneNew(v: World, j: nat, k: nat)
    requires Distinct(v) && j in v.jobs && k in v.jobs && v.jobs[j].incoming.Some? && v.jobs[k].incoming.Some?
    requires v.jobs[j].incoming.value.rid == v.jobs[k].incoming.value.rid
    ensures j == k
  {
    assert SameNew(v.jobs[j], v.jobs[k]);
  }

  /** The new credential is revoked only when it can never be swapped in. */
  lemma RevokingSound(s: System, w: nat)
    requires Prepared(s, w) && s.tasks[w].pc == MarkChanged && Holds(s.world, s.tasks[w])
    ensures var t := s.tasks[w];
            var u := s.world.(sent := s.world.sent + {Revoke(t.cur.incoming.value.rid)});
            WorldOk(u) && Follows(s.world, u) && PcOk(u, t) && PcOk(u, t.(pc := AwaitRevokeNew))
  {
    var t := s.tasks[w];
    assert JobOk(s.world, s.world.jobs[t.job]);
    forall k | k in s.world.jobs && s.world.jobs[k].incoming.Some? && s.world.jobs[k].incoming.value.rid == t.cur.incoming.value.rid
      ensures !CanSwap(s.world.jobs[k], s.world.row) && s.world.jobs[k].phase == Activated
    {
      OneNew(s.world, k, t.job);
    }
    SendRevokeKeeps(s.world, t.cur.incoming.value.rid);
  }

  lemma MarkChangedSound(s: System, w: nat, out: Outcome)
    requires Prepared(s, w) && s.tasks[w].pc == MarkChanged
    ensures Sound(s, DoMarkChanged(s, w, out), w)
  {
    MarkChangedIs(s, w, out);
    if out == Ok && Fenced(s, w) {
      MarkedSound(s, w);
    } else {
      EndSound(s, w);
    }
  }

  /** The mark is accepted, and the revocation leaves. */
  function Marked(s: System, w: nat): System
    requires w in s.tasks && s.tasks[w].cur.incoming.Some?
  {
    var cur := s.tasks[w].cur;
    Write(Send(s, Revoke(cur.incoming.value.rid)), w, cur.(revision := cur.revision + 1), AwaitRevokeNew)
  }

  lemma MarkChangedIs(s: System, w: nat, out: Outcome)
    requires w in s.tasks && s.tasks[w].cur.incoming.Some? && s.tasks[w].cur.phase == Activated
    ensures DoMarkChanged(s, w, out) == if out == Ok && Fenced(s, w) then Marked(s, w) else End(s, w)
  {
  }

  lemma MarkedSound(s: System, w: nat)
    requires Prepared(s, w) && s.tasks[w].pc == MarkChanged && Holds(s.world, s.tasks[w])
    ensures Sound(s, Marked(s, w), w)
  {
    var cur := s.tasks[w].cur;
    var u := Send(s, Revoke(cur.incoming.value.rid));
    RevokingPrepared(s, w);
    var job := cur.(revision := cur.revision + 1);
    assert Marked(s, w) == Write(u, w, job, AwaitRevokeNew);
    assert Retoken(u.tasks[w].cur, job);
    LaterRetokenSound(s, u, w, job, AwaitRevokeNew);
  }

  lemma RevokingPrepared(s: System, w: nat)
    requires Prepared(s, w) && s.tasks[w].pc == MarkChanged && Holds(s.world, s.tasks[w])
    ensures var u := Send(s, Revoke(s.tasks[w].cur.incoming.value.rid));
            Prepared(u, w) && Follows(s.world, u.world) && Holds(u.world, u.tasks[w]) && PcOk(u.world, u.tasks[w].(pc := AwaitRevokeNew))
  {
    RevokingSound(s, w);
  }

  /** A rewriting of the claim that comes after another step. */
  lemma LaterRetokenSound(s: System, u: System, w: nat, job: Job, next: Pc)
    requires Prepared(u, w) && !next.DeleteNew? && Holds(u.world, u.tasks[w]) && Retoken(u.tasks[w].cur, job)
    requires PcOk(u.world, u.tasks[w].(pc := next)) && Follows(s.world, u.world)
    ensures Sound(s, Write(u, w, job, next), w)
  {
    RetokenSound(u, w, job, next);
    FollowsTrans(s.world, u.world, Write(u, w, job, next).world);
  }

  /** Once its job is closed, a compensated credential is nobody's. */
  lemma CompensatedPc(v: World, t: Task, c: Credential)
    requires WorldOk(v) && CopyOk(v, t) && PcOk(v, t) && Holds(v, t) && t.pc == MarkFailed && t.cur.incoming == Some(c)
    ensures PcOk(SetJob(v, t.job, Emptied(t.cur, Failed)), Task(t.job, t.cur, DeleteNew(c.ref)))
  {
    var u := SetJob(v, t.job, Emptied(t.cur, Failed));
    assert JobOk(v, v.jobs[t.job]);
    assert forall k :: k in v.jobs && k != t.job ==> !SameNew(v.jobs[k], v.jobs[t.job]);
    assert NobodysNew(u, c.ref);
  }

  lemma CompensationRecorded(s: System, w: nat, c: Credential)
    requires Prepared(s, w) && Holds(s.world, s.tasks[w]) && s.tasks[w].pc == MarkFailed && s.tasks[w].cur.incoming == Some(c)
    ensures Sound(s, Goto(s.(world := SetJob(s.world, s.tasks[w].job, Emptied(s.tasks[w].cur, Failed))), w, s.tasks[w].cur, DeleteNew(c.ref)), w)
  {
    EmptiedKeeps(s.world, s.tasks[w].job, Failed);
    CompensatedPc(s.world, s.tasks[w], c);
  }

  lemma MarkFailedSound(s: System, w: nat, out: Outcome, lease: nat)
    requires Prepared(s, w) && s.tasks[w].pc == MarkFailed
    ensures Sound(s, DoPerform(s, w, out, lease), w)
  {
    var t := s.tasks[w];
    if out == Ok && Fenced(s, w) {
      var c := t.cur.incoming.value;
      assert DoPerform(s, w, out, lease) ==
        Goto(s.(world := SetJob(s.world, t.job, Emptied(t.cur, Failed))), w, t.cur, DeleteNew(c.ref));
      CompensationRecorded(s, w, c);
    } else {
      assert DoPerform(s, w, out, lease) == End(s, w);
      EndSound(s, w);
    }
  }

  lemma DeleteNewSound(s: System, w: nat, out: Outcome, lease: nat)
    requires Prepared(s, w) && s.tasks[w].pc.DeleteNew?
    ensures Sound(s, DoPerform(s, w, out, lease), w)
  {
    if out == Err {
      EndSound(s, w);
    } else {
      DropRefKeeps(s.world, s.tasks[w].pc.ref);
    }
  }

  /** A worker's last write of its claim. */
  lemma ReleaseSound(s: System, w: nat, job: Job)
    requires Prepared(s, w) && Retoken(s.world.jobs[s.tasks[w].job], job)
    ensures Sound(s, WriteAndEnd(s, w, job), w)
  {
    RetokenKeeps(s.world, s.tasks[w].job, job);
  }

  lemma ResidualSound(s: System, w: nat)
    requires Prepared(s, w) && s.tasks[w].pc == Residual
    ensures Sound(s, DoResidual(s, w), w)
  {
    var t := s.tasks[w];
    var j := s.world.jobs[t.job];
    if Token(j, t.cur) && Saved(j.phase) {
      var job := j.(owner := None, leaseUntil := 0, revision := j.revision + 1);
      assert DoResidual(s, w) == WriteAndEnd(s, w, job);
      ReleaseSound(s, w, job);
    } else {
      assert DoResidual(s, w) == End(s, w);
      EndSound(s, w);
    }
  }

  lemma PerformSound(s: System, w: nat, out: Outcome, lease: nat)
    requires Prepared(s, w) && (Swaps(s, w, out) ==> Holds(s.world, s.tasks[w]))
    ensures Sound(s, DoPerform(s, w, out, lease), w)
  {
    match s.tasks[w].pc
    case Start => StartSound(s, w, out);
    case AwaitActivate => RepliesSound(s, w, out, lease);
    case ActivateReplied => RenewalsSound(s, w, out, lease);
    case ErrorReplied => RenewalsSound(s, w, out, lease);
    case MarkActivated => MarkActivatedSound(s, w, out);
    case ReadRow => ReadRowSound(s, w, out);
    case SwapRow => SwapSound(s, w, out);
    case RenewAfterSwap => RevokeOldSound(s, w, lease);
    case AwaitRevokeOld => RepliesSound(s, w, out, lease);
    case OldRevoked => RenewalsSound(s, w, out, lease);
    case DeleteOld => DeleteOldSound(s, w, out, lease);
    case MarkConsumed => MarkConsumedSound(s, w, out, lease);
    case MarkChanged => MarkChangedSound(s, w, out);
    case AwaitRevokeNew => RepliesSound(s, w, out, lease);
    case NewRevoked => RenewalsSound(s, w, out, lease);
    case MarkFailed => MarkFailedSound(s, w, out, lease);
    case DeleteNew(_) => DeleteNewSound(s, w, out, lease);
    case Residual => ResidualSound(s, w);
  }

  // ---------------------------------------------------------------------------
  // What a worker's step leaves the others.

  /** A step that leaves the row alone, and the jobs or all but one of them, which gets no new credential. */
  lemma NewcomersBy(a: World, b: World, k: nat)
    requires b.row == a.row
    requires b.jobs == a.jobs || (k in a.jobs && k in b.jobs && b.jobs == a.jobs[k := b.jobs[k]] &&
                                  (b.jobs[k].incoming == a.jobs[k].incoming || b.jobs[k].incoming.None?))
    ensures Newcomers(a, b)
  {
  }

  /** The written job keeps its new credential or loses it. */
  lemma WrittenIncoming(s: System, w: nat, out: Outcome, lease: nat)
    requires w in s.tasks && CopyOk(s.world, s.tasks[w])
    ensures WritesOwn(s, DoPerform(s, w, out, lease), w)
  {
    var pc := s.tasks[w].pc;
    if Quiet(pc) {
      QuietLeavesJobs(s, w, out, lease);
    } else if Renewing(pc) {
      RenewingWrites(s, w, out, lease);
    } else {
      MarksWrite(s, w, out, lease);
    }
  }

  /** The step writes the worker's job, if any, and gives it no new credential. */
  ghost predicate WritesOwn(s: System, u: System, w: nat)
    requires w in s.tasks
  {
    var k := s.tasks[w].job;
    u.world.jobs == s.world.jobs ||
    (k in u.world.jobs && k in s.world.jobs && u.world.jobs == s.world.jobs[k := u.world.jobs[k]] &&
     (u.world.jobs[k].incoming == s.world.jobs[k].incoming || u.world.jobs[k].incoming.None?))
  }

  lemma QuietLeavesJobs(s: System, w: nat, out: Outcome, lease: nat)
    requires w in s.tasks && Quiet(s.tasks[w].pc)
    ensures DoPerform(s, w, out, lease).world.jobs == s.world.jobs
  {
  }

  lemma RenewingWrites(s: System, w: nat, out: Outcome, lease: nat)
    requires w in s.tasks && CopyOk(s.world, s.tasks[w]) && Renewing(s.tasks[w].pc)
    ensures WritesOwn(s, DoPerform(s, w, out, lease), w)
  {
  }

  lemma MarksWrite(s: System, w: nat, out: Outcome, lease: nat)
    requires w in s.tasks && CopyOk(s.world, s.tasks[w]) && !Quiet(s.tasks[w].pc) && !Renewing(s.tasks[w].pc)
    ensures WritesOwn(s, DoPerform(s, w, out, lease), w)
  {
  }

  lemma RowOnlyBySwap(s: System, w: nat, out: Outcome, lease: nat)
    requires w in s.tasks
    ensures var u := DoPerform(s, w, out, lease).world;
            if Swaps(s, w, out) then u == Swapped(s.world, s.tasks[w].cur.incoming.value) else u.row == s.world.row
  {
  }

  lemma PerformNewcomers(s: System, w: nat, out: Outcome, lease: nat)
    requires w in s.tasks && CopyOk(s.world, s.tasks[w]) && (Swaps(s, w, out) ==> Holds(s.world, s.tasks[w]))
    ensures Newcomers(s.world, DoPerform(s, w, out, lease).world)
  {
    RowOnlyBySwap(s, w, out, lease);
    if Swaps(s, w, out) {
      assert Brings(s.world.jobs[s.tasks[w].job], s.tasks[w].cur.incoming.value.ref);
    } else {
      WrittenIncoming(s, w, out, lease);
      NewcomersBy(s.world, DoPerform(s, w, out, lease).world, s.tasks[w].job);
    }
  }

  /** While another worker holds its job, no worker swaps the row. */
  lemma HoldersKeepRow(s: System, w: nat, x: nat, out: Outcome, lease: nat)
    requires Invariant(s) && w in s.tasks && x in s.tasks && x != w && Holds(s.world, s.tasks[x])
    requires Swaps(s, w, out) ==> Holds(s.world, s.tasks[w])
    ensures DoPerform(s, w, out, lease).world.row == s.world.row
  {
    RowOnlyBySwap(s, w, out, lease);
    OneHolds(s, w, x);
  }

  /** Two workers never both hold jobs past the point of no return. */
  lemma OneHolds(s: System, w: nat, x: nat)
    requires OneOpen(s.world) && FenceOk(s.world, s.tasks) && w in s.tasks && x in s.tasks && x != w
    ensures !(Holds(s.world, s.tasks[w]) && Holds(s.world, s.tasks[x]))
  {
    assert CopyOk(s.world, s.tasks[w]) && CopyOk(s.world, s.tasks[x]);
    assert !Rivals(s.world, s.tasks[w], s.tasks[x]);
    if Holds(s.world, s.tasks[w]) && Holds(s.world, s.tasks[x]) {
      assert Open(s.world.jobs[s.tasks[w].job].phase) && Open(s.world.jobs[s.tasks[x].job].phase);
    }
  }

  // ---------------------------------------------------------------------------
  // Every step keeps the invariant.

  /** A job no one holds after a step was held by no one before it, as far as a copy can tell. */
  lemma HeldBefore(a: World, b: World, t: Task)
    requires CopyOk(a, t) && JobsFollow(a, b)
    ensures CopyOk(b, t) && (Holds(b, t) ==> Holds(a, t))
  {
  }

  /** Workers that did not step. */
  lemma OthersKept(s: System, b: World, x: nat)
    requires Invariant(s) && x in s.tasks && Follows(s.world, b) && Newcomers(s.world, b)
    requires Holds(s.world, s.tasks[x]) && Holds(b, s.tasks[x]) ==> b.row == s.world.row
    ensures PcOk(b, s.tasks[x])
  {
    HeldBefore(s.world, b, s.tasks[x]);
    OtherKept(s.world, b, s.tasks[x]);
  }

  /** All workers but one, after a step by that one. */
  lemma AllOthersKept(s: System, b: World, tasks: map<nat, Task>, w: nat)
    requires Invariant(s) && Follows(s.world, b) && Newcomers(s.world, b)
    requires forall x :: x in tasks && x != w ==> x in s.tasks && tasks[x] == s.tasks[x]
    requires forall x :: x in s.tasks && x != w && Holds(s.world, s.tasks[x]) && Holds(b, s.tasks[x]) ==> b.row == s.world.row
    requires w in tasks ==> PcOk(b, tasks[w])
    ensures PcsOk(b, tasks)
  {
    forall x | x in tasks ensures PcOk(b, tasks[x]) {
      if x != w {
        OthersKept(s, b, x);
      }
    }
  }

  /** A worker's step, whatever it is, keeps the invariant when it is sound and leaves others their row. */
  lemma StepDone(s: System, u: System, w: nat)
    requires Invariant(s) && w in s.tasks && StepShape(s, u, w) && Sound(s, u, w) && Newcomers(s.world, u.world)
    requires forall x :: x in s.tasks && x != w && Holds(s.world, s.tasks[x]) ==> u.world.row == s.world.row
    ensures Invariant(u) && Follows(s.world, u.world)
  {
    ShapeFences(s, u, w);
    StepPcs(s, u, w);
  }

  lemma StepPcs(s: System, u: System, w: nat)
    requires Invariant(s) && w in s.tasks && StepShape(s, u, w) && Newcomers(s.world, u.world)
    requires Follows(s.world, u.world) && (w in u.tasks ==> PcOk(u.world, u.tasks[w]))
    requires forall x :: x in s.tasks && x != w && Holds(s.world, s.tasks[x]) ==> u.world.row == s.world.row
    ensures PcsOk(u.world, u.tasks)
  {
    OthersStay(s, u, w);
    AllOthersKept(s, u.world, u.tasks, w);
  }

  lemma OthersStay(s: System, u: System, w: nat)
    requires w in s.tasks && StepShape(s, u, w)
    ensures forall x :: x in u.tasks && x != w ==> x in s.tasks && u.tasks[x] == s.tasks[x]
  {
  }

  lemma PerformStep(s: System, w: nat, out: Outcome, lease: nat)
    requires Invariant(s) && w in s.tasks && (Swaps(s, w, out) ==> Holds(s.world, s.tasks[w]))
    ensures var u := DoPerform(s, w, out, lease); Invariant(u) && Follows(s.world, u.world)
  {
    var u := DoPerform(s, w, out, lease);
    assert CopyOk(s.world, s.tasks[w]) && PcOk(s.world, s.tasks[w]);
    PerformShape(s, w, out, lease);
    PerformSound(s, w, out, lease);
    PerformNewcomers(s, w, out, lease);
    forall x | x in s.tasks && x != w && Holds(s.world, s.tasks[x]) ensures u.world.row == s.world.row {
      HoldersKeepRow(s, w, x, out, lease);
    }
    StepDone(s, u, w);
  }

  lemma RenewNewcomers(s: System, w: nat, lease: nat, next: Pc)
    requires w in s.tasks && CopyOk(s.world, s.tasks[w])
    ensures var u := DoRenew(s, w, lease, next).world; u.row == s.world.row && Newcomers(s.world, u)
  {
    NewcomersBy(s.world, DoRenew(s, w, lease, next).world, s.tasks[w].job);
  }

  lemma RenewStep(s: System, w: nat, lease: nat)
    requires Invariant(s) && w in s.tasks && Awaits(s.tasks[w].pc)
    ensures var u := DoRenew(s, w, lease, s.tasks[w].pc); Invariant(u) && Follows(s.world, u.world)
  {
    assert CopyOk(s.world, s.tasks[w]) && PcOk(s.world, s.tasks[w]);
    RenewShape(s, w, lease, s.tasks[w].pc);
    RenewSound(s, w, lease, s.tasks[w].pc);
    RenewNewcomers(s, w, lease, s.tasks[w].pc);
    StepDone(s, DoRenew(s, w, lease, s.tasks[w].pc), w);
  }

  /** A step outside the workers. */
  lemma WorldStep(s: System, b: World)
    requires Invariant(s) && WorldOk(b) && Follows(s.world, b) && Newcomers(s.world, b)
    requires forall x :: x in s.tasks && Holds(s.world, s.tasks[x]) ==> b.row == s.world.row
    ensures Invariant(s.(world := b))
  {
    FenceFollows(s.world, b, s.tasks);
    forall x | x in s.tasks ensures PcOk(b, s.tasks[x]) {
      OthersKept(s, b, x);
    }
  }

  lemma EventStep(s: System, e: Event)
    requires Invariant(s)
    ensures Invariant(s.(world := After(s.world, e))) && Follows(s.world, After(s.world, e))
  {
    EventKeeps(s.world, e);
    forall x | x in s.tasks && Holds(s.world, s.tasks[x]) ensures After(s.world, e).row == s.world.row {
      assert CopyOk(s.world, s.tasks[x]);
      assert Saved(s.world.jobs[s.tasks[x].job].phase);
    }
    WorldStep(s, After(s.world, e));
  }

  lemma PresentStep(s: System, g: Grant, use: Use)
    requires Invariant(s) && !Harms(s.world, g, use)
    ensures var u := DoPresent(s.world, g, use); Invariant(s.(world := u)) && Follows(s.world, u)
  {
    PresentKeeps(s.world, g, use);
    WorldStep(s, DoPresent(s.world, g, use));
  }

  lemma ClaimGranted(s: System, w: nat, j: nat, job: Job)
    requires Invariant(s) && w !in s.tasks && Claimable(s.world, j) && job.owner.Some?
    requires Retoken(s.world.jobs[j], job)
    ensures var t := System(SetJob(s.world, j, job), s.tasks[w := Task(j, job, Start)], Some(w));
            Invariant(t) && Follows(s.world, t.world)
  {
    var u, tasks := SetJob(s.world, j, job), s.tasks[w := Task(j, job, Start)];
    RetokenKeeps(s.world, j, job);
    FenceWrite(s.world, s.tasks, w, Task(j, job, Start));
    NewcomersBy(s.world, u, j);
    assert JobOk(u, u.jobs[j]);
    AllOthersKept(s, u, tasks, w);
  }

  lemma ClaimStep(s: System, w: nat, j: nat, owner: nat, lease: nat)
    requires Invariant(s)
    ensures Invariant(DoClaim(s, w, j, owner, lease))
    ensures Follows(s.world, DoClaim(s, w, j, owner, lease).world)
  {
    if w !in s.tasks && Claimable(s.world, j) {
      var job := Claimed(s.world.jobs[j], owner, s.world.now + lease);
      assert DoClaim(s, w, j, owner, lease) == System(SetJob(s.world, j, job), s.tasks[w := Task(j, job, Start)], Some(w));
      ClaimGranted(s, w, j, job);
    } else {
      assert DoClaim(s, w, j, owner, lease) == s;
      FollowsSelf(s.world);
    }
  }

  lemma StopStep(s: System, w: nat, loop: Option<nat>)
    requires Invariant(s) && w in s.tasks
    ensures Invariant(s.(tasks := s.tasks - {w}, loop := loop))
  {
    FenceSameCopy(s.world, s.tasks, w, Start);
  }

  // ---------------------------------------------------------------------------
  // Every action keeps the invariant.

  /**
   * The invariant as a single fact.  The quantifier in `Kept` serves no other purpose
   * than to keep the parts' definitions from the solver in proofs that only pass them
   * on; `Later` does the same for `Follows`, with a datatype of one value.
   */
  datatype Concern = TheWorld | TheFence | TheWorkers

  ghost predicate Upholds(c: Concern, s: System) {
    match c
    case TheWorld => WorldOk(s.world)
    case TheFence => FenceOk(s.world, s.tasks)
    case TheWorkers => PcsOk(s.world, s.tasks)
  }

  ghost predicate Kept(s: System) { forall c :: Upholds(c, s) }

  lemma KeptIsInvariant(s: System)
    ensures Kept(s) <==> Invariant(s)
  {
    if Kept(s) {
      assert Upholds(TheWorld, s) && Upholds(TheFence, s) && Upholds(TheWorkers, s);
    }
  }

  /** `b` comes after `a`. */
  ghost predicate Later(a: World, b: World) { forall way :: ComesAfter(way, a, b) }

  datatype Way = ByAnyStep

  ghost predicate ComesAfter(way: Way, a: World, b: World) {
    match way case ByAnyStep => Follows(a, b)
  }

  lemma LaterIsFollows(a: World, b: World)
    ensures Later(a, b) <==> Follows(a, b)
  {
    if Later(a, b) {
      assert ComesAfter(ByAnyStep, a, b);
    }
  }

  lemma Wrapped(s: System, t: System)
    requires Invariant(t) && Follows(s.world, t.world)
    ensures Kept(t) && Later(s.world, t.world)
  {
    KeptIsInvariant(t);
    LaterIsFollows(s.world, t.world);
  }

  lemma EventKept(s: System, e: Event)
    requires Kept(s)
    ensures var t := s.(world := After(s.world, e)); Kept(t) && Later(s.world, t.world)
  {
    KeptIsInvariant(s);
    EventStep(s, e);
    Wrapped(s, s.(world := After(s.world, e)));
  }

  lemma PresentKept(s: System, g: Grant, use: Use)
    requires Kept(s) && !Harms(s.world, g, use)
    ensures var t := s.(world := DoPresent(s.world, g, use)); Kept(t) && Later(s.world, t.world)
  {
    KeptIsInvariant(s);
    PresentStep(s, g, use);
    Wrapped(s, s.(world := DoPresent(s.world, g, use)));
  }

  lemma ClaimKept(s: System, w: nat, j: nat, owner: nat, lease: nat)
    requires Kept(s)
    ensures var t := DoClaim(s, w, j, owner, lease); Kept(t) && Later(s.world, t.world)
  {
    KeptIsInvariant(s);
    ClaimStep(s, w, j, owner, lease);
    Wrapped(s, DoClaim(s, w, j, owner, lease));
  }

  lemma RenewKept(s: System, w: nat, lease: nat)
    requires Kept(s) && w in s.tasks && Awaits(s.tasks[w].pc)
    ensures var t := DoRenew(s, w, lease, s.tasks[w].pc); Kept(t) && Later(s.world, t.world)
  {
    KeptIsInvariant(s);
    RenewStep(s, w, lease);
    Wrapped(s, DoRenew(s, w, lease, s.tasks[w].pc));
  }

  lemma PerformKept(s: System, w: nat, out: Outcome, lease: nat)
    requires Kept(s) && w in s.tasks && (Swaps(s, w, out) ==> Holds(s.world, s.tasks[w]))
    ensures var t := DoPerform(s, w, out, lease); Kept(t) && Later(s.world, t.world)
  {
    KeptIsInvariant(s);
    PerformStep(s, w, out, lease);
    Wrapped(s, DoPerform(s, w, out, lease));
  }

  lemma StopKept(s: System, w: nat, loop: Option<nat>)
    requires Kept(s) && w in s.tasks
    ensures var t := s.(tasks := s.tasks - {w}, loop := loop); Kept(t) && Later(s.world, t.world)
  {
    KeptIsInvariant(s);
    StopStep(s, w, loop);
    FollowsSelf(s.world);
    Wrapped(s, s.(tasks := s.tasks - {w}, loop := loop));
  }

  lemma SelfKept(s: System)
    ensures Later(s.world, s.world)
  {
    FollowsSelf(s.world);
    LaterIsFollows(s.world, s.world);
  }

  /** A swap that takes effect is made by a worker that holds its job. */
  predicate HeldSwap(s: System, exclusive: bool, a: Action) {
    a.Perform? && a.worker in s.tasks && (exclusive ==> MayRun(s, a.worker)) && Swaps(s, a.worker, a.outcome) ==>
      Holds(s.world, s.tasks[a.worker])
  }

  /** No validation's claim that is presented now does harm. */
  predicate Harmless(s: System, exclusive: bool, a: Action) {
    a.Present? && !(exclusive && s.loop.Some?) ==> !Harms(s.world, a.grant, a.use)
  }

  lemma StepKeeps(s: System, exclusive: bool, a: Action)
    requires Kept(s) && HeldSwap(s, exclusive, a) && Harmless(s, exclusive, a)
    ensures Kept(Apply(s, exclusive, a)) && Later(s.world, Apply(s, exclusive, a).world)
  {
    SelfKept(s);
    match a
    case Outside(e) => EventKept(s, e);
    case Present(g, use) =>
      if !(exclusive && s.loop.Some?) {
        PresentKept(s, g, use);
      }
    case Claim(w, j, owner, lease) => ClaimKept(s, w, j, owner, lease);
    case Renew(w, lease) =>
      if w in s.tasks && Awaits(s.tasks[w].pc) {
        RenewKept(s, w, lease);
      }
    case Perform(w, out, lease) =>
      if w in s.tasks && (exclusive ==> MayRun(s, w)) {
        PerformKept(s, w, out, lease);
      }
    case Stop(w) =>
      if w in s.tasks {
        StopKept(s, w, if s.loop == Some(w) then None else s.loop);
      }
  }
}
