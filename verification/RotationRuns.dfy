/**
 * Safety of credential rotation over every run: any number of recovery workers,
 * lease expiries, crashes, lost replies and delayed effects on the Agent.
 */
module RotationRuns {
  import opened Wrappers
  import opened RotationSaga
  import opened RotationWorld

  // ---------------------------------------------------------------------------
  // Fencing, in every system.

  /** The worker's copy is the job's row: no one has written it since. */
  predicate Holds(v: World, t: Task) {
    t.job in v.jobs && v.jobs[t.job].revision == t.cur.revision
  }

  /** A worker's copy is the row itself or an older version of it. */
  predicate CopyOk(v: World, t: Task) {
    && t.job in v.jobs && t.cur.owner.Some? && Saved(t.cur.phase) && !Unsaved(v.jobs[t.job].phase)
    && t.cur.revision <= v.jobs[t.job].revision
    && (Holds(v, t) ==> v.jobs[t.job] == t.cur)
  }

  predicate Rivals(v: World, t: Task, u: Task) {
    t.job == u.job && Holds(v, t) && Holds(v, u)
  }

  /** No two workers hold the same job. */
  ghost predicate OneHolder(v: World, tasks: map<nat, Task>) {
    forall w, x :: w in tasks && x in tasks && w != x ==> !Rivals(v, tasks[w], tasks[x])
  }

  ghost predicate FenceOk(v: World, tasks: map<nat, Task>) {
    (forall w :: w in tasks ==> CopyOk(v, tasks[w])) && OneHolder(v, tasks)
  }

  /** The part of `Follows` that fencing rests on. */
  ghost predicate JobsFollow(a: World, b: World) {
    forall k :: k in a.jobs ==> k in b.jobs && JobFollows(a.jobs[k], b.jobs[k])
  }

  lemma FenceFollows(a: World, b: World, tasks: map<nat, Task>)
    requires FenceOk(a, tasks) && JobsFollow(a, b)
    ensures FenceOk(b, tasks)
  {
  }

  /** Dropping a worker, or moving it on with the same copy. */
  lemma FenceSameCopy(v: World, tasks: map<nat, Task>, w: nat, pc: Pc)
    requires FenceOk(v, tasks) && w in tasks
    ensures FenceOk(v, tasks - {w}) && FenceOk(v, tasks[w := tasks[w].(pc := pc)])
  {
    assert CopyOk(v, tasks[w].(pc := pc));
    assert Holds(v, tasks[w].(pc := pc)) == Holds(v, tasks[w]);
  }

  /** A write under the current revision makes its writer the one holder. */
  lemma FenceWrite(v: World, tasks: map<nat, Task>, w: nat, t: Task)
    requires FenceOk(v, tasks)
    requires t.job in v.jobs && Saved(t.cur.phase) && t.cur.owner.Some? && t.cur.revision == v.jobs[t.job].revision + 1
    ensures FenceOk(SetJob(v, t.job, t.cur), tasks[w := t])
  {
    var u, all := SetJob(v, t.job, t.cur), tasks[w := t];
    forall x | x in all ensures CopyOk(u, all[x]) {
      assert x != w ==> CopyOk(v, tasks[x]);
    }
    forall x, y | x in all && y in all && x != y ensures !Rivals(u, all[x], all[y]) {
      assert x != w ==> CopyOk(v, tasks[x]);
      assert y != w ==> CopyOk(v, tasks[y]);
      assert x != w && y != w ==> !Rivals(v, tasks[x], tasks[y]);
    }
  }

  /** A write that leaves its writer behind, or gone. */
  lemma FenceLastWrite(v: World, tasks: map<nat, Task>, k: nat, job: Job)
    requires FenceOk(v, tasks) && k in v.jobs && job.revision == v.jobs[k].revision + 1 && !Unsaved(job.phase)
    ensures FenceOk(SetJob(v, k, job), tasks)
  {
    FenceFollows(v, SetJob(v, k, job), tasks);
  }

  lemma EventFences(v: World, e: Event)
    ensures JobsFollow(v, After(v, e))
  {
  }

  predicate Continues(j: Job, cur: Job, job: Job) {
    job.owner.Some? && (job.phase == j.phase || job.phase == cur.phase || job.phase == Activated)
  }

  /** How one worker's step changes the journal: not at all, or under the job's current owner and revision. */
  ghost predicate StepShape(s: System, t: System, w: nat)
    requires w in s.tasks
  {
    var cur, k := s.tasks[w].cur, s.tasks[w].job;
    && (t.tasks == s.tasks - {w} || (w in t.tasks && t.tasks == s.tasks[w := t.tasks[w]] && t.tasks[w].job == k))
    && if t.world.jobs == s.world.jobs then w in t.tasks ==> t.tasks[w].cur == cur
       else
         && k in s.world.jobs && Token(s.world.jobs[k], cur)
         && k in t.world.jobs && t.world.jobs == s.world.jobs[k := t.world.jobs[k]]
         && t.world.jobs[k].revision == s.world.jobs[k].revision + 1
         && (Unsaved(t.world.jobs[k].phase) ==> t.world.jobs[k].phase in {s.world.jobs[k].phase, cur.phase})
         && (w in t.tasks ==> t.tasks[w].cur == cur || (t.tasks[w].cur == t.world.jobs[k] && Continues(s.world.jobs[k], cur, t.world.jobs[k])))
  }

  lemma RenewShape(s: System, w: nat, lease: nat, next: Pc)
    requires w in s.tasks
    ensures StepShape(s, DoRenew(s, w, lease, next), w)
  {
    var t := DoRenew(s, w, lease, next);
    if w in t.tasks {
      assert t.world.jobs[s.tasks[w].job] != s.world.jobs[s.tasks[w].job];
    }
  }

  /** Steps that only move the worker, or end it. */
  lemma MoveShape(s: System, w: nat, v: World, pc: Pc)
    requires w in s.tasks && v.jobs == s.world.jobs
    ensures StepShape(s, Goto(s.(world := v), w, s.tasks[w].cur, pc), w) && StepShape(s, End(s.(world := v), w), w)
  {
  }

  lemma WriteShape(s: System, w: nat, job: Job, pc: Pc)
    requires w in s.tasks && s.tasks[w].job in s.world.jobs && Token(s.world.jobs[s.tasks[w].job], s.tasks[w].cur)
    requires job.revision == s.world.jobs[s.tasks[w].job].revision + 1
    requires Unsaved(job.phase) ==> job.phase in {s.world.jobs[s.tasks[w].job].phase, s.tasks[w].cur.phase}
    ensures StepShape(s, WriteAndEnd(s, w, job), w)
    ensures Continues(s.world.jobs[s.tasks[w].job], s.tasks[w].cur, job) ==> StepShape(s, Write(s, w, job, pc), w)
    ensures StepShape(s, Goto(s.(world := SetJob(s.world, s.tasks[w].job, job)), w, s.tasks[w].cur, pc), w)
  {
    var k := s.tasks[w].job;
    assert s.world.jobs[k := job][k] != s.world.jobs[k];
  }

  /** What the worker sends does not change the journal. */
  lemma SendShape(s: System, t: System, w: nat, r: Request)
    requires w in s.tasks
    ensures StepShape(s, t, w) ==> StepShape(s, Send(t, r), w)
    ensures StepShape(Send(s, r), t, w) ==> StepShape(s, t, w)
  {
  }

  lemma RenewAfterSwapShape(s: System, w: nat, lease: nat)
    requires w in s.tasks
    ensures StepShape(s, DoRenewAfterSwap(s, w, lease), w)
  {
    RenewShape(s, w, lease, AwaitRevokeOld);
    RenewShape(s, w, lease, DeleteOld);
    if s.tasks[w].cur.oldKind.Managed? {
      SendShape(s, DoRenew(s, w, lease, AwaitRevokeOld), w, Revoke(s.tasks[w].cur.oldKind.rid));
    }
  }

  lemma MarkActivatedShape(s: System, w: nat, out: Outcome)
    requires w in s.tasks
    ensures StepShape(s, DoMarkActivated(s, w, out), w)
  {
    var cur := s.tasks[w].cur;
    if out == Ok && Fenced(s, w) {
      WriteShape(s, w, cur.(phase := Activated, revision := cur.revision + 1), ReadRow);
    } else {
      MoveShape(s, w, s.world, Start);
    }
  }

  lemma MarkConsumedShape(s: System, w: nat, out: Outcome, lease: nat)
    requires w in s.tasks && s.tasks[w].pc == MarkConsumed
    ensures StepShape(s, DoPerform(s, w, out, lease), w)
  {
    if out == Ok && Fenced(s, w) {
      WriteShape(s, w, Emptied(s.tasks[w].cur, Consumed), Start);
    } else {
      MoveShape(s, w, s.world, Start);
    }
  }

  lemma MarkFailedShape(s: System, w: nat, out: Outcome, lease: nat)
    requires w in s.tasks && s.tasks[w].pc == MarkFailed
    ensures StepShape(s, DoPerform(s, w, out, lease), w)
  {
    var cur := s.tasks[w].cur;
    if out == Ok && Fenced(s, w) && cur.incoming.Some? {
      WriteShape(s, w, Emptied(cur, Failed), DeleteNew(cur.incoming.value.ref));
    } else {
      MoveShape(s, w, s.world, Start);
    }
  }

  lemma ResidualShape(s: System, w: nat)
    requires w in s.tasks
    ensures StepShape(s, DoResidual(s, w), w)
  {
    var t := s.tasks[w];
    if t.job in s.world.jobs && Token(s.world.jobs[t.job], t.cur) {
      var j := s.world.jobs[t.job];
      WriteShape(s, w, j.(owner := None, leaseUntil := 0, revision := j.revision + 1), Start);
    }
    MoveShape(s, w, s.world, Start);
  }

  lemma MarkChangedShape(s: System, w: nat, out: Outcome)
    requires w in s.tasks
    ensures StepShape(s, DoMarkChanged(s, w, out), w)
  {
    var t := s.tasks[w];
    if out == Ok && Fenced(s, w) && t.cur.phase == Activated && t.cur.incoming.Some? {
      var r := Revoke(t.cur.incoming.value.rid);
      var job := t.cur.(revision := t.cur.revision + 1);
      WriteShape(Send(s, r), w, job, AwaitRevokeNew);
      SendShape(s, Write(Send(s, r), w, job, AwaitRevokeNew), w, r);
    } else {
      MoveShape(s, w, s.world, Start);
    }
  }

  /** The calls that leave the journal alone. */
  predicate Quiet(pc: Pc) {
    pc in {Start, AwaitActivate, ReadRow, SwapRow, AwaitRevokeOld, DeleteOld, AwaitRevokeNew} || pc.DeleteNew?
  }

  /** The calls that renew the claim. */
  predicate Renewing(pc: Pc) { pc in {ActivateReplied, ErrorReplied, OldRevoked, NewRevoked, RenewAfterSwap} }

  lemma PerformShape(s: System, w: nat, out: Outcome, lease: nat)
    requires w in s.tasks
    ensures StepShape(s, DoPerform(s, w, out, lease), w)
  {
    match s.tasks[w].pc
    case ActivateReplied => RenewShape(s, w, lease, MarkActivated);
    case ErrorReplied => RenewShape(s, w, lease, Residual);
    case OldRevoked => RenewShape(s, w, lease, DeleteOld);
    case NewRevoked => RenewShape(s, w, lease, MarkFailed);
    case RenewAfterSwap => RenewAfterSwapShape(s, w, lease);
    case MarkChanged => MarkChangedShape(s, w, out);
    case MarkActivated => MarkActivatedShape(s, w, out);
    case MarkConsumed => MarkConsumedShape(s, w, out, lease);
    case MarkFailed => MarkFailedShape(s, w, out, lease);
    case Residual => ResidualShape(s, w);
    case _ => QuietShape(s, w, out, lease);
  }

  /** Steps that leave the journal alone. */
  lemma QuietShape(s: System, w: nat, out: Outcome, lease: nat)
    requires w in s.tasks && Quiet(s.tasks[w].pc)
    ensures StepShape(s, DoPerform(s, w, out, lease), w)
  {
    var t := DoPerform(s, w, out, lease);
    assert t.world.jobs == s.world.jobs;
    MoveShape(s, w, t.world, if w in t.tasks then t.tasks[w].pc else Start);
  }

  lemma ShapeFences(s: System, t: System, w: nat)
    requires FenceOk(s.world, s.tasks) && w in s.tasks && StepShape(s, t, w)
    ensures FenceOk(t.world, t.tasks)
  {
    var k := s.tasks[w].job;
    assert CopyOk(s.world, s.tasks[w]);
    if t.world.jobs == s.world.jobs {
      FenceFollows(s.world, t.world, s.tasks);
      FenceSameCopy(t.world, s.tasks, w, if w in t.tasks then t.tasks[w].pc else Start);
      if w in t.tasks {
        assert t.tasks[w] == s.tasks[w].(pc := t.tasks[w].pc);
      }
    } else if w in t.tasks && t.tasks[w].cur == t.world.jobs[k] {
      FenceWrite(s.world, s.tasks, w, t.tasks[w]);
      FenceFollows(SetJob(s.world, k, t.world.jobs[k]), t.world, t.tasks);
    } else {
      FenceLastWrite(s.world, s.tasks, k, t.world.jobs[k]);
      FenceFollows(SetJob(s.world, k, t.world.jobs[k]), t.world, s.tasks);
      FenceSameCopy(t.world, s.tasks, w, if w in t.tasks then t.tasks[w].pc else Start);
      if w in t.tasks {
        assert t.tasks[w] == s.tasks[w].(pc := t.tasks[w].pc);
      }
    }
  }

  lemma ClaimFences(s: System, w: nat, j: nat, owner: nat, lease: nat)
    requires FenceOk(s.world, s.tasks)
    ensures var t := DoClaim(s, w, j, owner, lease); FenceOk(t.world, t.tasks)
  {
    if w !in s.tasks && Claimable(s.world, j) {
      FenceWrite(s.world, s.tasks, w, Task(j, Claimed(s.world.jobs[j], owner, s.world.now + lease), Start));
    }
  }

  /** The fence holds step by step, whether or not workers interrupt each other between awaits. */
  lemma StepFences(s: System, exclusive: bool, a: Action)
    requires FenceOk(s.world, s.tasks)
    ensures var t := Apply(s, exclusive, a); FenceOk(t.world, t.tasks)
  {
    match a
    case Outside(e) =>
      EventFences(s.world, e);
      FenceFollows(s.world, After(s.world, e), s.tasks);
    case Present(g, use) => FenceFollows(s.world, DoPresent(s.world, g, use), s.tasks);
    case Claim(w, j, owner, lease) => ClaimFences(s, w, j, owner, lease);
    case Renew(w, lease) =>
      if w in s.tasks {
        RenewShape(s, w, lease, s.tasks[w].pc);
        ShapeFences(s, DoRenew(s, w, lease, s.tasks[w].pc), w);
      }
    case Perform(w, out, lease) =>
      if w in s.tasks {
        PerformShape(s, w, out, lease);
        ShapeFences(s, DoPerform(s, w, out, lease), w);
      }
    case Stop(w) =>
      if w in s.tasks {
        FenceSameCopy(s.world, s.tasks, w, Start);
      }
  }
}
