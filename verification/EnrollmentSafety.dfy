/**
 * What every step of a registration keeps, whether or not workers interrupt each
 * other between awaits.
 */
module EnrollmentSafety {
  import opened Wrappers
  import opened EnrollmentSaga

  // ---------------------------------------------------------------------------
  // How jobs develop, in every run.

  /** A job keeps its identity; it ends once, and stays as it is until its revision grows. */
  predicate JobFollows(a: Job, b: Job) {
    && b.rid == a.rid && b.instance == a.instance && b.endpoint == a.endpoint && b.details == a.details && b.local == a.local
    && (b.ref == a.ref || b.ref.None?)
    && a.revision <= b.revision && (Saved(a.phase) && a.revision == b.revision ==> a == b)
    && (a.phase == Activated ==> b.phase != Requested) && (!Saved(a.phase) ==> b.phase == a.phase)
  }

  ghost predicate Follows(a: World, b: World) {
    && a.used <= b.used && a.usedRids <= b.usedRids && a.sent <= b.sent
    && (forall k :: k in a.jobs ==> k in b.jobs && JobFollows(a.jobs[k], b.jobs[k]))
    && (forall rid :: rid in a.usedRids && StatusOf(a, rid) != Waiting ==> StatusOf(b, rid) != Waiting)
    && (forall ref :: ref in b.store && ref in a.used ==> ref in a.store)
  }

  lemma FollowsSelf(v: World)
    ensures Follows(v, v)
  {
  }

  lemma FollowsTrans(a: World, b: World, c: World)
    requires Follows(a, b) && Follows(b, c)
    ensures Follows(a, c)
  {
  }

  /** An activated job's credential is known to the Agent. */
  predicate JobOk(v: World, j: Job) {
    && (Saved(j.phase) ==> j.ref.Some?) && (j.phase == Consumed ==> j.ref.None?) && (j.ref.Some? ==> j.ref.value in v.used)
    && (j.rid.Some? ==> j.rid.value in v.usedRids)
    && (j.phase == Activated && j.rid.Some? ==> StatusOf(v, j.rid.value) != Waiting)
  }

  /** The jobs are in order, and a row under a job's id is the job's own. */
  ghost predicate JobsOk(v: World) {
    forall k :: k in v.jobs ==> JobOk(v, v.jobs[k]) && (k in v.rows ==> v.jobs[k].phase == Consumed)
  }

  predicate Holds(v: World, t: Task) {
    t.job in v.jobs && v.jobs[t.job].revision == t.cur.revision
  }

  predicate Activating(pc: Pc) { pc in {AwaitActivate, ActivateReplied, ErrorReplied, MarkActivated} }

  predicate Adding(pc: Pc) {
    pc in {RenewForCommit, Commit, ReadRow, Compensate, AwaitRevoke, RevokeReplied, RevokeFailed, DeleteNew, MarkFailed}
  }

  /** The worker's copy is the row itself or an older version of it. */
  predicate CopyOk(v: World, t: Task) {
    && t.job in v.jobs && t.cur.owner.Some? && Saved(t.cur.phase) && t.cur.ref.Some?
    && (t.cur.rid.Some? ==> t.cur.rid.value in v.usedRids)
    && JobFollows(t.cur, v.jobs[t.job])
  }

  /** What a worker knows at each point of its program. */
  predicate PcOk(v: World, t: Task) {
    && (Activating(t.pc) ==> t.cur.phase == Requested) && (Adding(t.pc) ==> t.cur.phase == Activated)
    && (t.pc in {AwaitActivate, ActivateReplied, AwaitRevoke} ==> t.cur.rid.Some?)
    && (t.pc in {ActivateReplied, MarkActivated} && t.cur.rid.Some? ==> StatusOf(v, t.cur.rid.value) != Waiting)
  }

  ghost predicate TasksOk(v: World, tasks: map<nat, Task>) {
    forall w :: w in tasks ==> CopyOk(v, tasks[w]) && PcOk(v, tasks[w])
  }

  /** What holds in every run. */
  ghost predicate Basic(s: System) { JobsOk(s.world) && TasksOk(s.world, s.tasks) }

  lemma OthersFollow(a: World, b: World, tasks: map<nat, Task>)
    requires TasksOk(a, tasks) && Follows(a, b)
    ensures TasksOk(b, tasks)
  {
    forall w | w in tasks ensures CopyOk(b, tasks[w]) && PcOk(b, tasks[w]) {
      assert CopyOk(a, tasks[w]) && PcOk(a, tasks[w]);
    }
  }

  // ---------------------------------------------------------------------------
  // Events.

  /** New credentials are new to everybody. */
  lemma DrawingFollows(v: World, ref: nat, rid: Option<nat>, status: Status)
    requires JobsOk(v) && !Drawn(v, ref, rid)
    ensures Follows(v, Drawing(v, ref, rid, status)) && JobsOk(Drawing(v, ref, rid, status))
  {
    var u := Drawing(v, ref, rid, status);
    assert forall r :: r in v.usedRids ==> StatusOf(u, r) == StatusOf(v, r);
    forall k | k in u.jobs ensures JobOk(u, u.jobs[k]) {
      assert JobOk(v, v.jobs[k]);
    }
  }

  /** What becomes of the rows concerns jobs only where the row is a job's. */
  lemma RowsFollow(v: World, rows: map<nat, Record>)
    requires JobsOk(v) && forall k :: k in rows && k in v.jobs ==> k in v.rows
    ensures Follows(v, v.(rows := rows)) && JobsOk(v.(rows := rows))
  {
    var u := v.(rows := rows);
    assert forall rid :: StatusOf(u, rid) == StatusOf(v, rid);
    forall k | k in u.jobs ensures JobOk(u, u.jobs[k]) && (k in u.rows ==> u.jobs[k].phase == Consumed) {
      assert JobOk(v, v.jobs[k]);
    }
  }

  lemma NewJobFollows(v: World, j: nat, job: Job)
    requires JobsOk(v) && j !in v.jobs && j !in v.rows && JobOk(v, job)
    ensures Follows(v, SetJob(v, j, job)) && JobsOk(SetJob(v, j, job))
  {
    var u := SetJob(v, j, job);
    assert forall rid :: StatusOf(u, rid) == StatusOf(v, rid);
    forall k | k in u.jobs ensures JobOk(u, u.jobs[k]) {
      assert k != j ==> JobOk(v, v.jobs[k]);
    }
  }

  lemma RetiringFollows(v: World, r: Record)
    requires JobsOk(v)
    ensures Follows(v, Retiring(v, r)) && JobsOk(Retiring(v, r))
  {
    var u := Retiring(v, r);
    assert forall rid :: StatusOf(u, rid) == StatusOf(v, rid);
    forall k | k in u.jobs ensures JobOk(u, u.jobs[k]) {
      assert JobOk(v, v.jobs[k]);
    }
  }

  lemma RequestFollows(v: World, e: Event)
    requires JobsOk(v) && e.RequestActivation? && After(v, e) != v
    ensures Follows(v, After(v, e)) && JobsOk(After(v, e))
  {
    var u := Drawing(v, e.ref, e.rid, Waiting);
    var job := After(v, e).jobs[e.job];
    DrawingFollows(v, e.ref, e.rid, Waiting);
    NewJobFollows(u, e.job, job);
    assert After(v, e) == SetJob(u, e.job, job);
    FollowsTrans(v, u, SetJob(u, e.job, job));
  }

  lemma RegisterFollows(v: World, e: Event)
    requires JobsOk(v) && e.Register? && After(v, e) != v
    ensures Follows(v, After(v, e)) && JobsOk(After(v, e))
  {
    var u := Drawing(v, e.ref, e.rid, Active);
    DrawingFollows(v, e.ref, e.rid, Active);
    RowsFollow(u, After(v, e).rows);
    assert After(v, e) == u.(rows := After(v, e).rows);
    FollowsTrans(v, u, After(v, e));
  }

  lemma RotateFollows(v: World, e: Event)
    requires JobsOk(v) && e.Rotate? && After(v, e) != v
    ensures Follows(v, After(v, e)) && JobsOk(After(v, e))
  {
    var t := Retiring(v, v.rows[e.id]);
    var u := Drawing(t, e.ref, Some(e.successor), Active);
    RetiringFollows(v, v.rows[e.id]);
    DrawingFollows(t, e.ref, Some(e.successor), Active);
    RowsFollow(u, After(v, e).rows);
    assert After(v, e) == u.(rows := After(v, e).rows);
    FollowsTrans(v, t, u);
    FollowsTrans(v, u, After(v, e));
  }

  lemma RemoveFollows(v: World, e: Event)
    requires JobsOk(v) && e.Remove? && After(v, e) != v
    ensures Follows(v, After(v, e)) && JobsOk(After(v, e))
  {
    var u := Retiring(v, v.rows[e.id]);
    RetiringFollows(v, v.rows[e.id]);
    RowsFollow(u, After(v, e).rows);
    FollowsTrans(v, u, After(v, e));
  }

  /** The Agent's view of one credential changes. */
  lemma ActsFollow(v: World, r: Request)
    requires JobsOk(v)
    ensures Follows(v, DoAgentActs(v, r)) && JobsOk(DoAgentActs(v, r))
  {
    var u := DoAgentActs(v, r);
    assert forall rid :: StatusOf(v, rid) != Waiting ==> StatusOf(u, rid) != Waiting;
    forall k | k in u.jobs ensures JobOk(u, u.jobs[k]) {
      assert JobOk(v, v.jobs[k]);
    }
  }

  lemma ShrinkFollows(v: World, store: set<nat>)
    requires JobsOk(v) && store <= v.store
    ensures Follows(v, v.(store := store)) && JobsOk(v.(store := store))
  {
    var u := v.(store := store);
    assert forall rid :: StatusOf(u, rid) == StatusOf(v, rid);
    forall k | k in u.jobs ensures JobOk(u, u.jobs[k]) {
      assert JobOk(v, v.jobs[k]);
    }
  }

  lemma CleaningFollows(v: World, j: nat, recorded: bool)
    requires JobsOk(v) && DoCleanTerminal(v, j, recorded) != v
    ensures Follows(v, DoCleanTerminal(v, j, recorded)) && JobsOk(DoCleanTerminal(v, j, recorded))
  {
    var u := DropRef(v, v.jobs[j].ref.value);
    ShrinkFollows(v, u.store);
    if recorded {
      var job := v.jobs[j].(ref := None);
      assert JobOk(u, u.jobs[j]);
      SetJobJobs(u, j, job);
      FollowsTrans(v, u, SetJob(u, j, job));
    }
  }

  lemma EventKeeps(v: World, e: Event)
    requires JobsOk(v)
    ensures Follows(v, After(v, e)) && JobsOk(After(v, e))
  {
    FollowsSelf(v);
    if After(v, e) != v {
      match e
      case RequestActivation(_, _, _, _, _, _, _) => RequestFollows(v, e);
      case Register(_, _, _, _, _, _) => RegisterFollows(v, e);
      case Edit(_, _, _) => RowsFollow(v, After(v, e).rows);
      case Rotate(_, _, _) => RotateFollows(v, e);
      case Remove(_) => RemoveFollows(v, e);
      case CleanTerminal(j, recorded) => CleaningFollows(v, j, recorded);
      case AgentActs(r) => ActsFollow(v, r);
      case CleanOrphans => ShrinkFollows(v, After(v, e).store);
      case Tick(to) => TickFollows(v, to);
    }
  }

  lemma TickFollows(v: World, to: int)
    requires JobsOk(v)
    ensures Follows(v, v.(now := to)) && JobsOk(v.(now := to))
  {
    var u := v.(now := to);
    assert forall rid :: StatusOf(u, rid) == StatusOf(v, rid);
    forall k | k in u.jobs ensures JobOk(u, u.jobs[k]) {
      assert JobOk(v, v.jobs[k]);
    }
  }

  /** A rewriting of one job. */
  lemma SetJobJobs(v: World, k: nat, job: Job)
    requires JobsOk(v) && k in v.jobs && k !in v.rows && JobFollows(v.jobs[k], job) && JobOk(v, job)
    ensures JobsOk(SetJob(v, k, job)) && Follows(v, SetJob(v, k, job))
  {
    var u := SetJob(v, k, job);
    forall i | i in u.jobs ensures JobOk(u, u.jobs[i]) {
      assert i != k ==> JobOk(v, v.jobs[i]);
    }
  }

  lemma IntrudeJobs(v: World, j: nat, fails: bool)
    requires JobsOk(v)
    ensures JobsOk(DoIntrude(v, j, fails)) && Follows(v, DoIntrude(v, j, fails))
  {
    FollowsSelf(v);
    if j in v.jobs && Saved(v.jobs[j].phase) {
      assert JobOk(v, v.jobs[j]);
      SetJobJobs(v, j, DoIntrude(v, j, fails).jobs[j]);
    }
  }

  // ---------------------------------------------------------------------------
  // The workers.

  /** A worker's step keeps the jobs in order and leaves the worker, if it goes on, as it should be. */
  ghost predicate Sound(s: System, u: System, w: nat) {
    && JobsOk(u.world) && Follows(s.world, u.world)
    && (u.tasks == s.tasks - {w} || (w in u.tasks && u.tasks == s.tasks[w := u.tasks[w]] && CopyOk(u.world, u.tasks[w]) && PcOk(u.world, u.tasks[w])))
  }

  ghost predicate Prepared(s: System, w: nat) {
    w in s.tasks && JobsOk(s.world) && CopyOk(s.world, s.tasks[w]) && PcOk(s.world, s.tasks[w])
  }

  lemma EndSound(s: System, w: nat)
    requires Prepared(s, w)
    ensures Sound(s, End(s, w), w)
  {
    FollowsSelf(s.world);
  }

  lemma GotoSound(s: System, w: nat, pc: Pc)
    requires Prepared(s, w) && PcOk(s.world, s.tasks[w].(pc := pc))
    ensures Sound(s, Goto(s, w, s.tasks[w].cur, pc), w)
  {
    FollowsSelf(s.world);
    assert Goto(s, w, s.tasks[w].cur, pc).tasks[w] == s.tasks[w].(pc := pc);
  }

  /** A job that a worker holds is not registered. */
  lemma HeldJob(s: System, w: nat)
    requires Prepared(s, w) && Holds(s.world, s.tasks[w])
    ensures s.world.jobs[s.tasks[w].job] == s.tasks[w].cur && JobOk(s.world, s.tasks[w].cur) && s.tasks[w].job !in s.world.rows
  {
    assert JobOk(s.world, s.world.jobs[s.tasks[w].job]);
  }

  lemma WriteSound(s: System, w: nat, job: Job, pc: Pc)
    requires Prepared(s, w) && Holds(s.world, s.tasks[w])
    requires JobFollows(s.tasks[w].cur, job) && JobOk(s.world, job) && job.owner.Some? && Saved(job.phase)
    requires PcOk(s.world, Task(s.tasks[w].job, job, pc))
    ensures Sound(s, Write(s, w, job, pc), w)
  {
    HeldJob(s, w);
    SetJobJobs(s.world, s.tasks[w].job, job);
    assert Write(s, w, job, pc).tasks[w] == Task(s.tasks[w].job, job, pc);
  }

  lemma WriteAndEndSound(s: System, w: nat, job: Job)
    requires Prepared(s, w) && Holds(s.world, s.tasks[w]) && JobFollows(s.tasks[w].cur, job) && JobOk(s.world, job)
    ensures Sound(s, WriteAndEnd(s, w, s.world, job), w)
  {
    HeldJob(s, w);
    SetJobJobs(s.world, s.tasks[w].job, job);
  }

  lemma RenewSound(s: System, w: nat, lease: nat, next: Pc)
    requires Prepared(s, w) && PcOk(s.world, s.tasks[w].(pc := next))
    ensures Sound(s, DoRenew(s, w, lease, next), w)
  {
    var t := s.tasks[w];
    if LiveToken(s.world.jobs[t.job], t.cur, s.world.now) {
      HeldJob(s, w);
      var job := t.cur.(leaseUntil := s.world.now + lease, revision := t.cur.revision + 1);
      assert DoRenew(s, w, lease, next) == Write(s, w, job, next);
      WriteSound(s, w, job, next);
    } else {
      EndSound(s, w);
    }
  }

  /** A request that leaves, or a file that goes. */
  lemma ChangeSound(s: System, w: nat, v: World, pc: Pc)
    requires Prepared(s, w) && PcOk(s.world, s.tasks[w].(pc := pc))
    requires v == s.world.(sent := v.sent, store := v.store) && s.world.sent <= v.sent && v.store <= s.world.store
    ensures Sound(s, Goto(s.(world := v), w, s.tasks[w].cur, pc), w)
  {
    var u := Goto(s.(world := v), w, s.tasks[w].cur, pc);
    assert forall rid :: StatusOf(v, rid) == StatusOf(s.world, rid);
    forall k | k in v.jobs ensures JobOk(v, v.jobs[k]) {
      assert JobOk(s.world, s.world.jobs[k]);
    }
    assert u.tasks[w] == s.tasks[w].(pc := pc);
  }

  lemma StartSound(s: System, w: nat, out: Outcome)
    requires Prepared(s, w) && s.tasks[w].pc == Start
    ensures Sound(s, DoStart(s, w, out), w)
  {
    var cur := s.tasks[w].cur;
    var sends := cur.phase == Requested && cur.rid.Some? && out == Ok && cur.ref.value in s.world.store;
    if sends {
      ChangeSound(s, w, s.world.(sent := s.world.sent + {Activate(cur.rid.value)}), AwaitActivate);
    } else {
      var pc := DoStart(s, w, out).tasks[w].pc;
      assert DoStart(s, w, out) == Goto(s, w, cur, pc);
      GotoSound(s, w, pc);
    }
  }

  lemma ReplySound(s: System, w: nat, out: Outcome, lease: nat)
    requires Prepared(s, w) && Awaits(s.tasks[w].pc)
    ensures Sound(s, DoPerform(s, w, out, lease), w)
  {
    var pc := DoPerform(s, w, out, lease).tasks[w].pc;
    assert DoPerform(s, w, out, lease) == Goto(s, w, s.tasks[w].cur, pc);
    GotoSound(s, w, pc);
  }

  lemma MarkActivatedSound(s: System, w: nat, out: Outcome, lease: nat)
    requires Prepared(s, w) && s.tasks[w].pc == MarkActivated
    ensures Sound(s, DoPerform(s, w, out, lease), w)
  {
    var cur := s.tasks[w].cur;
    if out == Ok && Fenced(s, w) {
      HeldJob(s, w);
      var job := cur.(phase := Activated, revision := cur.revision + 1);
      assert DoPerform(s, w, out, lease) == Write(s, w, job, RenewForCommit);
      WriteSound(s, w, job, RenewForCommit);
    } else {
      EndSound(s, w);
    }
  }

  lemma CommittedJobs(v: World, j: nat)
    requires JobsOk(v) && j in v.jobs && v.jobs[j].phase == Activated && v.jobs[j].ref.Some?
    ensures JobsOk(Committed(v, j, v.jobs[j])) && Follows(v, Committed(v, j, v.jobs[j]))
  {
    var u := Committed(v, j, v.jobs[j]);
    assert forall rid :: StatusOf(u, rid) == StatusOf(v, rid);
    forall k | k in u.jobs ensures JobOk(u, u.jobs[k]) && (k in u.rows ==> u.jobs[k].phase == Consumed) {
      assert JobOk(v, v.jobs[k]);
    }
  }

  lemma CommitSound(s: System, w: nat, out: Outcome)
    requires Prepared(s, w) && s.tasks[w].pc == Commit
    ensures Sound(s, DoCommit(s, w, out), w)
  {
    var t := s.tasks[w];
    if Commits(s, w, out) {
      HeldJob(s, w);
      CommittedJobs(s.world, t.job);
      assert DoCommit(s, w, out) == End(s.(world := Committed(s.world, t.job, t.cur)), w);
    } else if w in DoCommit(s, w, out).tasks {
      assert DoCommit(s, w, out) == Goto(s, w, t.cur, ReadRow);
      GotoSound(s, w, ReadRow);
    } else {
      assert DoCommit(s, w, out) == End(s, w);
      EndSound(s, w);
    }
  }

  lemma ReadRowSound(s: System, w: nat, out: Outcome)
    requires Prepared(s, w) && s.tasks[w].pc == ReadRow
    ensures Sound(s, DoReadRow(s, w, out), w)
  {
    if w in DoReadRow(s, w, out).tasks {
      GotoSound(s, w, Compensate);
    } else {
      EndSound(s, w);
    }
  }

  lemma CompensateSound(s: System, w: nat, out: Outcome)
    requires Prepared(s, w) && s.tasks[w].pc == Compensate
    ensures Sound(s, DoCompensate(s, w, out), w)
  {
    var cur := s.tasks[w].cur;
    if cur.rid.Some? && out == Ok && cur.ref.value in s.world.store {
      ChangeSound(s, w, s.world.(sent := s.world.sent + {Revoke(cur.rid.value)}), AwaitRevoke);
    } else {
      GotoSound(s, w, if cur.rid.None? then DeleteNew else Residual);
    }
  }

  lemma DeleteNewSound(s: System, w: nat, out: Outcome, lease: nat)
    requires Prepared(s, w) && s.tasks[w].pc == DeleteNew
    ensures Sound(s, DoPerform(s, w, out, lease), w)
  {
    var v := if out == Err then s.world else DropRef(s.world, s.tasks[w].cur.ref.value);
    ChangeSound(s, w, v, if out == Ok then MarkFailed else Residual);
  }

  lemma ClosingSound(s: System, w: nat, out: Outcome, lease: nat)
    requires Prepared(s, w) && s.tasks[w].pc in {MarkFailed, Residual, GiveUp}
    ensures Sound(s, DoPerform(s, w, out, lease), w)
  {
    var t := s.tasks[w];
    var u := DoPerform(s, w, out, lease);
    if u == End(s, w) {
      EndSound(s, w);
    } else {
      HeldJob(s, w);
      assert u == WriteAndEnd(s, w, s.world, u.world.jobs[t.job]);
      WriteAndEndSound(s, w, u.world.jobs[t.job]);
    }
  }

  lemma RenewalSound(s: System, w: nat, out: Outcome, lease: nat)
    requires Prepared(s, w) && s.tasks[w].pc in {ActivateReplied, ErrorReplied, RenewForCommit, RevokeReplied, RevokeFailed}
    ensures Sound(s, DoPerform(s, w, out, lease), w)
  {
    match s.tasks[w].pc
    case ActivateReplied => RenewSound(s, w, lease, MarkActivated);
    case ErrorReplied => RenewSound(s, w, lease, if s.tasks[w].cur.local then Residual else GiveUp);
    case RenewForCommit => RenewSound(s, w, lease, Commit);
    case RevokeReplied => RenewSound(s, w, lease, DeleteNew);
    case RevokeFailed => RenewSound(s, w, lease, Residual);
  }

  lemma PerformSound(s: System, w: nat, out: Outcome, lease: nat)
    requires Prepared(s, w)
    ensures Sound(s, DoPerform(s, w, out, lease), w)
  {
    match s.tasks[w].pc
    case Start => StartSound(s, w, out);
    case AwaitActivate => ReplySound(s, w, out, lease);
    case MarkActivated => MarkActivatedSound(s, w, out, lease);
    case Commit => CommitSound(s, w, out);
    case ReadRow => ReadRowSound(s, w, out);
    case Compensate => CompensateSound(s, w, out);
    case AwaitRevoke => ReplySound(s, w, out, lease);
    case DeleteNew => DeleteNewSound(s, w, out, lease);
    case MarkFailed => ClosingSound(s, w, out, lease);
    case Residual => ClosingSound(s, w, out, lease);
    case GiveUp => ClosingSound(s, w, out, lease);
    case _ => RenewalSound(s, w, out, lease);
  }

  lemma SoundKeeps(s: System, u: System, w: nat)
    requires Basic(s) && w in s.tasks && Sound(s, u, w)
    ensures Basic(u)
  {
    OthersFollow(s.world, u.world, s.tasks);
  }

  lemma ClaimKeeps(s: System, w: nat, j: nat, owner: nat, lease: nat)
    requires Basic(s)
    ensures var u := DoClaim(s, w, j, owner, lease); Basic(u) && Follows(s.world, u.world)
  {
    FollowsSelf(s.world);
    if w !in s.tasks && Claimable(s.world, j) {
      var job := Claimed(s.world.jobs[j], owner, s.world.now + lease);
      assert JobOk(s.world, s.world.jobs[j]);
      SetJobJobs(s.world, j, job);
      OthersFollow(s.world, SetJob(s.world, j, job), s.tasks);
      assert DoClaim(s, w, j, owner, lease) == System(SetJob(s.world, j, job), s.tasks[w := Task(j, job, Start)], Some(w));
      assert CopyOk(SetJob(s.world, j, job), Task(j, job, Start));
    }
  }

  /** Every step keeps jobs and workers in order, interrupted or not. */
  lemma StepBasic(s: System, exclusive: bool, a: Action)
    requires Basic(s)
    ensures var u := Apply(s, exclusive, a); Basic(u) && Follows(s.world, u.world)
  {
    FollowsSelf(s.world);
    match a
    case Outside(e) =>
      EventKeeps(s.world, e);
      OthersFollow(s.world, After(s.world, e), s.tasks);
    case Intrude(j, fails) =>
      IntrudeJobs(s.world, j, fails);
      OthersFollow(s.world, DoIntrude(s.world, j, fails), s.tasks);
    case Claim(w, j, owner, lease) => ClaimKeeps(s, w, j, owner, lease);
    case Renew(w, lease) =>
      if w in s.tasks && Awaits(s.tasks[w].pc) {
        RenewSound(s, w, lease, s.tasks[w].pc);
        SoundKeeps(s, DoRenew(s, w, lease, s.tasks[w].pc), w);
      }
    case Perform(w, out, lease) =>
      if w in s.tasks {
        PerformSound(s, w, out, lease);
        SoundKeeps(s, DoPerform(s, w, out, lease), w);
      }
    case Stop(w) =>
  }
}
