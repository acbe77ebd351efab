/**
 * Registration of new Agents
 * (backend/ic_env_guard/enrollment/orchestrator.py, `_recover_activation` and
 * `_compensate_activated_add_conflict`; backend/ic_env_guard/storage/
 * manager_registry.py, `commit_activated_enrollment`) as a transition system over
 * the enrollment journal, the registry, the credential store, the Agents' views of
 * their credentials and any number of recovery workers.
 *
 * One action is one storage call, one remote effect or one message.
 */
module EnrollmentSaga {
  import opened Wrappers

  /**
   * A registry row; its key is the id of the enrollment that made it.  `details` stands
   * for what an operator may change, `stamp` for the times of creation and update.
   * An Agent with a legacy token has no identity of its credential, `rid`.
   */
  datatype Record = Record(ref: nat, rid: Option<nat>, instance: Option<nat>, endpoint: nat, details: nat, stamp: int)

  datatype Phase = Requested | Activated | Consumed | Failed

  predicate Saved(p: Phase) { p == Requested || p == Activated }

  /** A journal row from the request for activation on. */
  datatype Job = Job(
    phase: Phase,
    owner: Option<nat>,
    leaseUntil: int,
    revision: nat,
    ref: Option<nat>,
    rid: Option<nat>,
    local: bool,
    instance: Option<nat>,
    endpoint: nat,
    details: nat)

  datatype Status = Waiting | Active | Revoked

  datatype Request = Activate(rid: nat) | Revoke(rid: nat)

  /**
   * All that outlives a Manager process.  `sent` are the requests that have left for
   * an Agent, which may act on each of them at any later time.  `used` and `usedRids`
   * are all references and identities ever drawn.
   */
  datatype World = World(
    rows: map<nat, Record>,
    jobs: map<nat, Job>,
    store: set<nat>,
    remote: map<nat, Status>,
    sent: set<Request>,
    now: int,
    used: set<nat>,
    usedRids: set<nat>)

  /** Where a worker stands: the call it will make next, or the reply it awaits. */
  datatype Pc =
    | Start
    | AwaitActivate
    | ActivateReplied
    | ErrorReplied
    | MarkActivated
    | RenewForCommit
    | Commit
    | ReadRow
    | Compensate
    | AwaitRevoke
    | RevokeReplied
    | RevokeFailed
    | DeleteNew
    | MarkFailed
    | Residual
    | GiveUp

  predicate Awaits(pc: Pc) { pc == AwaitActivate || pc == AwaitRevoke }

  datatype Task = Task(job: nat, cur: Job, pc: Pc)

  /** `loop` is the worker that is between two awaits. */
  datatype System = System(world: World, tasks: map<nat, Task>, loop: Option<nat>)

  function StatusOf(v: World, rid: nat): Status {
    if rid in v.remote then v.remote[rid] else Waiting
  }

  /** A call succeeds, fails without effect, or takes effect while its caller sees a failure. */
  datatype Outcome = Ok | Err | Lost

  /** What happens outside the recovery workers. */
  datatype Event =
    | Tick(to: int)
    | RequestActivation(job: nat, ref: nat, rid: Option<nat>, local: bool, instance: Option<nat>, endpoint: nat, details: nat)
    | Register(id: nat, ref: nat, rid: Option<nat>, instance: Option<nat>, endpoint: nat, details: nat)
    | Edit(id: nat, endpoint: nat, details: nat)
    | Rotate(id: nat, ref: nat, successor: nat)
    | Remove(id: nat)
    | CleanTerminal(job: nat, recorded: bool)
    | CleanOrphans
    | AgentActs(request: Request)

  datatype Action =
    | Outside(event: Event)
    | Intrude(job: nat, fails: bool)
    | Claim(worker: nat, job: nat, owner: nat, lease: nat)
    | Renew(worker: nat, lease: nat)
    | Perform(worker: nat, outcome: Outcome, lease: nat)
    | Stop(worker: nat)

  // ---------------------------------------------------------------------------
  // The registry's constraints.

  /** Another row has the endpoint, or the instance; SQL's UNIQUE does not compare NULL. */
  predicate Taken(v: World, id: nat, instance: Option<nat>, endpoint: nat) {
    exists k :: k in v.rows && k != id && (v.rows[k].endpoint == endpoint || (instance.Some? && v.rows[k].instance == instance))
  }

  /** The insertion, or the comparison with a row that is there already, is refused. */
  predicate Clash(v: World, id: nat, r: Record) {
    if id in v.rows then v.rows[id] != r else Taken(v, id, r.instance, r.endpoint)
  }

  /** `_same_committed_agent` does not compare times. */
  predicate SameAgent(a: Record, b: Record) { a.(stamp := b.stamp) == b }

  predicate Drawn(v: World, ref: nat, rid: Option<nat>) { ref in v.used || (rid.Some? && rid.value in v.usedRids) }

  // ---------------------------------------------------------------------------
  // Events outside the workers.

  function After(v: World, e: Event): World {
    match e
    case Tick(to) => if to >= v.now then v.(now := to) else v
    case RequestActivation(j, ref, rid, local, instance, endpoint, details) =>
      if j in v.jobs || j in v.rows || Drawn(v, ref, rid) then v
      else Drawing(v, ref, rid, Waiting).(jobs := v.jobs[j := Job(Requested, None, 0, 0, Some(ref), rid, local, instance, endpoint, details)])
    case Register(id, ref, rid, instance, endpoint, details) =>
      if id in v.jobs || id in v.rows || Drawn(v, ref, rid) || Taken(v, id, instance, endpoint) then v
      else Drawing(v, ref, rid, Active).(rows := v.rows[id := Record(ref, rid, instance, endpoint, details, v.now)])
    case Edit(id, endpoint, details) =>
      if id !in v.rows || Taken(v, id, None, endpoint) then v
      else v.(rows := v.rows[id := v.rows[id].(endpoint := endpoint, details := details, stamp := v.now)])
    case Rotate(id, ref, rid) =>
      if id !in v.rows || Drawn(v, ref, Some(rid)) then v
      else
        Drawing(Retiring(v, v.rows[id]), ref, Some(rid), Active).(
          rows := v.rows[id := v.rows[id].(ref := ref, rid := Some(rid), stamp := v.now)])
    case Remove(id) => if id !in v.rows then v else Retiring(v, v.rows[id]).(rows := v.rows - {id})
    case CleanTerminal(j, recorded) => DoCleanTerminal(v, j, recorded)
    case CleanOrphans => v.(store := set r | r in v.store && Retained(v, r))
    case AgentActs(r) => DoAgentActs(v, r)
  }

  /** A new credential is stored and known to its Agent. */
  function Drawing(v: World, ref: nat, rid: Option<nat>, status: Status): World {
    v.(store := v.store + {ref}, used := v.used + {ref},
       remote := if rid.Some? then v.remote[rid.value := status] else v.remote,
       usedRids := if rid.Some? then v.usedRids + {rid.value} else v.usedRids)
  }

  /** A registered credential is revoked and deleted; rotation and removal are models of their own. */
  function Retiring(v: World, r: Record): World {
    v.(store := v.store - {r.ref}, sent := if r.rid.Some? then v.sent + {Revoke(r.rid.value)} else v.sent)
  }

  function DropRef(v: World, ref: nat): World { v.(store := v.store - {ref}) }

  function SetJob(v: World, j: nat, job: Job): World { v.(jobs := v.jobs[j := job]) }

  function DoCleanTerminal(v: World, j: nat, recorded: bool): World {
    if j !in v.jobs || v.jobs[j].phase != Failed || v.jobs[j].ref.None? then v
    else
      var u := DropRef(v, v.jobs[j].ref.value);
      if recorded then SetJob(u, j, v.jobs[j].(ref := None)) else u
  }

  predicate Retained(v: World, ref: nat) {
    (exists id :: id in v.rows && v.rows[id].ref == ref) || (exists j :: j in v.jobs && v.jobs[j].ref == Some(ref))
  }

  function DoAgentActs(v: World, r: Request): World {
    if r !in v.sent then v
    else
      match r
      case Activate(rid) => if StatusOf(v, rid) == Waiting then v.(remote := v.remote[rid := Active]) else v
      case Revoke(rid) => v.(remote := v.remote[rid := Revoked])
  }

  function Closed(j: Job): Job { j.(phase := Failed, owner := None, leaseUntil := 0, revision := j.revision + 1) }

  /** A validation whose claim is still accepted renews it or fails the job. */
  function DoIntrude(v: World, j: nat, fails: bool): World {
    if j !in v.jobs || !Saved(v.jobs[j].phase) then v
    else SetJob(v, j, if fails then Closed(v.jobs[j]) else v.jobs[j].(revision := v.jobs[j].revision + 1))
  }

  // ---------------------------------------------------------------------------
  // The workers.

  predicate Token(j: Job, cur: Job) { j.owner.Some? && j.owner == cur.owner && j.revision == cur.revision }

  predicate LiveToken(j: Job, cur: Job, now: int) { Token(j, cur) && j.leaseUntil > now }

  function Goto(s: System, w: nat, cur: Job, pc: Pc): System
    requires w in s.tasks
  {
    s.(tasks := s.tasks[w := s.tasks[w].(cur := cur, pc := pc)], loop := if Awaits(pc) then None else Some(w))
  }

  function End(s: System, w: nat): System { s.(tasks := s.tasks - {w}, loop := None) }

  function Write(s: System, w: nat, job: Job, pc: Pc): System
    requires w in s.tasks
  {
    Goto(s.(world := SetJob(s.world, s.tasks[w].job, job)), w, job, pc)
  }

  function WriteAndEnd(s: System, w: nat, v: World, job: Job): System
    requires w in s.tasks
  {
    End(s.(world := SetJob(v, s.tasks[w].job, job)), w)
  }

  /** In an exclusive system the stretch between two awaits of one worker is not interrupted. */
  function Apply(s: System, exclusive: bool, a: Action): System {
    match a
    case Outside(e) => s.(world := After(s.world, e))
    case Intrude(j, fails) => if exclusive && s.loop.Some? then s else s.(world := DoIntrude(s.world, j, fails))
    case Claim(w, j, owner, lease) => if exclusive && s.loop.Some? then s else DoClaim(s, w, j, owner, lease)
    case Renew(w, lease) =>
      if w !in s.tasks || (exclusive && s.loop.Some?) || !Awaits(s.tasks[w].pc) then s
      else DoRenew(s, w, lease, s.tasks[w].pc)
    case Perform(w, out, lease) =>
      if w !in s.tasks || (exclusive && !MayRun(s, w)) then s else DoPerform(s, w, out, lease)
    case Stop(w) =>
      if w !in s.tasks then s else s.(tasks := s.tasks - {w}, loop := if s.loop == Some(w) then None else s.loop)
  }

  predicate MayRun(s: System, w: nat)
    requires w in s.tasks
  {
    s.loop == if Awaits(s.tasks[w].pc) then None else Some(w)
  }

  predicate Claimable(v: World, j: nat) {
    j in v.jobs && Saved(v.jobs[j].phase) && (v.jobs[j].owner.Some? ==> v.jobs[j].leaseUntil <= v.now)
  }

  function Claimed(j: Job, owner: nat, until: int): Job { j.(owner := Some(owner), leaseUntil := until, revision := j.revision + 1) }

  function DoClaim(s: System, w: nat, j: nat, owner: nat, lease: nat): System {
    if w in s.tasks || !Claimable(s.world, j) then s
    else
      var job := Claimed(s.world.jobs[j], owner, s.world.now + lease);
      System(SetJob(s.world, j, job), s.tasks[w := Task(j, job, Start)], Some(w))
  }

  /** A renewal that fails ends the worker. */
  function DoRenew(s: System, w: nat, lease: nat, next: Pc): System
    requires w in s.tasks
  {
    var t := s.tasks[w];
    if t.job in s.world.jobs && LiveToken(s.world.jobs[t.job], t.cur, s.world.now) then
      var j := s.world.jobs[t.job];
      Write(s, w, j.(leaseUntil := s.world.now + lease, revision := j.revision + 1), next)
    else End(s, w)
  }

  /** The row is as the worker knows it (`_transition_claimed`). */
  predicate Fenced(s: System, w: nat)
    requires w in s.tasks
  {
    var t := s.tasks[w];
    && t.job in s.world.jobs && LiveToken(s.world.jobs[t.job], t.cur, s.world.now)
    && s.world.jobs[t.job].phase == t.cur.phase
  }

  function DoPerform(s: System, w: nat, out: Outcome, lease: nat): System
    requires w in s.tasks
  {
    var t := s.tasks[w];
    match t.pc
    case Start => DoStart(s, w, out)
    case AwaitActivate =>
      Goto(s, w, t.cur, if out == Ok && t.cur.rid.Some? && StatusOf(s.world, t.cur.rid.value) != Waiting then ActivateReplied else ErrorReplied)
    case ActivateReplied => DoRenew(s, w, lease, MarkActivated)
    case ErrorReplied => DoRenew(s, w, lease, if t.cur.local then Residual else GiveUp)
    case MarkActivated =>
      if out == Ok && Fenced(s, w) && t.cur.phase == Requested
      then Write(s, w, t.cur.(phase := Activated, revision := t.cur.revision + 1), RenewForCommit) else End(s, w)
    case RenewForCommit => DoRenew(s, w, lease, Commit)
    case Commit => DoCommit(s, w, out)
    case ReadRow => DoReadRow(s, w, out)
    case Compensate => DoCompensate(s, w, out)
    case AwaitRevoke =>
      Goto(s, w, t.cur, if out == Ok && t.cur.rid.Some? && StatusOf(s.world, t.cur.rid.value) == Revoked then RevokeReplied else RevokeFailed)
    case RevokeReplied => DoRenew(s, w, lease, DeleteNew)
    case RevokeFailed => DoRenew(s, w, lease, Residual)
    case DeleteNew =>
      var u := if out == Err || t.cur.ref.None? then s else s.(world := DropRef(s.world, t.cur.ref.value));
      Goto(u, w, t.cur, if out == Ok then MarkFailed else Residual)
    case MarkFailed =>
      if out == Ok && Fenced(s, w) then WriteAndEnd(s, w, s.world, Closed(t.cur).(ref := None)) else End(s, w)
    case Residual => DoResidual(s, w)
    case GiveUp => DoGiveUp(s, w)
  }

  /** The checks before the first await. */
  function DoStart(s: System, w: nat, out: Outcome): System
    requires w in s.tasks
  {
    var cur := s.tasks[w].cur;
    if cur.ref.None? || (cur.rid.Some? && out != Ok) then Goto(s, w, cur, GiveUp)
    else if cur.phase != Requested then Goto(s, w, cur, RenewForCommit)
    else if cur.rid.None? then Goto(s, w, cur, MarkActivated)
    else if cur.ref.value !in s.world.store then Goto(s, w, cur, GiveUp)
    else Goto(s.(world := s.world.(sent := s.world.sent + {Activate(cur.rid.value)})), w, cur, AwaitActivate)
  }

  function RecordOf(j: Job, stamp: int): Record
    requires j.ref.Some?
  {
    Record(j.ref.value, j.rid, j.instance, j.endpoint, j.details, stamp)
  }

  /** The commit takes effect: no other row is in the way, and the worker's owner and revision are current. */
  predicate Commits(s: System, w: nat, out: Outcome)
    requires w in s.tasks
  {
    var t := s.tasks[w];
    && t.pc == Commit && out != Err && t.cur.phase == Activated && t.cur.ref.Some?
    && !Clash(s.world, t.job, RecordOf(t.cur, s.world.now))
    && t.job in s.world.jobs && s.world.jobs[t.job].phase == Activated && Token(s.world.jobs[t.job], t.cur)
  }

  /** Row and journal in one transaction. */
  function Committed(v: World, j: nat, cur: Job): World
    requires j in v.jobs && cur.ref.Some?
  {
    v.(rows := v.rows[j := RecordOf(cur, v.now)],
       jobs := v.jobs[j := v.jobs[j].(phase := Consumed, ref := None, owner := None, leaseUntil := 0, revision := v.jobs[j].revision + 1)])
  }

  /** `commit_activated_enrollment`: a clash is found before the fence is looked at. */
  function DoCommit(s: System, w: nat, out: Outcome): System
    requires w in s.tasks
  {
    var t := s.tasks[w];
    if out == Err || t.cur.phase != Activated || t.cur.ref.None? then End(s, w)
    else if Clash(s.world, t.job, RecordOf(t.cur, s.world.now)) then Goto(s, w, t.cur, ReadRow)
    else if Commits(s, w, out) then End(s.(world := Committed(s.world, t.job, t.cur)), w)
    else End(s, w)
  }

  /** Whether the row that is there is the one the worker wanted to add. */
  function DoReadRow(s: System, w: nat, out: Outcome): System
    requires w in s.tasks
  {
    var t := s.tasks[w];
    if out != Ok || t.cur.ref.None? then End(s, w)
    else if t.job in s.world.rows && SameAgent(s.world.rows[t.job], RecordOf(t.cur, s.world.now)) then End(s, w)
    else Goto(s, w, t.cur, Compensate)
  }

  /** The new credential is revoked; the claim is not looked at before the request leaves. */
  function DoCompensate(s: System, w: nat, out: Outcome): System
    requires w in s.tasks
  {
    var cur := s.tasks[w].cur;
    if cur.rid.None? then Goto(s, w, cur, DeleteNew)
    else if out != Ok || cur.ref.None? || cur.ref.value !in s.world.store then Goto(s, w, cur, Residual)
    else Goto(s.(world := s.world.(sent := s.world.sent + {Revoke(cur.rid.value)})), w, cur, AwaitRevoke)
  }

  /** `release_recovery_residual` */
  function DoResidual(s: System, w: nat): System
    requires w in s.tasks
  {
    var t := s.tasks[w];
    if t.job in s.world.jobs && Token(s.world.jobs[t.job], t.cur) && Saved(s.world.jobs[t.job].phase) then
      var j := s.world.jobs[t.job];
      WriteAndEnd(s, w, s.world, j.(owner := None, leaseUntil := 0, revision := j.revision + 1))
    else End(s, w)
  }

  /** `fail_recovery_claim` */
  function DoGiveUp(s: System, w: nat): System
    requires w in s.tasks
  {
    var t := s.tasks[w];
    if t.job in s.world.jobs && LiveToken(s.world.jobs[t.job], t.cur, s.world.now)
    then WriteAndEnd(s, w, s.world, Closed(s.world.jobs[t.job])) else End(s, w)
  }

  // ---------------------------------------------------------------------------
  // Runs.

  /** The row's credential is stored and, if it has an identity, active and not asked to be revoked. */
  predicate RowOk(v: World, r: Record) {
    && r.ref in v.used && r.ref in v.store
    && (r.rid.Some? ==> r.rid.value in v.usedRids && StatusOf(v, r.rid.value) == Active && Revoke(r.rid.value) !in v.sent)
  }

  predicate Shares(ref: Option<nat>, rid: Option<nat>, r: Record) { ref == Some(r.ref) || (rid.Some? && rid == r.rid) }

  ghost predicate RowsOk(v: World) {
    && (forall id :: id in v.rows ==> RowOk(v, v.rows[id]))
    && (forall i, k :: i in v.rows && k in v.rows && i != k ==> !Shares(Some(v.rows[i].ref), v.rows[i].rid, v.rows[k]))
  }

  ghost predicate Initial(s: System) {
    && s.world.jobs == map[] && s.tasks == map[] && s.loop == None && RowsOk(s.world)
    && (forall rid :: StatusOf(s.world, rid) == Revoked ==> Revoke(rid) in s.world.sent)
    && (forall rid :: Revoke(rid) in s.world.sent ==> rid in s.world.usedRids)
  }

  ghost predicate IsRun(exclusive: bool, states: seq<System>, actions: seq<Action>) {
    && |states| == |actions| + 1
    && Initial(states[0])
    && forall i {:trigger actions[i]} :: 0 <= i < |actions| ==> states[i + 1] == Apply(states[i], exclusive, actions[i])
  }
}
