/**
 * Credential rotation of one Agent
 * (backend/ic_env_guard/enrollment/orchestrator.py, `_recover_rotation` and
 * `_compensate_rotation_registry_mismatch`) as a transition system over the
 * enrollment journal, the Agent's registry row, the credential store, the
 * Agent's own view of its credentials and any number of recovery workers.
 *
 * One action is one storage call, one remote effect or one message.  The
 * guards of the storage calls are those of
 * backend/ic_env_guard/storage/enrollment_journal.py and manager_registry.py.
 */
module RotationSaga {
  import opened Wrappers

  /** How a registered credential is managed; a managed one has an identity on the Agent. */
  datatype Kind = Managed(rid: nat) | Legacy

  /** The registry row of the Agent. */
  datatype Row = Row(revision: nat, ref: nat, kind: Kind, instance: Option<nat>)

  /** A new credential: its reference in the store, its identity on the Agent, and the Agent's instance. */
  datatype Credential = Credential(ref: nat, rid: nat, instance: nat)

  /** Job states; `Pending` stands for all states before verification ends, `Dropped` for cancelled and expired. */
  datatype Phase = Pending | Verified | Requested | Activated | Consumed | Failed | Dropped

  predicate Saved(p: Phase) { p == Requested || p == Activated }

  predicate Open(p: Phase) { p == Pending || p == Verified || Saved(p) }

  /** A rotation row of the journal, with the snapshot of the registry row it was created from. */
  datatype Job = Job(
    phase: Phase,
    owner: Option<nat>,
    leaseUntil: int,
    revision: nat,
    incoming: Option<Credential>,
    oldRef: Option<nat>,
    oldKind: Kind,
    oldRevision: nat,
    oldInstance: Option<nat>)

  /** The Agent's view of a credential. */
  datatype Status = Waiting | Active | Revoked

  datatype Request = Activate(rid: nat) | Revoke(rid: nat)

  /**
   * All that outlives a Manager process.  `sent` are the requests that have left
   * for the Agent, which may act on each of them at any later time and any number
   * of times.  `used` and `usedRids` are all references and identities ever drawn,
   * `named` and `namedRids` those the row has ever had.  `grants` are the claims
   * that validations have been granted; a validation may present one at any time.
   */
  datatype World = World(
    row: Row,
    jobs: map<nat, Job>,
    store: set<nat>,
    remote: map<nat, Status>,
    sent: set<Request>,
    now: int,
    used: set<nat>,
    usedRids: set<nat>,
    named: set<nat>,
    namedRids: set<nat>,
    grants: set<Grant>)

  /** What a claim on a job is known by. */
  datatype Grant = Grant(job: nat, owner: nat, revision: nat)

  /** Where a worker stands: the storage call it will make next, or the reply it awaits. */
  datatype Pc =
    | Start
    | AwaitActivate
    | ActivateReplied
    | MarkActivated
    | ReadRow
    | SwapRow
    | RenewAfterSwap
    | AwaitRevokeOld
    | OldRevoked
    | DeleteOld
    | MarkConsumed
    | MarkChanged
    | AwaitRevokeNew
    | NewRevoked
    | MarkFailed
    | DeleteNew(ref: nat)
    | ErrorReplied
    | Residual

  predicate Awaits(pc: Pc) { pc == AwaitActivate || pc == AwaitRevokeOld || pc == AwaitRevokeNew }

  /** A worker: the job it recovers and its copy of the job's row. */
  datatype Task = Task(job: nat, cur: Job, pc: Pc)

  /** `loop` is the worker that is between two awaits. */
  datatype System = System(world: World, tasks: map<nat, Task>, loop: Option<nat>)

  function StatusOf(v: World, rid: nat): Status {
    if rid in v.remote then v.remote[rid] else Waiting
  }

  /** How a call ends: it succeeds, fails without effect, or takes effect while its caller sees a failure. */
  datatype Outcome = Ok | Err | Lost

  /** What happens outside the recovery workers. */
  datatype Event =
    | Tick(to: int)
    | StartRotation(job: nat)
    | Validate(job: nat, owner: nat, lease: nat)
    | Publish(job: nat, incoming: Credential, revision: nat)
    | Consume(job: nat)
    | Drop(job: nat)
    | CleanTerminal(job: nat, recorded: bool)
    | CleanOrphans
    | Rename
    | ReplaceLegacy(ref: nat)
    | AgentActs(request: Request)

  /** What a validation does with its claim. */
  datatype Use = Renewal(lease: nat) | Release | Failure

  datatype Action =
    | Outside(event: Event)
    | Present(grant: Grant, use: Use)
    | Claim(worker: nat, job: nat, owner: nat, lease: nat)
    | Renew(worker: nat, lease: nat)
    | Perform(worker: nat, outcome: Outcome, lease: nat)
    | Stop(worker: nat)

  // ---------------------------------------------------------------------------
  // The journal's and the registry's guards.

  /** The fence: the row still carries the owner and the revision of the worker's copy. */
  predicate Token(j: Job, cur: Job) {
    j.owner.Some? && j.owner == cur.owner && j.revision == cur.revision
  }

  predicate LiveToken(j: Job, cur: Job, now: int) {
    Token(j, cur) && j.leaseUntil > now
  }

  /** `swap_rotation` finds the row as the job captured it; SQL's `instance_id=NULL` never matches. */
  predicate CanSwap(j: Job, row: Row) {
    && row.revision == j.oldRevision && j.oldRef == Some(row.ref)
    && row.instance == j.oldInstance && j.oldInstance.Some?
  }

  predicate MatchesOld(j: Job, row: Row) {
    row.revision == j.oldRevision && j.oldRef == Some(row.ref)
  }

  /** No rotation but `except` is past the point of no return (`assert_agent_mutation_allowed`). */
  predicate MutationAllowed(v: World, except: Option<nat>) {
    forall j :: j in v.jobs && Some(j) != except ==> !Saved(v.jobs[j].phase)
  }

  // ---------------------------------------------------------------------------
  // Events outside the workers.

  function After(v: World, e: Event): World {
    match e
    case Tick(to) => if to >= v.now then v.(now := to) else v
    case StartRotation(j) => DoStartRotation(v, j)
    case Validate(j, owner, lease) => DoValidate(v, j, owner, lease)
    case Publish(j, c, revision) => DoPublish(v, j, c, revision)
    case Consume(j) => DoConsume(v, j)
    case Drop(j) => DoDrop(v, j)
    case CleanTerminal(j, recorded) => DoCleanTerminal(v, j, recorded)
    case CleanOrphans => v.(store := set r | r in v.store && Retained(v, r))
    case Rename =>
      if MutationAllowed(v, None) then v.(row := v.row.(revision := v.row.revision + 1)) else v
    case ReplaceLegacy(ref) => DoReplaceLegacy(v, ref)
    case AgentActs(r) => DoAgentActs(v, r)
  }

  function SetJob(v: World, j: nat, job: Job): World { v.(jobs := v.jobs[j := job]) }

  function Captured(row: Row): Job {
    Job(Pending, None, 0, 0, None, Some(row.ref), row.kind, row.revision, row.instance)
  }

  /** A new rotation captures the registry row; one open rotation per Agent. */
  function DoStartRotation(v: World, j: nat): World {
    if j in v.jobs || exists k :: k in v.jobs && Open(v.jobs[k].phase) then v
    else SetJob(v, j, Captured(v.row))
  }

  predicate Unsaved(p: Phase) { p == Pending || p == Verified }

  /** Recovery claims a job whose validation is unfinished or unused. */
  function DoValidate(v: World, j: nat, owner: nat, lease: nat): World {
    if j !in v.jobs || !Unsaved(v.jobs[j].phase) || (v.jobs[j].owner.Some? && v.jobs[j].leaseUntil > v.now) then v
    else
      var job := v.jobs[j].(owner := Some(owner), leaseUntil := v.now + lease, revision := v.jobs[j].revision + 1);
      SetJob(v, j, job).(grants := v.grants + {Grant(j, owner, job.revision)})
  }

  /** A credential nobody has drawn before is given to a pending job. */
  function Published(v: World, j: nat, c: Credential, revision: nat): World
    requires j in v.jobs
  {
    v.(jobs := v.jobs[j := v.jobs[j].(phase := Verified, incoming := Some(c), owner := None, leaseUntil := 0, revision := revision)],
       store := v.store + {c.ref}, remote := v.remote[c.rid := Waiting],
       used := v.used + {c.ref}, usedRids := v.usedRids + {c.rid})
  }

  /**
   * A fresh credential is stored and verified; a known instance must not change.  The
   * write that ends the validation brings back the revision it was built from.
   */
  function DoPublish(v: World, j: nat, c: Credential, revision: nat): World {
    if j !in v.jobs || v.jobs[j].phase != Pending || c.ref in v.used || c.rid in v.usedRids || revision > v.jobs[j].revision then v
    else if v.jobs[j].oldInstance.Some? && v.jobs[j].oldInstance.value != c.instance then v
    else Published(v, j, c, revision)
  }

  /** `consume_rotation`: from here the rotation can only be completed or compensated. */
  function DoConsume(v: World, j: nat): World {
    if j !in v.jobs || v.jobs[j].phase != Verified || !MutationAllowed(v, Some(j)) then v
    else if !(MatchesOld(v.jobs[j], v.row) && v.row.instance == v.jobs[j].oldInstance) then v
    else SetJob(v, j, v.jobs[j].(phase := Requested))
  }

  function Closed(j: Job, phase: Phase): Job {
    j.(phase := phase, owner := None, leaseUntil := 0, revision := j.revision + 1)
  }

  /** Cancellation or expiry. */
  function DoDrop(v: World, j: nat): World {
    if j !in v.jobs || !(v.jobs[j].phase == Pending || v.jobs[j].phase == Verified) then v
    else SetJob(v, j, Closed(v.jobs[j], Dropped))
  }

  /** The job's row carries the granted owner and revision, and the lease is running; the state is not looked at. */
  predicate Accepts(v: World, g: Grant) {
    && g in v.grants && g.job in v.jobs && v.jobs[g.job].owner == Some(g.owner) && v.jobs[g.job].revision == g.revision
    && v.jobs[g.job].leaseUntil > v.now
  }

  function UsedOn(j: Job, use: Use, now: int): Job {
    match use
    case Renewal(lease) => j.(leaseUntil := now + lease, revision := j.revision + 1)
    case Release => j.(owner := None, leaseUntil := 0, revision := j.revision + 1)
    case Failure => Closed(j, Failed)
  }

  /** A renewed claim is granted anew. */
  function Regranted(g: Grant, use: Use): set<Grant> {
    if use.Renewal? then {g.(revision := g.revision + 1)} else {}
  }

  /**
   * A validation renews its claim, releases it, or fails the job with it
   * (`renew_recovery_claim`, `release_recovery_claim`, `fail_recovery_claim`).
   */
  function DoPresent(v: World, g: Grant, use: Use): World {
    if !Accepts(v, g) then v
    else SetJob(v, g.job, UsedOn(v.jobs[g.job], use, v.now)).(grants := v.grants + Regranted(g, use))
  }

  function DropRef(v: World, ref: nat): World { v.(store := v.store - {ref}) }

  /** `_cleanup_terminal`, whose second half may be lost. */
  function DoCleanTerminal(v: World, j: nat, recorded: bool): World {
    if j !in v.jobs || !(v.jobs[j].phase == Failed || v.jobs[j].phase == Dropped) || v.jobs[j].incoming.None? then v
    else
      var u := DropRef(v, v.jobs[j].incoming.value.ref);
      if recorded then SetJob(u, j, v.jobs[j].(incoming := None)) else u
  }

  /** The references orphan cleanup keeps. */
  predicate Retained(v: World, ref: nat) {
    || ref == v.row.ref
    || exists j :: j in v.jobs &&
         (v.jobs[j].oldRef == Some(ref) || (v.jobs[j].incoming.Some? && v.jobs[j].incoming.value.ref == ref))
  }

  /** A legacy Agent gets another token outside any rotation (`update_agent`). */
  function DoReplaceLegacy(v: World, ref: nat): World {
    if !v.row.kind.Legacy? || ref in v.used || !MutationAllowed(v, None) then v
    else v.(
      row := v.row.(revision := v.row.revision + 1, ref := ref),
      store := v.store + {ref} - {v.row.ref}, used := v.used + {ref}, named := v.named + {ref})
  }

  /** Activation works on a waiting credential; revocation is final. */
  function DoAgentActs(v: World, r: Request): World {
    if r !in v.sent then v
    else
      match r
      case Activate(rid) => if StatusOf(v, rid) == Waiting then v.(remote := v.remote[rid := Active]) else v
      case Revoke(rid) => v.(remote := v.remote[rid := Revoked])
  }

  // ---------------------------------------------------------------------------
  // The workers.

  function Goto(s: System, w: nat, cur: Job, pc: Pc): System
    requires w in s.tasks
  {
    s.(tasks := s.tasks[w := s.tasks[w].(cur := cur, pc := pc)], loop := if Awaits(pc) then None else Some(w))
  }

  function End(s: System, w: nat): System { s.(tasks := s.tasks - {w}, loop := None) }

  /** The worker writes the job's row, which becomes its copy. */
  function Write(s: System, w: nat, job: Job, pc: Pc): System
    requires w in s.tasks
  {
    Goto(s.(world := SetJob(s.world, s.tasks[w].job, job)), w, job, pc)
  }

  /** The worker writes the job's row for the last time. */
  function WriteAndEnd(s: System, w: nat, job: Job): System
    requires w in s.tasks
  {
    End(s.(world := SetJob(s.world, s.tasks[w].job, job)), w)
  }

  function Send(s: System, r: Request): System { s.(world := s.world.(sent := s.world.sent + {r})) }

  /**
   * One step.  In an exclusive system the stretch between two awaits of one worker is
   * not interrupted by another, as in a single event loop.
   */
  function Apply(s: System, exclusive: bool, a: Action): System {
    match a
    case Outside(e) => s.(world := After(s.world, e))
    case Present(g, use) => if exclusive && s.loop.Some? then s else s.(world := DoPresent(s.world, g, use))
    case Claim(w, j, owner, lease) => if exclusive && s.loop.Some? then s else DoClaim(s, w, j, owner, lease)
    case Renew(w, lease) =>
      if w !in s.tasks || (exclusive && s.loop.Some?) || !Awaits(s.tasks[w].pc) then s
      else DoRenew(s, w, lease, s.tasks[w].pc)
    case Perform(w, out, lease) =>
      if w !in s.tasks || (exclusive && !MayRun(s, w)) then s else DoPerform(s, w, out, lease)
    case Stop(w) =>
      if w !in s.tasks then s else s.(tasks := s.tasks - {w}, loop := if s.loop == Some(w) then None else s.loop)
  }

  predicate MayRun(s: System, w: nat)
    requires w in s.tasks
  {
    s.loop == if Awaits(s.tasks[w].pc) then None else Some(w)
  }

  function Claimed(j: Job, owner: nat, until: int): Job {
    j.(owner := Some(owner), leaseUntil := until, revision := j.revision + 1)
  }

  /** The job is past its point of no return and no lease on it is running. */
  predicate Claimable(v: World, j: nat) {
    j in v.jobs && Saved(v.jobs[j].phase) && (v.jobs[j].owner.Some? ==> v.jobs[j].leaseUntil <= v.now)
  }

  /** `claim_recovery` */
  function DoClaim(s: System, w: nat, j: nat, owner: nat, lease: nat): System {
    if w in s.tasks || !Claimable(s.world, j) then s
    else
      var job := Claimed(s.world.jobs[j], owner, s.world.now + lease);
      System(SetJob(s.world, j, job), s.tasks[w := Task(j, job, Start)], Some(w))
  }

  /** `renew_recovery_claim`; a renewal that fails ends the worker. */
  function DoRenew(s: System, w: nat, lease: nat, next: Pc): System
    requires w in s.tasks
  {
    var t := s.tasks[w];
    if t.job in s.world.jobs && LiveToken(s.world.jobs[t.job], t.cur, s.world.now) then
      var j := s.world.jobs[t.job];
      Write(s, w, j.(leaseUntil := s.world.now + lease, revision := j.revision + 1), next)
    else End(s, w)
  }

  /** `_transition_claimed` and `mark_recovery_claim_error` find the row as the worker knows it. */
  predicate Fenced(s: System, w: nat)
    requires w in s.tasks
  {
    var t := s.tasks[w];
    && t.job in s.world.jobs && LiveToken(s.world.jobs[t.job], t.cur, s.world.now)
    && s.world.jobs[t.job].phase == t.cur.phase
  }

  function Emptied(j: Job, phase: Phase): Job {
    j.(phase := phase, incoming := None, oldRef := None, owner := None, leaseUntil := 0, revision := j.revision + 1)
  }

  /** The worker's next call. */
  function DoPerform(s: System, w: nat, out: Outcome, lease: nat): System
    requires w in s.tasks
  {
    var t := s.tasks[w];
    match t.pc
    case Start => DoStart(s, w, out)
    case AwaitActivate =>
      Goto(s, w, t.cur, if out == Ok && t.cur.incoming.Some? && StatusOf(s.world, t.cur.incoming.value.rid) != Waiting
                        then ActivateReplied else ErrorReplied)
    case ActivateReplied => DoRenew(s, w, lease, MarkActivated)
    case ErrorReplied => DoRenew(s, w, lease, Residual)
    case MarkActivated => DoMarkActivated(s, w, out)
    case ReadRow => DoReadRow(s, w, out)
    case SwapRow => DoSwap(s, w, out)
    case RenewAfterSwap => DoRenewAfterSwap(s, w, lease)
    case AwaitRevokeOld =>
      Goto(s, w, t.cur, if out == Ok && t.cur.oldKind.Managed? && StatusOf(s.world, t.cur.oldKind.rid) == Revoked
                        then OldRevoked else ErrorReplied)
    case OldRevoked => DoRenew(s, w, lease, DeleteOld)
    case DeleteOld =>
      var u := if out == Err || t.cur.oldRef.None? then s else s.(world := DropRef(s.world, t.cur.oldRef.value));
      Goto(u, w, t.cur, if out == Ok then MarkConsumed else Residual)
    case MarkConsumed =>
      if out == Ok && Fenced(s, w) then WriteAndEnd(s, w, Emptied(t.cur, Consumed)) else End(s, w)
    case MarkChanged => DoMarkChanged(s, w, out)
    case AwaitRevokeNew =>
      Goto(s, w, t.cur, if out == Ok && t.cur.incoming.Some? && StatusOf(s.world, t.cur.incoming.value.rid) == Revoked
                        then NewRevoked else ErrorReplied)
    case NewRevoked => DoRenew(s, w, lease, MarkFailed)
    case MarkFailed =>
      if out == Ok && Fenced(s, w) && t.cur.incoming.Some? then
        Goto(s.(world := SetJob(s.world, t.job, Emptied(t.cur, Failed))), w, t.cur, DeleteNew(t.cur.incoming.value.ref))
      else End(s, w)
    case DeleteNew(ref) => End(if out == Err then s else s.(world := DropRef(s.world, ref)), w)
    case Residual => DoResidual(s, w)
  }

  /** The checks before the first await. */
  function DoStart(s: System, w: nat, out: Outcome): System
    requires w in s.tasks
  {
    var cur := s.tasks[w].cur;
    if cur.incoming.None? || cur.oldRef.None? || out != Ok || cur.incoming.value.ref !in s.world.store then
      Goto(s, w, cur, Residual)
    else if cur.oldKind.Managed? && Some(cur.incoming.value.instance) != cur.oldInstance then Goto(s, w, cur, Residual)
    else if cur.phase == Requested then Goto(Send(s, Activate(cur.incoming.value.rid)), w, cur, AwaitActivate)
    else Goto(s, w, cur, ReadRow)
  }

  function DoMarkActivated(s: System, w: nat, out: Outcome): System
    requires w in s.tasks
  {
    var cur := s.tasks[w].cur;
    if out == Ok && Fenced(s, w) then Write(s, w, cur.(phase := Activated, revision := cur.revision + 1), ReadRow)
    else End(s, w)
  }

  function DoReadRow(s: System, w: nat, out: Outcome): System
    requires w in s.tasks
  {
    var cur := s.tasks[w].cur;
    if out != Ok then End(s, w)
    else if MatchesOld(cur, s.world.row) then Goto(s, w, cur, SwapRow)
    else if cur.incoming.Some? && s.world.row.ref == cur.incoming.value.ref then Goto(s, w, cur, RenewAfterSwap)
    else Goto(s, w, cur, MarkChanged)
  }

  function Swapped(v: World, c: Credential): World {
    v.(row := Row(v.row.revision + 1, c.ref, Managed(c.rid), Some(c.instance)),
       named := v.named + {c.ref}, namedRids := v.namedRids + {c.rid})
  }

  /** The registry swap is guarded by the row alone; it does not look at the recovery claim. */
  function DoSwap(s: System, w: nat, out: Outcome): System
    requires w in s.tasks
  {
    var t := s.tasks[w];
    if out == Err || t.cur.incoming.None? then Goto(s, w, t.cur, Residual)
    else if CanSwap(t.cur, s.world.row) && MutationAllowed(s.world, Some(t.job)) then
      Goto(s.(world := Swapped(s.world, t.cur.incoming.value)), w, t.cur, if out == Ok then RenewAfterSwap else Residual)
    else Goto(s, w, t.cur, MarkChanged)
  }

  function DoRenewAfterSwap(s: System, w: nat, lease: nat): System
    requires w in s.tasks
  {
    var t := s.tasks[w];
    if t.cur.oldKind.Managed? then
      var u := DoRenew(s, w, lease, AwaitRevokeOld);
      if w in u.tasks then Send(u, Revoke(t.cur.oldKind.rid)) else u
    else DoRenew(s, w, lease, DeleteOld)
  }

  /** Only a worker whose mark was accepted revokes the new credential. */
  function DoMarkChanged(s: System, w: nat, out: Outcome): System
    requires w in s.tasks
  {
    var t := s.tasks[w];
    if out == Ok && Fenced(s, w) && t.cur.phase == Activated && t.cur.incoming.Some? then
      Write(Send(s, Revoke(t.cur.incoming.value.rid)), w, t.cur.(revision := t.cur.revision + 1), AwaitRevokeNew)
    else End(s, w)
  }

  /** `release_recovery_residual` checks owner, revision and state, not the lease. */
  function DoResidual(s: System, w: nat): System
    requires w in s.tasks
  {
    var t := s.tasks[w];
    if t.job in s.world.jobs && Token(s.world.jobs[t.job], t.cur) && Saved(s.world.jobs[t.job].phase) then
      var j := s.world.jobs[t.job];
      WriteAndEnd(s, w, j.(owner := None, leaseUntil := 0, revision := j.revision + 1))
    else End(s, w)
  }

  // ---------------------------------------------------------------------------
  // Runs.

  /** The Agent is registered with a stored and, if it is managed, active credential; nothing is under way. */
  ghost predicate Initial(s: System) {
    var v := s.world;
    && v.jobs == map[] && v.grants == {} && s.tasks == map[] && s.loop == None
    && v.row.ref in v.store && v.store <= v.used && v.named == {v.row.ref}
    && (match v.row.kind
        case Managed(rid) => StatusOf(v, rid) == Active && v.namedRids == {rid} && Revoke(rid) !in v.sent && rid in v.usedRids
        case Legacy => v.namedRids == {})
    && (forall rid :: Revoke(rid) in v.sent ==> rid in v.usedRids)
    && (forall rid :: rid in v.remote && v.remote[rid] == Revoked ==> Revoke(rid) in v.sent)
  }

  ghost predicate IsRun(exclusive: bool, states: seq<System>, actions: seq<Action>) {
    && |states| == |actions| + 1
    && Initial(states[0])
    && forall i {:trigger actions[i]} :: 0 <= i < |actions| ==> states[i + 1] == Apply(states[i], exclusive, actions[i])
  }
}
