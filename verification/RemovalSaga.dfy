/**
 * Removal of one Agent (backend/ic_env_guard/enrollment/orchestrator.py,
 * `remove_agent`, `_resume_removal` and `recover_removals`) as a transition
 * system: one action is one storage call or one remote call, and any number of
 * workers may resume the same removal and stop anywhere.  The guards are those
 * of backend/ic_env_guard/storage/removal_journal.py and manager_registry.py.
 */
module RemovalSaga {
  import opened Wrappers

  /** The registry row; a legacy credential has no identity on the Agent. */
  datatype Row = Row(revision: nat, ref: nat, rid: Option<nat>)

  datatype Phase = Pending | Revoking | Revoked | RegistryDeleted | CredentialDeleted | Completed | Residual

  /** A removal, with what it captured of the registry row. */
  datatype Removal = Removal(revision: nat, ref: nat, rid: Option<nat>, localOnly: bool, phase: Phase)

  /**
   * `revoked` are the credentials whose revocation the Agent has carried out,
   * `used` all references ever drawn.  `openRotation` and `savedRotation` say
   * whether an unfinished rotation of this Agent exists and is past its point of
   * no return.
   */
  datatype World = World(
    row: Option<Row>,
    store: set<nat>,
    revoked: set<nat>,
    jobs: map<nat, Removal>,
    used: set<nat>,
    openRotation: bool,
    savedRotation: bool)

  /** The next call of a worker. */
  datatype Pc =
    | ToRevoking
    | ReadToken
    | AwaitRevoke
    | ToRevoked
    | DeleteRow
    | CheckRow
    | ToRegistryDeleted
    | DeleteFile
    | ToCredentialDeleted
    | ToCompleted
    | ToResidual

  /** A worker and its copy of the removal. */
  datatype Task = Task(job: nat, cur: Removal, pc: Pc)

  datatype System = System(world: World, tasks: map<nat, Task>)

  /** A call succeeds, fails without effect, or takes effect while its caller sees a failure. */
  datatype Outcome = Ok | Err | Lost

  datatype Action =
    | Request(job: nat, localOnly: bool)
    | Resume(worker: nat, job: nat)
    | Perform(worker: nat, outcome: Outcome)
    | Stop(worker: nat)
    | ChangeRow(row: Option<Row>)
    | ChangeRotation(open: bool, saved: bool)
    | AddFile(ref: nat)
    | LoseFile(ref: nat)

  /** A managed credential is revoked on the Agent unless the removal is local only. */
  predicate NeedsRevoke(r: Removal) { r.rid.Some? && !r.localOnly }

  predicate BeforeRevoked(p: Phase) { p == Pending || p == Revoking || p == Residual }

  predicate Unfinished(v: World, j: nat) { j in v.jobs && v.jobs[j].phase != Completed }

  /** `assert_agent_mutation_allowed` for the removal `except`. */
  predicate MutationAllowed(v: World, except: Option<nat>) {
    !v.savedRotation && forall j :: j in v.jobs && Some(j) != except ==> v.jobs[j].phase == Completed
  }

  /** Where `_resume_removal` begins. */
  function Entry(r: Removal): Option<Pc> {
    match r.phase
    case Revoked => Some(DeleteRow)
    case RegistryDeleted => Some(DeleteFile)
    case CredentialDeleted => Some(ToCompleted)
    case Completed => None
    case Revoking => Some(if NeedsRevoke(r) then ReadToken else ToRevoked)
    case _ => Some(if NeedsRevoke(r) then ToRevoking else ToRevoked)
  }

  function Apply(s: System, a: Action): System {
    match a
    case Request(j, localOnly) => DoRequest(s, j, localOnly)
    case Resume(w, j) =>
      if w in s.tasks || j !in s.world.jobs || Entry(s.world.jobs[j]).None? then s
      else s.(tasks := s.tasks[w := Task(j, s.world.jobs[j], Entry(s.world.jobs[j]).value)])
    case Perform(w, out) => if w in s.tasks then DoPerform(s, w, out) else s
    case Stop(w) => End(s, w)
    case ChangeRow(row) => DoChangeRow(s, row)
    case ChangeRotation(open, saved) => s.(world := s.world.(openRotation := open || saved, savedRotation := saved))
    case AddFile(ref) =>
      if ref in s.world.used then s else s.(world := s.world.(store := s.world.store + {ref}, used := s.world.used + {ref}))
    case LoseFile(ref) => s.(world := s.world.(store := s.world.store - {ref}))
  }

  /** `create_for_agent` */
  function DoRequest(s: System, j: nat, localOnly: bool): System {
    if s.world.row.None? || j in s.world.jobs || !MutationAllowed(s.world, None) then s
    else
      var row := s.world.row.value;
      s.(world := s.world.(jobs := s.world.jobs[j := Removal(row.revision, row.ref, row.rid, localOnly, Pending)]))
  }

  /** Whatever else happens to the row, a new reference in it is a fresh one with its file. */
  function DoChangeRow(s: System, row: Option<Row>): System {
    if row.None? then s.(world := s.world.(row := None))
    else if s.world.row.Some? && s.world.row.value.ref == row.value.ref then s.(world := s.world.(row := row))
    else if row.value.ref in s.world.used then s
    else
      s.(world := s.world.(row := row, store := s.world.store + {row.value.ref}, used := s.world.used + {row.value.ref}))
  }

  function End(s: System, w: nat): System { s.(tasks := s.tasks - {w}) }

  function Goto(s: System, w: nat, pc: Pc): System
    requires w in s.tasks
  {
    s.(tasks := s.tasks[w := s.tasks[w].(pc := pc)])
  }

  /** `transition`: a compare-and-set on the phase; a worker that loses it stops. */
  function Advance(s: System, w: nat, out: Outcome, phase: Phase, next: Option<Pc>): System
    requires w in s.tasks
  {
    var t := s.tasks[w];
    if out == Err || t.job !in s.world.jobs || s.world.jobs[t.job].phase != t.cur.phase then End(s, w)
    else
      var u := s.(world := s.world.(jobs := s.world.jobs[t.job := s.world.jobs[t.job].(phase := phase)]));
      if out == Lost || next.None? then End(u, w)
      else u.(tasks := s.tasks[w := Task(t.job, t.cur.(phase := phase), next.value)])
  }

  predicate RowMatches(v: World, r: Removal) {
    v.row.Some? && v.row.value.revision == r.revision && v.row.value.ref == r.ref
  }

  /** One call of `_resume_removal`. */
  function DoPerform(s: System, w: nat, out: Outcome): System
    requires w in s.tasks
  {
    var t := s.tasks[w];
    match t.pc
    case ToRevoking => Advance(s, w, out, Revoking, Some(ReadToken))
    case ReadToken => Goto(s, w, if out == Ok && t.cur.ref in s.world.store then AwaitRevoke else ToResidual)
    case AwaitRevoke =>
      var u := if out == Err || t.cur.rid.None? then s else s.(world := s.world.(revoked := s.world.revoked + {t.cur.rid.value}));
      Goto(u, w, if out == Ok then ToRevoked else ToResidual)
    case ToRevoked => Advance(s, w, out, Revoked, Some(DeleteRow))
    case DeleteRow => DoDeleteRow(s, w, out)
    case CheckRow =>
      if out != Ok then End(s, w)
      else Goto(s, w, if s.world.row.Some? then ToResidual else ToRegistryDeleted)
    case ToRegistryDeleted => Advance(s, w, out, RegistryDeleted, Some(DeleteFile))
    case DeleteFile =>
      var u := if out == Err then s else s.(world := s.world.(store := s.world.store - {t.cur.ref}));
      Goto(u, w, if out == Ok then ToCredentialDeleted else ToResidual)
    case ToCredentialDeleted => Advance(s, w, out, CredentialDeleted, Some(ToCompleted))
    case ToCompleted => Advance(s, w, out, Completed, None)
    case ToResidual => Advance(s, w, out, Residual, None)
  }

  /** `delete_if_revision_and_credential`; its conflicts and failures end the worker. */
  function DoDeleteRow(s: System, w: nat, out: Outcome): System
    requires w in s.tasks
  {
    var t := s.tasks[w];
    if out == Err || !MutationAllowed(s.world, Some(t.job)) then End(s, w)
    else if !RowMatches(s.world, t.cur) then (if out == Ok then Goto(s, w, CheckRow) else End(s, w))
    else if s.world.openRotation then End(s, w)
    else
      var u := s.(world := s.world.(row := None));
      if out == Ok then Goto(u, w, ToRegistryDeleted) else End(u, w)
  }

  // ---------------------------------------------------------------------------
  // What every step keeps.

  /** The remote credential is revoked, or need not be. */
  predicate Cleared(v: World, r: Removal) { NeedsRevoke(r) ==> r.rid.value in v.revoked }

  /** The row does not name the removed credential. */
  predicate Gone(v: World, r: Removal) { v.row.Some? ==> v.row.value.ref != r.ref }

  predicate PastRevoked(p: Phase) { p == Revoked || PastRow(p) }
  predicate PastRow(p: Phase) { p == RegistryDeleted || PastFile(p) }
  predicate PastFile(p: Phase) { p == CredentialDeleted || p == Completed }

  /** What a recorded phase promises. */
  predicate RecordOk(v: World, r: Removal) {
    && r.ref in v.used
    && (PastRevoked(r.phase) ==> Cleared(v, r))
    && (PastRow(r.phase) ==> Gone(v, r))
    && (PastFile(r.phase) ==> r.ref !in v.store)
  }

  /** What a worker knows before its next call. */
  predicate PcOk(v: World, t: Task) {
    && (t.pc in {ToRevoked, DeleteRow, CheckRow, ToRegistryDeleted, DeleteFile, ToCredentialDeleted, ToCompleted} ==> Cleared(v, t.cur))
    && (t.pc in {ToRegistryDeleted, DeleteFile, ToCredentialDeleted, ToCompleted} ==> Gone(v, t.cur))
    && (t.pc in {ToCredentialDeleted, ToCompleted} ==> t.cur.ref !in v.store)
    && (t.pc == AwaitRevoke ==> NeedsRevoke(t.cur))
    && (t.pc in {ToRevoking, ReadToken} ==> NeedsRevoke(t.cur))
    && t.cur.phase != Completed
  }

  predicate SameRemoval(a: Removal, b: Removal) {
    a == b.(phase := a.phase)
  }

  predicate TaskOk(v: World, t: Task) {
    t.job in v.jobs && SameRemoval(t.cur, v.jobs[t.job]) && RecordOk(v, t.cur) && PcOk(v, t)
  }

  ghost predicate Invariant(s: System) {
    && (forall j :: j in s.world.jobs ==> RecordOk(s.world, s.world.jobs[j]))
    && (forall w :: w in s.tasks ==> TaskOk(s.world, s.tasks[w]))
    && (forall j, k :: Unfinished(s.world, j) && Unfinished(s.world, k) ==> j == k)
    && s.world.store <= s.world.used
    && (s.world.row.Some? ==> s.world.row.value.ref in s.world.used)
  }

  /** What no step undoes. */
  ghost predicate Follows(a: World, b: World) {
    && a.revoked <= b.revoked && a.used <= b.used
    && (b.row.Some? ==> b.row.value.ref in b.used && ((a.row.Some? && a.row.value.ref == b.row.value.ref) || b.row.value.ref !in a.used))
    && (forall ref :: ref in b.store && ref in a.used ==> ref in a.store)
    && (forall j :: j in a.jobs ==> j in b.jobs && SameRemoval(a.jobs[j], b.jobs[j]) && (a.jobs[j].phase == Completed ==> b.jobs[j].phase == Completed))
  }

  lemma RecordKept(a: World, b: World, r: Removal)
    requires RecordOk(a, r) && Follows(a, b)
    ensures RecordOk(b, r)
  {
  }

  lemma TaskKept(a: World, b: World, t: Task)
    requires TaskOk(a, t) && Follows(a, b)
    ensures TaskOk(b, t)
  {
  }

  // ---------------------------------------------------------------------------
  // Every step keeps the invariant.

  lemma FollowsSelf(s: System)
    requires Invariant(s)
    ensures Follows(s.world, s.world)
  {
  }

  /** A step that leaves the jobs alone and takes or moves one worker. */
  lemma QuietStep(s: System, t: System, w: nat)
    requires Invariant(s) && Follows(s.world, t.world) && t.world.jobs == s.world.jobs && t.world.store <= t.world.used
    requires t.tasks == s.tasks - {w} || (w in t.tasks && t.tasks == s.tasks[w := t.tasks[w]] && TaskOk(t.world, t.tasks[w]))
    ensures Invariant(t)
  {
    forall j | j in t.world.jobs ensures RecordOk(t.world, t.world.jobs[j]) {
      RecordKept(s.world, t.world, s.world.jobs[j]);
    }
    forall x | x in t.tasks ensures TaskOk(t.world, t.tasks[x]) {
      if x != w || w !in t.tasks {
        TaskKept(s.world, t.world, s.tasks[x]);
      }
    }
    forall j, k | Unfinished(t.world, j) && Unfinished(t.world, k) ensures j == k {
      assert Unfinished(s.world, j) && Unfinished(s.world, k);
    }
  }

  function Recorded(v: World, j: nat, phase: Phase): World
    requires j in v.jobs
  {
    v.(jobs := v.jobs[j := v.jobs[j].(phase := phase)])
  }

  /** A phase may be recorded when what it promises is the case. */
  lemma RecordStep(s: System, j: nat, phase: Phase)
    requires Invariant(s) && Unfinished(s.world, j) && RecordOk(s.world, s.world.jobs[j].(phase := phase))
    ensures Invariant(s.(world := Recorded(s.world, j, phase))) && Follows(s.world, Recorded(s.world, j, phase))
  {
    var u := Recorded(s.world, j, phase);
    forall k | k in u.jobs ensures RecordOk(u, u.jobs[k]) {
      RecordKept(s.world, u, if k == j then s.world.jobs[j].(phase := phase) else s.world.jobs[k]);
    }
    forall x | x in s.tasks ensures TaskOk(u, s.tasks[x]) {
      TaskKept(s.world, u, s.tasks[x]);
    }
    forall i, k | Unfinished(u, i) && Unfinished(u, k) ensures i == k {
      assert Unfinished(s.world, i) && Unfinished(s.world, k);
    }
  }

  lemma AdvanceStep(s: System, w: nat, out: Outcome, phase: Phase, next: Option<Pc>)
    requires Invariant(s) && w in s.tasks
    requires RecordOk(s.world, s.tasks[w].cur.(phase := phase))
    requires next.Some? ==> PcOk(s.world, Task(s.tasks[w].job, s.tasks[w].cur.(phase := phase), next.value))
    ensures var t := Advance(s, w, out, phase, next); Invariant(t) && Follows(s.world, t.world)
  {
    var t := s.tasks[w];
    assert TaskOk(s.world, t);
    if out == Err || s.world.jobs[t.job].phase != t.cur.phase {
      FollowsSelf(s);
      QuietStep(s, End(s, w), w);
    } else {
      assert s.world.jobs[t.job] == t.cur;
      RecordStep(s, t.job, phase);
      var u := s.(world := Recorded(s.world, t.job, phase));
      FollowsSelf(u);
      if next.Some? {
        var moved := Task(t.job, t.cur.(phase := phase), next.value);
        assert TaskOk(u.world, moved);
        assert u.tasks[w := moved][w] == moved;
        QuietStep(u, u.(tasks := u.tasks[w := moved]), w);
      }
      QuietStep(u, End(u, w), w);
    }
  }

  /** A worker's step. */
  lemma PerformStep(s: System, w: nat, out: Outcome)
    requires Invariant(s) && w in s.tasks
    ensures var t := DoPerform(s, w, out); Invariant(t) && Follows(s.world, t.world)
  {
    var t := s.tasks[w];
    assert TaskOk(s.world, t);
    match t.pc
    case ToRevoking => AdvanceStep(s, w, out, Revoking, Some(ReadToken));
    case ToRevoked => AdvanceStep(s, w, out, Revoked, Some(DeleteRow));
    case ToRegistryDeleted => AdvanceStep(s, w, out, RegistryDeleted, Some(DeleteFile));
    case ToCredentialDeleted => AdvanceStep(s, w, out, CredentialDeleted, Some(ToCompleted));
    case ToCompleted => AdvanceStep(s, w, out, Completed, None);
    case ToResidual => AdvanceStep(s, w, out, Residual, None);
    case _ => CallStep(s, w, out);
  }

  /** A call that leaves the jobs alone. */
  predicate IsCall(pc: Pc) { pc in {ReadToken, AwaitRevoke, DeleteRow, CheckRow, DeleteFile} }

  lemma CallShape(s: System, w: nat, out: Outcome)
    requires w in s.tasks && IsCall(s.tasks[w].pc) && s.world.store <= s.world.used && Follows(s.world, s.world)
    ensures var u := DoPerform(s, w, out);
            && u.world.jobs == s.world.jobs && Follows(s.world, u.world) && u.world.store <= u.world.used
            && (u.tasks == s.tasks - {w} || (w in u.tasks && u.tasks == s.tasks[w := u.tasks[w]]))
            && (w in u.tasks ==> u.tasks[w].job == s.tasks[w].job && u.tasks[w].cur == s.tasks[w].cur)
  {
  }

  lemma CallPc(s: System, w: nat, out: Outcome)
    requires w in s.tasks && IsCall(s.tasks[w].pc) && TaskOk(s.world, s.tasks[w])
    ensures var u := DoPerform(s, w, out); w in u.tasks ==> PcOk(u.world, u.tasks[w])
  {
  }

  lemma CallStep(s: System, w: nat, out: Outcome)
    requires Invariant(s) && w in s.tasks && IsCall(s.tasks[w].pc)
    ensures var t := DoPerform(s, w, out); Invariant(t) && Follows(s.world, t.world)
  {
    var u := DoPerform(s, w, out);
    assert TaskOk(s.world, s.tasks[w]);
    FollowsSelf(s);
    CallShape(s, w, out);
    CallPc(s, w, out);
    if w in u.tasks {
      RecordKept(s.world, u.world, s.tasks[w].cur);
      assert TaskOk(u.world, u.tasks[w]);
    }
    QuietStep(s, u, w);
  }

  lemma StepKeeps(s: System, a: Action)
    requires Invariant(s)
    ensures Invariant(Apply(s, a)) && Follows(s.world, Apply(s, a).world)
  {
    FollowsSelf(s);
    match a
    case Request(j, localOnly) => RequestStep(s, j, localOnly);
    case Perform(w, out) => if w in s.tasks { PerformStep(s, w, out); }
    case Resume(w, j) =>
      if w !in s.tasks && j in s.world.jobs && Entry(s.world.jobs[j]).Some? {
        QuietStep(s, Apply(s, a), w);
      }
    case Stop(w) => QuietStep(s, End(s, w), w);
    case _ => OutsideStep(s, a);
  }

  lemma ChangeRowFollows(s: System, row: Option<Row>)
    requires s.world.store <= s.world.used && (s.world.row.Some? ==> s.world.row.value.ref in s.world.used)
    ensures Follows(s.world, DoChangeRow(s, row).world)
  {
  }

  lemma OutsideFollows(s: System, a: Action)
    requires s.world.store <= s.world.used && (s.world.row.Some? ==> s.world.row.value.ref in s.world.used)
    requires a.ChangeRow? || a.ChangeRotation? || a.AddFile? || a.LoseFile?
    ensures var t := Apply(s, a);
            Follows(s.world, t.world) && t.world.jobs == s.world.jobs && t.tasks == s.tasks && t.world.store <= t.world.used
  {
    if a.ChangeRow? {
      ChangeRowFollows(s, a.row);
    }
  }

  lemma OutsideStep(s: System, a: Action)
    requires Invariant(s) && (a.ChangeRow? || a.ChangeRotation? || a.AddFile? || a.LoseFile?)
    ensures Invariant(Apply(s, a)) && Follows(s.world, Apply(s, a).world)
  {
    OutsideFollows(s, a);
    Unworked(s, Apply(s, a));
  }

  /** A step that leaves jobs and workers alone. */
  lemma Unworked(s: System, t: System)
    requires Invariant(s) && Follows(s.world, t.world) && t.world.jobs == s.world.jobs && t.tasks == s.tasks
    requires t.world.store <= t.world.used
    ensures Invariant(t)
  {
    forall j | j in t.world.jobs ensures RecordOk(t.world, t.world.jobs[j]) {
      RecordKept(s.world, t.world, s.world.jobs[j]);
    }
    forall x | x in t.tasks ensures TaskOk(t.world, t.tasks[x]) {
      TaskKept(s.world, t.world, s.tasks[x]);
    }
    forall j, k | Unfinished(t.world, j) && Unfinished(t.world, k) ensures j == k {
      assert Unfinished(s.world, j) && Unfinished(s.world, k);
    }
  }

  lemma RequestStep(s: System, j: nat, localOnly: bool)
    requires Invariant(s)
    ensures var t := DoRequest(s, j, localOnly); Invariant(t) && Follows(s.world, t.world)
  {
    FollowsSelf(s);
    var t := DoRequest(s, j, localOnly);
    forall k | k in t.world.jobs ensures RecordOk(t.world, t.world.jobs[k]) {
      if k in s.world.jobs {
        RecordKept(s.world, t.world, s.world.jobs[k]);
      }
    }
    forall x | x in t.tasks ensures TaskOk(t.world, t.tasks[x]) {
      TaskKept(s.world, t.world, s.tasks[x]);
    }
    forall i, k | Unfinished(t.world, i) && Unfinished(t.world, k) ensures i == k {
      assert i != j ==> Unfinished(s.world, i);
      assert k != j ==> Unfinished(s.world, k);
    }
  }
}
