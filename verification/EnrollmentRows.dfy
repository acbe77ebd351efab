/**
 * What keeps the credentials of registered Agents usable: a registration commits
 * only a credential it has not begun to take back, and takes back only what no row
 * names.
 */
module EnrollmentRows {
  import opened Wrappers
  import opened EnrollmentSaga
  import opened EnrollmentSafety

  ghost predicate RemoteOk(v: World) {
    && (forall rid :: StatusOf(v, rid) == Revoked ==> Revoke(rid) in v.sent)
    && (forall rid :: Revoke(rid) in v.sent ==> rid in v.usedRids)
  }

  /** No row has the job's credential until it is committed. */
  ghost predicate Unnamed(v: World, j: Job) {
    j.phase != Consumed ==> forall id :: id in v.rows ==> !Shares(j.ref, j.rid, v.rows[id])
  }

  /** Neither revoked nor deleted. */
  predicate Intact(v: World, j: Job) {
    j.ref.Some? && j.ref.value in v.store && (j.rid.Some? ==> Revoke(j.rid.value) !in v.sent)
  }

  ghost predicate CredentialOk(v: World, j: Job) {
    Unnamed(v, j) && (j.phase == Requested ==> Intact(v, j))
  }

  predicate SameCredential(a: Job, b: Job) {
    (a.ref.Some? && a.ref == b.ref) || (a.rid.Some? && a.rid == b.rid)
  }

  ghost predicate Distinct(v: World) {
    forall j, k :: j in v.jobs && k in v.jobs && j != k ==> !SameCredential(v.jobs[j], v.jobs[k])
  }

  ghost predicate CredentialsOk(v: World) {
    forall k :: k in v.jobs ==> CredentialOk(v, v.jobs[k])
  }

  ghost predicate Good(v: World) { RowsOk(v) && RemoteOk(v) && CredentialsOk(v) && Distinct(v) }

  // ---------------------------------------------------------------------------
  // Changes of the world.

  lemma DrawingGood(v: World, ref: nat, rid: Option<nat>, status: Status)
    requires JobsOk(v) && Good(v) && !Drawn(v, ref, rid) && status != Revoked
    ensures Good(Drawing(v, ref, rid, status))
  {
    var u := Drawing(v, ref, rid, status);
    assert forall r :: (rid.Some? ==> r != rid.value) ==> StatusOf(u, r) == StatusOf(v, r);
    forall id | id in u.rows ensures RowOk(u, u.rows[id]) {
      assert RowOk(v, v.rows[id]);
    }
    forall k | k in u.jobs ensures CredentialOk(u, u.jobs[k]) {
      assert CredentialOk(v, v.jobs[k]);
    }
  }

  /** A row for a credential nobody has. */
  lemma RowAddedGood(v: World, id: nat, r: Record)
    requires Good(v) && id !in v.rows && RowOk(v, r)
    requires forall k :: k in v.rows ==> !Shares(Some(r.ref), r.rid, v.rows[k])
    requires forall k :: k in v.jobs && v.jobs[k].phase != Consumed ==> !Shares(v.jobs[k].ref, v.jobs[k].rid, r)
    ensures Good(v.(rows := v.rows[id := r]))
  {
    var u := v.(rows := v.rows[id := r]);
    assert forall rid :: StatusOf(u, rid) == StatusOf(v, rid);
    forall i | i in u.rows ensures RowOk(u, u.rows[i]) {
      assert i != id ==> RowOk(v, v.rows[i]);
    }
    forall k | k in u.jobs ensures CredentialOk(u, u.jobs[k]) {
      assert CredentialOk(v, v.jobs[k]);
    }
  }

  /** A row with a credential drawn for it. */
  lemma DrawnRowGood(v: World, id: nat, r: Record)
    requires JobsOk(v) && Good(v) && id !in v.rows && !Drawn(v, r.ref, r.rid)
    ensures Good(Drawing(v, r.ref, r.rid, Active).(rows := v.rows[id := r]))
  {
    DrawingGood(v, r.ref, r.rid, Active);
    FreshRow(v, r.ref, r.rid, r);
    RowAddedGood(Drawing(v, r.ref, r.rid, Active), id, r);
  }

  lemma RegisterGood(v: World, e: Event)
    requires JobsOk(v) && Good(v) && e.Register? && After(v, e) != v
    ensures Good(After(v, e))
  {
    DrawnRowGood(v, e.id, Record(e.ref, e.rid, e.instance, e.endpoint, e.details, v.now));
  }

  lemma FreshRow(v: World, ref: nat, rid: Option<nat>, r: Record)
    requires JobsOk(v) && Good(v) && !Drawn(v, ref, rid) && r.ref == ref && r.rid == rid
    ensures RowOk(Drawing(v, ref, rid, Active), r)
    ensures forall k :: k in v.rows ==> !Shares(Some(r.ref), r.rid, v.rows[k])
    ensures forall k :: k in v.jobs && v.jobs[k].phase != Consumed ==> !Shares(v.jobs[k].ref, v.jobs[k].rid, r)
  {
    forall k | k in v.rows ensures !Shares(Some(r.ref), r.rid, v.rows[k]) {
      assert RowOk(v, v.rows[k]);
    }
    forall k | k in v.jobs ensures !Shares(v.jobs[k].ref, v.jobs[k].rid, r) {
      assert JobOk(v, v.jobs[k]);
    }
  }

  /** A row and its credential go. */
  lemma RemovedGood(v: World, id: nat)
    requires JobsOk(v) && Good(v) && id in v.rows
    ensures Good(Retiring(v, v.rows[id]).(rows := v.rows - {id}))
  {
    var r := v.rows[id];
    var u := Retiring(v, r).(rows := v.rows - {id});
    assert forall rid :: StatusOf(u, rid) == StatusOf(v, rid);
    assert RowOk(v, r);
    forall i | i in u.rows ensures RowOk(u, u.rows[i]) {
      assert RowOk(v, v.rows[i]) && !Shares(Some(v.rows[i].ref), v.rows[i].rid, r);
    }
    forall k | k in u.jobs ensures CredentialOk(u, u.jobs[k]) {
      assert CredentialOk(v, v.jobs[k]) && (v.jobs[k].phase != Consumed ==> !Shares(v.jobs[k].ref, v.jobs[k].rid, r));
    }
  }

  lemma RotateGood(v: World, e: Event)
    requires JobsOk(v) && Good(v) && e.Rotate? && After(v, e) != v
    ensures Good(After(v, e))
  {
    var t := Retiring(v, v.rows[e.id]).(rows := v.rows - {e.id});
    var r := v.rows[e.id].(ref := e.ref, rid := Some(e.successor), stamp := v.now);
    RemovedGood(v, e.id);
    RemovedJobs(v, e.id);
    DrawnRowGood(t, e.id, r);
    assert After(v, e) == Drawing(t, r.ref, r.rid, Active).(rows := t.rows[e.id := r]);
  }

  lemma RemovedJobs(v: World, id: nat)
    requires JobsOk(v) && id in v.rows
    ensures JobsOk(Retiring(v, v.rows[id]).(rows := v.rows - {id}))
  {
    RetiringFollows(v, v.rows[id]);
    RowsFollow(Retiring(v, v.rows[id]), v.rows - {id});
  }

  /** A row keeps its credential. */
  lemma EditGood(v: World, id: nat, r: Record)
    requires Good(v) && id in v.rows && r.ref == v.rows[id].ref && r.rid == v.rows[id].rid
    ensures Good(v.(rows := v.rows[id := r]))
  {
    var u := v.(rows := v.rows[id := r]);
    assert forall rid :: StatusOf(u, rid) == StatusOf(v, rid);
    forall i | i in u.rows ensures RowOk(u, u.rows[i]) {
      assert RowOk(v, v.rows[i]);
    }
    forall k | k in u.jobs ensures CredentialOk(u, u.jobs[k]) {
      assert CredentialOk(v, v.jobs[k]);
      forall i | i in u.rows && u.jobs[k].phase != Consumed ensures !Shares(u.jobs[k].ref, u.jobs[k].rid, u.rows[i]) {
        assert !Shares(v.jobs[k].ref, v.jobs[k].rid, v.rows[i]);
      }
    }
  }

  lemma RequestGood(v: World, e: Event)
    requires JobsOk(v) && Good(v) && e.RequestActivation? && After(v, e) != v
    ensures Good(After(v, e))
  {
    var u := Drawing(v, e.ref, e.rid, Waiting);
    var job := After(v, e).jobs[e.job];
    DrawingGood(v, e.ref, e.rid, Waiting);
    FreshRow(v, e.ref, e.rid, RecordOf(job, 0));
    NewJobGood(u, v, e.job, job);
    assert After(v, e) == SetJob(u, e.job, job);
  }

  /** A job whose credential was drawn after `v`. */
  lemma NewJobGood(u: World, v: World, j: nat, job: Job)
    requires Good(u) && JobsOk(v) && u.jobs == v.jobs && u.rows == v.rows && j !in v.jobs
    requires job.phase == Requested && Intact(u, job) && !Drawn(v, job.ref.value, job.rid)
    requires forall k :: k in v.rows ==> !Shares(job.ref, job.rid, v.rows[k])
    ensures Good(SetJob(u, j, job))
  {
    var x := SetJob(u, j, job);
    assert forall rid :: StatusOf(x, rid) == StatusOf(u, rid);
    forall k | k in v.jobs ensures !SameCredential(v.jobs[k], job) && !SameCredential(job, v.jobs[k]) {
      assert JobOk(v, v.jobs[k]);
    }
    forall i | i in x.rows ensures RowOk(x, x.rows[i]) {
      assert RowOk(u, u.rows[i]);
    }
    forall k | k in x.jobs ensures CredentialOk(x, x.jobs[k]) {
      assert k != j ==> CredentialOk(u, u.jobs[k]);
    }
  }

  /** A job is rewritten, and not committed. */
  lemma SetJobGood(v: World, k: nat, job: Job)
    requires Good(v) && k in v.jobs && JobFollows(v.jobs[k], job) && v.jobs[k].phase != Consumed
    requires job.phase == Requested ==> v.jobs[k].phase == Requested && job.ref == v.jobs[k].ref
    ensures Good(SetJob(v, k, job))
  {
    var u := SetJob(v, k, job);
    assert forall rid :: StatusOf(u, rid) == StatusOf(v, rid);
    assert CredentialOk(v, v.jobs[k]);
    forall i | i in u.rows ensures RowOk(u, u.rows[i]) && !Shares(job.ref, job.rid, u.rows[i]) {
      assert RowOk(v, v.rows[i]) && !Shares(v.jobs[k].ref, v.jobs[k].rid, v.rows[i]);
    }
    forall i | i in u.jobs ensures CredentialOk(u, u.jobs[i]) {
      assert CredentialOk(v, v.jobs[i]);
    }
  }

  /** Files nobody needs go. */
  lemma ShrinkGood(v: World, store: set<nat>)
    requires Good(v) && store <= v.store
    requires forall id :: id in v.rows ==> v.rows[id].ref in store
    requires forall k :: k in v.jobs && v.jobs[k].phase == Requested && v.jobs[k].ref.Some? ==> v.jobs[k].ref.value in store
    ensures Good(v.(store := store))
  {
    var u := v.(store := store);
    assert forall rid :: StatusOf(u, rid) == StatusOf(v, rid);
    forall i | i in u.rows ensures RowOk(u, u.rows[i]) {
      assert RowOk(v, v.rows[i]);
    }
    forall k | k in u.jobs ensures CredentialOk(u, u.jobs[k]) {
      assert CredentialOk(v, v.jobs[k]);
    }
  }

  lemma SendGood(v: World, r: Request)
    requires Good(v)
    requires r.Revoke? ==> r.rid in v.usedRids
    requires r.Revoke? ==> forall id :: id in v.rows ==> v.rows[id].rid != Some(r.rid)
    requires r.Revoke? ==> forall k :: k in v.jobs && v.jobs[k].phase == Requested ==> v.jobs[k].rid != Some(r.rid)
    ensures Good(v.(sent := v.sent + {r}))
  {
    var u := v.(sent := v.sent + {r});
    assert forall rid :: StatusOf(u, rid) == StatusOf(v, rid);
    forall i | i in u.rows ensures RowOk(u, u.rows[i]) {
      assert RowOk(v, v.rows[i]);
    }
    forall k | k in u.jobs ensures CredentialOk(u, u.jobs[k]) {
      assert CredentialOk(v, v.jobs[k]);
    }
  }

  lemma ActsGood(v: World, r: Request)
    requires Good(v)
    ensures Good(DoAgentActs(v, r))
  {
    var u := DoAgentActs(v, r);
    forall i | i in u.rows ensures RowOk(u, u.rows[i]) {
      assert RowOk(v, v.rows[i]);
    }
    forall k | k in u.jobs ensures CredentialOk(u, u.jobs[k]) {
      assert CredentialOk(v, v.jobs[k]);
    }
  }

  lemma TickGood(v: World, to: int)
    requires Good(v)
    ensures Good(v.(now := to))
  {
    var u := v.(now := to);
    assert forall rid :: StatusOf(u, rid) == StatusOf(v, rid);
    forall i | i in u.rows ensures RowOk(u, u.rows[i]) {
      assert RowOk(v, v.rows[i]);
    }
    forall k | k in u.jobs ensures CredentialOk(u, u.jobs[k]) {
      assert CredentialOk(v, v.jobs[k]);
    }
  }

  lemma CleaningGood(v: World, j: nat, recorded: bool)
    requires Good(v) && DoCleanTerminal(v, j, recorded) != v
    ensures Good(DoCleanTerminal(v, j, recorded))
  {
    var u := DropRef(v, v.jobs[j].ref.value);
    assert CredentialOk(v, v.jobs[j]);
    forall id | id in v.rows ensures v.rows[id].ref in u.store {
      assert RowOk(v, v.rows[id]) && !Shares(v.jobs[j].ref, v.jobs[j].rid, v.rows[id]);
    }
    forall k | k in v.jobs && v.jobs[k].phase == Requested && v.jobs[k].ref.Some? ensures v.jobs[k].ref.value in u.store {
      assert CredentialOk(v, v.jobs[k]) && !SameCredential(v.jobs[k], v.jobs[j]);
    }
    ShrinkGood(v, u.store);
    if recorded {
      SetJobGood(u, j, v.jobs[j].(ref := None));
    }
  }

  lemma OrphansGood(v: World)
    requires Good(v)
    ensures Good(After(v, CleanOrphans))
  {
    forall id | id in v.rows ensures v.rows[id].ref in After(v, CleanOrphans).store {
      assert RowOk(v, v.rows[id]);
    }
    forall k | k in v.jobs && v.jobs[k].phase == Requested && v.jobs[k].ref.Some?
      ensures v.jobs[k].ref.value in After(v, CleanOrphans).store
    {
      assert CredentialOk(v, v.jobs[k]);
    }
    ShrinkGood(v, After(v, CleanOrphans).store);
  }

  lemma EventGood(v: World, e: Event)
    requires JobsOk(v) && Good(v)
    ensures Good(After(v, e))
  {
    if After(v, e) != v {
      match e
      case RequestActivation(_, _, _, _, _, _, _) => RequestGood(v, e);
      case Register(_, _, _, _, _, _) => RegisterGood(v, e);
      case Edit(id, _, _) => EditGood(v, id, After(v, e).rows[id]);
      case Rotate(_, _, _) => RotateGood(v, e);
      case Remove(id) => RemovedGood(v, id);
      case CleanTerminal(j, recorded) => CleaningGood(v, j, recorded);
      case CleanOrphans => OrphansGood(v);
      case AgentActs(r) => ActsGood(v, r);
      case Tick(to) => TickGood(v, to);
    }
  }

  lemma IntrudeGood(v: World, j: nat, fails: bool)
    requires JobsOk(v) && Good(v)
    ensures Good(DoIntrude(v, j, fails))
  {
    if j in v.jobs && Saved(v.jobs[j].phase) {
      SetJobGood(v, j, DoIntrude(v, j, fails).jobs[j]);
    }
  }

  /** The commit of a credential that is neither revoked nor deleted. */
  lemma CommittedGood(v: World, j: nat)
    requires JobsOk(v) && Good(v) && j in v.jobs && v.jobs[j].phase == Activated && Intact(v, v.jobs[j])
    ensures Good(Committed(v, j, v.jobs[j]))
  {
    var job := v.jobs[j].(phase := Consumed, ref := None, owner := None, leaseUntil := 0, revision := v.jobs[j].revision + 1);
    var r := RecordOf(v.jobs[j], v.now);
    var u := SetJob(v, j, job);
    assert JobOk(v, v.jobs[j]) && CredentialOk(v, v.jobs[j]);
    SetJobGood(v, j, job);
    forall k | k in v.rows ensures !Shares(Some(r.ref), r.rid, v.rows[k]) {
      assert !Shares(v.jobs[j].ref, v.jobs[j].rid, v.rows[k]);
    }
    forall k | k in u.jobs && u.jobs[k].phase != Consumed ensures !Shares(u.jobs[k].ref, u.jobs[k].rid, r) {
      assert !SameCredential(v.jobs[k], v.jobs[j]);
    }
    RowAddedGood(u, j, r);
    assert Committed(v, j, v.jobs[j]) == u.(rows := u.rows[j := r]);
  }
}
