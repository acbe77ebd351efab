/**
 * What every step of a rotation keeps about the journal, the registry row, the
 * credential store and the Agent, whatever the workers are doing.
 */
module RotationWorld {
  import opened Wrappers
  import opened RotationSaga

  /** The row's names are among those it ever had, and everything named or stored was once drawn. */
  ghost predicate NamesOk(v: World) {
    && v.row.ref in v.named && v.named <= v.used && v.store <= v.used && v.namedRids <= v.usedRids
    && (v.row.kind.Managed? ==> v.row.kind.rid in v.namedRids)
    && (forall rid :: Revoke(rid) in v.sent ==> rid in v.usedRids)
  }

  /** What a job, or a worker's copy of one, captured from the row. */
  ghost predicate SnapshotOk(v: World, j: Job) {
    && j.oldRevision <= v.row.revision
    && (j.oldRef.Some? ==> j.oldRef.value in v.named)
    && (j.oldKind.Managed? ==> j.oldKind.rid in v.namedRids)
    && (j.incoming.Some? ==> j.incoming.value.ref in v.used && j.incoming.value.rid in v.usedRids)
  }

  /**
   * The row names a job's new credential by reference and by identity or not at
   * all, only after it was changed, and only while the job is activated; otherwise
   * it has never named it.
   */
  ghost predicate NewOk(v: World, j: Job) {
    j.incoming.Some? ==>
      var c := j.incoming.value;
      && j.oldRef != Some(c.ref) && j.oldKind != Managed(c.rid)
      && (j.oldInstance.Some? ==> j.oldInstance.value == c.instance)
      && if v.row.ref == c.ref then
           v.row.kind == Managed(c.rid) && v.row.revision > j.oldRevision && j.phase == Activated && j.oldInstance.Some?
         else c.ref !in v.named && c.rid !in v.namedRids
  }

  /** An open job has its snapshot, and from verification on its new credential. */
  predicate FilledIn(j: Job) {
    && (Open(j.phase) ==> j.oldRef.Some?)
    && (j.phase == Verified || Saved(j.phase) ==> j.incoming.Some?)
  }

  ghost predicate JobOk(v: World, j: Job) {
    SnapshotOk(v, j) && NewOk(v, j) && FilledIn(j)
  }

  ghost predicate JobsOk(v: World) {
    forall k :: k in v.jobs ==> JobOk(v, v.jobs[k])
  }

  predicate SameNew(a: Job, b: Job) {
    && a.incoming.Some? && b.incoming.Some?
    && (a.incoming.value.ref == b.incoming.value.ref || a.incoming.value.rid == b.incoming.value.rid)
  }

  /** No two jobs share a new credential. */
  ghost predicate Distinct(v: World) {
    forall j, k :: j in v.jobs && k in v.jobs && j != k ==> !SameNew(v.jobs[j], v.jobs[k])
  }

  /** One rotation at a time. */
  ghost predicate OneOpen(v: World) {
    forall j, k :: j in v.jobs && k in v.jobs && Open(v.jobs[j].phase) && Open(v.jobs[k].phase) ==> j == k
  }

  predicate Stored(v: World, j: Job) {
    Open(j.phase) && j.incoming.Some? ==> j.incoming.value.ref in v.store
  }

  /** The row's credential and those of open jobs are stored. */
  ghost predicate StoreOk(v: World) {
    v.row.ref in v.store && forall k :: k in v.jobs ==> Stored(v, v.jobs[k])
  }

  /** The Agent is asked to revoke a new credential only after its activation, and when it can no longer be swapped in. */
  predicate Barred(v: World, j: Job) {
    j.incoming.Some? && Revoke(j.incoming.value.rid) in v.sent ==> !CanSwap(j, v.row) && (j.phase == Activated || !Open(j.phase))
  }

  /** A credential that can still be swapped in by an activated job is active. */
  predicate Ready(v: World, j: Job) {
    j.incoming.Some? && j.phase == Activated && CanSwap(j, v.row) ==> StatusOf(v, j.incoming.value.rid) == Active
  }

  ghost predicate RemoteOk(v: World) {
    && (v.row.kind.Managed? ==> StatusOf(v, v.row.kind.rid) == Active && Revoke(v.row.kind.rid) !in v.sent)
    && (forall rid :: StatusOf(v, rid) == Revoked ==> Revoke(rid) in v.sent)
    && (forall k :: k in v.jobs ==> Barred(v, v.jobs[k]) && Ready(v, v.jobs[k]))
  }

  ghost predicate WorldOk(v: World) {
    NamesOk(v) && JobsOk(v) && Distinct(v) && OneOpen(v) && StoreOk(v) && RemoteOk(v)
  }

  lemma InitialOk(s: System)
    requires Initial(s)
    ensures WorldOk(s.world)
  {
  }

  // ---------------------------------------------------------------------------
  // How a world may develop.

  /** From its point of no return on a job does not go back, and stays as it is until its revision grows. */
  predicate JobFollows(a: Job, b: Job) {
    Unsaved(a.phase) ||
    (!Unsaved(b.phase) && a.revision <= b.revision && (Saved(a.phase) && a.revision == b.revision ==> a == b))
  }

  /** What one step leaves: nothing drawn, named or sent is forgotten, and the row takes only new names. */
  ghost predicate Follows(a: World, b: World) {
    && a.used <= b.used && a.usedRids <= b.usedRids && a.named <= b.named && a.namedRids <= b.namedRids
    && a.sent <= b.sent
    && (forall k :: k in a.jobs ==> k in b.jobs && JobFollows(a.jobs[k], b.jobs[k]))
    && a.row.revision <= b.row.revision && (a.row.revision == b.row.revision ==> a.row == b.row)
    && b.row.instance == a.row.instance
    && (b.row.ref == a.row.ref || b.row.ref !in a.named)
    && (b.row.kind == a.row.kind || (b.row.kind.Managed? && b.row.kind.rid !in a.namedRids))
    && (forall rid :: rid in a.usedRids && StatusOf(a, rid) != Waiting ==> StatusOf(b, rid) != Waiting)
    && (forall ref :: ref in b.store && ref in a.used ==> ref in a.store)
  }

  /** The row and the jobs take only credentials that are new or were a job's own. */
  ghost predicate Newcomers(a: World, b: World) {
    && (b.row.ref == a.row.ref || b.row.ref !in a.used || exists k :: k in a.jobs && Brings(a.jobs[k], b.row.ref))
    && (forall k :: k in b.jobs && b.jobs[k].incoming.Some? ==>
          b.jobs[k].incoming.value.ref !in a.used || (k in a.jobs && b.jobs[k].incoming == a.jobs[k].incoming))
  }

  predicate Brings(j: Job, ref: nat) { j.incoming.Some? && j.incoming.value.ref == ref }

  /** What a step outside the workers moreover leaves alone: saved jobs, and the row while there is one. */
  ghost predicate Undisturbed(a: World, b: World) {
    && (forall k :: k in a.jobs && Saved(a.jobs[k].phase) ==> k in b.jobs && b.jobs[k] == a.jobs[k] && b.row == a.row)
    && Newcomers(a, b)
  }

  /** A rewriting of one job that gives it no new credential and does not reopen it. */
  predicate Rewrites(v: World, k: nat, job: Job) {
    && k in v.jobs && (job.incoming == v.jobs[k].incoming || job.incoming.None?)
    && (Open(job.phase) ==> Open(v.jobs[k].phase)) && JobFollows(v.jobs[k], job)
  }

  lemma SetJobJobs(v: World, k: nat, job: Job)
    requires NamesOk(v) && JobsOk(v) && Distinct(v) && OneOpen(v) && Rewrites(v, k, job) && JobOk(v, job)
    ensures var u := SetJob(v, k, job); NamesOk(u) && JobsOk(u) && Distinct(u) && OneOpen(u)
  {
    var u := SetJob(v, k, job);
    forall i | i in u.jobs ensures JobOk(u, u.jobs[i]) {
      assert JobOk(v, if i == k then job else v.jobs[i]);
    }
  }

  lemma SetJobRemote(v: World, k: nat, job: Job)
    requires StoreOk(v) && RemoteOk(v) && Stored(v, job) && Barred(v, job) && Ready(v, job)
    ensures var u := SetJob(v, k, job); StoreOk(u) && RemoteOk(u)
  {
    var u := SetJob(v, k, job);
    forall i | i in u.jobs ensures Stored(u, u.jobs[i]) && Barred(u, u.jobs[i]) && Ready(u, u.jobs[i]) {
      assert i != k ==> Stored(v, v.jobs[i]) && Barred(v, v.jobs[i]) && Ready(v, v.jobs[i]);
    }
    assert forall rid :: StatusOf(u, rid) == StatusOf(v, rid);
  }

  lemma SetJobFollows(v: World, k: nat, job: Job)
    requires Rewrites(v, k, job)
    ensures Follows(v, SetJob(v, k, job)) && Newcomers(v, SetJob(v, k, job))
    ensures !Saved(v.jobs[k].phase) ==> Undisturbed(v, SetJob(v, k, job))
  {
    assert forall rid :: StatusOf(SetJob(v, k, job), rid) == StatusOf(v, rid);
  }

  lemma SetJobKeeps(v: World, k: nat, job: Job)
    requires WorldOk(v) && Rewrites(v, k, job) && JobOk(v, job) && Stored(v, job) && Barred(v, job) && Ready(v, job)
    ensures var u := SetJob(v, k, job); WorldOk(u) && Follows(v, u) && Newcomers(v, u)
    ensures !Saved(v.jobs[k].phase) ==> Undisturbed(v, SetJob(v, k, job))
  {
    SetJobJobs(v, k, job);
    SetJobRemote(v, k, job);
    SetJobFollows(v, k, job);
  }

  // ---------------------------------------------------------------------------
  // Events outside the workers.

  lemma TickKeeps(v: World, to: int)
    requires WorldOk(v)
    ensures var u := After(v, Tick(to)); WorldOk(u) && Follows(v, u) && Undisturbed(v, u)
  {
  }

  predicate NoneOpen(v: World) { forall k :: k in v.jobs ==> !Open(v.jobs[k].phase) }

  lemma CapturedJobs(v: World, j: nat)
    requires WorldOk(v) && j !in v.jobs && NoneOpen(v)
    ensures var u := SetJob(v, j, Captured(v.row)); NamesOk(u) && JobsOk(u) && Distinct(u) && OneOpen(u)
  {
    var u := SetJob(v, j, Captured(v.row));
    forall k | k in u.jobs ensures JobOk(u, u.jobs[k]) {
      assert k != j ==> JobOk(v, v.jobs[k]);
    }
  }

  lemma CapturedRemote(v: World, j: nat)
    requires WorldOk(v) && j !in v.jobs
    ensures var u := SetJob(v, j, Captured(v.row)); StoreOk(u) && RemoteOk(u) && Follows(v, u) && Undisturbed(v, u)
  {
    var u := SetJob(v, j, Captured(v.row));
    assert forall rid :: StatusOf(u, rid) == StatusOf(v, rid);
    forall k | k in u.jobs ensures Stored(u, u.jobs[k]) && Barred(u, u.jobs[k]) && Ready(u, u.jobs[k]) {
      assert k != j ==> Stored(v, v.jobs[k]) && Barred(v, v.jobs[k]) && Ready(v, v.jobs[k]);
    }
  }

  lemma StartRotationKeeps(v: World, j: nat)
    requires WorldOk(v)
    ensures var u := DoStartRotation(v, j); WorldOk(u) && Follows(v, u) && Undisturbed(v, u)
  {
    if j !in v.jobs && NoneOpen(v) {
      CapturedJobs(v, j);
      CapturedRemote(v, j);
    } else {
      assert DoStartRotation(v, j) == v;
    }
  }

  /** A credential nobody has drawn before, for a pending job. */
  predicate Fresh(v: World, j: nat, c: Credential) {
    && j in v.jobs && v.jobs[j].phase == Pending && c.ref !in v.used && c.rid !in v.usedRids
    && (v.jobs[j].oldInstance.Some? ==> v.jobs[j].oldInstance.value == c.instance)
  }

  lemma PublishedJobs(v: World, j: nat, c: Credential, revision: nat)
    requires WorldOk(v) && Fresh(v, j, c)
    ensures var u := Published(v, j, c, revision); NamesOk(u) && JobsOk(u) && Distinct(u) && OneOpen(u)
  {
    var u := Published(v, j, c, revision);
    forall k | k in u.jobs ensures JobOk(u, u.jobs[k]) {
      assert JobOk(v, v.jobs[k]);
    }
  }

  lemma PublishedRemote(v: World, j: nat, c: Credential, revision: nat)
    requires WorldOk(v) && Fresh(v, j, c)
    ensures var u := Published(v, j, c, revision); StoreOk(u) && RemoteOk(u)
  {
    var u := Published(v, j, c, revision);
    assert forall rid :: rid != c.rid ==> StatusOf(u, rid) == StatusOf(v, rid);
    forall k | k in u.jobs ensures Stored(u, u.jobs[k]) && Barred(u, u.jobs[k]) && Ready(u, u.jobs[k]) {
      assert JobOk(v, v.jobs[k]) && Stored(v, v.jobs[k]) && Barred(v, v.jobs[k]) && Ready(v, v.jobs[k]);
    }
  }

  lemma PublishedFollows(v: World, j: nat, c: Credential, revision: nat)
    requires WorldOk(v) && Fresh(v, j, c)
    ensures var u := Published(v, j, c, revision); Follows(v, u) && Undisturbed(v, u)
  {
    var u := Published(v, j, c, revision);
    assert forall rid :: rid != c.rid ==> StatusOf(u, rid) == StatusOf(v, rid);
  }

  lemma PublishKeeps(v: World, j: nat, c: Credential, revision: nat)
    requires WorldOk(v)
    ensures var u := DoPublish(v, j, c, revision); WorldOk(u) && Follows(v, u) && Undisturbed(v, u)
  {
    if Fresh(v, j, c) && revision <= v.jobs[j].revision {
      PublishedJobs(v, j, c, revision);
      PublishedRemote(v, j, c, revision);
      PublishedFollows(v, j, c, revision);
    }
  }

  /** Who has been granted what is no part of the invariant. */
  lemma GrantsKeep(v: World, u: World, grants: set<Grant>)
    requires WorldOk(u) && Follows(v, u) && Newcomers(v, u)
    ensures var x := u.(grants := grants); WorldOk(x) && Follows(v, x) && Newcomers(v, x)
    ensures Undisturbed(v, u) ==> Undisturbed(v, u.(grants := grants))
  {
    var x := u.(grants := grants);
    assert forall rid :: StatusOf(x, rid) == StatusOf(u, rid);
    forall k | k in x.jobs ensures JobOk(x, x.jobs[k]) && Stored(x, x.jobs[k]) && Barred(x, x.jobs[k]) && Ready(x, x.jobs[k]) {
      assert JobOk(u, u.jobs[k]) && Stored(u, u.jobs[k]) && Barred(u, u.jobs[k]) && Ready(u, u.jobs[k]);
    }
  }

  lemma ValidateKeeps(v: World, j: nat, owner: nat, lease: nat)
    requires WorldOk(v)
    ensures var u := DoValidate(v, j, owner, lease); WorldOk(u) && Follows(v, u) && Undisturbed(v, u)
  {
    UnchangedKeeps(v);
    var u := DoValidate(v, j, owner, lease);
    if u != v {
      assert JobOk(v, v.jobs[j]) && Stored(v, v.jobs[j]) && Barred(v, v.jobs[j]) && Ready(v, v.jobs[j]);
      SetJobKeeps(v, j, u.jobs[j]);
      GrantsKeep(v, SetJob(v, j, u.jobs[j]), u.grants);
    }
  }

  lemma ConsumeKeeps(v: World, j: nat)
    requires WorldOk(v)
    ensures var u := DoConsume(v, j); WorldOk(u) && Follows(v, u) && Undisturbed(v, u)
  {
    if j in v.jobs && v.jobs[j].phase == Verified {
      assert JobOk(v, v.jobs[j]) && Stored(v, v.jobs[j]) && Barred(v, v.jobs[j]);
      SetJobKeeps(v, j, v.jobs[j].(phase := Requested));
    }
  }

  lemma DropKeeps(v: World, j: nat)
    requires WorldOk(v)
    ensures var u := DoDrop(v, j); WorldOk(u) && Follows(v, u) && Undisturbed(v, u)
  {
    if j in v.jobs && !Saved(v.jobs[j].phase) {
      assert JobOk(v, v.jobs[j]) && Barred(v, v.jobs[j]);
      if v.jobs[j].phase == Pending || v.jobs[j].phase == Verified {
        SetJobKeeps(v, j, Closed(v.jobs[j], Dropped));
      }
    }
  }

  /** Steps that rewrite one job or change nothing. */
  lemma RewriteOrNot(v: World, u: World, k: nat, job: Job)
    requires WorldOk(v)
    requires u == v || (u == SetJob(v, k, job) && Rewrites(v, k, job) && JobOk(v, job) && Stored(v, job) && Barred(v, job) && Ready(v, job))
    ensures WorldOk(u) && Follows(v, u) && Newcomers(v, u) && u.row == v.row
    ensures u == v || !Saved(v.jobs[k].phase) ==> Undisturbed(v, u)
  {
    if u != v {
      SetJobKeeps(v, k, job);
    }
  }

  /** An activated job would be failed although the row names its new credential. */
  predicate Harms(v: World, g: Grant, use: Use) {
    use.Failure? && Accepts(v, g) && v.jobs[g.job].phase == Activated && Brings(v.jobs[g.job], v.row.ref)
  }

  lemma PresentKeeps(v: World, g: Grant, use: Use)
    requires WorldOk(v) && !Harms(v, g, use)
    ensures var u := DoPresent(v, g, use); WorldOk(u) && Follows(v, u) && Newcomers(v, u) && u.row == v.row
  {
    UnchangedKeeps(v);
    if Accepts(v, g) {
      var j, job := v.jobs[g.job], UsedOn(v.jobs[g.job], use, v.now);
      assert JobOk(v, j) && Stored(v, j) && Barred(v, j) && Ready(v, j);
      SetJobKeeps(v, g.job, job);
      GrantsKeep(v, SetJob(v, g.job, job), v.grants + Regranted(g, use));
    }
  }

  predicate Cleanable(v: World, j: nat) {
    j in v.jobs && (v.jobs[j].phase == Failed || v.jobs[j].phase == Dropped) && v.jobs[j].incoming.Some?
  }

  /** The credential of a job that has ended is nobody else's. */
  lemma DropsTerminal(v: World, j: nat)
    requires WorldOk(v) && Cleanable(v, j)
    ensures var u := DropRef(v, v.jobs[j].incoming.value.ref); WorldOk(u) && Follows(v, u) && Undisturbed(v, u)
  {
    assert JobOk(v, v.jobs[j]);
    assert forall k :: k in v.jobs && k != j ==> !SameNew(v.jobs[j], v.jobs[k]);
    DropRefKeeps(v, v.jobs[j].incoming.value.ref);
  }

  lemma ForgetsTerminal(v: World, j: nat)
    requires WorldOk(v) && Cleanable(v, j)
    ensures var u := SetJob(v, j, v.jobs[j].(incoming := None)); WorldOk(u) && Follows(v, u) && Undisturbed(v, u)
  {
    assert JobOk(v, v.jobs[j]);
    SetJobKeeps(v, j, v.jobs[j].(incoming := None));
  }

  /** Leaving saved jobs and the row alone twice is leaving them alone. */
  lemma TerminalTwice(v: World, u: World, x: World)
    requires Follows(v, u) && Follows(u, x) && u.row == v.row && x.row == v.row && Undisturbed(v, u) && Undisturbed(u, x)
    requires u.jobs == v.jobs && u.used == v.used
    ensures Follows(v, x) && Undisturbed(v, x)
  {
  }

  lemma CleanTerminalKeeps(v: World, j: nat, recorded: bool)
    requires WorldOk(v)
    ensures var u := DoCleanTerminal(v, j, recorded); WorldOk(u) && Follows(v, u) && Undisturbed(v, u)
  {
    if Cleanable(v, j) {
      DropsTerminal(v, j);
      var u := DropRef(v, v.jobs[j].incoming.value.ref);
      ForgetsTerminal(u, j);
      var x := SetJob(u, j, u.jobs[j].(incoming := None));
      TerminalTwice(v, u, x);
      assert DoCleanTerminal(v, j, recorded) == if recorded then x else u;
    } else {
      assert DoCleanTerminal(v, j, recorded) == v;
    }
  }

  lemma CleanOrphansKeeps(v: World)
    requires WorldOk(v)
    ensures var u := After(v, CleanOrphans); WorldOk(u) && Follows(v, u) && Undisturbed(v, u)
  {
  }

  lemma RenameKeeps(v: World)
    requires WorldOk(v)
    ensures var u := After(v, Rename); WorldOk(u) && Follows(v, u) && Undisturbed(v, u)
  {
  }

  lemma ReplaceLegacyKeeps(v: World, ref: nat)
    requires WorldOk(v)
    ensures var u := DoReplaceLegacy(v, ref); WorldOk(u) && Follows(v, u) && Undisturbed(v, u)
  {
  }

  /** The Agent's view of one credential changes, and only to what was asked for. */
  lemma StatusKeeps(v: World, rid: nat, status: Status)
    requires WorldOk(v)
    requires status == Active ==> StatusOf(v, rid) == Waiting
    requires status == Revoked ==> Revoke(rid) in v.sent
    requires status != Waiting
    ensures var u := v.(remote := v.remote[rid := status]); WorldOk(u) && Follows(v, u) && Undisturbed(v, u)
  {
    var u := v.(remote := v.remote[rid := status]);
    assert forall x :: x != rid ==> StatusOf(u, x) == StatusOf(v, x);
    assert RemoteOk(u) by {
      forall k | k in u.jobs ensures Barred(u, u.jobs[k]) && Ready(u, u.jobs[k]) {
        assert Barred(v, v.jobs[k]) && Ready(v, v.jobs[k]);
      }
    }
    assert JobsOk(u) by {
      forall k | k in u.jobs ensures JobOk(u, u.jobs[k]) {
        assert JobOk(v, v.jobs[k]);
      }
    }
  }

  lemma UnchangedKeeps(v: World)
    requires WorldOk(v)
    ensures Follows(v, v) && Undisturbed(v, v)
  {
  }

  lemma AgentActsKeeps(v: World, r: Request)
    requires WorldOk(v)
    ensures var u := DoAgentActs(v, r); WorldOk(u) && Follows(v, u) && Undisturbed(v, u)
  {
    UnchangedKeeps(v);
    if r.Revoke? && r in v.sent {
      assert DoAgentActs(v, r) == v.(remote := v.remote[r.rid := Revoked]);
      StatusKeeps(v, r.rid, Revoked);
    } else if r in v.sent && StatusOf(v, r.rid) == Waiting {
      assert DoAgentActs(v, r) == v.(remote := v.remote[r.rid := Active]);
      StatusKeeps(v, r.rid, Active);
    } else {
      assert DoAgentActs(v, r) == v;
    }
  }

  lemma EventKeeps(v: World, e: Event)
    requires WorldOk(v)
    ensures var u := After(v, e); WorldOk(u) && Follows(v, u) && Undisturbed(v, u)
  {
    match e
    case Tick(to) => TickKeeps(v, to);
    case StartRotation(j) => StartRotationKeeps(v, j);
    case Validate(j, owner, lease) => ValidateKeeps(v, j, owner, lease);
    case Publish(j, c, revision) => PublishKeeps(v, j, c, revision);
    case Consume(j) => ConsumeKeeps(v, j);
    case Drop(j) => DropKeeps(v, j);
    case CleanTerminal(j, recorded) => CleanTerminalKeeps(v, j, recorded);
    case CleanOrphans => CleanOrphansKeeps(v);
    case Rename => RenameKeeps(v);
    case ReplaceLegacy(ref) => ReplaceLegacyKeeps(v, ref);
    case AgentActs(r) => AgentActsKeeps(v, r);
  }

  // ---------------------------------------------------------------------------
  // The workers' calls.

  /** A claim, a renewal, a mark or a release changes nothing but the claim. */
  predicate Retoken(a: Job, b: Job) {
    b.revision == a.revision + 1 && b == a.(owner := b.owner, leaseUntil := b.leaseUntil, revision := b.revision)
  }

  lemma RetokenKeeps(v: World, k: nat, job: Job)
    requires WorldOk(v) && k in v.jobs && Retoken(v.jobs[k], job)
    ensures var u := SetJob(v, k, job); WorldOk(u) && Follows(v, u)
  {
    var j := v.jobs[k];
    assert JobOk(v, j) && Stored(v, j) && Barred(v, j) && Ready(v, j);
    SetJobKeeps(v, k, job);
  }

  /** The journal records an activation the Agent has performed. */
  lemma ActivatedKeeps(v: World, k: nat, job: Job)
    requires WorldOk(v) && k in v.jobs && v.jobs[k].phase == Requested && v.jobs[k].incoming.Some?
    requires StatusOf(v, v.jobs[k].incoming.value.rid) != Waiting
    requires job == v.jobs[k].(phase := Activated, revision := v.jobs[k].revision + 1)
    ensures var u := SetJob(v, k, job); WorldOk(u) && Follows(v, u)
  {
    var j := v.jobs[k];
    assert JobOk(v, j) && Stored(v, j) && Barred(v, j);
    SetJobKeeps(v, k, job);
  }

  lemma EmptiedKeeps(v: World, k: nat, phase: Phase)
    requires WorldOk(v) && k in v.jobs && (phase == Consumed || phase == Failed)
    ensures var u := SetJob(v, k, Emptied(v.jobs[k], phase)); WorldOk(u) && Follows(v, u)
  {
    assert JobOk(v, v.jobs[k]);
    SetJobKeeps(v, k, Emptied(v.jobs[k], phase));
  }

  lemma SendActivateKeeps(v: World, rid: nat)
    requires WorldOk(v)
    ensures var u := v.(sent := v.sent + {Activate(rid)}); WorldOk(u) && Follows(v, u)
  {
  }

  /** A credential may be revoked when the row does not name it and no job can swap it in. */
  lemma SendRevokeKeeps(v: World, rid: nat)
    requires WorldOk(v) && rid in v.usedRids && v.row.kind != Managed(rid)
    requires forall k :: k in v.jobs && v.jobs[k].incoming.Some? && v.jobs[k].incoming.value.rid == rid ==>
               !CanSwap(v.jobs[k], v.row) && v.jobs[k].phase == Activated
    ensures var u := v.(sent := v.sent + {Revoke(rid)}); WorldOk(u) && Follows(v, u)
  {
  }

  /** The swap of an activated job. */
  lemma SwapKeeps(v: World, k: nat)
    requires WorldOk(v) && k in v.jobs && v.jobs[k].phase == Activated && v.jobs[k].incoming.Some? && CanSwap(v.jobs[k], v.row)
    ensures var u := Swapped(v, v.jobs[k].incoming.value); WorldOk(u) && Follows(v, u)
  {
  }

  /** A reference may be deleted when neither the row nor an open job has it. */
  lemma DropRefKeeps(v: World, ref: nat)
    requires WorldOk(v) && v.row.ref != ref
    requires forall k :: k in v.jobs && Open(v.jobs[k].phase) && v.jobs[k].incoming.Some? ==> v.jobs[k].incoming.value.ref != ref
    ensures var u := DropRef(v, ref); WorldOk(u) && Follows(v, u)
  {
  }
}
