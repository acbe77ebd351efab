/** Registration of new Agents over whole runs. */
module EnrollmentTheorems {
  import opened Wrappers
  import opened EnrollmentSaga
  import opened EnrollmentSafety
  import opened EnrollmentRows

  // ---------------------------------------------------------------------------
  // In every run.

  lemma NextIs(exclusive: bool, states: seq<System>, actions: seq<Action>, k: nat)
    requires IsRun(exclusive, states, actions) && k < |actions|
    ensures states[k + 1] == Apply(states[k], exclusive, actions[k])
  {
    var a := actions[k];
  }

  lemma {:induction false} RunBasic(exclusive: bool, states: seq<System>, actions: seq<Action>, k: nat)
    requires IsRun(exclusive, states, actions) && k < |states|
    ensures Basic(states[k])
    decreases k
  {
    if k > 0 {
      RunBasic(exclusive, states, actions, k - 1);
      StepBasic(states[k - 1], exclusive, actions[k - 1]);
      NextIs(exclusive, states, actions, k - 1);
    }
  }

  lemma {:induction false} FollowsAcross(exclusive: bool, states: seq<System>, actions: seq<Action>, i: nat, k: nat)
    requires IsRun(exclusive, states, actions) && i <= k < |states|
    ensures Follows(states[i].world, states[k].world)
    decreases k
  {
    if i == k {
      FollowsSelf(states[i].world);
    } else {
      FollowsAcross(exclusive, states, actions, i, k - 1);
      RunBasic(exclusive, states, actions, k - 1);
      StepBasic(states[k - 1], exclusive, actions[k - 1]);
      NextIs(exclusive, states, actions, k - 1);
      FollowsTrans(states[i].world, states[k - 1].world, states[k].world);
    }
  }

  /** The step gives an enrollment its row. */
  predicate Registers(s: System, u: System, j: nat) {
    j in s.world.jobs && j !in s.world.rows && j in u.world.rows
  }

  /** How that comes about: by the commit of an activated job under its current owner and revision. */
  ghost predicate RegistersByCommit(s: System, u: System, w: nat, j: nat) {
    && w in s.tasks && s.tasks[w].pc == Commit && s.tasks[w].job == j && j in s.world.jobs && j in u.world.jobs && j in u.world.rows
    && var job := s.world.jobs[j];
    && job.phase == Activated && Token(job, s.tasks[w].cur) && job.ref.Some?
    && (job.rid.Some? ==> StatusOf(s.world, job.rid.value) != Waiting)
    && u.world.rows[j] == RecordOf(job, s.world.now) && u.world.jobs[j].phase == Consumed
    && !Taken(s.world, j, job.instance, job.endpoint)
  }

  lemma EventRegistersNoJob(v: World, e: Event, j: nat)
    requires j in v.jobs && j !in v.rows
    ensures j !in After(v, e).rows
  {
  }

  /** Only a commit changes the rows. */
  lemma PerformRegisters(s: System, w: nat, out: Outcome, lease: nat)
    requires w in s.tasks
    ensures var u := DoPerform(s, w, out, lease).world;
            if Commits(s, w, out) then u == Committed(s.world, s.tasks[w].job, s.tasks[w].cur) else u.rows == s.world.rows
  {
  }

  lemma Registration(s: System, exclusive: bool, a: Action, j: nat)
    requires Basic(s) && Registers(s, Apply(s, exclusive, a), j)
    ensures a.Perform? && RegistersByCommit(s, Apply(s, exclusive, a), a.worker, j)
  {
    if a.Outside? {
      EventRegistersNoJob(s.world, a.event, j);
    } else if a.Perform? && a.worker in s.tasks {
      PerformRegisters(s, a.worker, a.outcome, a.lease);
      assert CopyOk(s.world, s.tasks[a.worker]) && JobOk(s.world, s.world.jobs[j]);
    }
  }

  /**
   * In every run, interrupted or not, an enrollment gets its row only by the commit
   * of a worker with the current owner and revision of the activated job, after the
   * Agent has heard of the credential, while no other row has its endpoint or
   * instance, and in one transaction with the end of the job.
   */
  lemma RegisteredAfterActivation(exclusive: bool, states: seq<System>, actions: seq<Action>, i: nat, j: nat)
    requires IsRun(exclusive, states, actions) && i < |actions| && Registers(states[i], states[i + 1], j)
    ensures actions[i].Perform? && RegistersByCommit(states[i], states[i + 1], actions[i].worker, j)
  {
    RunBasic(exclusive, states, actions, i);
    NextIs(exclusive, states, actions, i);
    Registration(states[i], exclusive, actions[i], j);
  }

  /** An enrollment is registered at most once, even when its Agent is removed again. */
  lemma RegisteredAtMostOnce(exclusive: bool, states: seq<System>, actions: seq<Action>, i: nat, k: nat, j: nat)
    requires IsRun(exclusive, states, actions) && i <= k < |actions|
    requires Registers(states[i], states[i + 1], j) && Registers(states[k], states[k + 1], j)
    ensures i == k
  {
    RegisteredAfterActivation(exclusive, states, actions, i, j);
    RegisteredAfterActivation(exclusive, states, actions, k, j);
    if i < k {
      FollowsAcross(exclusive, states, actions, i + 1, k);
    }
  }

  // ---------------------------------------------------------------------------
  // Steps that keep the rows' credentials usable.

  predicate Steps(s: System, exclusive: bool, a: Action) {
    a.Perform? && a.worker in s.tasks && (exclusive ==> MayRun(s, a.worker))
  }

  /** A commit that takes effect finds the credential neither revoked nor deleted. */
  predicate CommitsIntact(s: System, exclusive: bool, a: Action) {
    Steps(s, exclusive, a) && Commits(s, a.worker, a.outcome) ==> Intact(s.world, s.world.jobs[s.tasks[a.worker].job])
  }

  /** What a worker revokes no row has, and what it deletes neither a row nor another job. */
  ghost predicate Spares(s: System, w: nat)
    requires w in s.tasks
  {
    var t := s.tasks[w];
    && (t.pc == Compensate && t.cur.rid.Some? ==> forall id :: id in s.world.rows ==> s.world.rows[id].rid != t.cur.rid)
    && (t.pc == DeleteNew && t.cur.ref.Some? ==>
          && (forall id :: id in s.world.rows ==> s.world.rows[id].ref != t.cur.ref.value)
          && (forall k :: k in s.world.jobs && k != t.job ==> s.world.jobs[k].ref != t.cur.ref))
  }

  ghost predicate Careful(s: System, exclusive: bool, a: Action) {
    CommitsIntact(s, exclusive, a) && (Steps(s, exclusive, a) ==> Spares(s, a.worker))
  }

  lemma CompensateGood(s: System, w: nat, out: Outcome)
    requires Prepared(s, w) && Good(s.world) && s.tasks[w].pc == Compensate && Spares(s, w)
    ensures Good(DoCompensate(s, w, out).world)
  {
    var t := s.tasks[w];
    if t.cur.rid.Some? && out == Ok && t.cur.ref.value in s.world.store {
      forall k | k in s.world.jobs && s.world.jobs[k].phase == Requested ensures s.world.jobs[k].rid != t.cur.rid {
        if k != t.job {
          assert !SameCredential(s.world.jobs[k], s.world.jobs[t.job]);
        }
      }
      SendGood(s.world, Revoke(t.cur.rid.value));
    }
  }

  lemma DeleteNewGood(s: System, w: nat, out: Outcome, lease: nat)
    requires Prepared(s, w) && Good(s.world) && s.tasks[w].pc == DeleteNew && Spares(s, w)
    ensures Good(DoPerform(s, w, out, lease).world)
  {
    var t := s.tasks[w];
    if out != Err {
      var store := s.world.store - {t.cur.ref.value};
      forall id | id in s.world.rows ensures s.world.rows[id].ref in store {
        assert RowOk(s.world, s.world.rows[id]);
      }
      forall k | k in s.world.jobs && s.world.jobs[k].phase == Requested && s.world.jobs[k].ref.Some?
        ensures s.world.jobs[k].ref.value in store
      {
        assert CredentialOk(s.world, s.world.jobs[k]);
      }
      ShrinkGood(s.world, store);
    }
  }

  lemma CommitGood(s: System, w: nat, out: Outcome)
    requires Prepared(s, w) && Good(s.world) && s.tasks[w].pc == Commit
    requires Commits(s, w, out) ==> Intact(s.world, s.world.jobs[s.tasks[w].job])
    ensures Good(DoCommit(s, w, out).world)
  {
    if Commits(s, w, out) {
      HeldJob(s, w);
      CommittedGood(s.world, s.tasks[w].job);
    }
  }

  lemma StartGood(s: System, w: nat, out: Outcome)
    requires Prepared(s, w) && Good(s.world) && s.tasks[w].pc == Start
    ensures Good(DoStart(s, w, out).world)
  {
    if s.tasks[w].cur.rid.Some? {
      SendGood(s.world, Activate(s.tasks[w].cur.rid.value));
    }
  }

  /** The calls that write the job and nothing else. */
  predicate Writes(pc: Pc) {
    pc in {ActivateReplied, ErrorReplied, RenewForCommit, RevokeReplied, RevokeFailed, MarkActivated, MarkFailed, Residual, GiveUp}
  }

  /** The worker's job, which it holds, is rewritten, if anything is. */
  ghost predicate RewritesOwn(s: System, u: System, w: nat)
    requires w in s.tasks
  {
    var j := s.tasks[w].job;
    u.world == s.world ||
    (j in s.world.jobs && j in u.world.jobs && Holds(s.world, s.tasks[w]) && u.world == SetJob(s.world, j, u.world.jobs[j])
     && JobFollows(s.world.jobs[j], u.world.jobs[j])
     && (u.world.jobs[j].phase == Requested ==> s.world.jobs[j].phase == Requested && u.world.jobs[j].ref == s.world.jobs[j].ref))
  }

  lemma RenewRewrites(s: System, w: nat, lease: nat, next: Pc)
    requires Prepared(s, w)
    ensures RewritesOwn(s, DoRenew(s, w, lease, next), w)
  {
  }

  lemma ClosingRewrites(s: System, w: nat, out: Outcome, lease: nat)
    requires Prepared(s, w) && s.tasks[w].pc in {MarkActivated, MarkFailed, Residual, GiveUp}
    ensures RewritesOwn(s, DoPerform(s, w, out, lease), w)
  {
  }

  lemma WritesJob(s: System, w: nat, out: Outcome, lease: nat)
    requires Prepared(s, w) && Writes(s.tasks[w].pc)
    ensures RewritesOwn(s, DoPerform(s, w, out, lease), w)
  {
    match s.tasks[w].pc
    case ActivateReplied => RenewRewrites(s, w, lease, MarkActivated);
    case ErrorReplied => RenewRewrites(s, w, lease, if s.tasks[w].cur.local then Residual else GiveUp);
    case RenewForCommit => RenewRewrites(s, w, lease, Commit);
    case RevokeReplied => RenewRewrites(s, w, lease, DeleteNew);
    case RevokeFailed => RenewRewrites(s, w, lease, Residual);
    case _ => ClosingRewrites(s, w, out, lease);
  }

  lemma WritesGood(s: System, w: nat, out: Outcome, lease: nat)
    requires Prepared(s, w) && Good(s.world) && Writes(s.tasks[w].pc)
    ensures Good(DoPerform(s, w, out, lease).world)
  {
    WritesJob(s, w, out, lease);
    var u, j := DoPerform(s, w, out, lease).world, s.tasks[w].job;
    if u != s.world {
      HeldJob(s, w);
      SetJobGood(s.world, j, u.jobs[j]);
    }
  }

  lemma PerformGood(s: System, w: nat, out: Outcome, lease: nat)
    requires Prepared(s, w) && Good(s.world) && Spares(s, w)
    requires Commits(s, w, out) ==> Intact(s.world, s.world.jobs[s.tasks[w].job])
    ensures Good(DoPerform(s, w, out, lease).world)
  {
    match s.tasks[w].pc
    case Start => StartGood(s, w, out);
    case Commit => CommitGood(s, w, out);
    case Compensate => CompensateGood(s, w, out);
    case DeleteNew => DeleteNewGood(s, w, out, lease);
    case ReadRow =>
    case AwaitActivate =>
    case AwaitRevoke =>
    case _ => WritesGood(s, w, out, lease);
  }

  lemma RenewGood(s: System, w: nat, lease: nat)
    requires Prepared(s, w) && Good(s.world) && Awaits(s.tasks[w].pc)
    ensures Good(DoRenew(s, w, lease, s.tasks[w].pc).world)
  {
    var u, j := DoRenew(s, w, lease, s.tasks[w].pc).world, s.tasks[w].job;
    if LiveToken(s.world.jobs[j], s.tasks[w].cur, s.world.now) {
      HeldJob(s, w);
      SetJobGood(s.world, j, u.jobs[j]);
    }
  }

  lemma ClaimGood(s: System, w: nat, j: nat, owner: nat, lease: nat)
    requires Basic(s) && Good(s.world)
    ensures Good(DoClaim(s, w, j, owner, lease).world)
  {
    if w !in s.tasks && Claimable(s.world, j) {
      SetJobGood(s.world, j, Claimed(s.world.jobs[j], owner, s.world.now + lease));
    }
  }

  /** Every careful step keeps the credentials of rows and of requested jobs usable. */
  lemma StepGood(s: System, exclusive: bool, a: Action)
    requires Basic(s) && Good(s.world) && Careful(s, exclusive, a)
    ensures Good(Apply(s, exclusive, a).world)
  {
    match a
    case Outside(e) => EventGood(s.world, e);
    case Intrude(j, fails) => IntrudeGood(s.world, j, fails);
    case Claim(w, j, owner, lease) => ClaimGood(s, w, j, owner, lease);
    case Renew(w, lease) =>
      if w in s.tasks && Awaits(s.tasks[w].pc) {
        RenewGood(s, w, lease);
      }
    case Perform(w, out, lease) =>
      if Steps(s, exclusive, a) {
        PerformGood(s, w, out, lease);
      }
    case Stop(w) =>
  }

  // ---------------------------------------------------------------------------
  // Careful runs.

  ghost predicate CarefulUntil(exclusive: bool, states: seq<System>, actions: seq<Action>, k: nat)
    requires k <= |actions| <= |states|
  {
    forall i {:trigger actions[i]} :: 0 <= i < k ==> Careful(states[i], exclusive, actions[i])
  }

  ghost predicate IsCarefulRun(exclusive: bool, states: seq<System>, actions: seq<Action>) {
    IsRun(exclusive, states, actions) && CarefulUntil(exclusive, states, actions, |actions|)
  }

  lemma {:induction false} RunGood(exclusive: bool, states: seq<System>, actions: seq<Action>, k: nat)
    requires IsRun(exclusive, states, actions) && k < |states| && CarefulUntil(exclusive, states, actions, k)
    ensures Basic(states[k]) && Good(states[k].world)
    decreases k
  {
    RunBasic(exclusive, states, actions, k);
    if k > 0 {
      RunGood(exclusive, states, actions, k - 1);
      var a := actions[k - 1];
      NextIsGood(exclusive, states, actions, k - 1);
    }
  }

  lemma NextIsGood(exclusive: bool, states: seq<System>, actions: seq<Action>, k: nat)
    requires IsRun(exclusive, states, actions) && k < |actions| && Good(states[k].world) && Careful(states[k], exclusive, actions[k])
    ensures Good(states[k + 1].world)
  {
    RunBasic(exclusive, states, actions, k);
    NextIs(exclusive, states, actions, k);
    StepGood(states[k], exclusive, actions[k]);
  }

  /** Every registered Agent's credential is stored and, if it has an identity, active. */
  predicate RowsUsable(v: World) {
    forall id :: id in v.rows ==> v.rows[id].ref in v.store && (v.rows[id].rid.Some? ==> StatusOf(v, v.rows[id].rid.value) == Active)
  }

  /**
   * However workers interrupt each other: as long as no commit takes effect after its
   * credential was revoked or deleted, and no worker revokes or deletes what a row
   * names, the credentials of all registered Agents are stored and active.
   */
  lemma RegisteredAreUsable(exclusive: bool, states: seq<System>, actions: seq<Action>, k: nat)
    requires IsCarefulRun(exclusive, states, actions) && k < |states|
    ensures RowsUsable(states[k].world)
  {
    RunGood(exclusive, states, actions, k);
    forall id | id in states[k].world.rows ensures RowOk(states[k].world, states[k].world.rows[id]) {
    }
  }

  /** What was sent for revocation, and what has left the store, no row has in any later state. */
  lemma RetiredForGood(exclusive: bool, states: seq<System>, actions: seq<Action>, i: nat, k: nat, id: nat)
    requires IsCarefulRun(exclusive, states, actions) && i <= k < |states| && id in states[k].world.rows
    ensures var r := states[k].world.rows[id];
            && (r.rid.Some? ==> Revoke(r.rid.value) !in states[i].world.sent)
            && (r.ref in states[i].world.used ==> r.ref in states[i].world.store)
  {
    RunGood(exclusive, states, actions, k);
    FollowsAcross(exclusive, states, actions, i, k);
    assert RowOk(states[k].world, states[k].world.rows[id]);
  }

  // ---------------------------------------------------------------------------
  // Workers that share an event loop.

  /** The next call acts on the worker's copy of the job. */
  predicate ActsOnCopy(pc: Pc) {
    pc in {Start, MarkActivated, RenewForCommit, Commit, ReadRow, Compensate, DeleteNew, MarkFailed, Residual, GiveUp}
  }

  /** Between awaits at most one worker runs, and it holds its job when it acts on its copy. */
  ghost predicate LoopOk(s: System) {
    && (s.loop.Some? ==> s.loop.value in s.tasks)
    && (forall w :: w in s.tasks ==> (s.loop == Some(w) <==> !Awaits(s.tasks[w].pc)))
    && (forall w :: w in s.tasks && ActsOnCopy(s.tasks[w].pc) ==> Holds(s.world, s.tasks[w]))
  }

  /** What a worker's step leaves the loop: the worker's own, or nobody's. */
  predicate LoopNext(u: System, w: nat) {
    && u.loop == (if w in u.tasks && !Awaits(u.tasks[w].pc) then Some(w) else None)
    && (w in u.tasks && ActsOnCopy(u.tasks[w].pc) ==> Holds(u.world, u.tasks[w]))
  }

  lemma RenewNext(s: System, w: nat, lease: nat, next: Pc)
    requires w in s.tasks
    ensures LoopNext(DoRenew(s, w, lease, next), w)
  {
  }

  lemma WritesNext(s: System, w: nat, out: Outcome, lease: nat)
    requires w in s.tasks && Writes(s.tasks[w].pc)
    ensures LoopNext(DoPerform(s, w, out, lease), w)
  {
    match s.tasks[w].pc
    case ActivateReplied => RenewNext(s, w, lease, MarkActivated);
    case ErrorReplied => RenewNext(s, w, lease, if s.tasks[w].cur.local then Residual else GiveUp);
    case RenewForCommit => RenewNext(s, w, lease, Commit);
    case RevokeReplied => RenewNext(s, w, lease, DeleteNew);
    case RevokeFailed => RenewNext(s, w, lease, Residual);
    case _ => ClosingNext(s, w, out, lease);
  }

  lemma ClosingNext(s: System, w: nat, out: Outcome, lease: nat)
    requires w in s.tasks && s.tasks[w].pc in {MarkActivated, MarkFailed, Residual, GiveUp}
    ensures LoopNext(DoPerform(s, w, out, lease), w)
  {
  }

  /** A worker that moves on with the same copy, or ends, while its job stays as it is. */
  lemma GotoNext(s: System, w: nat, v: World, pc: Pc)
    requires w in s.tasks && v.jobs == s.world.jobs && (ActsOnCopy(pc) ==> Holds(s.world, s.tasks[w]))
    ensures LoopNext(Goto(s.(world := v), w, s.tasks[w].cur, pc), w)
  {
  }

  /** The calls that leave the journal alone, except that a commit ends the job. */
  lemma OthersNext(s: System, w: nat, out: Outcome, lease: nat)
    requires w in s.tasks && !Writes(s.tasks[w].pc) && (ActsOnCopy(s.tasks[w].pc) ==> Holds(s.world, s.tasks[w]))
    ensures LoopNext(DoPerform(s, w, out, lease), w)
  {
    var u := DoPerform(s, w, out, lease);
    if w in u.tasks {
      GoesOn(s, w, out, lease);
      GotoNext(s, w, u.world, u.tasks[w].pc);
    } else {
      Ends(s, w, out, lease);
    }
  }

  lemma GoesOn(s: System, w: nat, out: Outcome, lease: nat)
    requires w in s.tasks && !Writes(s.tasks[w].pc) && w in DoPerform(s, w, out, lease).tasks
    ensures var u := DoPerform(s, w, out, lease);
            && u == Goto(s.(world := u.world), w, s.tasks[w].cur, u.tasks[w].pc) && u.world.jobs == s.world.jobs
            && (ActsOnCopy(u.tasks[w].pc) ==> ActsOnCopy(s.tasks[w].pc))
  {
    if s.tasks[w].pc in {Start, Compensate, DeleteNew} {
      ChangingGoesOn(s, w, out, lease);
    } else {
      AskingGoesOn(s, w, out, lease);
    }
  }

  lemma ChangingGoesOn(s: System, w: nat, out: Outcome, lease: nat)
    requires w in s.tasks && s.tasks[w].pc in {Start, Compensate, DeleteNew}
    ensures var u := DoPerform(s, w, out, lease);
            && w in u.tasks && u == Goto(s.(world := u.world), w, s.tasks[w].cur, u.tasks[w].pc) && u.world.jobs == s.world.jobs
  {
  }

  lemma AskingGoesOn(s: System, w: nat, out: Outcome, lease: nat)
    requires w in s.tasks && s.tasks[w].pc in {AwaitActivate, AwaitRevoke, Commit, ReadRow} && w in DoPerform(s, w, out, lease).tasks
    ensures var u := DoPerform(s, w, out, lease);
            && u == Goto(s, w, s.tasks[w].cur, u.tasks[w].pc)
            && (ActsOnCopy(u.tasks[w].pc) ==> ActsOnCopy(s.tasks[w].pc))
  {
  }

  lemma Ends(s: System, w: nat, out: Outcome, lease: nat)
    requires w in s.tasks && !Writes(s.tasks[w].pc) && w !in DoPerform(s, w, out, lease).tasks
    ensures DoPerform(s, w, out, lease).loop == None
  {
  }

  lemma WorkerLoops(s: System, u: System, w: nat)
    requires LoopOk(s) && w in s.tasks && MayRun(s, w) && LoopNext(u, w)
    requires u.tasks == s.tasks - {w} || (w in u.tasks && u.tasks == s.tasks[w := u.tasks[w]])
    ensures LoopOk(u)
  {
    forall x | x in u.tasks && x != w ensures Awaits(u.tasks[x].pc) {
      assert u.tasks[x] == s.tasks[x] && s.loop != Some(x);
    }
  }

  lemma PerformLoops(s: System, w: nat, out: Outcome, lease: nat)
    requires Basic(s) && LoopOk(s) && w in s.tasks && MayRun(s, w)
    ensures LoopOk(DoPerform(s, w, out, lease))
  {
    PerformSound(s, w, out, lease);
    if Writes(s.tasks[w].pc) {
      WritesNext(s, w, out, lease);
    } else {
      OthersNext(s, w, out, lease);
    }
    WorkerLoops(s, DoPerform(s, w, out, lease), w);
  }

  lemma EventSparesSaved(v: World, e: Event, k: nat)
    requires k in v.jobs && Saved(v.jobs[k].phase)
    ensures k in After(v, e).jobs && After(v, e).jobs[k] == v.jobs[k]
  {
  }

  lemma EventLoops(s: System, e: Event)
    requires Basic(s) && LoopOk(s)
    ensures LoopOk(s.(world := After(s.world, e)))
  {
    forall w | w in s.tasks && ActsOnCopy(s.tasks[w].pc) ensures Holds(After(s.world, e), s.tasks[w]) {
      assert CopyOk(s.world, s.tasks[w]);
      EventSparesSaved(s.world, e, s.tasks[w].job);
    }
  }

  /** Between awaits nobody acts on a copy. */
  lemma IdleLoops(s: System, v: World)
    requires LoopOk(s) && s.loop.None?
    ensures LoopOk(s.(world := v))
  {
  }

  lemma ClaimLoops(s: System, w: nat, j: nat, owner: nat, lease: nat)
    requires LoopOk(s) && s.loop.None?
    ensures LoopOk(DoClaim(s, w, j, owner, lease))
  {
  }

  lemma RenewLoops(s: System, w: nat, lease: nat)
    requires Basic(s) && LoopOk(s) && w in s.tasks && s.loop.None? && Awaits(s.tasks[w].pc)
    ensures LoopOk(DoRenew(s, w, lease, s.tasks[w].pc))
  {
    RenewNext(s, w, lease, s.tasks[w].pc);
    WorkerLoops(s, DoRenew(s, w, lease, s.tasks[w].pc), w);
  }

  lemma StopLoops(s: System, w: nat)
    requires LoopOk(s) && w in s.tasks
    ensures LoopOk(s.(tasks := s.tasks - {w}, loop := if s.loop == Some(w) then None else s.loop))
  {
  }

  lemma StepLoops(s: System, a: Action)
    requires Basic(s) && LoopOk(s)
    ensures LoopOk(Apply(s, true, a))
  {
    match a
    case Outside(e) => EventLoops(s, e);
    case Intrude(j, fails) => if s.loop.None? { IdleLoops(s, DoIntrude(s.world, j, fails)); }
    case Claim(w, j, owner, lease) => if s.loop.None? { ClaimLoops(s, w, j, owner, lease); }
    case Renew(w, lease) => if w in s.tasks && s.loop.None? && Awaits(s.tasks[w].pc) { RenewLoops(s, w, lease); }
    case Perform(w, out, lease) => if w in s.tasks && MayRun(s, w) { PerformLoops(s, w, out, lease); }
    case Stop(w) => if w in s.tasks { StopLoops(s, w); }
  }

  lemma {:induction false} RunLoops(states: seq<System>, actions: seq<Action>, k: nat)
    requires IsRun(true, states, actions) && k < |states|
    ensures LoopOk(states[k])
    decreases k
  {
    if k > 0 {
      RunLoops(states, actions, k - 1);
      RunBasic(true, states, actions, k - 1);
      StepLoops(states[k - 1], actions[k - 1]);
      NextIs(true, states, actions, k - 1);
    }
  }

  /** Whoever holds an activated job takes back only its own credential, which no row has. */
  lemma HoldersSpare(s: System, w: nat)
    requires Prepared(s, w) && Good(s.world) && Holds(s.world, s.tasks[w])
    ensures Spares(s, w)
  {
    var t := s.tasks[w];
    HeldJob(s, w);
    assert CredentialOk(s.world, t.cur);
    forall id | id in s.world.rows ensures !Shares(t.cur.ref, t.cur.rid, s.world.rows[id]) {
    }
    forall k | k in s.world.jobs && k != t.job ensures s.world.jobs[k].ref != t.cur.ref {
      assert !SameCredential(s.world.jobs[t.job], s.world.jobs[k]);
    }
  }

  ghost predicate AllIntact(states: seq<System>, actions: seq<Action>)
    requires |actions| <= |states|
  {
    forall i {:trigger actions[i]} :: 0 <= i < |actions| ==> CommitsIntact(states[i], true, actions[i])
  }

  lemma {:induction false} ExclusiveGood(states: seq<System>, actions: seq<Action>, k: nat)
    requires IsRun(true, states, actions) && AllIntact(states, actions) && k < |states|
    ensures Good(states[k].world)
    decreases k
  {
    if k > 0 {
      ExclusiveGood(states, actions, k - 1);
      NextIsCareful(states, actions, k - 1);
      NextIsGood(true, states, actions, k - 1);
    }
  }

  lemma NextIsCareful(states: seq<System>, actions: seq<Action>, k: nat)
    requires IsRun(true, states, actions) && AllIntact(states, actions) && k < |actions| && Good(states[k].world)
    ensures Careful(states[k], true, actions[k])
  {
    RunBasic(true, states, actions, k);
    RunLoops(states, actions, k);
    var a := actions[k];
    StepIsCareful(states[k], a);
  }

  /** On one event loop whoever takes a credential back holds its job. */
  lemma ExclusiveIsCareful(states: seq<System>, actions: seq<Action>)
    requires IsRun(true, states, actions) && AllIntact(states, actions)
    ensures IsCarefulRun(true, states, actions)
  {
    forall i | 0 <= i < |actions| ensures Careful(states[i], true, actions[i]) {
      ExclusiveGood(states, actions, i);
      NextIsCareful(states, actions, i);
    }
  }

  lemma StepIsCareful(s: System, a: Action)
    requires Basic(s) && Good(s.world) && LoopOk(s) && CommitsIntact(s, true, a)
    ensures Careful(s, true, a)
  {
    if Steps(s, true, a) {
      if Holds(s.world, s.tasks[a.worker]) {
        HoldersSpare(s, a.worker);
      } else {
        assert !ActsOnCopy(s.tasks[a.worker].pc);
      }
    }
  }

  /**
   * With one event loop, the credentials of all registered Agents are stored and
   * active as long as no commit takes effect after its compensation began.
   */
  lemma RegistrationIsSafe(states: seq<System>, actions: seq<Action>, k: nat)
    requires IsRun(true, states, actions) && AllIntact(states, actions) && k < |states|
    ensures RowsUsable(states[k].world)
  {
    ExclusiveIsCareful(states, actions);
    RegisteredAreUsable(true, states, actions, k);
  }

  // ---------------------------------------------------------------------------
  // The conditions are exact.

  /** A commit leaves all rows usable, whatever the Agents still act on, if and only if the credential is intact. */
  lemma CommitIsSafeExactlyWhen(exclusive: bool, states: seq<System>, actions: seq<Action>, k: nat, w: nat, out: Outcome)
    requires IsCarefulRun(exclusive, states, actions) && k < |states| && w in states[k].tasks && Commits(states[k], w, out)
    ensures var t := states[k].tasks[w];
            (forall r :: RowsUsable(DoAgentActs(Committed(states[k].world, t.job, t.cur), r))) <==>
            Intact(states[k].world, states[k].world.jobs[t.job])
  {
    RunGood(exclusive, states, actions, k);
    var v, t := states[k].world, states[k].tasks[w];
    HeldJob(states[k], w);
    var u := Committed(v, t.job, t.cur);
    if Intact(v, t.cur) {
      CommittedGood(v, t.job);
      forall r ensures RowsUsable(DoAgentActs(u, r)) {
        ActsGood(u, r);
        GoodIsUsable(DoAgentActs(u, r));
      }
    } else {
      var r := if t.cur.rid.Some? then Revoke(t.cur.rid.value) else Activate(0);
      assert t.job in DoAgentActs(u, r).rows && DoAgentActs(u, r).rows[t.job] == RecordOf(t.cur, v.now);
      assert !RowsUsable(DoAgentActs(u, r));
    }
  }

  lemma GoodIsUsable(v: World)
    requires Good(v)
    ensures RowsUsable(v)
  {
    forall id | id in v.rows ensures RowOk(v, v.rows[id]) {
    }
  }

  /** A revocation that leaves is harmless, whatever the Agents act on, if and only if no row has the credential. */
  lemma RevocationIsSafeExactlyWhen(exclusive: bool, states: seq<System>, actions: seq<Action>, k: nat, w: nat)
    requires IsCarefulRun(exclusive, states, actions) && k < |states| && w in states[k].tasks
    requires states[k].tasks[w].pc == Compensate && DoCompensate(states[k], w, Ok).world != states[k].world
    ensures (forall r :: RowsUsable(DoAgentActs(DoCompensate(states[k], w, Ok).world, r))) <==> Spares(states[k], w)
  {
    RunGood(exclusive, states, actions, k);
    var s := states[k];
    var u := DoCompensate(s, w, Ok).world;
    if Spares(s, w) {
      CompensateGood(s, w, Ok);
      forall r ensures RowsUsable(DoAgentActs(u, r)) {
        ActsGood(u, r);
        GoodIsUsable(DoAgentActs(u, r));
      }
    } else {
      var id :| id in s.world.rows && s.world.rows[id].rid == s.tasks[w].cur.rid;
      var r := Revoke(s.tasks[w].cur.rid.value);
      assert id in DoAgentActs(u, r).rows && DoAgentActs(u, r).rows[id] == s.world.rows[id];
      assert !RowsUsable(DoAgentActs(u, r));
    }
  }
}
