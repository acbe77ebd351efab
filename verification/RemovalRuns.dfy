/** Agent removal over whole runs, and what resuming a removal undisturbed achieves. */
module RemovalRuns {
  import opened Wrappers
  import opened RemovalSaga

  ghost predicate Initial(s: System) {
    && s.world.jobs == map[] && s.tasks == map[] && s.world.store <= s.world.used
    && (s.world.row.Some? ==> s.world.row.value.ref in s.world.used)
  }

  ghost predicate IsRun(states: seq<System>, actions: seq<Action>) {
    && |states| == |actions| + 1
    && Initial(states[0])
    && forall i {:trigger actions[i]} :: 0 <= i < |actions| ==> states[i + 1] == Apply(states[i], actions[i])
  }

  ghost predicate Throughout(states: seq<System>, k: nat)
    requires k < |states|
  {
    Invariant(states[k]) && (k == 0 || (Follows(states[k - 1].world, states[k].world) && Throughout(states, k - 1)))
  }

  lemma {:induction false} RunKeeps(states: seq<System>, actions: seq<Action>, k: nat)
    requires IsRun(states, actions) && k < |states|
    ensures Throughout(states, k)
  {
    if k > 0 {
      RunKeeps(states, actions, k - 1);
      StepKeeps(states[k - 1], actions[k - 1]);
    }
  }

  lemma {:induction false} FollowsAcross(states: seq<System>, i: nat, k: nat)
    requires i <= k < |states| && Throughout(states, k)
    ensures Throughout(states, i) && Follows(states[i].world, states[k].world)
  {
    if i == k {
      FollowsSelf(states[i]);
    } else {
      FollowsAcross(states, i, k - 1);
      assert Follows(states[k - 1].world, states[k].world);
    }
  }

  /** A removal whose captured row is there, after its revocation succeeded or was not needed. */
  predicate MayDelete(v: World, j: nat) {
    j in v.jobs && RowMatches(v, v.jobs[j]) && Cleared(v, v.jobs[j])
  }

  /** The one call that touches the row. */
  lemma RowDeleter(s: System, a: Action)
    requires !a.ChangeRow? && Apply(s, a).world.row != s.world.row
    ensures Apply(s, a).world.row == None && a.Perform? && a.worker in s.tasks
    ensures s.tasks[a.worker].pc == DeleteRow && RowMatches(s.world, s.tasks[a.worker].cur)
  {
  }

  /** The one call that deletes a file. */
  lemma FileDeleter(s: System, a: Action, ref: nat)
    requires a.Perform? && ref in s.world.store && ref !in Apply(s, a).world.store
    ensures a.worker in s.tasks && s.tasks[a.worker].pc == DeleteFile && s.tasks[a.worker].cur.ref == ref
  {
  }

  /**
   * A worker never rewrites the row; it deletes it only for a removal that captured
   * exactly this revision and credential, and only after the revocation succeeded
   * (or for a local-only or legacy removal).
   */
  lemma RowDeletedAfterRevoke(states: seq<System>, actions: seq<Action>, i: nat)
    requires IsRun(states, actions) && i < |actions| && !actions[i].ChangeRow?
    requires states[i + 1].world.row != states[i].world.row
    ensures states[i + 1].world.row == None
    ensures exists j :: MayDelete(states[i].world, j)
  {
    RowDeleter(states[i], actions[i]);
    RunKeeps(states, actions, i);
    var t := states[i].tasks[actions[i].worker];
    assert TaskOk(states[i].world, t);
    assert MayDelete(states[i].world, t.job);
  }

  /** A worker deletes a credential file only when the row no longer names it, and the row never does again. */
  lemma FileDeletedAfterRow(states: seq<System>, actions: seq<Action>, i: nat, k: nat, ref: nat)
    requires IsRun(states, actions) && i < |actions| && actions[i].Perform? && i <= k < |states|
    requires ref in states[i].world.store && ref !in states[i + 1].world.store
    ensures states[k].world.row.Some? ==> states[k].world.row.value.ref != ref
  {
    FileDeleter(states[i], actions[i], ref);
    RunKeeps(states, actions, k);
    FollowsAcross(states, i, k);
    assert TaskOk(states[i].world, states[i].tasks[actions[i].worker]);
  }

  /** From its completion on, a removal's credential is revoked where needed, deleted, and not named by the row. */
  lemma CompletedForGood(states: seq<System>, actions: seq<Action>, i: nat, k: nat, j: nat)
    requires IsRun(states, actions) && i <= k < |states|
    requires j in states[i].world.jobs && states[i].world.jobs[j].phase == Completed
    ensures j in states[k].world.jobs && states[k].world.jobs[j] == states[i].world.jobs[j]
    ensures var v := states[k].world; Cleared(v, v.jobs[j]) && Gone(v, v.jobs[j]) && v.jobs[j].ref !in v.store
  {
    RunKeeps(states, actions, k);
    FollowsAcross(states, i, k);
    assert RecordOk(states[k].world, states[k].world.jobs[j]);
  }

  // ---------------------------------------------------------------------------
  // Resuming without failures or interference.

  /** How many calls a worker has before it at most. */
  function Rank(pc: Pc): nat {
    match pc
    case ToRevoking => 10
    case ReadToken => 9
    case AwaitRevoke => 8
    case ToRevoked => 7
    case DeleteRow => 6
    case CheckRow => 5
    case ToRegistryDeleted => 4
    case DeleteFile => 3
    case ToCredentialDeleted => 2
    case ToCompleted => 1
    case ToResidual => 0
  }

  lemma RankDrops(s: System, w: nat, out: Outcome)
    requires w in s.tasks && w in DoPerform(s, w, out).tasks
    ensures Rank(DoPerform(s, w, out).tasks[w].pc) < Rank(s.tasks[w].pc)
  {
  }

  /** The worker runs alone to its end, and every call succeeds. */
  function Alone(s: System, w: nat): System
    decreases if w in s.tasks then 1 + Rank(s.tasks[w].pc) else 0
  {
    if w !in s.tasks then s else Alone(DoPerform(s, w, Ok), w)
  }

  /** The removal `j` is resumed by a new worker, alone. */
  function Resumed(s: System, w: nat, j: nat): System {
    Alone(Apply(s, Resume(w, j)), w)
  }

  /** The row can be deleted, or is already gone. */
  predicate RowReady(v: World, r: Removal) {
    !v.savedRotation && (v.row.None? || (RowMatches(v, r) && !v.openRotation))
  }

  /** What a caller can check before resuming: the token to revoke with, and the row. */
  predicate CanFinish(v: World, r: Removal) {
    && (BeforeRevoked(r.phase) && NeedsRevoke(r) ==> r.ref in v.store)
    && (!PastRow(r.phase) ==> RowReady(v, r))
  }

  /** Whether a worker that runs alone from its next call on will complete the removal. */
  predicate Finishes(v: World, t: Task) {
    match t.pc
    case ToRevoking => t.cur.ref in v.store && RowReady(v, t.cur)
    case ReadToken => t.cur.ref in v.store && RowReady(v, t.cur)
    case AwaitRevoke => RowReady(v, t.cur)
    case ToRevoked => RowReady(v, t.cur)
    case DeleteRow => RowReady(v, t.cur)
    case CheckRow => v.row.None?
    case ToResidual => false
    case _ => true
  }

  /** The worker's copy is the recorded removal. */
  ghost predicate Current(s: System, w: nat) {
    Invariant(s) && CopyCurrent(s, w)
  }

  lemma OnlyUnfinished(s: System, w: nat)
    requires Current(s, w)
    ensures MutationAllowed(s.world, Some(s.tasks[w].job)) == !s.world.savedRotation
  {
    assert Unfinished(s.world, s.tasks[w].job);
    assert forall k :: k in s.world.jobs && k != s.tasks[w].job ==> !Unfinished(s.world, k);
  }

  predicate CopyCurrent(s: System, w: nat) {
    && w in s.tasks && s.tasks[w].job in s.world.jobs
    && s.world.jobs[s.tasks[w].job] == s.tasks[w].cur && s.tasks[w].cur.phase != Completed
  }

  /** The worker goes on with prospects as good as before, or has settled the removal. */
  predicate Settles(s: System, w: nat, u: System)
    requires CopyCurrent(s, w)
  {
    var j := s.tasks[w].job;
    && j in u.world.jobs && SameRemoval(s.world.jobs[j], u.world.jobs[j])
    && (if w in u.tasks then CopyCurrent(u, w) && u.tasks[w].job == j && Finishes(u.world, u.tasks[w]) == Finishes(s.world, s.tasks[w])
        else (u.world.jobs[j].phase == Completed) == Finishes(s.world, s.tasks[w]))
    && (u.world.row == s.world.row || (u.world.row.None? && RowMatches(s.world, s.tasks[w].cur)))
  }

  lemma AdvanceSettles(s: System, w: nat, phase: Phase, next: Option<Pc>)
    requires CopyCurrent(s, w)
    requires if next.None? then (phase == Completed) == Finishes(s.world, s.tasks[w])
             else phase != Completed &&
                  Finishes(s.world, Task(s.tasks[w].job, s.tasks[w].cur.(phase := phase), next.value)) == Finishes(s.world, s.tasks[w])
    ensures Settles(s, w, Advance(s, w, Ok, phase, next))
  {
  }

  /** One successful call. */
  lemma CallSettles(s: System, w: nat)
    requires CopyCurrent(s, w) && MutationAllowed(s.world, Some(s.tasks[w].job)) == !s.world.savedRotation
    ensures Settles(s, w, DoPerform(s, w, Ok))
  {
    match s.tasks[w].pc
    case ToRevoking => AdvanceSettles(s, w, Revoking, Some(ReadToken));
    case ToRevoked => AdvanceSettles(s, w, Revoked, Some(DeleteRow));
    case ToRegistryDeleted => AdvanceSettles(s, w, RegistryDeleted, Some(DeleteFile));
    case ToCredentialDeleted => AdvanceSettles(s, w, CredentialDeleted, Some(ToCompleted));
    case ToCompleted => AdvanceSettles(s, w, Completed, None);
    case ToResidual => AdvanceSettles(s, w, Residual, None);
    case DeleteRow => DeleteRowSettles(s, w);
    case _ =>
  }

  lemma DeleteRowSettles(s: System, w: nat)
    requires CopyCurrent(s, w) && s.tasks[w].pc == DeleteRow
    requires MutationAllowed(s.world, Some(s.tasks[w].job)) == !s.world.savedRotation
    ensures Settles(s, w, DoDeleteRow(s, w, Ok))
  {
  }

  lemma SettlesTrans(s: System, w: nat, u: System, x: System)
    requires CopyCurrent(s, w) && Settles(s, w, u) && w in u.tasks && Settles(u, w, x)
    ensures Settles(s, w, x)
  {
  }

  lemma CurrentCall(s: System, w: nat)
    requires Current(s, w)
    ensures Invariant(DoPerform(s, w, Ok)) && Settles(s, w, DoPerform(s, w, Ok))
  {
    OnlyUnfinished(s, w);
    CallSettles(s, w);
    PerformStep(s, w, Ok);
  }

  lemma {:induction false} AloneSettles(s: System, w: nat)
    requires Current(s, w)
    ensures Invariant(Alone(s, w)) && Settles(s, w, Alone(s, w)) && w !in Alone(s, w).tasks
    decreases Rank(s.tasks[w].pc)
  {
    var u := DoPerform(s, w, Ok);
    CurrentCall(s, w);
    assert Alone(s, w) == Alone(u, w);
    if w in u.tasks {
      RankDrops(s, w, Ok);
      AloneSettles(u, w);
      SettlesTrans(s, w, u, Alone(u, w));
    } else {
      assert Alone(u, w) == u;
    }
  }

  /**
   * Resuming a removal from any recorded phase, with no failure and nobody else at
   * work, completes it exactly when the token for an outstanding revocation is in
   * the store and the row is absent or still the captured one.  The file is then
   * gone and the row does not name it.
   */
  lemma ResumeCompletes(s: System, w: nat, j: nat)
    requires Invariant(s) && w !in s.tasks && j in s.world.jobs
    ensures var v := Resumed(s, w, j).world;
            && j in v.jobs && SameRemoval(s.world.jobs[j], v.jobs[j])
            && ((v.jobs[j].phase == Completed) == (s.world.jobs[j].phase == Completed || CanFinish(s.world, s.world.jobs[j])))
            && (v.jobs[j].phase == Completed ==> v.jobs[j].ref !in v.store && Gone(v, v.jobs[j]) && Cleared(v, v.jobs[j]))
            && (v.row == s.world.row || (v.row.None? && RowMatches(s.world, s.world.jobs[j])))
  {
    var r := s.world.jobs[j];
    StepKeeps(s, Resume(w, j));
    var t := Apply(s, Resume(w, j));
    if Entry(r).Some? {
      assert TaskOk(t.world, t.tasks[w]);
      AloneSettles(t, w);
      assert Finishes(t.world, t.tasks[w]) == CanFinish(s.world, r);
    }
    var v := Resumed(s, w, j).world;
    assert RecordOk(v, v.jobs[j]);
  }

  /** A removal whose row was changed underneath it is not completed by resuming it, and the row stays. */
  lemma ChangedRowOutlastsResume(s: System, w: nat, j: nat)
    requires Invariant(s) && w !in s.tasks && j in s.world.jobs && !PastRow(s.world.jobs[j].phase)
    requires s.world.row.Some? && !RowMatches(s.world, s.world.jobs[j])
    ensures var v := Resumed(s, w, j).world;
            j in v.jobs && v.jobs[j].phase != Completed && v.row == s.world.row
  {
    ResumeCompletes(s, w, j);
  }

  /** The next call of a worker that has found the row gone. */
  predicate FoundGone(pc: Pc) { pc in {ToRegistryDeleted, DeleteFile, ToCredentialDeleted, ToCompleted} }

  /** Neither the record nor a worker of the removal has passed the row. */
  ghost predicate BeforeRow(s: System, j: nat) {
    && j in s.world.jobs && !PastRow(s.world.jobs[j].phase)
    && forall w :: w in s.tasks && s.tasks[w].job == j ==> !PastRow(s.tasks[w].cur.phase) && !FoundGone(s.tasks[w].pc)
  }

  /** Somebody's row is there, but not the captured one. */
  predicate RowChanged(v: World, r: Removal) { v.row.Some? && !RowMatches(v, r) }

  /** A worker of the removal does not pass a changed row. */
  lemma OwnWorkerStays(s: System, w: nat, out: Outcome)
    requires w in s.tasks && !PastRow(s.tasks[w].cur.phase) && !FoundGone(s.tasks[w].pc) && RowChanged(s.world, s.tasks[w].cur)
    ensures var u, k := DoPerform(s, w, out), s.tasks[w].job;
            && (w in u.tasks ==> u.tasks[w].job == k && !PastRow(u.tasks[w].cur.phase) && !FoundGone(u.tasks[w].pc))
            && (k in s.world.jobs && !PastRow(s.world.jobs[k].phase) ==> k in u.world.jobs && !PastRow(u.world.jobs[k].phase))
  {
  }

  /** What a worker's step leaves alone: other workers. */
  lemma OtherWorkersAlone(s: System, w: nat, out: Outcome)
    requires w in s.tasks
    ensures var u := DoPerform(s, w, out);
            u.tasks == s.tasks - {w} || (w in u.tasks && u.tasks[w].job == s.tasks[w].job && u.tasks == s.tasks[w := u.tasks[w]])
  {
  }

  /** And other removals. */
  lemma OtherRemovalsAlone(s: System, w: nat, out: Outcome)
    requires w in s.tasks
    ensures var u, k := DoPerform(s, w, out), s.tasks[w].job;
            u.world.jobs == s.world.jobs || (k in u.world.jobs && u.world.jobs == s.world.jobs[k := u.world.jobs[k]])
  {
    if !IsCall(s.tasks[w].pc) {
      RecordsOne(s, w, out);
    }
  }

  lemma RecordsOne(s: System, w: nat, out: Outcome)
    requires w in s.tasks && !IsCall(s.tasks[w].pc)
    ensures var u, k := DoPerform(s, w, out), s.tasks[w].job;
            u.world.jobs == s.world.jobs || (k in u.world.jobs && u.world.jobs == s.world.jobs[k := u.world.jobs[k]])
  {
  }

  lemma ChangedPerform(s: System, w: nat, out: Outcome, j: nat)
    requires w in s.tasks && TaskOk(s.world, s.tasks[w]) && BeforeRow(s, j) && RowChanged(s.world, s.world.jobs[j])
    ensures BeforeRow(DoPerform(s, w, out), j)
  {
    OtherWorkersAlone(s, w, out);
    OtherRemovalsAlone(s, w, out);
    if s.tasks[w].job == j {
      OwnWorkerStays(s, w, out);
    }
  }

  /** Neither the removal's own workers nor others delete a changed row while the removal is unfinished. */
  lemma ChangedRowSpared(s: System, w: nat, out: Outcome, j: nat)
    requires w in s.tasks && TaskOk(s.world, s.tasks[w]) && Unfinished(s.world, j) && RowChanged(s.world, s.world.jobs[j])
    ensures DoPerform(s, w, out).world.row == s.world.row
  {
  }

  lemma ChangedRowKept(s: System, a: Action, j: nat)
    requires Invariant(s) && BeforeRow(s, j) && RowChanged(s.world, s.world.jobs[j]) && !a.ChangeRow?
    ensures Apply(s, a).world.row == s.world.row
  {
    if a.Perform? && a.worker in s.tasks {
      ChangedRowSpared(s, a.worker, a.outcome, j);
    }
  }

  lemma ChangedElsewhere(s: System, a: Action, j: nat)
    requires BeforeRow(s, j) && !a.Perform?
    ensures BeforeRow(Apply(s, a), j)
  {
  }

  lemma ChangedStep(s: System, a: Action, j: nat)
    requires Invariant(s) && BeforeRow(s, j) && RowChanged(s.world, s.world.jobs[j])
    ensures BeforeRow(Apply(s, a), j)
  {
    if a.Perform? && a.worker in s.tasks {
      ChangedPerform(s, a.worker, a.outcome, j);
    } else if !a.Perform? {
      ChangedElsewhere(s, a, j);
    }
  }

  /**
   * However often a removal is resumed, and by however many workers, as long as the
   * row is not the captured one it is not completed, and none of them deletes the
   * row.
   */
  lemma {:induction false} ChangedRowStays(states: seq<System>, actions: seq<Action>, i: nat, k: nat, j: nat)
    requires IsRun(states, actions) && i <= k < |states| && BeforeRow(states[i], j)
    requires forall m :: i <= m < k ==> RowChanged(states[m].world, states[i].world.jobs[j])
    ensures BeforeRow(states[k], j) && SameRemoval(states[i].world.jobs[j], states[k].world.jobs[j])
    ensures i < k && !actions[k - 1].ChangeRow? ==> states[k].world.row == states[k - 1].world.row
    decreases k
  {
    if i < k {
      ChangedRowStays(states, actions, i, k - 1, j);
      RunKeeps(states, actions, k - 1);
      assert RowChanged(states[k - 1].world, states[i].world.jobs[j]);
      assert states[k] == Apply(states[k - 1], actions[k - 1]);
      ChangedStep(states[k - 1], actions[k - 1], j);
      StepKeeps(states[k - 1], actions[k - 1]);
      if !actions[k - 1].ChangeRow? {
        ChangedRowKept(states[k - 1], actions[k - 1], j);
      }
    }
  }

  // ---------------------------------------------------------------------------
  // Runs in which the rest of the Manager respects the registry's mutation fence.

  /** No other mutation of the row, and no rotation past its point of no return, while a removal is unfinished. */
  ghost predicate Orderly(s: System, a: Action) {
    match a
    case ChangeRow(_) => forall j :: !Unfinished(s.world, j)
    case ChangeRotation(_, saved) => saved ==> forall j :: !Unfinished(s.world, j)
    case LoseFile(ref) => s.world.row.Some? ==> s.world.row.value.ref != ref
    case _ => true
  }

  ghost predicate IsOrderlyRun(states: seq<System>, actions: seq<Action>) {
    && IsRun(states, actions)
    && (states[0].world.row.Some? ==> states[0].world.row.value.ref in states[0].world.store)
    && forall i :: 0 <= i < |actions| ==> Orderly(states[i], actions[i])
  }

  ghost predicate OrderKept(v: World) {
    && (v.row.Some? ==> v.row.value.ref in v.store)
    && (forall j :: Unfinished(v, j) ==> RowInOrder(v, j))
  }

  /** How one step changes the recorded removals. */
  lemma JobsShape(s: System, a: Action, j: nat)
    requires Invariant(s) && Unfinished(Apply(s, a).world, j) && j in s.world.jobs
    ensures Unfinished(s.world, j) && SameRemoval(Apply(s, a).world.jobs[j], s.world.jobs[j])
  {
    StepKeeps(s, a);
  }

  predicate RowInOrder(v: World, j: nat)
    requires j in v.jobs
  {
    !v.savedRotation && (v.row.None? || RowMatches(v, v.jobs[j]))
  }

  lemma RowOrderStep(s: System, a: Action, j: nat)
    requires Invariant(s) && OrderKept(s.world) && Orderly(s, a) && Unfinished(Apply(s, a).world, j) && j in s.world.jobs
    ensures RowInOrder(Apply(s, a).world, j)
  {
    JobsShape(s, a, j);
    RowShape(s, a, j);
  }

  /** A new removal captures the row it finds. */
  lemma NewRemoval(s: System, a: Action, j: nat)
    requires Unfinished(Apply(s, a).world, j) && j !in s.world.jobs
    ensures RowInOrder(Apply(s, a).world, j)
  {
  }

  lemma OrderStep(s: System, a: Action)
    requires Invariant(s) && OrderKept(s.world) && Orderly(s, a)
    ensures OrderKept(Apply(s, a).world)
  {
    var v := Apply(s, a).world;
    forall j | Unfinished(v, j) ensures RowInOrder(v, j) {
      if j in s.world.jobs {
        RowOrderStep(s, a, j);
      } else {
        NewRemoval(s, a, j);
      }
    }
    FileShape(s, a);
  }

  /** While a removal is unfinished the row stays or goes, and no rotation is saved. */
  lemma RowShape(s: System, a: Action, j: nat)
    requires Orderly(s, a) && Unfinished(s.world, j)
    ensures var v := Apply(s, a).world; (v.row == s.world.row || v.row.None?) && (v.savedRotation ==> s.world.savedRotation)
  {
  }

  /** The row's file stays. */
  lemma FileShape(s: System, a: Action)
    requires Invariant(s) && Orderly(s, a) && (s.world.row.Some? ==> s.world.row.value.ref in s.world.store)
    ensures var v := Apply(s, a).world; v.row.Some? ==> v.row.value.ref in v.store
  {
    if a.Perform? && a.worker in s.tasks {
      WorkerKeepsFile(s, a.worker, a.outcome);
    }
  }

  lemma WorkerKeepsFile(s: System, w: nat, out: Outcome)
    requires w in s.tasks && TaskOk(s.world, s.tasks[w]) && (s.world.row.Some? ==> s.world.row.value.ref in s.world.store)
    ensures var v := DoPerform(s, w, out).world; v.row.Some? ==> v.row.value.ref in v.store
  {
  }

  lemma {:induction false} OrderlyRunKeeps(states: seq<System>, actions: seq<Action>, k: nat)
    requires IsOrderlyRun(states, actions) && k < |states|
    ensures OrderKept(states[k].world)
  {
    if k > 0 {
      OrderlyRunKeeps(states, actions, k - 1);
      RunKeeps(states, actions, k - 1);
      OrderStep(states[k - 1], actions[k - 1]);
    }
  }

  /**
   * At any point of such a run, with no rotation open, resuming a removal alone and
   * without failures completes it, unless its row and its file are both gone already
   * while its revocation still has to be repeated.
   */
  lemma ResumeCompletesInOrder(states: seq<System>, actions: seq<Action>, k: nat, w: nat, j: nat)
    requires IsOrderlyRun(states, actions) && k < |states| && w !in states[k].tasks
    requires Unfinished(states[k].world, j) && !states[k].world.openRotation
    ensures var v, r := states[k].world, states[k].world.jobs[j];
            var stranded := BeforeRevoked(r.phase) && NeedsRevoke(r) && r.ref !in v.store;
            var u := Resumed(states[k], w, j).world;
            && (stranded ==> v.row.None?)
            && j in u.jobs && ((u.jobs[j].phase == Completed) == !stranded)
            && (!stranded ==> u.jobs[j].ref !in u.store && Gone(u, u.jobs[j]))
  {
    RunKeeps(states, actions, k);
    OrderlyRunKeeps(states, actions, k);
    ResumeCompletes(states[k], w, j);
  }

  // ---------------------------------------------------------------------------
  // A run that ends in such a removal, by one worker at a time and with a failing
  // call that has no effect.

  ghost predicate Reachable(s: System) {
    exists states, actions :: IsOrderlyRun(states, actions) && states[|actions|] == s
  }

  lemma RunGrows(states: seq<System>, actions: seq<Action>, a: Action)
    requires IsOrderlyRun(states, actions) && Orderly(states[|actions|], a)
    ensures IsOrderlyRun(states + [Apply(states[|actions|], a)], actions + [a])
  {
    var more, acts := states + [Apply(states[|actions|], a)], actions + [a];
    assert more[0] == states[0];
    forall i | 0 <= i < |acts| ensures more[i + 1] == Apply(more[i], acts[i]) && Orderly(more[i], acts[i]) {
      if i < |actions| {
        assert acts[i] == actions[i] && more[i] == states[i] && more[i + 1] == states[i + 1];
      }
    }
  }

  lemma ReachableStep(s: System, a: Action)
    requires Reachable(s) && (a.Request? || a.Resume? || a.Perform? || a.Stop?)
    ensures Reachable(Apply(s, a))
  {
    var states, actions :| IsOrderlyRun(states, actions) && states[|actions|] == s;
    RunGrows(states, actions, a);
    var more, acts := states + [Apply(s, a)], actions + [a];
    assert more[|acts|] == Apply(s, a);
  }

  /** Agent and removal 0 in the given state, with worker 1 at `pc`. */
  function Removing(row: Option<Row>, store: set<nat>, revoked: set<nat>, phase: Phase, pc: Pc): System {
    var r := Removal(1, 10, Some(100), false, phase);
    System(World(row, store, revoked, map[0 := r], {10}, false, false), map[1 := Task(0, r, pc)])
  }

  const Captured := Some(Row(1, 10, Some(100)))

  lemma Reach(s: System, a: Action, t: System)
    requires Reachable(s) && (a.Request? || a.Resume? || a.Perform? || a.Stop?) && Apply(s, a) == t
    ensures Reachable(t)
  {
    ReachableStep(s, a);
  }

  /** The phase worker 1 records next, and where it goes on. */
  predicate Records(pc: Pc, phase: Phase, next: Pc) {
    || (pc == ToRevoking && phase == Revoking && next == ReadToken)
    || (pc == ToRevoked && phase == Revoked && next == DeleteRow)
    || (pc == ToRegistryDeleted && phase == RegistryDeleted && next == DeleteFile)
  }

  lemma RecordsNext(row: Option<Row>, store: set<nat>, revoked: set<nat>, phase: Phase, pc: Pc, phase': Phase, pc': Pc)
    requires Records(pc, phase', pc')
    ensures Apply(Removing(row, store, revoked, phase, pc), Perform(1, Ok)) == Removing(row, store, revoked, phase', pc')
  {
    var s := Removing(row, store, revoked, phase, pc);
    assert DoPerform(s, 1, Ok) == Advance(s, 1, Ok, phase', Some(pc'));
  }

  lemma ReachRecorded(row: Option<Row>, store: set<nat>, revoked: set<nat>, phase: Phase, pc: Pc, phase': Phase, pc': Pc)
    requires Reachable(Removing(row, store, revoked, phase, pc)) && Records(pc, phase', pc')
    ensures Reachable(Removing(row, store, revoked, phase', pc'))
  {
    RecordsNext(row, store, revoked, phase, pc, phase', pc');
    ReachableStep(Removing(row, store, revoked, phase, pc), Perform(1, Ok));
  }

  /** The removal without a worker. */
  function Idle(row: Option<Row>, store: set<nat>, revoked: set<nat>, phase: Phase): System {
    Removing(row, store, revoked, phase, ToResidual).(tasks := map[])
  }

  lemma Taken(row: Option<Row>, store: set<nat>, revoked: set<nat>, phase: Phase, pc: Pc)
    requires Entry(Removal(1, 10, Some(100), false, phase)) == Some(pc)
    ensures Apply(Idle(row, store, revoked, phase), Resume(1, 0)) == Removing(row, store, revoked, phase, pc)
  {
  }

  lemma ReachTaken(row: Option<Row>, store: set<nat>, revoked: set<nat>, phase: Phase, pc: Pc)
    requires Reachable(Idle(row, store, revoked, phase)) && Entry(Removal(1, 10, Some(100), false, phase)) == Some(pc)
    ensures Reachable(Removing(row, store, revoked, phase, pc))
  {
    Taken(row, store, revoked, phase, pc);
    ReachableStep(Idle(row, store, revoked, phase), Resume(1, 0));
  }

  lemma ReachPending()
    ensures Reachable(Removing(Captured, {10}, {}, Pending, ToRevoking))
  {
    var s0 := System(World(Captured, {10}, {}, map[], {10}, false, false), map[]);
    var states, actions: seq<Action> := [s0], [];
    assert IsOrderlyRun(states, actions) && states[|actions|] == s0;
    Reach(s0, Request(0, false), Idle(Captured, {10}, {}, Pending));
    ReachTaken(Captured, {10}, {}, Pending, ToRevoking);
  }

  lemma ReadsAndRevokes()
    ensures Apply(Removing(Captured, {10}, {}, Revoking, ReadToken), Perform(1, Ok)) == Removing(Captured, {10}, {}, Revoking, AwaitRevoke)
    ensures Apply(Removing(Captured, {10}, {}, Revoking, AwaitRevoke), Perform(1, Ok)) == Removing(Captured, {10}, {100}, Revoking, ToRevoked)
  {
  }

  lemma DeletesRow()
    ensures Apply(Removing(Captured, {10}, {100}, Revoked, DeleteRow), Perform(1, Ok)) == Removing(None, {10}, {100}, Revoked, ToRegistryDeleted)
  {
  }

  lemma DeletesFile()
    ensures Apply(Removing(None, {10}, {100}, RegistryDeleted, DeleteFile), Perform(1, Ok)) == Removing(None, {}, {100}, RegistryDeleted, ToCredentialDeleted)
    ensures Apply(Removing(None, {}, {100}, RegistryDeleted, ToCredentialDeleted), Stop(1)) == Idle(None, {}, {100}, RegistryDeleted)
  {
  }

  lemma FailsToDelete()
    ensures Apply(Removing(None, {}, {100}, RegistryDeleted, DeleteFile), Perform(1, Err)) == Removing(None, {}, {100}, RegistryDeleted, ToResidual)
  {
  }

  lemma ReachRevoked()
    ensures Reachable(Removing(Captured, {10}, {100}, Revoked, DeleteRow))
  {
    ReachPending();
    ReachRecorded(Captured, {10}, {}, Pending, ToRevoking, Revoking, ReadToken);
    ReadsAndRevokes();
    ReachableStep(Removing(Captured, {10}, {}, Revoking, ReadToken), Perform(1, Ok));
    ReachableStep(Removing(Captured, {10}, {}, Revoking, AwaitRevoke), Perform(1, Ok));
    ReachRecorded(Captured, {10}, {100}, Revoking, ToRevoked, Revoked, DeleteRow);
  }

  lemma ReachRowDeleted()
    ensures Reachable(Removing(None, {10}, {100}, RegistryDeleted, DeleteFile))
  {
    ReachRevoked();
    DeletesRow();
    ReachableStep(Removing(Captured, {10}, {100}, Revoked, DeleteRow), Perform(1, Ok));
    ReachRecorded(None, {10}, {100}, Revoked, ToRegistryDeleted, RegistryDeleted, DeleteFile);
  }

  lemma ReachFileDeleted()
    ensures Reachable(Idle(None, {}, {100}, RegistryDeleted))
  {
    ReachRowDeleted();
    DeletesFile();
    ReachableStep(Removing(None, {10}, {100}, RegistryDeleted, DeleteFile), Perform(1, Ok));
    ReachableStep(Removing(None, {}, {100}, RegistryDeleted, ToCredentialDeleted), Stop(1));
  }

  lemma ReachStranded()
    ensures Reachable(Idle(None, {}, {100}, Residual))
  {
    ReachFileDeleted();
    ReachTaken(None, {}, {100}, RegistryDeleted, DeleteFile);
    FailsToDelete();
    ReachableStep(Removing(None, {}, {100}, RegistryDeleted, DeleteFile), Perform(1, Err));
    GivesUp(None, {}, {100}, RegistryDeleted);
    ReachableStep(Removing(None, {}, {100}, RegistryDeleted, ToResidual), Perform(1, Ok));
  }

  lemma GivesUp(row: Option<Row>, store: set<nat>, revoked: set<nat>, phase: Phase)
    ensures Apply(Removing(row, store, revoked, phase, ToResidual), Perform(1, Ok)) == Idle(row, store, revoked, Residual)
  {
    var s := Removing(row, store, revoked, phase, ToResidual);
    assert DoPerform(s, 1, Ok) == Advance(s, 1, Ok, Residual, None);
  }

  /**
   * A worker that stopped right after deleting the file and a second one whose own
   * deletion call failed leave a removal that no failure-free resumption completes.
   */
  lemma SomeRemovalsAreStranded()
    ensures exists s :: Reachable(s) && 0 in s.world.jobs && 1 !in s.tasks
              && 0 in Resumed(s, 1, 0).world.jobs && Resumed(s, 1, 0).world.jobs[0].phase != Completed
  {
    ReachStranded();
    var s := Idle(None, {}, {100}, Residual);
    assert Invariant(s);
    ResumeCompletes(s, 1, 0);
    assert !CanFinish(s.world, s.world.jobs[0]);
  }
}
