/** One job of the enrollment journal over its whole history. */
module JournalRuns {
  import opened Wrappers
  import opened Journal
  import opened JournalWrites

  /** A new job, as `create`, `create_rotation` and the local bootstrap make it. */
  ghost predicate Created(j: Job) {
    && Valid(j) && j.state == Pending && j.remoteInstance.None? && j.remoteCredential.None? && j.ref.None?
    && !j.saveRequested && j.owner.None? && j.revision == 0 && j.claim == NoClaim && j.receipt.None?
    && (j.prior.revision.Some? ==> j.prior.revision.value >= 1)
  }

  /** A write that the guards or the schema refuse leaves the row as it is. */
  ghost function After(j: Job, w: Write): Job {
    if Attempted(j, w).Some? && SchemaOk(Attempted(j, w).value) then Attempted(j, w).value else j
  }

  /** The versions of a job's row; a whole-row write is built from some version read before. */
  ghost predicate IsHistory(rows: seq<Job>, writes: seq<Write>) {
    && |rows| == |writes| + 1
    && Created(rows[0])
    && forall i :: 0 <= i < |writes| ==> StepAt(rows, writes, i)
  }

  /** One write, and the snapshot it was built from. */
  ghost predicate StepAt(rows: seq<Job>, writes: seq<Write>, i: nat)
    requires i < |writes| < |rows|
  {
    && rows[i + 1] == After(rows[i], writes[i])
    && (writes[i].Whole? ==> SnapshotRead(rows, i, writes[i].snapshot))
  }

  ghost predicate SnapshotRead(rows: seq<Job>, i: nat, snap: Job) {
    exists m: nat :: m <= i && m < |rows| && rows[m] == snap
  }

  ghost predicate RowsOk(rows: seq<Job>, k: nat) {
    forall m :: 0 <= m <= k && m < |rows| ==> RowOk(rows[m])
  }

  lemma {:induction false} HistoryRows(rows: seq<Job>, writes: seq<Write>, k: nat)
    requires IsHistory(rows, writes) && k < |rows|
    ensures RowsOk(rows, k)
    decreases k
  {
    if k == 0 {
      ValidMeetsSchema(rows[0]);
    } else {
      HistoryRows(rows, writes, k - 1);
      assert StepAt(rows, writes, k - 1);
      assert RowOk(rows[k - 1]);
      if Attempted(rows[k - 1], writes[k - 1]).Some? {
        if writes[k - 1].Whole? {
          assert RowOk(writes[k - 1].snapshot);
        }
        WritesMeetSchema(rows[k - 1], writes[k - 1]);
      }
    }
  }

  /**
   * In any history every version of the row meets all CHECK constraints, and the
   * schema refuses exactly the writes that bring an address with a scope or expire
   * a row without clearing its CLI claim.
   */
  lemma HistoryMeetsSchema(rows: seq<Job>, writes: seq<Write>, i: nat)
    requires IsHistory(rows, writes) && i < |writes|
    ensures SchemaOk(rows[i]) && SchemaOk(rows[i + 1])
    ensures Attempted(rows[i], writes[i]).Some? ==>
              (SchemaOk(Attempted(rows[i], writes[i]).value) <==> !Trips(rows[i], writes[i]))
  {
    HistoryRows(rows, writes, i + 1);
    assert RowOk(rows[i]) && RowOk(rows[i + 1]) && StepAt(rows, writes, i);
    if Attempted(rows[i], writes[i]).Some? {
      if writes[i].Whole? {
        assert RowOk(writes[i].snapshot);
      }
      WritesMeetSchema(rows[i], writes[i]);
    }
  }

  // ---------------------------------------------------------------------------
  // The sweep at the start of every creation.

  /** `create_with_capacity` first expires all overdue rows in one statement. */
  predicate Overdue(j: Job, now: int) { Expirable(j.state) && now >= j.expiresAt }

  /** The statement fails as a whole when the schema refuses one of its rows. */
  predicate SweepRefused(rows: seq<Job>, now: int) {
    exists i :: 0 <= i < |rows| && Overdue(rows[i], now) && !SchemaOk(rows[i].(state := Expired))
  }

  /** The sweep of a creation is refused exactly while some CLI submission is overdue and its claim not yet cleared. */
  lemma CreationBlockedByOverdueClaim(rows: seq<Job>, now: int)
    requires forall i :: 0 <= i < |rows| ==> RowOk(rows[i])
    ensures SweepRefused(rows, now) <==> exists i :: 0 <= i < |rows| && Overdue(rows[i], now) && rows[i].claim.nonce.Some?
  {
    forall i | 0 <= i < |rows| && Overdue(rows[i], now)
      ensures SchemaOk(rows[i].(state := Expired)) <==> rows[i].claim.nonce.None?
    {
      BareExpiry(rows[i]);
    }
  }

  // ---------------------------------------------------------------------------
  // Past the point of no return.

  predicate Committed(s: State) { Saved(s) || s == Consumed || s == Failed }

  lemma CommittedStays(j: Job, w: Write)
    requires Committed(j.state) && !Restarts(w)
    ensures Committed(After(j, w).state)
  {
    match w
    case Whole(r, snap, now) => RewriteStaysCommitted(j, r, snap, now);
    case Columns(st) => StatementStaysCommitted(j, st);
  }

  lemma RewriteStaysCommitted(j: Job, r: Rewrite, snap: Job, now: int)
    requires Committed(j.state)
    ensures Rewritten(j, r, snap, now).Some? ==> Committed(Rewritten(j, r, snap, now).value.state)
  {
  }

  lemma StatementStaysCommitted(j: Job, st: Statement)
    requires Committed(j.state) && !st.Rearm?
    ensures Executed(j, st).Some? ==> Committed(Executed(j, st).value.state)
  {
  }

  predicate Restarts(w: Write) { w.Columns? && w.statement.Rearm? }

  lemma {:induction false} CommittedKept(rows: seq<Job>, writes: seq<Write>, i: nat, k: nat)
    requires i <= k < |rows| == |writes| + 1 && Committed(rows[i].state)
    requires forall m :: i <= m < k ==> StepAt(rows, writes, m)
    requires forall m :: i <= m < k ==> !Restarts(writes[m])
    ensures Committed(rows[k].state)
    decreases k
  {
    if i < k {
      CommittedKept(rows, writes, i, k - 1);
      assert StepAt(rows, writes, k - 1);
      CommittedStays(rows[k - 1], writes[k - 1]);
    }
  }

  /**
   * A job whose activation was requested is never cancelled or expired, unless a
   * failed local bootstrap starts the same job again.
   */
  lemma NeverClosedOnceRequested(rows: seq<Job>, writes: seq<Write>, i: nat, k: nat)
    requires IsHistory(rows, writes) && i <= k < |rows| && Committed(rows[i].state)
    requires forall m :: i <= m < k ==> !Restarts(writes[m])
    ensures Committed(rows[k].state)
  {
    CommittedKept(rows, writes, i, k);
  }

  /** A failed local bootstrap job that has given up its credential. */
  predicate Restartable(j: Job) {
    j.kind == LocalSocket && j.state == Failed && j.ref.None? && j.endpoint != "" && j.profile != ""
  }

  /** Some write takes a committed job back before its request exactly when it is restartable. */
  lemma ReopenedIffRestartable(j: Job)
    requires RowOk(j) && Committed(j.state)
    ensures (exists w :: !Committed(After(j, w).state)) <==> Restartable(j)
  {
    forall w ensures !Committed(After(j, w).state) ==> Restartable(j) {
      if Restarts(w) {
        RearmNeeds(j, w.statement.now, w.statement.expiresAt);
      } else {
        CommittedStays(j, w);
      }
    }
    if Restartable(j) {
      RearmWorks(j, j.expiresAt, j.expiresAt);
      assert !Committed(After(j, Columns(Rearm(j.expiresAt, j.expiresAt))).state);
    }
  }

  lemma RearmNeeds(j: Job, now: int, expiresAt: int)
    requires Committed(j.state)
    ensures !Committed(After(j, Columns(Rearm(now, expiresAt))).state) ==> Restartable(j)
  {
  }

  lemma RearmWorks(j: Job, now: int, expiresAt: int)
    requires RowOk(j) && Restartable(j) && now >= j.expiresAt
    ensures After(j, Columns(Rearm(now, expiresAt))) == Rearmed(j, expiresAt)
  {
    ValidMeetsSchema(Rearmed(j, expiresAt));
  }

  // ---------------------------------------------------------------------------
  // Recovery revisions.

  /** A write from a stale snapshot may bring back an old revision. */
  predicate Rewinds(j: Job, w: Write) {
    w.Whole? && !IsFenced(w.rewrite, w.snapshot) && Proposed(w.rewrite, w.snapshot).revision < j.revision
  }

  lemma StatementsNeverRewind(j: Job, st: Statement)
    requires Executed(j, st).Some?
    ensures Executed(j, st).value.revision >= j.revision
  {
  }

  /** The recovery revision falls exactly when an unfenced whole-row write rewinds it. */
  lemma RevisionFallsIffRewound(j: Job, w: Write)
    requires Attempted(j, w).Some?
    ensures Attempted(j, w).value.revision < j.revision <==> Rewinds(j, w)
  {
    match w
    case Whole(r, snap, now) =>
      assert Rewritten(j, r, snap, now).value == Proposed(r, snap);
      FencedRevision(j, r, snap);
    case Columns(st) => StatementsNeverRewind(j, st);
  }

  lemma FencedRevision(j: Job, r: Rewrite, snap: Job)
    requires IsFenced(r, snap) ==> j.revision == snap.revision
    ensures IsFenced(r, snap) ==> Proposed(r, snap).revision >= j.revision
  {
  }

  predicate Grants(rows: seq<Job>, writes: seq<Write>, i: nat)
  {
    i + 1 < |rows| && i < |writes| && writes[i].Columns? && writes[i].statement.TakeClaim? && rows[i + 1] != rows[i]
  }

  ghost predicate NothingRewinds(rows: seq<Job>, writes: seq<Write>)
    requires |rows| >= |writes|
  {
    forall m {:trigger writes[m]} :: 0 <= m < |writes| ==> !Rewinds(rows[m], writes[m])
  }

  /** While nothing rewinds, a version's revision is at least that of any version before it. */
  lemma {:induction false} RevisionGrows(rows: seq<Job>, writes: seq<Write>, i: nat, k: nat)
    requires i <= k < |rows| == |writes| + 1 && NothingRewinds(rows, writes)
    requires forall m :: i <= m < k ==> StepAt(rows, writes, m)
    ensures rows[i].revision <= rows[k].revision
    decreases k
  {
    if i < k {
      RevisionGrows(rows, writes, i, k - 1);
      var w := writes[k - 1];
      assert StepAt(rows, writes, k - 1);
      if Attempted(rows[k - 1], w).Some? {
        RevisionFallsIffRewound(rows[k - 1], w);
      }
    }
  }

  /** While nothing rewinds, no two claims carry the same revision. */
  lemma ClaimsAreUnique(rows: seq<Job>, writes: seq<Write>, i: nat, k: nat)
    requires IsHistory(rows, writes) && NothingRewinds(rows, writes)
    requires i < k && Grants(rows, writes, i) && Grants(rows, writes, k)
    ensures rows[i + 1].revision < rows[k + 1].revision
  {
    RevisionGrows(rows, writes, i + 1, k);
    GrantRaisesAt(rows, writes, k);
  }

  lemma GrantRaisesAt(rows: seq<Job>, writes: seq<Write>, k: nat)
    requires k < |writes| < |rows| && StepAt(rows, writes, k) && Grants(rows, writes, k)
    ensures rows[k + 1].revision == rows[k].revision + 1
  {
    GrantRaises(rows[k], writes[k]);
  }

  lemma GrantRaises(j: Job, w: Write)
    requires w.Columns? && w.statement.TakeClaim? && After(j, w) != j
    ensures After(j, w).revision == j.revision + 1
  {
  }
}
