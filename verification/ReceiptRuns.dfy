/**
 * A CLI claim over the history of its job: it is carried unchanged until the job
 * ends, and the receipt then answers a reconnecting client exactly as the claim
 * would have.
 */
module ReceiptRuns {
  import opened Wrappers
  import opened Utf8
  import opened Journal
  import opened JournalWrites
  import opened JournalRuns
  import opened Receipt

  /**
   * Between two awaits the orchestrator writes what it has just read; only the
   * write that ends a validation is built from the row read before the await.
   */
  ghost predicate IsStretched(rows: seq<Job>, writes: seq<Write>) {
    && IsHistory(rows, writes)
    && forall i :: 0 <= i < |writes| && writes[i].Whole? ==> writes[i].rewrite.ToVerified? || writes[i].snapshot == rows[i]
  }

  /** What the fingerprint is computed from. */
  datatype Inputs = Inputs(endpoint: string, profile: string, user: Option<string>, host: Option<string>, port: Option<int>)

  function InputsOf(j: Job): Inputs { Inputs(j.endpoint, j.profile, j.sshUser, j.sshHost, j.sshPort) }

  predicate SameClaim(a: Job, b: Job) { a.claim == b.claim && a.kind == b.kind && InputsOf(a) == InputsOf(b) }

  // ---------------------------------------------------------------------------
  // A row that is being verified was always verified under the same claim.

  predicate NotYetVerifying(s: State) { Early(s) || s == CredentialIssued }

  /** What a whole-row write that takes effect has passed. */
  predicate Passed(j: Job, r: Rewrite, snap: Job) {
    && snap.state == Expected(r, snap) && j.state == snap.state && CallerOk(r, snap)
    && Allowed(snap.state, Proposed(r, snap).state) && SchemaOk(Proposed(r, snap))
  }

  lemma WholeShape(j: Job, r: Rewrite, snap: Job, now: int)
    ensures After(j, Whole(r, snap, now)) == j || (After(j, Whole(r, snap, now)) == Proposed(r, snap) && Passed(j, r, snap))
  {
  }

  lemma RewriteBack(r: Rewrite, snap: Job)
    requires SshOk(snap) && Passed(snap, r, snap)
    requires Proposed(r, snap).kind != LocalSocket && NotYetVerifying(Proposed(r, snap).state)
    ensures snap.kind != LocalSocket && NotYetVerifying(snap.state)
  {
    assert SshOk(Proposed(r, snap));
  }

  lemma StatementBack(j: Job, st: Statement)
    requires Executed(j, st).Some? && Executed(j, st).value.kind != LocalSocket && NotYetVerifying(Executed(j, st).value.state)
    ensures j.kind != LocalSocket && NotYetVerifying(j.state)
  {
  }

  lemma StepBack(j: Job, w: Write)
    requires RowOk(j) && (w.Whole? ==> w.rewrite.ToVerified? || w.snapshot == j)
    requires After(j, w).kind != LocalSocket && NotYetVerifying(After(j, w).state)
    ensures j.kind != LocalSocket && NotYetVerifying(j.state)
  {
    match w
    case Whole(r, snap, now) =>
      WholeShape(j, r, snap, now);
      if After(j, w) != j && snap == j {
        RewriteBack(r, snap);
      }
    case Columns(st) =>
      if After(j, w) != j {
        StatementBack(j, st);
      }
  }

  ghost predicate NeverVerifying(rows: seq<Job>, k: nat) {
    forall m :: 0 <= m <= k && m < |rows| ==> rows[m].state != Verifying
  }

  predicate EarlyElsewhere(j: Job) { j.kind != LocalSocket && NotYetVerifying(j.state) }

  /** A row that was never under verification comes from one that was not either. */
  lemma EarlyStep(rows: seq<Job>, writes: seq<Write>, k: nat)
    requires 0 < k < |rows|
    ensures IsStretched(rows, writes) && EarlyElsewhere(rows[k]) ==> EarlyElsewhere(rows[k - 1])
  {
    if IsStretched(rows, writes) && EarlyElsewhere(rows[k]) {
      HistoryRows(rows, writes, k - 1);
      assert RowOk(rows[k - 1]) && StepAt(rows, writes, k - 1);
      StepBack(rows[k - 1], writes[k - 1]);
    }
  }

  lemma {:induction false} EarlyMeansNever(rows: seq<Job>, writes: seq<Write>, k: nat)
    requires k < |rows|
    ensures IsStretched(rows, writes) && EarlyElsewhere(rows[k]) ==> NeverVerifying(rows, k)
    decreases k
  {
    if k > 0 {
      EarlyStep(rows, writes, k);
      EarlyMeansNever(rows, writes, k - 1);
    }
  }

  lemma RewriteToVerifying(r: Rewrite, snap: Job)
    requires Passed(snap, r, snap) && Proposed(r, snap).state == Verifying
    ensures SameClaim(snap, Proposed(r, snap)) && snap.state == CredentialIssued
  {
  }

  lemma StatementToVerifying(j: Job, st: Statement)
    requires Executed(j, st).Some? && Executed(j, st).value.state == Verifying
    ensures SameClaim(j, Executed(j, st).value) && j.state == Verifying
  {
  }

  /** A row comes to be verified from the row before it, by a write that keeps the claim. */
  lemma StepToVerifying(j: Job, w: Write)
    requires w.Whole? ==> w.rewrite.ToVerified? || w.snapshot == j
    requires After(j, w).state == Verifying
    ensures SameClaim(j, After(j, w)) && (j.state == Verifying || j.state == CredentialIssued)
  {
    match w
    case Whole(r, snap, now) =>
      WholeShape(j, r, snap, now);
      if After(j, w) != j && snap == j {
        RewriteToVerifying(r, snap);
      }
    case Columns(st) =>
      if After(j, w) != j {
        StatementToVerifying(j, st);
      }
  }

  ghost predicate VerifyingAgree(rows: seq<Job>, k: nat)
    requires k < |rows|
  {
    forall m :: 0 <= m <= k && rows[m].state == Verifying ==> SameClaim(rows[m], rows[k])
  }

  predicate VerifyingElsewhere(j: Job) { j.kind != LocalSocket && j.state == Verifying }

  lemma VerifyingStep(rows: seq<Job>, writes: seq<Write>, k: nat)
    requires 0 < k < |rows|
    ensures IsStretched(rows, writes) && VerifyingElsewhere(rows[k]) ==>
              && SameClaim(rows[k - 1], rows[k])
              && (VerifyingElsewhere(rows[k - 1]) || EarlyElsewhere(rows[k - 1]))
  {
    if IsStretched(rows, writes) && VerifyingElsewhere(rows[k]) {
      assert StepAt(rows, writes, k - 1);
      StepToVerifying(rows[k - 1], writes[k - 1]);
    }
  }

  lemma {:induction false} VerifyingAgrees(rows: seq<Job>, writes: seq<Write>, k: nat)
    requires k < |rows|
    ensures IsStretched(rows, writes) && VerifyingElsewhere(rows[k]) ==> VerifyingAgree(rows, k)
    decreases k
  {
    if k > 0 {
      VerifyingStep(rows, writes, k);
      VerifyingAgrees(rows, writes, k - 1);
      EarlyMeansNever(rows, writes, k - 1);
    }
  }

  // ---------------------------------------------------------------------------
  // The claim is carried to the end.

  /** How the orchestrator turns a claim into a receipt. */
  type Stamp = Claim -> Option<string>

  ghost predicate RecordsReceipt(stamp: Stamp, j: Job, w: Write) {
    match w
    case Whole(Recover(to, receipt), snap, _) => to == Consumed ==> receipt == stamp(snap.claim)
    case Columns(Commit(_, _, receipt)) => receipt == stamp(j.claim)
    case _ => true
  }

  ghost predicate AllRecorded(stamp: Stamp, rows: seq<Job>, writes: seq<Write>)
    requires |rows| >= |writes|
  {
    forall m :: 0 <= m < |writes| ==> RecordsReceipt(stamp, rows[m], writes[m])
  }

  /** The job still has the claim, or has ended; consumed, it has the claim's receipt. */
  ghost predicate Carried(stamp: Stamp, origin: Job, j: Job) {
    && j.kind == SshCli && InputsOf(j) == InputsOf(origin)
    && if Terminal(j.state) then j.claim == NoClaim && (j.state == Consumed ==> j.receipt == stamp(origin.claim))
       else j.claim == origin.claim
  }

  /** Outside recovery a claimed job keeps its claim or ends without being consumed. */
  lemma KeepsClaim(r: Rewrite, snap: Job)
    requires !r.Recover? && snap.kind == SshCli && ClaimSet(snap.claim)
    requires snap.state == Expected(r, snap) && CallerOk(r, snap) && Allowed(snap.state, Proposed(r, snap).state)
    requires ClaimOk(snap) && ClaimOk(Proposed(r, snap))
    ensures var p := Proposed(r, snap);
            && p.kind == SshCli && InputsOf(p) == InputsOf(snap) && p.state != Consumed
            && p.claim == if Terminal(p.state) then NoClaim else snap.claim
  {
  }

  lemma CarriedByRewrite(stamp: Stamp, origin: Job, r: Rewrite, snap: Job, now: int)
    requires ClaimSet(origin.claim) && Carried(stamp, origin, snap) && RecordsReceipt(stamp, snap, Whole(r, snap, now))
    requires snap.state == Expected(r, snap) && CallerOk(r, snap) && Allowed(snap.state, Proposed(r, snap).state)
    requires ClaimOk(snap) && ClaimOk(Proposed(r, snap))
    ensures Carried(stamp, origin, Proposed(r, snap))
  {
    if !r.Recover? {
      KeepsClaim(r, snap);
    }
  }

  lemma CarriedByStatement(stamp: Stamp, origin: Job, j: Job, st: Statement)
    requires ClaimSet(origin.claim) && Carried(stamp, origin, j) && RecordsReceipt(stamp, j, Columns(st))
    requires Executed(j, st).Some? && ClaimOk(Executed(j, st).value)
    ensures Carried(stamp, origin, Executed(j, st).value)
  {
  }

  /** A snapshot under verification with the row's claim carries it as the row does. */
  lemma CarriedStep(stamp: Stamp, origin: Job, j: Job, w: Write)
    requires RowOk(j) && ClaimSet(origin.claim) && Carried(stamp, origin, j) && RecordsReceipt(stamp, j, w)
    requires w.Whole? ==> w.snapshot == j || (w.rewrite.ToVerified? && (w.snapshot.state == j.state == Verifying ==> SameClaim(w.snapshot, j)))
    ensures Carried(stamp, origin, After(j, w))
  {
    match w
    case Whole(r, snap, now) =>
      WholeShape(j, r, snap, now);
      if After(j, w) != j && snap == j {
        CarriedByRewrite(stamp, origin, r, snap, now);
      }
    case Columns(st) =>
      if After(j, w) != j {
        CarriedByStatement(stamp, origin, j, st);
      }
  }

  /** A snapshot taken while the row was under verification has the row's claim. */
  lemma SnapshotAgrees(rows: seq<Job>, writes: seq<Write>, k: nat)
    requires IsStretched(rows, writes) && k < |writes| && writes[k].Whole?
    requires writes[k].snapshot.state == rows[k].state == Verifying && rows[k].kind != LocalSocket
    ensures SameClaim(writes[k].snapshot, rows[k])
  {
    VerifyingAgrees(rows, writes, k);
    assert StepAt(rows, writes, k);
  }

  /** A history that records the receipts of its claims. */
  ghost predicate Recording(stamp: Stamp, rows: seq<Job>, writes: seq<Write>) {
    IsStretched(rows, writes) && AllRecorded(stamp, rows, writes)
  }

  /** One step of a history carries the claim. */
  lemma CarriedOnce(stamp: Stamp, origin: Job, rows: seq<Job>, writes: seq<Write>, k: nat)
    requires 0 < k < |rows| && ClaimSet(origin.claim)
    ensures Recording(stamp, rows, writes) && Carried(stamp, origin, rows[k - 1]) ==> Carried(stamp, origin, rows[k])
  {
    if Recording(stamp, rows, writes) && Carried(stamp, origin, rows[k - 1]) {
      HistoryRows(rows, writes, k - 1);
      var j, w := rows[k - 1], writes[k - 1];
      assert RowOk(j) && RecordsReceipt(stamp, j, w);
      if w.Whole? && w.rewrite.ToVerified? && j.state == Verifying && w.snapshot.state == Verifying {
        SnapshotAgrees(rows, writes, k - 1);
      }
      CarriedStep(stamp, origin, j, w);
      assert StepAt(rows, writes, k - 1);
    }
  }

  lemma ClaimComplete(stamp: Stamp, rows: seq<Job>, writes: seq<Write>, i: nat)
    requires IsHistory(rows, writes) && i < |rows| && rows[i].claim.nonce.Some?
    ensures ClaimSet(rows[i].claim) && rows[i].claim.peerUid.value >= 0 && Carried(stamp, rows[i], rows[i])
  {
    HistoryRows(rows, writes, i);
    assert RowOk(rows[i]);
  }

  /** From the version that has it on, every version of the row carries the claim. */
  lemma {:induction false} ClaimCarried(stamp: Stamp, origin: Job, rows: seq<Job>, writes: seq<Write>, i: nat, k: nat)
    requires i <= k < |rows| && ClaimSet(origin.claim)
    ensures Recording(stamp, rows, writes) && Carried(stamp, origin, rows[i]) ==> Carried(stamp, origin, rows[k])
    decreases k
  {
    if i < k {
      ClaimCarried(stamp, origin, rows, writes, i, k - 1);
      CarriedOnce(stamp, origin, rows, writes, k);
    }
  }

  // ---------------------------------------------------------------------------
  // Receipt and claim agree.

  /** The identity in a complete claim. */
  function Claimant(c: Claim): Identity
    requires ClaimSet(c) && c.peerUid.value >= 0
  {
    Identity(c.nonce.value, c.peerUid.value, c.fingerprint.value, c.pinned.value)
  }

  /** The hash of the framed fields; `hash` digests the fixed prefix followed by its argument. */
  function ReceiptOf(hash: seq<byte> -> string, id: string, c: Identity): string
    requires Frameable(Fields(id, c))
  {
    hash(Framed(Fields(id, c), 0))
  }

  /** The receipt the orchestrator computes from the claim of the job it consumes. */
  function ReceiptFor(hash: seq<byte> -> string, id: string, c: Claim): Option<string> {
    if ClaimSet(c) && c.peerUid.value >= 0 && Frameable(Fields(id, Claimant(c))) then Some(ReceiptOf(hash, id, Claimant(c))) else None
  }

  function Stamping(hash: seq<byte> -> string, id: string): Stamp {
    c => ReceiptFor(hash, id, c)
  }

  /** `begin_cli_submission` on a job that still has its claim. */
  predicate MatchesClaim(j: Job, c: Identity) {
    j.kind == SshCli && j.claim == Claim(Some(c.nonce), Some(c.peerUid), Some(c.fingerprint), Some(c.pinned))
  }

  /** `begin_cli_submission` on a consumed job. */
  ghost predicate MatchesReceipt(hash: seq<byte> -> string, id: string, j: Job, c: Identity)
    requires Frameable(Fields(id, c))
  {
    j.receipt == Some(ReceiptOf(hash, id, c))
  }

  /**
   * After consumption a client is recognised by the receipt exactly when it was by
   * the claim, provided the hash does not confuse these two clients.
   */
  lemma ReceiptAgreesWithClaim(hash: seq<byte> -> string, id: string, rows: seq<Job>, writes: seq<Write>, i: nat, k: nat, c: Identity)
    requires Recording(Stamping(hash, id), rows, writes) && i <= k < |rows|
    requires rows[i].claim.nonce.Some? && rows[k].state == Consumed
    requires Frameable(Fields(id, c))
    requires ClaimSet(rows[i].claim) && rows[i].claim.peerUid.value >= 0 ==>
               var d := Claimant(rows[i].claim);
               && Frameable(Fields(id, d))
               && (ReceiptOf(hash, id, c) == ReceiptOf(hash, id, d) ==> Framed(Fields(id, c), 0) == Framed(Fields(id, d), 0))
    ensures MatchesReceipt(hash, id, rows[k], c) <==> MatchesClaim(rows[i], c)
    ensures InputsOf(rows[k]) == InputsOf(rows[i])
  {
    var stamp := Stamping(hash, id);
    ClaimComplete(stamp, rows, writes, i);
    ClaimCarried(stamp, rows[i], rows, writes, i, k);
    var d := Claimant(rows[i].claim);
    if MatchesReceipt(hash, id, rows[k], c) {
      FieldsInjective(id, c, id, d);
    }
  }
}
