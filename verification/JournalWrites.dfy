/**
 * Every statement that writes a row of the enrollment journal, as the row it
 * tries to write.  A row is created by one of three creators and then rewritten
 * either as a whole, from a snapshot the caller read earlier and after
 * validation, or column by column under a guard.
 */
module JournalWrites {
  import opened Wrappers
  import opened Journal

  /** Whole-row writes (`replace_if_state`), as changes of the caller's snapshot. */
  datatype Rewrite =
    | ToRunning
    | Requeue(started: bool)
    | Converge(toCli: bool)
    | ClaimCli(nonce: string, peerUid: int, fingerprint: string, pinned: string)
    | Issue(ref: string, instance: string, credential: string, address: string)
    | IssueLegacy(ref: string)
    | ToVerifying
    | ToVerified
    | FailUnfenced
    | Close(cancelled: bool)
    | Request(name: string)
    | Recover(to: State, receipt: Option<string>)

  /** Statements that set single columns. */
  datatype Statement =
    | BareExpire(now: int)
    | ExpireRunning(now: int)
    | ClearingExpire(now: int)
    | StartAuto(now: int)
    | TakeClaim(owner: string, now: int, until: int)
    | RenewClaim(owner: string, revision: int, now: int, until: int)
    | ReleaseClaim(owner: string, revision: int, now: int)
    | FailClaim(owner: string, revision: int, now: int)
    | ResidualClaim(owner: string, revision: int)
    | MarkClaim(owner: string, revision: int, now: int)
    | RequestRotation(name: string)
    | Commit(owner: string, revision: int, receipt: Option<string>)
    | FinishCleanup(ref: string)
    | Rearm(now: int, expiresAt: int)
    | Bury

  datatype Write =
    | Whole(rewrite: Rewrite, snapshot: Job, now: int)
    | Columns(statement: Statement)

  /** The state a whole-row write starts from. */
  function Expected(r: Rewrite, snap: Job): State {
    match r
    case ToRunning => Pending
    case Requeue(started) => if started then Running else Pending
    case Converge(_) => Running
    case ClaimCli(_, _, _, _) => AwaitingCli
    case Issue(_, _, _, _) => Running
    case IssueLegacy(_) => Running
    case ToVerifying => CredentialIssued
    case ToVerified => Verifying
    case FailUnfenced => snap.state
    case Close(_) => snap.state
    case Request(_) => Verified
    case Recover(_, _) => snap.state
  }

  function WithoutClaims(j: Job): Job {
    j.(owner := None, leaseUntil := None, revision := j.revision + 1, claim := NoClaim, receipt := None)
  }

  /** The row the caller builds from its snapshot. */
  function Proposed(r: Rewrite, snap: Job): Job {
    match r
    case ToRunning => snap.(state := Running)
    case Requeue(started) =>
      var j := snap.(state := AwaitingCli, kind := SshCli);
      if started then j.(owner := None, leaseUntil := None, revision := snap.revision + 1) else j
    case Converge(toCli) => snap.(state := if toCli then AwaitingCli else Failed)
    case ClaimCli(nonce, uid, fingerprint, pinned) =>
      snap.(state := Running, kind := SshCli, owner := Some(nonce), leaseUntil := Some(snap.expiresAt),
            revision := snap.revision + 1,
            claim := Claim(Some(nonce), Some(uid), Some(fingerprint), Some(pinned)))
    case Issue(ref, instance, credential, address) =>
      var j := snap.(state := CredentialIssued, remoteInstance := Some(instance), remoteCredential := Some(credential),
                     ref := Some(ref), address := Some(address));
      if snap.kind == SshCli then j.(owner := None, leaseUntil := None, revision := snap.revision + 1) else j
    case IssueLegacy(ref) => snap.(state := CredentialIssued, ref := Some(ref))
    case ToVerifying => snap.(state := Verifying)
    case ToVerified => snap.(state := Verified)
    case FailUnfenced => snap.(state := Failed)
    case Close(cancelled) => WithoutClaims(snap).(state := if cancelled then Cancelled else Expired)
    case Request(name) => snap.(state := ActivationRequested, displayName := Some(name), saveRequested := true)
    case Recover(to, receipt) => Recovered(snap, to, receipt)
  }

  /** `_transition_claimed`; a job that ends gives up its claims and its credentials. */
  function Recovered(snap: Job, to: State, receipt: Option<string>): Job {
    var j := snap.(state := to, revision := snap.revision + 1);
    if to == Verified then j.(owner := None, leaseUntil := None)
    else if !Terminal(to) then j
    else
      j.(owner := None, leaseUntil := None, claim := NoClaim, receipt := receipt, ref := None, address := None,
         prior := j.prior.(ref := None, remoteCredential := None))
  }

  /** The recovery transitions the orchestrator makes; a receipt is recorded for consumed CLI jobs only. */
  predicate RecoverAllowed(snap: Job, to: State, receipt: Option<string>) {
    to in {Verifying, Verified, Activated, Consumed, Failed} && (receipt.Some? ==> to == Consumed && snap.claim.nonce.Some?)
  }

  /** Only SSH jobs that no one claimed are requeued for the command line. */
  predicate Requeueable(j: Job) { j.kind == SshAuto || j.kind == SshServiceKey }

  /** The fence of a recovery transition or of a CLI result. */
  predicate FenceOk(j: Job, snap: Job, now: int) {
    j.owner.Some? && j.owner == snap.owner && j.revision == snap.revision && j.leaseUntil.Some? && j.leaseUntil.value > now
  }

  predicate IsFenced(r: Rewrite, snap: Job) { r.Recover? || (r.Issue? && snap.kind == SshCli) }

  /** The callers' own conditions. */
  predicate CallerOk(r: Rewrite, snap: Job) {
    match r
    case ToRunning => snap.kind == LegacyAdminToken || snap.kind == LocalSocket
    case Requeue(_) => Requeueable(snap)
    case Issue(_, _, _, _) => snap.kind != LegacyAdminToken
    case IssueLegacy(_) => snap.kind == LegacyAdminToken
    case Close(_) => Expirable(snap.state)
    case FailUnfenced => snap.kind == LegacyAdminToken || (snap.kind == LocalSocket && !Saved(snap.state))
    case Recover(to, receipt) => RecoverAllowed(snap, to, receipt)
    case _ => true
  }

  /** The row a whole-row write would leave, if its guards hold. */
  ghost function Rewritten(j: Job, r: Rewrite, snap: Job, now: int): Option<Job> {
    var p := Proposed(r, snap);
    if && snap.state == Expected(r, snap) && j.state == snap.state && CallerOk(r, snap)
       && Allowed(snap.state, p.state) && Valid(p) && (IsFenced(r, snap) ==> FenceOk(j, snap, now))
    then Some(p) else None
  }

  predicate Token(j: Job, owner: string, revision: int) { j.owner == Some(owner) && j.revision == revision }

  predicate LiveToken(j: Job, owner: string, revision: int, now: int) {
    Token(j, owner, revision) && j.leaseUntil.Some? && j.leaseUntil.value > now
  }

  function Released(j: Job): Job { j.(owner := None, leaseUntil := None, revision := j.revision + 1) }

  /** The row a statement would leave, if its guards hold. */
  ghost function Executed(j: Job, st: Statement): Option<Job> {
    match st
    case BareExpire(now) => if Expirable(j.state) && now >= j.expiresAt then Some(j.(state := Expired)) else None
    case ExpireRunning(now) => if j.state == Running && now >= j.expiresAt then Some(j.(state := Expired)) else None
    case ClearingExpire(now) =>
      if Expirable(j.state) && now >= j.expiresAt then Some(WithoutClaims(j).(state := Expired)) else None
    case StartAuto(now) => if j.state == Pending && Requeueable(j) && now < j.expiresAt then Some(j.(state := Running)) else None
    case TakeClaim(owner, now, until) =>
      if HoldsCredential(j.state) && (j.owner.None? || (j.leaseUntil.Some? && j.leaseUntil.value <= now))
      then Some(j.(owner := Some(owner), leaseUntil := Some(until), revision := j.revision + 1)) else None
    case RenewClaim(owner, revision, now, until) =>
      if LiveToken(j, owner, revision, now) then Some(j.(leaseUntil := Some(until), revision := j.revision + 1)) else None
    case ReleaseClaim(owner, revision, now) => if LiveToken(j, owner, revision, now) then Some(Released(j)) else None
    case FailClaim(owner, revision, now) =>
      if LiveToken(j, owner, revision, now) then Some(WithoutClaims(j).(state := Failed)) else None
    case ResidualClaim(owner, revision) =>
      if Token(j, owner, revision) && Saved(j.state) then Some(Released(j)) else None
    case MarkClaim(owner, revision, now) =>
      if LiveToken(j, owner, revision, now) && j.state == Activated then Some(j.(revision := j.revision + 1)) else None
    case RequestRotation(name) =>
      var p := j.(state := ActivationRequested, displayName := Some(name), saveRequested := true);
      if j.state == Verified && j.replacing.Some? && !j.saveRequested && Valid(p) then Some(p) else None
    case Commit(owner, revision, receipt) =>
      if j.state == Activated && Token(j, owner, revision) && (receipt.Some? ==> j.kind == SshCli && HexText(receipt.value, 64))
      then Some(Released(j).(state := Consumed, ref := None, address := None, claim := NoClaim, receipt := receipt)) else None
    case FinishCleanup(ref) =>
      if j.state in {Cancelled, Failed, Expired} && j.ref == Some(ref) then Some(j.(ref := None, address := None)) else None
    case Rearm(now, expiresAt) =>
      var p := Rearmed(j, expiresAt);
      if && j.kind == LocalSocket && j.state in {Cancelled, Failed, Expired} && now >= j.expiresAt && j.ref.None? && Valid(p)
      then Some(p) else None
    case Bury => if Terminal(j.state) && j.replacing.Some? then Some(j.(replacing := None)) else None
  }

  /** `rearm_expired_local` starts the same job again. */
  function Rearmed(j: Job, expiresAt: int): Job {
    j.(state := Pending, discovery := None, replacing := None, sshUser := None, sshHost := None, sshPort := None,
       remoteInstance := None, remoteCredential := None, ref := None, prior := NoOld, saveRequested := false,
       expiresAt := expiresAt, owner := None, leaseUntil := None, revision := j.revision + 1, address := None,
       claim := NoClaim, receipt := None)
  }

  ghost function Attempted(j: Job, w: Write): Option<Job> {
    match w
    case Whole(r, snap, now) => Rewritten(j, r, snap, now)
    case Columns(st) => Executed(j, st)
  }

  // ---------------------------------------------------------------------------
  // The schema as an invariant.

  /** A row that meets the schema and has no credential before one was issued. */
  predicate RowOk(j: Job) {
    SchemaOk(j) && (Early(j.state) ==> j.ref.None?)
  }

  /** The writes whose row the schema refuses. */
  predicate Trips(j: Job, w: Write) {
    match w
    case Whole(ClaimCli(_, _, _, pinned), _, _) => '%' in pinned
    case Whole(Issue(_, _, _, address), _, _) => '%' in address
    case Columns(BareExpire(_)) => j.claim.nonce.Some?
    case Columns(ExpireRunning(_)) => j.claim.nonce.Some?
    case _ => false
  }

  lemma AddressTextIsPlain(s: string)
    requires AddressText(s)
    ensures '%' !in s
  {
    ScopelessAddress(s);
  }

  /** A row in the journal is storable. */
  lemma RowStorable(j: Job)
    requires SchemaOk(j)
    ensures Storable(j)
  {
    if j.address.Some? {
      AddressTextIsPlain(j.address.value);
    }
    if j.claim.pinned.Some? {
      AddressTextIsPlain(j.claim.pinned.value);
    }
  }

  lemma RewriteStorable(j: Job, r: Rewrite, snap: Job, now: int)
    requires Storable(snap)
    ensures Storable(Proposed(r, snap)) <==> !Trips(j, Whole(r, snap, now))
  {
  }

  lemma RewriteEarly(r: Rewrite, snap: Job)
    requires Early(snap.state) ==> snap.ref.None?
    requires snap.state == Expected(r, snap) && CallerOk(r, snap) && Allowed(snap.state, Proposed(r, snap).state)
    ensures Early(Proposed(r, snap).state) ==> Proposed(r, snap).ref.None?
  {
  }

  lemma RewriteMeetsSchema(j: Job, r: Rewrite, snap: Job, now: int)
    requires RowOk(snap) && Rewritten(j, r, snap, now).Some?
    ensures var p := Rewritten(j, r, snap, now).value;
            (SchemaOk(p) <==> !Trips(j, Whole(r, snap, now))) && (Early(p.state) ==> p.ref.None?)
  {
    assert Rewritten(j, r, snap, now).value == Proposed(r, snap);
    RowStorable(snap);
    RewriteStorable(j, r, snap, now);
    RewriteEarly(r, snap);
    ValidMeetsSchema(Proposed(r, snap));
  }

  /** Expiry without clearing the claim. */
  lemma BareExpiry(j: Job)
    requires RowOk(j) && Expirable(j.state)
    ensures SchemaOk(j.(state := Expired)) <==> j.claim.nonce.None?
  {
  }

  lemma ClaimsCleared(j: Job, s: State)
    requires RowOk(j) && (s == Expired || s == Failed)
    ensures SchemaOk(WithoutClaims(j).(state := s))
  {
  }

  /** Another owner, lease and revision. */
  lemma Reclaimed(j: Job, owner: Option<string>, until: Option<int>, revision: int)
    requires RowOk(j) && owner.Some? == until.Some? && revision >= 0
    ensures SchemaOk(j.(owner := owner, leaseUntil := until, revision := revision))
  {
  }

  /** Statements that leave the state alone. */
  lemma ClaimStatement(j: Job, st: Statement)
    requires RowOk(j) && Executed(j, st).Some?
    requires st.TakeClaim? || st.RenewClaim? || st.ReleaseClaim? || st.ResidualClaim? || st.MarkClaim?
    ensures SchemaOk(Executed(j, st).value) && Executed(j, st).value.ref == j.ref && Executed(j, st).value.state == j.state
  {
    var p := Executed(j, st).value;
    assert p == j.(owner := p.owner, leaseUntil := p.leaseUntil, revision := j.revision + 1);
    Reclaimed(j, p.owner, p.leaseUntil, p.revision);
  }

  lemma CommitStatement(j: Job, st: Statement)
    requires RowOk(j) && Executed(j, st).Some? && st.Commit?
    ensures SchemaOk(Executed(j, st).value) && Terminal(Executed(j, st).value.state)
  {
  }

  lemma Unreferenced(j: Job)
    requires RowOk(j) && Terminal(j.state)
    ensures SchemaOk(j.(ref := None, address := None))
  {
  }

  lemma Unlinked(j: Job)
    requires RowOk(j)
    ensures SchemaOk(j.(replacing := None))
  {
  }

  lemma CleanupStatement(j: Job, st: Statement)
    requires RowOk(j) && Executed(j, st).Some? && (st.FinishCleanup? || st.Bury?)
    ensures SchemaOk(Executed(j, st).value) && Terminal(Executed(j, st).value.state)
  {
    if st.Bury? {
      Unlinked(j);
    } else {
      Unreferenced(j);
    }
  }

  lemma StartStatement(j: Job, st: Statement)
    requires RowOk(j) && Executed(j, st).Some? && st.StartAuto?
    ensures SchemaOk(Executed(j, st).value) && Executed(j, st).value.ref.None?
  {
  }

  lemma EndingStatement(j: Job, st: Statement)
    requires RowOk(j) && Executed(j, st).Some? && (st.Commit? || st.FinishCleanup? || st.Bury? || st.StartAuto?)
    ensures SchemaOk(Executed(j, st).value) && (Early(Executed(j, st).value.state) ==> Executed(j, st).value.ref.None?)
  {
    if st.Commit? {
      CommitStatement(j, st);
    } else if st.StartAuto? {
      StartStatement(j, st);
    } else {
      CleanupStatement(j, st);
    }
  }

  /** Statements that close a row and clear its claims. */
  lemma ClosingStatement(j: Job, st: Statement)
    requires RowOk(j) && Executed(j, st).Some? && (st.ClearingExpire? || st.FailClaim?)
    ensures SchemaOk(Executed(j, st).value) && Terminal(Executed(j, st).value.state)
  {
    ClaimsCleared(j, if st.FailClaim? then Failed else Expired);
  }

  lemma BareStatement(j: Job, st: Statement)
    requires RowOk(j) && Executed(j, st).Some? && (st.BareExpire? || st.ExpireRunning?)
    ensures SchemaOk(Executed(j, st).value) <==> j.claim.nonce.None?
    ensures Terminal(Executed(j, st).value.state)
  {
    BareExpiry(j);
  }

  /** Statements that validate the row they write. */
  lemma ValidatedStatement(j: Job, st: Statement)
    requires RowOk(j) && Executed(j, st).Some? && (st.RequestRotation? || st.Rearm?)
    ensures SchemaOk(Executed(j, st).value) && (Early(Executed(j, st).value.state) ==> Executed(j, st).value.ref.None?)
  {
    RowStorable(j);
    var p := Executed(j, st).value;
    assert Valid(p) && Storable(p);
    ValidMeetsSchema(p);
  }

  lemma StatementMeetsSchema(j: Job, st: Statement)
    requires RowOk(j) && Executed(j, st).Some?
    ensures SchemaOk(Executed(j, st).value) <==> !Trips(j, Columns(st))
    ensures Early(Executed(j, st).value.state) ==> Executed(j, st).value.ref.None?
  {
    if st.BareExpire? || st.ExpireRunning? {
      BareStatement(j, st);
    } else if st.ClearingExpire? || st.FailClaim? {
      ClosingStatement(j, st);
    } else if st.RequestRotation? || st.Rearm? {
      ValidatedStatement(j, st);
    } else if st.Commit? || st.FinishCleanup? || st.Bury? || st.StartAuto? {
      EndingStatement(j, st);
    } else {
      ClaimStatement(j, st);
    }
  }

  /**
   * Whatever statement runs on a row of the journal, and however old the snapshot
   * it was built from, the row it writes meets every CHECK constraint, except for
   * an address with a scope and for an expiry that forgets to clear a CLI claim.
   */
  lemma WritesMeetSchema(j: Job, w: Write)
    requires RowOk(j) && (w.Whole? ==> RowOk(w.snapshot)) && Attempted(j, w).Some?
    ensures SchemaOk(Attempted(j, w).value) <==> !Trips(j, w)
    ensures SchemaOk(Attempted(j, w).value) ==> RowOk(Attempted(j, w).value)
  {
    match w
    case Whole(r, snap, now) => RewriteMeetsSchema(j, r, snap, now);
    case Columns(st) => StatementMeetsSchema(j, st);
  }
}
