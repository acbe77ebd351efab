/**
 * Histories of the enrollment journal in which what one might expect of it does
 * not hold.
 */
module JournalExamples {
  import opened Wrappers
  import opened Journal
  import opened JournalWrites
  import opened JournalRuns

  // ---------------------------------------------------------------------------
  // Histories written out.

  /** The first `n` steps of a written-out history are right. */
  ghost predicate StepsRight(rows: seq<Job>, writes: seq<Write>, n: nat)
    requires n <= |writes| < |rows|
  {
    forall i :: 0 <= i < n ==> StepAt(rows, writes, i)
  }

  /** One more step, built from the row it finds. */
  lemma Fresher(rows: seq<Job>, writes: seq<Write>, n: nat)
    requires n < |writes| < |rows| && StepsRight(rows, writes, n)
    requires rows[n + 1] == After(rows[n], writes[n]) && (writes[n].Whole? ==> writes[n].snapshot == rows[n])
    ensures StepsRight(rows, writes, n + 1)
  {
    if writes[n].Whole? {
      assert rows[n] == writes[n].snapshot;
      assert SnapshotRead(rows, n, writes[n].snapshot);
    }
  }

  /** One more step, built from an older row. */
  lemma Older(rows: seq<Job>, writes: seq<Write>, n: nat, m: nat)
    requires m <= n < |writes| < |rows| && StepsRight(rows, writes, n)
    requires rows[n + 1] == After(rows[n], writes[n]) && writes[n].Whole? && writes[n].snapshot == rows[m]
    ensures StepsRight(rows, writes, n + 1)
  {
    assert SnapshotRead(rows, n, writes[n].snapshot);
  }

  /** A local bootstrap job without credential. */
  function Fresh(state: State): Job {
    Job(state, "e", "p", None, None, Some("n"), None, None, None, LocalSocket, None, None, None, NoOld, false, 100,
        None, None, 0, None, NoClaim, None)
  }

  /** The same job with its credential. */
  function Issued(ref: string, state: State, owner: Option<string>, until: Option<int>, revision: int): Job {
    Fresh(state).(remoteInstance := Some("i"), remoteCredential := Some("c"), ref := Some(ref), address := Some("::"),
                  owner := owner, leaseUntil := until, revision := revision)
  }

  /** The same job after its activation was requested. */
  function Saving(ref: string, state: State, owner: Option<string>, until: Option<int>, revision: int): Job {
    Issued(ref, state, owner, until, revision).(saveRequested := true)
  }

  predicate ClaimFits(owner: Option<string>, until: Option<int>) {
    owner.Some? == until.Some? && (owner.Some? ==> CanonicalUuid(owner.value))
  }

  lemma FreshValid(state: State)
    requires state in {Pending, Running}
    ensures Valid(Fresh(state)) && SchemaOk(Fresh(state))
  {
    ValidMeetsSchema(Fresh(state));
  }

  lemma IssuedValid(ref: string, state: State, owner: Option<string>, until: Option<int>, revision: int)
    requires HexText(ref, 48) && state in {CredentialIssued, Verifying, Verified} && ClaimFits(owner, until) && revision >= 0
    ensures var j := Issued(ref, state, owner, until, revision); Valid(j) && SchemaOk(j)
  {
    assert AddressText("::");
    ScopelessAddress("::");
    ValidMeetsSchema(Issued(ref, state, owner, until, revision));
  }

  lemma SavedValid(ref: string, state: State, owner: Option<string>, until: Option<int>, revision: int)
    requires HexText(ref, 48) && state in {ActivationRequested, Activated, Failed} && ClaimFits(owner, until) && revision >= 0
    ensures var j := Saving(ref, state, owner, until, revision); Valid(j) && SchemaOk(j)
  {
    assert AddressText("::");
    ScopelessAddress("::");
    ValidMeetsSchema(Saving(ref, state, owner, until, revision));
  }

  // ---------------------------------------------------------------------------
  // A row that passes validation and that the schema refuses.

  lemma ScopedAddressIsRefused(ref: string)
    requires HexText(ref, 48)
    ensures var j := Issued(ref, Verified, None, None, 0).(address := Some("fe80::1%e")); Valid(j) && !SchemaOk(j)
  {
    var address := "fe80::1%e";
    assert address[..7] == "fe80::1" && AddressText(address[..7]) && address[7] == '%';
    assert AddressWithScope(address);
    ScopelessAddress(address);
  }

  // ---------------------------------------------------------------------------
  // A CLI claim that is overdue.

  /** An SSH job before anyone has claimed it. */
  function SshJob(state: State, kind: Method): Job {
    Fresh(state).(kind := kind, sshUser := Some("u"), sshHost := Some("h"), sshPort := Some(22))
  }

  /** The job while a client holds it. */
  function Held(nonce: string, fingerprint: string): Job {
    SshJob(Running, SshCli).(owner := Some(nonce), leaseUntil := Some(100), revision := 1,
                             claim := Claim(Some(nonce), Some(0), Some(fingerprint), Some("::")))
  }

  function HeldRows(nonce: string, fingerprint: string): seq<Job> {
    [SshJob(Pending, SshAuto), SshJob(AwaitingCli, SshCli), Held(nonce, fingerprint)]
  }

  function HeldWrites(nonce: string, fingerprint: string): seq<Write> {
    [Whole(Requeue(false), SshJob(Pending, SshAuto), 0),
     Whole(ClaimCli(nonce, 0, fingerprint, "::"), SshJob(AwaitingCli, SshCli), 0)]
  }

  lemma SshJobValid(state: State, kind: Method)
    requires (state == Pending && kind == SshAuto) || (state == AwaitingCli && kind == SshCli)
    ensures Valid(SshJob(state, kind)) && SchemaOk(SshJob(state, kind))
  {
    ValidMeetsSchema(SshJob(state, kind));
  }

  lemma HeldValid(nonce: string, fingerprint: string)
    requires CanonicalUuid(nonce) && HexText(fingerprint, 64)
    ensures Valid(Held(nonce, fingerprint)) && SchemaOk(Held(nonce, fingerprint))
  {
    assert AddressText("::");
    ScopelessAddress("::");
    ValidMeetsSchema(Held(nonce, fingerprint));
  }

  lemma Requeues()
    ensures After(SshJob(Pending, SshAuto), Whole(Requeue(false), SshJob(Pending, SshAuto), 0)) == SshJob(AwaitingCli, SshCli)
  {
    SshJobValid(Pending, SshAuto);
    SshJobValid(AwaitingCli, SshCli);
  }

  lemma Claims(nonce: string, fingerprint: string)
    requires CanonicalUuid(nonce) && HexText(fingerprint, 64)
    ensures After(SshJob(AwaitingCli, SshCli), Whole(ClaimCli(nonce, 0, fingerprint, "::"), SshJob(AwaitingCli, SshCli), 0))
            == Held(nonce, fingerprint)
  {
    SshJobValid(AwaitingCli, SshCli);
    HeldValid(nonce, fingerprint);
  }

  /** A client claims an enrollment and goes away; from its expiry on no job can be created. */
  lemma OverdueClaimBlocksCreation(nonce: string, fingerprint: string)
    requires CanonicalUuid(nonce) && HexText(fingerprint, 64)
    ensures IsHistory(HeldRows(nonce, fingerprint), HeldWrites(nonce, fingerprint))
    ensures SweepRefused([HeldRows(nonce, fingerprint)[2]], 100)
  {
    var rows, writes := HeldRows(nonce, fingerprint), HeldWrites(nonce, fingerprint);
    SshJobValid(Pending, SshAuto);
    Requeues();
    Claims(nonce, fingerprint);
    Fresher(rows, writes, 0);
    Fresher(rows, writes, 1);
    HeldValid(nonce, fingerprint);
    var held := [rows[2]];
    assert RowOk(held[0]) && Overdue(held[0], 100);
    CreationBlockedByOverdueClaim(held, 100);
  }

  // ---------------------------------------------------------------------------
  // The way to a verified job.

  lemma IssuedSteps(ref: string)
    requires HexText(ref, 48)
    ensures After(Fresh(Pending), Whole(ToRunning, Fresh(Pending), 0)) == Fresh(Running)
    ensures After(Fresh(Running), Whole(Issue(ref, "i", "c", "::"), Fresh(Running), 0)) == Issued(ref, CredentialIssued, None, None, 0)
    ensures After(Issued(ref, CredentialIssued, None, None, 0), Whole(ToVerifying, Issued(ref, CredentialIssued, None, None, 0), 0))
            == Issued(ref, Verifying, None, None, 0)
  {
    FreshValid(Pending);
    FreshValid(Running);
    IssuedValid(ref, CredentialIssued, None, None, 0);
    IssuedValid(ref, Verifying, None, None, 0);
  }

  /** The histories below all begin like this. */
  lemma BeginsLocally(rows: seq<Job>, writes: seq<Write>, ref: string)
    requires HexText(ref, 48) && 3 <= |writes| < |rows|
    requires rows[0] == Fresh(Pending) && rows[1] == Fresh(Running)
    requires rows[2] == Issued(ref, CredentialIssued, None, None, 0) && rows[3] == Issued(ref, Verifying, None, None, 0)
    requires writes[0] == Whole(ToRunning, rows[0], 0) && writes[1] == Whole(Issue(ref, "i", "c", "::"), rows[1], 0)
    requires writes[2] == Whole(ToVerifying, rows[2], 0)
    ensures StepsRight(rows, writes, 3)
  {
    IssuedSteps(ref);
    Fresher(rows, writes, 0);
    Fresher(rows, writes, 1);
    Fresher(rows, writes, 2);
  }

  /** A claim on a job with a credential. */
  lemma TakesClaim(j: Job, owner: string)
    requires RowOk(j) && HoldsCredential(j.state) && j.owner.None?
    ensures After(j, Columns(TakeClaim(owner, 0, 30))) == j.(owner := Some(owner), leaseUntil := Some(30), revision := j.revision + 1)
  {
    StatementMeetsSchema(j, TakeClaim(owner, 0, 30));
  }

  lemma RenewsClaim(j: Job, owner: string)
    requires RowOk(j) && j.owner == Some(owner) && j.leaseUntil == Some(30)
    ensures After(j, Columns(RenewClaim(owner, j.revision, 0, 30))) == j.(revision := j.revision + 1)
  {
    StatementMeetsSchema(j, RenewClaim(owner, j.revision, 0, 30));
  }

  lemma FailsClaim(j: Job, owner: string)
    requires RowOk(j) && j.owner == Some(owner) && j.leaseUntil == Some(30)
    ensures After(j, Columns(FailClaim(owner, j.revision, 0))) == WithoutClaims(j).(state := Failed)
  {
    StatementMeetsSchema(j, FailClaim(owner, j.revision, 0));
  }

  /** The end of a validation, from a row read before others wrote to it. */
  lemma EndsValidation(ref: string, owner: Option<string>, until: Option<int>, revision: int)
    requires HexText(ref, 48)
    ensures After(Issued(ref, Verifying, owner, until, revision), Whole(ToVerified, Issued(ref, Verifying, None, None, 0), 0))
            == Issued(ref, Verified, None, None, 0)
  {
    IssuedValid(ref, Verifying, None, None, 0);
    IssuedValid(ref, Verified, None, None, 0);
  }

  lemma RequestsActivation(ref: string)
    requires HexText(ref, 48)
    ensures After(Issued(ref, Verified, None, None, 0), Whole(Request("n"), Issued(ref, Verified, None, None, 0), 0))
            == Saving(ref, ActivationRequested, None, None, 0)
  {
    IssuedValid(ref, Verified, None, None, 0);
    SavedValid(ref, ActivationRequested, None, None, 0);
  }

  // ---------------------------------------------------------------------------
  // A claim granted twice.

  function TwiceRows(ref: string, owner: string): seq<Job> {
    [Fresh(Pending), Fresh(Running), Issued(ref, CredentialIssued, None, None, 0), Issued(ref, Verifying, None, None, 0),
     Issued(ref, Verifying, Some(owner), Some(30), 1), Issued(ref, Verified, None, None, 0),
     Issued(ref, Verified, Some(owner), Some(30), 1)]
  }

  function TwiceWrites(ref: string, owner: string): seq<Write> {
    [Whole(ToRunning, Fresh(Pending), 0), Whole(Issue(ref, "i", "c", "::"), Fresh(Running), 0),
     Whole(ToVerifying, Issued(ref, CredentialIssued, None, None, 0), 0), Columns(TakeClaim(owner, 0, 30)),
     Whole(ToVerified, Issued(ref, Verifying, None, None, 0), 0), Columns(TakeClaim(owner, 0, 30))]
  }

  lemma TwiceGoesOn(ref: string, owner: string)
    requires HexText(ref, 48) && CanonicalUuid(owner)
    ensures StepsRight(TwiceRows(ref, owner), TwiceWrites(ref, owner), 6)
  {
    var rows, writes := TwiceRows(ref, owner), TwiceWrites(ref, owner);
    BeginsLocally(rows, writes, ref);
    IssuedValid(ref, Verifying, None, None, 0);
    TakesClaim(rows[3], owner);
    Fresher(rows, writes, 3);
    EndsValidation(ref, Some(owner), Some(30), 1);
    Older(rows, writes, 4, 3);
    IssuedValid(ref, Verified, None, None, 0);
    TakesClaim(rows[5], owner);
    Fresher(rows, writes, 5);
  }

  /**
   * A validation that finishes while recovery holds the job writes back its older
   * row; the next claim then carries the owner and revision of the first one.
   */
  lemma ClaimGrantedTwice(ref: string, owner: string)
    requires HexText(ref, 48) && CanonicalUuid(owner)
    ensures var rows, writes := TwiceRows(ref, owner), TwiceWrites(ref, owner);
            && IsHistory(rows, writes) && Grants(rows, writes, 3) && Grants(rows, writes, 5)
            && rows[4].owner == rows[6].owner && rows[4].revision == rows[6].revision
  {
    FreshValid(Pending);
    TwiceGoesOn(ref, owner);
  }

  // ---------------------------------------------------------------------------
  // A job that is expired after its activation was requested.

  /** The failed job, first with and then without its credential. */
  function Given(ref: string): Job { Saving(ref, Failed, None, None, 2) }

  function GivenUp(ref: string): Job { Given(ref).(ref := None, address := None) }

  /** The same job started again. */
  function Restarted(ref: string): Job { Rearmed(GivenUp(ref), 200) }

  function RestartRows(ref: string, owner: string): seq<Job> {
    [Fresh(Pending), Fresh(Running), Issued(ref, CredentialIssued, None, None, 0), Issued(ref, Verifying, None, None, 0),
     Issued(ref, Verified, None, None, 0), Saving(ref, ActivationRequested, None, None, 0),
     Saving(ref, ActivationRequested, Some(owner), Some(30), 1), Given(ref), GivenUp(ref), Restarted(ref),
     Restarted(ref).(state := Expired)]
  }

  function RestartWrites(ref: string, owner: string): seq<Write> {
    [Whole(ToRunning, Fresh(Pending), 0), Whole(Issue(ref, "i", "c", "::"), Fresh(Running), 0),
     Whole(ToVerifying, Issued(ref, CredentialIssued, None, None, 0), 0),
     Whole(ToVerified, Issued(ref, Verifying, None, None, 0), 0), Whole(Request("n"), Issued(ref, Verified, None, None, 0), 0),
     Columns(TakeClaim(owner, 0, 30)), Columns(FailClaim(owner, 1, 0)), Columns(FinishCleanup(ref)), Columns(Rearm(100, 200)),
     Columns(BareExpire(200))]
  }

  lemma RestartBegins(ref: string, owner: string)
    requires HexText(ref, 48)
    ensures StepsRight(RestartRows(ref, owner), RestartWrites(ref, owner), 5)
  {
    var rows, writes := RestartRows(ref, owner), RestartWrites(ref, owner);
    BeginsLocally(rows, writes, ref);
    EndsValidation(ref, None, None, 0);
    Fresher(rows, writes, 3);
    RequestsActivation(ref);
    Fresher(rows, writes, 4);
  }

  lemma RestartFails(ref: string, owner: string)
    requires HexText(ref, 48) && CanonicalUuid(owner)
    ensures StepsRight(RestartRows(ref, owner), RestartWrites(ref, owner), 7)
  {
    var rows, writes := RestartRows(ref, owner), RestartWrites(ref, owner);
    RestartBegins(ref, owner);
    SavedValid(ref, ActivationRequested, None, None, 0);
    TakesClaim(rows[5], owner);
    Fresher(rows, writes, 5);
    SavedValid(ref, ActivationRequested, Some(owner), Some(30), 1);
    FailsClaim(rows[6], owner);
    Fresher(rows, writes, 6);
  }

  lemma Restarts(ref: string)
    requires HexText(ref, 48)
    ensures After(Given(ref), Columns(FinishCleanup(ref))) == GivenUp(ref) && RowOk(GivenUp(ref)) && Restartable(GivenUp(ref))
    ensures After(GivenUp(ref), Columns(Rearm(100, 200))) == Restarted(ref)
  {
    SavedValid(ref, Failed, None, None, 2);
    StatementMeetsSchema(Given(ref), FinishCleanup(ref));
    RearmWorks(GivenUp(ref), 100, 200);
  }

  lemma ExpiresAgain(ref: string)
    requires HexText(ref, 48)
    ensures After(Restarted(ref), Columns(BareExpire(200))) == Restarted(ref).(state := Expired)
  {
    Restarts(ref);
    ValidMeetsSchema(Restarted(ref));
    BareExpiry(Restarted(ref));
  }

  /**
   * A local bootstrap that fails after its activation was requested gives up its
   * credential, is started again as the same job, and then expires.
   */
  lemma ExpiredAfterRequest(ref: string, owner: string)
    requires HexText(ref, 48) && CanonicalUuid(owner)
    ensures var rows := RestartRows(ref, owner);
            && IsHistory(rows, RestartWrites(ref, owner))
            && rows[5].state == ActivationRequested && Restartable(rows[8]) && rows[10].state == Expired
  {
    var rows, writes := RestartRows(ref, owner), RestartWrites(ref, owner);
    FreshValid(Pending);
    RestartFails(ref, owner);
    Restarts(ref);
    Fresher(rows, writes, 7);
    Fresher(rows, writes, 8);
    ExpiresAgain(ref);
    Fresher(rows, writes, 9);
  }

  // ---------------------------------------------------------------------------
  // A claim from before a rewound revision, accepted on an activated job.

  function StrayRows(ref: string, owner: string): seq<Job> {
    [Fresh(Pending), Fresh(Running), Issued(ref, CredentialIssued, None, None, 0), Issued(ref, Verifying, None, None, 0),
     Issued(ref, Verifying, Some(owner), Some(30), 1), Issued(ref, Verifying, Some(owner), Some(30), 2),
     Issued(ref, Verifying, Some(owner), Some(30), 3), Issued(ref, Verified, None, None, 0),
     Saving(ref, ActivationRequested, None, None, 0), Saving(ref, ActivationRequested, Some(owner), Some(30), 1),
     Saving(ref, ActivationRequested, Some(owner), Some(30), 2), Saving(ref, Activated, Some(owner), Some(30), 3),
     Saving(ref, Failed, None, None, 4)]
  }

  function StrayWrites(ref: string, owner: string): seq<Write> {
    [Whole(ToRunning, Fresh(Pending), 0), Whole(Issue(ref, "i", "c", "::"), Fresh(Running), 0),
     Whole(ToVerifying, Issued(ref, CredentialIssued, None, None, 0), 0), Columns(TakeClaim(owner, 0, 30)),
     Columns(RenewClaim(owner, 1, 0, 30)), Columns(RenewClaim(owner, 2, 0, 30)),
     Whole(ToVerified, Issued(ref, Verifying, None, None, 0), 0), Whole(Request("n"), Issued(ref, Verified, None, None, 0), 0),
     Columns(TakeClaim(owner, 0, 30)), Columns(RenewClaim(owner, 1, 0, 30)),
     Whole(Recover(Activated, None), Saving(ref, ActivationRequested, Some(owner), Some(30), 2), 0),
     Columns(FailClaim(owner, 3, 0))]
  }

  lemma StrayBegins(ref: string, owner: string)
    requires HexText(ref, 48) && CanonicalUuid(owner)
    ensures StepsRight(StrayRows(ref, owner), StrayWrites(ref, owner), 4)
  {
    var rows, writes := StrayRows(ref, owner), StrayWrites(ref, owner);
    BeginsLocally(rows, writes, ref);
    IssuedValid(ref, Verifying, None, None, 0);
    TakesClaim(rows[3], owner);
    Fresher(rows, writes, 3);
  }

  lemma StrayRenews(ref: string, owner: string)
    requires HexText(ref, 48) && CanonicalUuid(owner)
    ensures StepsRight(StrayRows(ref, owner), StrayWrites(ref, owner), 6)
  {
    var rows, writes := StrayRows(ref, owner), StrayWrites(ref, owner);
    StrayBegins(ref, owner);
    IssuedValid(ref, Verifying, Some(owner), Some(30), 1);
    RenewsClaim(rows[4], owner);
    Fresher(rows, writes, 4);
    IssuedValid(ref, Verifying, Some(owner), Some(30), 2);
    RenewsClaim(rows[5], owner);
    Fresher(rows, writes, 5);
  }

  lemma StrayRewinds(ref: string, owner: string)
    requires HexText(ref, 48) && CanonicalUuid(owner)
    ensures StepsRight(StrayRows(ref, owner), StrayWrites(ref, owner), 8)
  {
    var rows, writes := StrayRows(ref, owner), StrayWrites(ref, owner);
    StrayRenews(ref, owner);
    EndsValidation(ref, Some(owner), Some(30), 3);
    Older(rows, writes, 6, 3);
    RequestsActivation(ref);
    Fresher(rows, writes, 7);
  }

  lemma StrayReclaims(ref: string, owner: string)
    requires HexText(ref, 48) && CanonicalUuid(owner)
    ensures StepsRight(StrayRows(ref, owner), StrayWrites(ref, owner), 10)
  {
    var rows, writes := StrayRows(ref, owner), StrayWrites(ref, owner);
    StrayRewinds(ref, owner);
    SavedValid(ref, ActivationRequested, None, None, 0);
    TakesClaim(rows[8], owner);
    Fresher(rows, writes, 8);
    SavedValid(ref, ActivationRequested, Some(owner), Some(30), 1);
    RenewsClaim(rows[9], owner);
    Fresher(rows, writes, 9);
  }

  lemma Activates(ref: string, owner: string)
    requires HexText(ref, 48) && CanonicalUuid(owner)
    ensures var j := Saving(ref, ActivationRequested, Some(owner), Some(30), 2);
            After(j, Whole(Recover(Activated, None), j, 0)) == Saving(ref, Activated, Some(owner), Some(30), 3)
  {
    SavedValid(ref, ActivationRequested, Some(owner), Some(30), 2);
    SavedValid(ref, Activated, Some(owner), Some(30), 3);
  }

  /**
   * A validation's claim, renewed to revision 3 before the revision was rewound, is
   * accepted again when recovery of the activated job reaches that revision, and
   * fails it.
   */
  lemma StrayClaimFailsActivatedJob(ref: string, owner: string)
    requires HexText(ref, 48) && CanonicalUuid(owner)
    ensures var rows, writes := StrayRows(ref, owner), StrayWrites(ref, owner);
            && IsHistory(rows, writes) && rows[6].state == Verifying && rows[11].state == Activated && rows[12].state == Failed
            && rows[6].owner == rows[11].owner && rows[6].revision == rows[11].revision
  {
    var rows, writes := StrayRows(ref, owner), StrayWrites(ref, owner);
    FreshValid(Pending);
    StrayReclaims(ref, owner);
    Activates(ref, owner);
    Fresher(rows, writes, 10);
    SavedValid(ref, Activated, Some(owner), Some(30), 3);
    FailsClaim(rows[11], owner);
    Fresher(rows, writes, 11);
  }
}
