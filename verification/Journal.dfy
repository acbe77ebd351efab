/**
 * The enrollment journal: its rows
 * (backend/ic_env_guard/fleet/models.py, `EnrollmentJob`), the CHECK constraints
 * of backend/ic_env_guard/control_plane_migrations/0013_local_socket_bootstrap.py,
 * the validation every whole-row write passes first, and the statements that
 * write rows (backend/ic_env_guard/storage/enrollment_journal.py, called from
 * backend/ic_env_guard/enrollment/jobs.py and orchestrator.py).
 */
module Journal {
  import opened Wrappers

  datatype State =
    | Pending | Running | AwaitingCli | CredentialIssued | Verifying | Verified
    | ActivationRequested | Activated | Consumed | Cancelled | Failed | Expired

  datatype Method = SshAuto | SshCli | SshServiceKey | LocalSocket | LegacyAdminToken

  /** The durable claim of a CLI submission. */
  datatype Claim = Claim(nonce: Option<string>, peerUid: Option<int>, fingerprint: Option<string>, pinned: Option<string>)

  const NoClaim := Claim(None, None, None, None)

  /** What a rotation captured of the registered Agent. */
  datatype Old = Old(
    ref: Option<string>, remoteCredential: Option<string>, instance: Option<string>, endpoint: Option<string>,
    profile: Option<string>, revision: Option<int>, kind: Option<Method>, source: Option<string>,
    enabled: Option<bool>, name: Option<string>)

  const NoOld := Old(None, None, None, None, None, None, None, None, None, None)

  datatype Job = Job(
    state: State,
    endpoint: string,
    profile: string,
    discovery: Option<string>,
    replacing: Option<string>,
    displayName: Option<string>,
    sshUser: Option<string>,
    sshHost: Option<string>,
    sshPort: Option<int>,
    kind: Method,
    remoteInstance: Option<string>,
    remoteCredential: Option<string>,
    ref: Option<string>,
    prior: Old,
    saveRequested: bool,
    expiresAt: int,
    owner: Option<string>,
    leaseUntil: Option<int>,
    revision: int,
    address: Option<string>,
    claim: Claim,
    receipt: Option<string>)

  // ---------------------------------------------------------------------------
  // States.

  predicate Terminal(s: State) { s == Consumed || s == Cancelled || s == Failed || s == Expired }

  predicate Early(s: State) { s == Pending || s == Running || s == AwaitingCli }

  predicate Saved(s: State) { s == ActivationRequested || s == Activated }

  predicate HoldsCredential(s: State) { s == CredentialIssued || s == Verifying || s == Verified || Saved(s) }

  predicate Expirable(s: State) { Early(s) || s == CredentialIssued || s == Verifying || s == Verified }

  /** `_ALLOWED_TRANSITIONS` */
  predicate Allowed(a: State, b: State) {
    match a
    case Pending => b in {Running, AwaitingCli, Cancelled, Expired}
    case Running => b in {AwaitingCli, CredentialIssued, Cancelled, Failed, Expired}
    case AwaitingCli => b in {Running, CredentialIssued, Cancelled, Failed, Expired}
    case CredentialIssued => b in {Verifying, Cancelled, Expired}
    case Verifying => b in {Verified, Cancelled, Failed, Expired}
    case Verified => b in {ActivationRequested, Cancelled, Expired}
    case ActivationRequested => b in {Activated, Failed}
    case Activated => b in {Consumed, Failed}
    case _ => false
  }

  // ---------------------------------------------------------------------------
  // Texts.

  predicate Hex(c: char) { '0' <= c <= '9' || 'a' <= c <= 'f' }

  predicate HexText(s: string, n: nat) { |s| == n && forall i :: 0 <= i < |s| ==> Hex(s[i]) }

  predicate AddressText(s: string) {
    2 <= |s| <= 45 && forall i :: 0 <= i < |s| ==> Hex(s[i]) || s[i] == ':' || s[i] == '.'
  }

  /** Python's `ip_address` also takes an IPv6 scope after a percent sign. */
  ghost predicate AddressWithScope(s: string) {
    exists n: nat :: n < |s| && AddressText(s[..n]) && s[n] == '%'
  }

  /** What `str(ip_address(s)) == s` leaves possible. */
  ghost predicate CanonicalAddress(s: string) { AddressText(s) || AddressWithScope(s) }

  predicate NonceText(s: string) { |s| == 36 && forall i :: 0 <= i < |s| ==> Hex(s[i]) || s[i] == '-' }

  /** A lower-case UUID with its four hyphens. */
  predicate CanonicalUuid(s: string) {
    |s| == 36 && forall i :: 0 <= i < |s| ==> if i in {8, 13, 18, 23} then s[i] == '-' else Hex(s[i])
  }

  // ---------------------------------------------------------------------------
  // The CHECK constraints.

  predicate ClaimSet(c: Claim) { c.nonce.Some? && c.peerUid.Some? && c.fingerprint.Some? && c.pinned.Some? }

  predicate TextsOk(j: Job) {
    && (j.address.Some? ==> AddressText(j.address.value))
    && (j.claim.nonce.Some? ==> NonceText(j.claim.nonce.value))
    && (j.claim.peerUid.Some? ==> j.claim.peerUid.value >= 0)
    && (j.claim.fingerprint.Some? ==> HexText(j.claim.fingerprint.value, 64))
    && (j.claim.pinned.Some? ==> AddressText(j.claim.pinned.value))
    && (j.receipt.Some? ==> HexText(j.receipt.value, 64))
    && (j.sshPort.Some? ==> 1 <= j.sshPort.value <= 65535)
    && (j.prior.revision.Some? ==> j.prior.revision.value >= 1)
    && j.revision >= 0
  }

  predicate AddressOk(j: Job) {
    if j.kind == LegacyAdminToken then j.address.None?
    else if Early(j.state) then j.address.None?
    else if HoldsCredential(j.state) then j.address.Some?
    else j.ref.Some? == j.address.Some?
  }

  predicate ClaimOk(j: Job) {
    || j.claim == NoClaim
    || (ClaimSet(j.claim) && j.kind == SshCli && (j.state == Running || HoldsCredential(j.state)))
  }

  predicate ReceiptOk(j: Job) {
    j.receipt.Some? ==> j.state == Consumed && j.kind == SshCli && j.claim.nonce.None?
  }

  predicate SshOk(j: Job) {
    if j.kind == LegacyAdminToken || j.kind == LocalSocket
    then j.sshUser.None? && j.sshHost.None? && j.sshPort.None?
    else j.sshUser.Some? && j.sshHost.Some? && j.sshPort.Some?
  }

  predicate PhaseOk(j: Job) {
    && (j.state == Running && j.kind == SshCli && j.ref.None? ==> j.claim.nonce.Some?)
    && (j.discovery.None? || j.replacing.None?)
    && (j.saveRequested ==> j.displayName.Some?)
    && (HoldsCredential(j.state) ==> j.ref.Some?)
    && (Saved(j.state) ==> j.saveRequested && j.displayName.Some?)
    && (Saved(j.state) ==> j.kind == LegacyAdminToken || (j.remoteInstance.Some? && j.remoteCredential.Some?))
    && (j.owner.None? <==> j.leaseUntil.None?)
  }

  /** Every CHECK constraint of the table. */
  predicate SchemaOk(j: Job) {
    TextsOk(j) && AddressOk(j) && ClaimOk(j) && ReceiptOk(j) && SshOk(j) && PhaseOk(j)
  }

  // ---------------------------------------------------------------------------
  // `_validate_job`

  predicate NonEmpty(s: Option<string>) { s.Some? && s.value != "" }

  predicate OldComplete(o: Old) {
    && o.endpoint.Some? && o.profile.Some? && o.revision.Some? && o.kind.Some? && o.source.Some?
    && o.enabled.Some? && o.name.Some?
  }

  predicate RotationValid(j: Job) {
    if j.replacing.None? then j.prior == NoOld
    else
      && OldComplete(j.prior)
      && (j.state != Consumed && j.state != Failed ==>
            && j.prior.ref.Some?
            && (j.prior.kind != Some(LegacyAdminToken) ==> j.prior.remoteCredential.Some? && j.prior.instance.Some?))
      && (j.remoteInstance.Some? && j.prior.instance.Some? ==> j.remoteInstance == j.prior.instance)
  }

  ghost predicate ClaimValid(j: Job) {
    if j.claim == NoClaim then !(j.kind == SshCli && j.state == Running && j.ref.None?)
    else
      && ClaimSet(j.claim) && j.kind == SshCli && (j.state == Running || HoldsCredential(j.state))
      && CanonicalUuid(j.claim.nonce.value) && j.claim.peerUid.value >= 0
      && HexText(j.claim.fingerprint.value, 64) && CanonicalAddress(j.claim.pinned.value)
  }

  ghost predicate Valid(j: Job) {
    && j.endpoint != "" && j.profile != "" && SshOk(j)
    && (j.sshPort.Some? ==> 1 <= j.sshPort.value <= 65535)
    && (j.saveRequested ==> NonEmpty(j.displayName))
    && (j.discovery.None? || j.replacing.None?)
    && RotationValid(j)
    && (HoldsCredential(j.state) ==> j.ref.Some?)
    && (Saved(j.state) ==> j.saveRequested && NonEmpty(j.displayName))
    && (Saved(j.state) && j.kind != LegacyAdminToken ==> j.remoteInstance.Some? && j.remoteCredential.Some?)
    && (j.owner.None? <==> j.leaseUntil.None?)
    && (j.owner.Some? ==> CanonicalUuid(j.owner.value))
    && j.revision >= 0
    && (j.address.Some? ==> CanonicalAddress(j.address.value))
    && ClaimValid(j)
    && (j.receipt.Some? ==> HexText(j.receipt.value, 64) && j.state == Consumed && j.kind == SshCli && j.claim == NoClaim)
    && (if j.kind == LegacyAdminToken then j.address.None?
        else (HoldsCredential(j.state) || (Terminal(j.state) && j.ref.Some?)) == j.address.Some?)
    && (j.ref.Some? ==> HexText(j.ref.value, 48)) && (j.prior.ref.Some? ==> HexText(j.prior.ref.value, 48))
  }

  /** What the schema demands beyond `_validate_job`: addresses without a scope and a positive old revision. */
  predicate Storable(j: Job) {
    && (j.address.Some? ==> '%' !in j.address.value)
    && (j.claim.pinned.Some? ==> '%' !in j.claim.pinned.value)
    && (j.prior.revision.Some? ==> j.prior.revision.value >= 1)
  }

  lemma ScopelessAddress(s: string)
    requires CanonicalAddress(s)
    ensures AddressText(s) <==> '%' !in s
  {
    assert AddressText(s) ==> forall i :: 0 <= i < |s| ==> s[i] != '%';
  }

  lemma UuidIsNonce(s: string)
    requires CanonicalUuid(s)
    ensures NonceText(s)
  {
    forall i | 0 <= i < |s| ensures Hex(s[i]) || s[i] == '-' {
      assert if i in {8, 13, 18, 23} then s[i] == '-' else Hex(s[i]);
    }
  }

  /** A row that passed validation meets every CHECK constraint exactly when it is storable. */
  lemma ValidMeetsSchema(j: Job)
    requires Valid(j)
    ensures SchemaOk(j) <==> Storable(j)
  {
    if j.address.Some? {
      ScopelessAddress(j.address.value);
    }
    if j.claim != NoClaim {
      ScopelessAddress(j.claim.pinned.value);
      UuidIsNonce(j.claim.nonce.value);
    }
  }
}
