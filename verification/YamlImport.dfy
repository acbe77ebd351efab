/**
 * The one-time import of Agents from YAML
 * (backend/ic_env_guard/fleet/importer.py): new credentials are stored, then all
 * rows and a marker are committed in one transaction, and whatever happens after
 * the first credential the unreferenced ones are taken back.  A script decides
 * which calls fail and what other processes commit in between.
 */
module YamlImport {
  import opened Wrappers

  /** A registry row: its credential, and whether this import made it. */
  datatype Row = Row(ref: nat, imported: bool)

  /** The database: registry, credential references of the enrollment journal, import marker. */
  datatype Db = Db(agents: map<nat, Row>, journal: set<nat>, marker: bool)

  function References(db: Db): set<nat> {
    (set id | id in db.agents :: db.agents[id].ref) + db.journal
  }

  /**
   * `ever` are the references the database has had since the call began; `own`
   * says whether the call's transaction took effect.
   */
  datatype State = State(db: Db, store: set<nat>, ever: set<nat>, own: bool)

  datatype Result = Imported | NotNeeded | Failed(cleanupFailed: bool) | Uncertain

  datatype Commit = Seen | Unseen | NotCommitted

  /**
   * `draws` are the references of the new credentials.  `putFails` is the put that
   * fails and whether it has stored its credential all the same.  `markerUnseen`
   * says whether, where Agents are found and an operation fails, the commit of the
   * marker has taken effect all the same.  `before`,
   * `after` and `later` are what other processes make of the database before the
   * transaction, before the outcome is verified, and before credentials are
   * deleted.
   */
  datatype Script = Script(
    prepareFails: bool,
    invalid: bool,
    draws: seq<nat>,
    putFails: Option<(nat, bool)>,
    before: Db,
    operationFails: bool,
    markerUnseen: bool,
    rollbackFails: bool,
    commit: Commit,
    after: Db,
    verifyFails: bool,
    later: Db,
    undeletable: set<nat>)

  /** Another process never names a credential it has not seen in the database, and the marker stays. */
  function Interfered(s: State, db: Db, mine: set<nat>): State {
    if References(db) * mine <= References(s.db) && (s.db.marker ==> db.marker)
    then s.(db := db, ever := s.ever + References(db)) else s
  }

  function Elements(refs: seq<nat>): set<nat> { set i | 0 <= i < |refs| :: refs[i] }

  predicate Distinct(refs: seq<nat>) { forall j, k :: 0 <= j < k < |refs| ==> refs[j] != refs[k] }

  /** `_delete_new_credentials` */
  function Deleted(s: State, refs: set<nat>, undeletable: set<nat>): State {
    s.(store := s.store - (refs - undeletable))
  }

  /** The rows of the import. */
  function Rows(ids: seq<nat>, refs: seq<nat>, n: nat): map<nat, Row>
    requires n <= |ids| && n <= |refs|
  {
    if n == 0 then map[] else Rows(ids, refs, n - 1)[ids[n - 1] := Row(refs[n - 1], true)]
  }

  /** The import's own rows that are in the database. */
  predicate OwnRow(db: Db, id: nat, ref: nat) { id in db.agents && db.agents[id] == Row(ref, true) }

  predicate AllOwn(db: Db, ids: seq<nat>, refs: seq<nat>)
    requires |ids| <= |refs|
  {
    forall i :: 0 <= i < |ids| ==> OwnRow(db, ids[i], refs[i])
  }

  // ---------------------------------------------------------------------------
  // The import as a function of the script.

  function Import(s: State, ids: seq<nat>, x: Script): (Result, State)
    requires |ids| <= |x.draws|
  {
    if s.db.marker then (NotNeeded, s)
    else if x.prepareFails then (Failed(false), MaybeMarked(s, x))
    else if s.db.agents != map[] then (NotNeeded, s.(db := s.db.(marker := true)))
    else if x.invalid then (Failed(false), s)
    else StoreCredentials(s, ids, x)
  }

  /** Where Agents are found, a commit of the marker that fails may have taken effect. */
  function MaybeMarked(s: State, x: Script): State {
    if s.db.agents != map[] && x.markerUnseen then s.(db := s.db.(marker := true)) else s
  }

  function StoreCredentials(s: State, ids: seq<nat>, x: Script): (Result, State)
    requires |ids| <= |x.draws|
  {
    if x.putFails.Some? && x.putFails.value.0 < |ids| then
      var k := x.putFails.value.0;
      var made := Elements(x.draws[..k]);
      var kept := if x.putFails.value.1 then {x.draws[k]} else {};
      (Failed(made * x.undeletable != {}), Deleted(s.(store := s.store + made + kept), made, x.undeletable))
    else
      var mine := Elements(x.draws[..|ids|]);
      Transact(Interfered(s.(store := s.store + mine), x.before, mine), ids, x)
  }

  /** The transaction took effect: all rows and the marker at once. */
  function Committed(s: State, ids: seq<nat>, x: Script): State
    requires |ids| <= |x.draws|
  {
    var db := Db(Rows(ids, x.draws, |ids|), s.db.journal, true);
    State(db, s.store, s.ever + References(db), true)
  }

  /** `_commit_import` */
  function Transact(s: State, ids: seq<nat>, x: Script): (Result, State)
    requires |ids| <= |x.draws|
  {
    var mine := Elements(x.draws[..|ids|]);
    if x.operationFails then
      var u := MaybeMarked(s, x);
      if x.rollbackFails then (Uncertain, u)
      else (Failed(mine * x.undeletable != {}), Deleted(u, mine, x.undeletable))
    else if s.db.marker || s.db.agents != map[] then
      var u := s.(db := s.db.(marker := true));
      if x.rollbackFails then (Uncertain, u) else Concurrent(Interfered(u, x.after, mine), ids, x)
    else
      match x.commit
      case Seen => (Imported, Committed(s, ids, x))
      case Unseen => Verify(Interfered(Committed(s, ids, x), x.after, mine), ids, x)
      case NotCommitted => Verify(Interfered(s, x.after, mine), ids, x)
  }

  /** The commit reported an error: the database decides what became of it. */
  function Verify(s: State, ids: seq<nat>, x: Script): (Result, State)
    requires |ids| <= |x.draws|
  {
    var mine := Elements(x.draws[..|ids|]);
    if x.verifyFails then (Uncertain, s)
    else if s.db.marker && AllOwn(s.db, ids, x.draws) then (Imported, s)
    else
      var orphans := mine - References(s.db);
      var t := Deleted(Interfered(s, x.later, mine), orphans, x.undeletable);
      if orphans * x.undeletable != {} then (Failed(true), t)
      else if s.db.marker then (NotNeeded, t)
      else if mine * References(s.db) != {} then (Uncertain, t)
      else (Failed(false), t)
  }

  /** Another process has imported, or registered Agents, in the meantime. */
  function Concurrent(s: State, ids: seq<nat>, x: Script): (Result, State)
    requires |ids| <= |x.draws|
  {
    var mine := Elements(x.draws[..|ids|]);
    if x.verifyFails then (Uncertain, s)
    else
      var orphans := mine - References(s.db);
      var t := Deleted(Interfered(s, x.later, mine), orphans, x.undeletable);
      (if orphans * x.undeletable != {} then Failed(true) else NotNeeded, t)
  }

  // ---------------------------------------------------------------------------
  // What every outcome keeps.

  /** The new references are fresh. */
  predicate Fresh(s: State, draws: seq<nat>) {
    var mine := Elements(draws);
    mine !! s.store && mine !! References(s.db) && mine !! s.ever && References(s.db) <= s.ever
  }

  /** Every new credential that the database names is in the store. */
  predicate Safe(s: State, mine: set<nat>) { mine * References(s.db) <= s.store && References(s.db) <= s.ever }

  /** Every new credential left in the store was named by the database. */
  predicate Clean(s: State, mine: set<nat>) { mine * s.store <= s.ever }

  predicate Clear(r: Result) { r != Uncertain && r != Failed(true) }

  lemma InterferenceIsSafe(s: State, db: Db, mine: set<nat>)
    requires Safe(s, mine)
    ensures var t := Interfered(s, db, mine);
            && Safe(t, mine) && mine * References(t.db) <= References(s.db)
            && t.store == s.store && s.ever <= t.ever && t.own == s.own && (s.db.marker ==> t.db.marker)
  {
  }

  /** Deleting what the database did not name, after whatever others did since. */
  lemma DeletingOrphans(s: State, db: Db, mine: set<nat>, undeletable: set<nat>)
    requires Safe(s, mine)
    ensures var orphans := mine - References(s.db);
            var t := Deleted(Interfered(s, db, mine), orphans, undeletable);
            && Safe(t, mine) && t.store - mine == s.store - mine && t.own == s.own
            && (orphans * undeletable == {} ==> Clean(t, mine))
  {
    InterferenceIsSafe(s, db, mine);
    var orphans := mine - References(s.db);
    var t := Deleted(Interfered(s, db, mine), orphans, undeletable);
    forall m | m in mine && m in t.store ensures m in orphans * undeletable || m in t.ever {
    }
  }

  lemma VerifyIsSafe(s: State, ids: seq<nat>, x: Script)
    requires |ids| <= |x.draws| && Safe(s, Elements(x.draws[..|ids|]))
    ensures var mine, r, t := Elements(x.draws[..|ids|]), Verify(s, ids, x).0, Verify(s, ids, x).1;
            && Safe(t, mine) && t.store - mine == s.store - mine && t.own == s.own
            && (Clear(r) ==> Clean(t, mine))
            && (r == Imported ==> ids == [] || mine * References(s.db) != {})
  {
    var mine := Elements(x.draws[..|ids|]);
    DeletingOrphans(s, x.later, mine, x.undeletable);
    if s.db.marker && AllOwn(s.db, ids, x.draws) {
      forall m | m in mine ensures m in References(s.db) {
        var i :| 0 <= i < |ids| && x.draws[..|ids|][i] == m;
        assert OwnRow(s.db, ids[i], x.draws[i]);
      }
      if ids != [] {
        assert x.draws[..|ids|][0] in mine * References(s.db);
      }
    }
  }

  lemma ConcurrentIsSafe(s: State, ids: seq<nat>, x: Script)
    requires |ids| <= |x.draws| && Safe(s, Elements(x.draws[..|ids|]))
    ensures var mine, r, t := Elements(x.draws[..|ids|]), Concurrent(s, ids, x).0, Concurrent(s, ids, x).1;
            && Safe(t, mine) && t.store - mine == s.store - mine && t.own == s.own && (Clear(r) ==> Clean(t, mine)) && r != Imported
  {
    DeletingOrphans(s, x.later, Elements(x.draws[..|ids|]), x.undeletable);
  }

  lemma {:induction false} RowsNameTheirs(ids: seq<nat>, refs: seq<nat>, n: nat)
    requires n <= |ids| && n <= |refs|
    ensures forall id :: id in Rows(ids, refs, n) ==> Rows(ids, refs, n)[id].ref in Elements(refs[..n])
  {
    if n > 0 {
      RowsNameTheirs(ids, refs, n - 1);
      assert refs[..n] == refs[..n - 1] + [refs[n - 1]];
      assert refs[..n][n - 1] in Elements(refs[..n]);
      assert forall i :: 0 <= i < n - 1 ==> refs[..n - 1][i] == refs[..n][i];
      assert Elements(refs[..n - 1]) <= Elements(refs[..n]);
    }
  }

  /** Different Agents keep different rows. */
  lemma {:induction false} RowsHaveAll(ids: seq<nat>, refs: seq<nat>, n: nat, i: nat)
    requires n <= |ids| && n <= |refs| && i < n
    requires Distinct(ids)
    ensures ids[i] in Rows(ids, refs, n) && Rows(ids, refs, n)[ids[i]] == Row(refs[i], true)
  {
    if i < n - 1 {
      RowsHaveAll(ids, refs, n - 1, i);
    }
  }

  /** A transaction that took effect has stored all credentials it names. */
  lemma OwnCommit(s: State, ids: seq<nat>, x: Script)
    requires |ids| <= |x.draws| && References(s.db) <= s.ever
    requires Distinct(ids)
    requires var mine := Elements(x.draws[..|ids|]); mine <= s.store && mine !! References(s.db)
    ensures var db := Db(Rows(ids, x.draws, |ids|), s.db.journal, true);
            var mine := Elements(x.draws[..|ids|]);
            && mine <= References(db) && References(db) <= References(s.db) + mine
            && AllOwn(db, ids, x.draws)
  {
    var db := Db(Rows(ids, x.draws, |ids|), s.db.journal, true);
    RowsNameTheirs(ids, x.draws, |ids|);
    forall i | 0 <= i < |ids| ensures OwnRow(db, ids[i], x.draws[i]) {
      RowsHaveAll(ids, x.draws, |ids|, i);
    }
    forall m | m in Elements(x.draws[..|ids|]) ensures m in References(db) {
      var i :| 0 <= i < |ids| && x.draws[..|ids|][i] == m;
      assert OwnRow(db, ids[i], x.draws[i]);
    }
  }

  /** What the transaction and the handlers around it leave. */
  predicate Fine(s: State, ids: seq<nat>, x: Script, r: Result, t: State)
    requires |ids| <= |x.draws|
  {
    var mine := Elements(x.draws[..|ids|]);
    && Safe(t, mine) && t.store - mine == s.store - mine && (Clear(r) ==> Clean(t, mine))
    && (r == Imported ==> ids == [] || t.own)
  }

  lemma LateIsFine(s: State, ids: seq<nat>, x: Script)
    requires |ids| <= |x.draws| && References(s.db) <= s.ever
    requires var mine := Elements(x.draws[..|ids|]); mine <= s.store && mine !! References(s.db)
    ensures var u := Interfered(s.(db := s.db.(marker := true)), x.after, Elements(x.draws[..|ids|]));
            Fine(s, ids, x, Concurrent(u, ids, x).0, Concurrent(u, ids, x).1)
  {
    var mine := Elements(x.draws[..|ids|]);
    var u := s.(db := s.db.(marker := true));
    assert References(u.db) == References(s.db);
    InterferenceIsSafe(u, x.after, mine);
    ConcurrentIsSafe(Interfered(u, x.after, mine), ids, x);
  }

  lemma UncommittedIsFine(s: State, ids: seq<nat>, x: Script)
    requires |ids| <= |x.draws| && References(s.db) <= s.ever
    requires var mine := Elements(x.draws[..|ids|]); mine <= s.store && mine !! References(s.db)
    ensures var u := Interfered(s, x.after, Elements(x.draws[..|ids|]));
            Fine(s, ids, x, Verify(u, ids, x).0, Verify(u, ids, x).1)
  {
    var mine := Elements(x.draws[..|ids|]);
    InterferenceIsSafe(s, x.after, mine);
    VerifyIsSafe(Interfered(s, x.after, mine), ids, x);
  }

  lemma CommittedIsFine(s: State, ids: seq<nat>, x: Script)
    requires |ids| <= |x.draws| && References(s.db) <= s.ever && Distinct(ids)
    requires var mine := Elements(x.draws[..|ids|]); mine <= s.store && mine !! References(s.db)
    ensures Fine(s, ids, x, Imported, Committed(s, ids, x))
    ensures var u := Interfered(Committed(s, ids, x), x.after, Elements(x.draws[..|ids|]));
            Fine(s, ids, x, Verify(u, ids, x).0, Verify(u, ids, x).1)
  {
    var mine := Elements(x.draws[..|ids|]);
    OwnCommit(s, ids, x);
    InterferenceIsSafe(Committed(s, ids, x), x.after, mine);
    VerifyIsSafe(Interfered(Committed(s, ids, x), x.after, mine), ids, x);
  }

  lemma AbortedIsFine(s: State, ids: seq<nat>, x: Script)
    requires |ids| <= |x.draws| && References(s.db) <= s.ever
    requires var mine := Elements(x.draws[..|ids|]); mine <= s.store && mine !! References(s.db)
    ensures var mine := Elements(x.draws[..|ids|]);
            && Fine(s, ids, x, Uncertain, MaybeMarked(s, x)) && Fine(s, ids, x, Uncertain, s.(db := s.db.(marker := true)))
            && Fine(s, ids, x, Failed(mine * x.undeletable != {}), Deleted(MaybeMarked(s, x), mine, x.undeletable))
  {
    var mine := Elements(x.draws[..|ids|]);
    assert References(s.db.(marker := true)) == References(s.db);
    forall m | m in mine && m in Deleted(MaybeMarked(s, x), mine, x.undeletable).store ensures m in mine * x.undeletable {
    }
  }

  lemma TransactIsSafe(s: State, ids: seq<nat>, x: Script)
    requires |ids| <= |x.draws| && References(s.db) <= s.ever && Distinct(ids)
    requires var mine := Elements(x.draws[..|ids|]); mine <= s.store && mine !! References(s.db)
    ensures Fine(s, ids, x, Transact(s, ids, x).0, Transact(s, ids, x).1)
  {
    if x.operationFails {
      AbortedIsFine(s, ids, x);
    } else if s.db.marker || s.db.agents != map[] {
      AbortedIsFine(s, ids, x);
      LateIsFine(s, ids, x);
    } else if x.commit == NotCommitted {
      UncommittedIsFine(s, ids, x);
    } else {
      CommittedIsFine(s, ids, x);
    }
  }

  /** The put that leaves its credential behind although it fails. */
  predicate Leaks(ids: seq<nat>, x: Script) {
    x.putFails.Some? && x.putFails.value.0 < |ids| && x.putFails.value.1
  }

  lemma PrefixElements(draws: seq<nat>, n: nat)
    requires n <= |draws|
    ensures Elements(draws[..n]) <= Elements(draws)
  {
    forall m | m in Elements(draws[..n]) ensures m in Elements(draws) {
      var i :| 0 <= i < n && draws[..n][i] == m;
      assert draws[i] == m;
    }
  }

  /** The credentials the call was to make. */
  function Mine(ids: seq<nat>, x: Script): set<nat>
    requires |ids| <= |x.draws|
  {
    Elements(x.draws[..|ids|])
  }

  lemma FailedPutIsSafe(s: State, ids: seq<nat>, x: Script)
    requires |ids| <= |x.draws| && Fresh(s, x.draws) && x.putFails.Some? && x.putFails.value.0 < |ids|
    requires Distinct(x.draws)
    ensures var mine, r, t := Mine(ids, x), StoreCredentials(s, ids, x).0, StoreCredentials(s, ids, x).1;
            && Safe(t, mine) && t.store - mine == s.store && r.Failed? && t.ever == s.ever
            && (Clear(r) ==> mine * t.store == if Leaks(ids, x) then {x.draws[x.putFails.value.0]} else {})
  {
    var k := x.putFails.value.0;
    PrefixElements(x.draws, |ids|);
    PrefixElements(x.draws[..|ids|], k);
    assert x.draws[..|ids|][..k] == x.draws[..k];
    assert x.draws[..|ids|][k] in Mine(ids, x);
    assert x.draws[k] !in Elements(x.draws[..k]) by {
      assert forall i :: 0 <= i < k ==> x.draws[..k][i] == x.draws[i];
    }
  }

  lemma StoreIsSafe(s: State, ids: seq<nat>, x: Script)
    requires |ids| <= |x.draws| && Fresh(s, x.draws) && !s.own
    requires Distinct(ids) && Distinct(x.draws)
    ensures var mine, r, t := Mine(ids, x), StoreCredentials(s, ids, x).0, StoreCredentials(s, ids, x).1;
            && Safe(t, mine) && t.store - mine == s.store
            && (Clear(r) ==> (Clean(t, mine) <==> !Leaks(ids, x)))
            && (r == Imported ==> ids == [] || t.own)
  {
    var mine := Mine(ids, x);
    PrefixElements(x.draws, |ids|);
    if x.putFails.Some? && x.putFails.value.0 < |ids| {
      FailedPutIsSafe(s, ids, x);
      assert x.draws[..|ids|][x.putFails.value.0] in mine;
    } else {
      var u := s.(store := s.store + mine);
      assert Safe(u, mine);
      InterferenceIsSafe(u, x.before, mine);
      TransactIsSafe(Interfered(u, x.before, mine), ids, x);
    }
  }

  /**
   * Wherever the import fails or races, no credential named by the registry or the
   * enrollment journal is deleted and no other credential is touched.
   */
  lemma NoReferencedCredentialDeleted(s: State, ids: seq<nat>, x: Script)
    requires |ids| <= |x.draws| && Fresh(s, x.draws) && !s.own
    requires Distinct(ids) && Distinct(x.draws)
    ensures var t := Import(s, ids, x).1;
            && t.store - Mine(ids, x) == s.store
            && forall r :: r in References(t.db) && (r in s.store || r in Mine(ids, x)) ==> r in t.store
  {
    PrefixElements(x.draws, |ids|);
    StoreIsSafe(s, ids, x);
  }

  /**
   * Unless the outcome is reported as uncertain or a cleanup as failed, every new
   * credential that is left was named by the database, except exactly when a put
   * failed after it had stored its credential.
   */
  lemma UnreferencedCredentialsAreGone(s: State, ids: seq<nat>, x: Script)
    requires |ids| <= |x.draws| && Fresh(s, x.draws) && !s.own
    requires Distinct(ids) && Distinct(x.draws)
    requires Clear(Import(s, ids, x).0)
    ensures var t := Import(s, ids, x).1;
            Mine(ids, x) * t.store <= t.ever <==> !(Stores(s, x) && Leaks(ids, x))
  {
    PrefixElements(x.draws, |ids|);
    StoreIsSafe(s, ids, x);
  }

  /** The import gets as far as storing credentials. */
  predicate Stores(s: State, x: Script) { !s.db.marker && !x.prepareFails && s.db.agents == map[] && !x.invalid }

  /** True means that the call's rows and marker were committed in one transaction, when there were rows at all. */
  lemma ImportedMeansCommitted(s: State, ids: seq<nat>, x: Script)
    requires |ids| <= |x.draws| && Fresh(s, x.draws) && !s.own
    requires Distinct(ids) && Distinct(x.draws)
    requires Import(s, ids, x).0 == Imported
    ensures ids == [] || Import(s, ids, x).1.own
  {
    StoreIsSafe(s, ids, x);
  }

  /**
   * With an empty inventory a failed commit is reported as done when another
   * process has set the marker, whatever else it registered.
   */
  lemma EmptyImportMisreports()
    ensures var empty := Db(map[], {}, false);
            var theirs := Db(map[1 := Row(7, false)], {}, true);
            var x := Script(false, false, [], None, empty, false, false, false, NotCommitted, theirs, false, theirs, {});
            var outcome := Import(State(empty, {7}, {}, false), [], x);
            outcome.0 == Imported && !outcome.1.own
  {
    var empty := Db(map[], {}, false);
    assert References(empty) == {};
    assert Elements([]) == {};
  }

  /** True is reported although the call's transaction has not taken effect. */
  predicate Misreports(s: State, ids: seq<nat>, x: Script) {
    && |ids| <= |x.draws| && Fresh(s, x.draws) && !s.own && Distinct(x.draws)
    && Import(s, ids, x).0 == Imported && !Import(s, ids, x).1.own
  }

  /** Whatever fails and whatever others do, True can be trusted exactly for inventories that are not empty. */
  lemma TrueMeansCommittedUnlessEmpty(ids: seq<nat>)
    requires Distinct(ids)
    ensures (forall s, x :: !Misreports(s, ids, x)) <==> ids != []
  {
    if ids == [] {
      EmptyImportMisreports();
      var empty, theirs := Db(map[], {}, false), Db(map[1 := Row(7, false)], {}, true);
      var x := Script(false, false, [], None, empty, false, false, false, NotCommitted, theirs, false, theirs, {});
      assert References(empty) == {} && Elements([]) == {};
      assert Misreports(State(empty, {7}, {}, false), ids, x);
    } else {
      forall s, x ensures !Misreports(s, ids, x) {
        if Misreports(s, ids, x) {
          ImportedMeansCommitted(s, ids, x);
        }
      }
    }
  }

  // ---------------------------------------------------------------------------
  // The import as it runs.

  class Manager {
    var db: Db
    var store: set<nat>
    ghost var ever: set<nat>
    ghost var own: bool

    ghost function Now(): State
      reads this
    {
      State(db, store, ever, own)
    }

    /** What another process commits. */
    method Interfere(change: Db, mine: set<nat>)
      modifies this`db, this`ever
      ensures Now() == Interfered(old(Now()), change, mine)
    {
      if References(change) * mine <= References(db) && (db.marker ==> change.marker) {
        db, ever := change, ever + References(change);
      }
    }

    method MarkUnseen(x: Script)
      modifies this`db
      ensures Now() == MaybeMarked(old(Now()), x)
    {
      if db.agents != map[] && x.markerUnseen {
        db := db.(marker := true);
      }
    }

    /** Every deletion is tried, whatever became of the others. */
    method DeleteAll(refs: set<nat>, undeletable: set<nat>) returns (failed: bool)
      requires refs <= store
      modifies this`store
      ensures Now() == Deleted(old(Now()), refs, undeletable)
      ensures failed <==> refs * undeletable != {}
    {
      failed := false;
      var todo := refs;
      while todo != {}
        invariant todo <= refs && todo <= store
        invariant store == old(store) - (refs - todo - undeletable)
        invariant failed <==> (refs - todo) * undeletable != {}
        decreases |todo|
      {
        var ref :| ref in todo;
        if ref in undeletable {
          assert ref in (refs - (todo - {ref})) * undeletable;
          failed := true;
        } else {
          store := store - {ref};
        }
        todo := todo - {ref};
      }
    }

    /** The puts, up to the one that fails. */
    method StoreAll(ids: seq<nat>, x: Script) returns (made: seq<nat>)
      requires |ids| <= |x.draws|
      modifies this`store
      ensures var k := if x.putFails.Some? && x.putFails.value.0 < |ids| then x.putFails.value.0 else |ids|;
              && made == x.draws[..k]
              && store == old(store) + Elements(x.draws[..k]) + (if Leaks(ids, x) then {x.draws[k]} else {})
    {
      made := [];
      for i := 0 to |ids|
        invariant made == x.draws[..i] && store == old(store) + Elements(made)
        invariant x.putFails.Some? && x.putFails.value.0 < |ids| ==> i <= x.putFails.value.0
      {
        if x.putFails.Some? && x.putFails.value.0 == i {
          if x.putFails.value.1 {
            store := store + {x.draws[i]};
          }
          return;
        }
        ElementsGrow(made, x.draws[i]);
        store, made := store + {x.draws[i]}, made + [x.draws[i]];
      }
    }

    /** The loop of `_verify_committed_import` over the import's own rows. */
    method OwnReferences(ids: seq<nat>, refs: seq<nat>) returns (found: set<nat>)
      requires |ids| == |refs| && Distinct(refs)
      ensures found == Elements(refs) <==> AllOwn(db, ids, refs)
    {
      found := {};
      for i := 0 to |ids|
        invariant found == set k | 0 <= k < i && OwnRow(db, ids[k], refs[k]) :: refs[k]
      {
        if OwnRow(db, ids[i], refs[i]) {
          found := found + {refs[i]};
        }
      }
      if found == Elements(refs) {
        forall i | 0 <= i < |ids| ensures OwnRow(db, ids[i], refs[i]) {
          assert refs[i] in found;
        }
      }
    }

    /** `import_yaml_agents_once` */
    method ImportOnce(ids: seq<nat>, x: Script) returns (r: Result)
      requires |ids| <= |x.draws| && Distinct(x.draws)
      modifies this
      ensures (r, Now()) == Import(old(Now()), ids, x)
    {
      if db.marker {
        return NotNeeded;
      }
      if x.prepareFails {
        MarkUnseen(x);
        return Failed(false);
      }
      if db.agents != map[] {
        db := db.(marker := true);
        return NotNeeded;
      }
      if x.invalid {
        return Failed(false);
      }
      var made := StoreAll(ids, x);
      if |made| < |ids| {
        var failed := DeleteAll(Elements(made), x.undeletable);
        return Failed(failed);
      }
      var mine := Elements(made);
      assert store == old(store) + mine;
      Interfere(x.before, mine);
      r := CommitImport(ids, x, made);
    }

    /** `_commit_import` and the handlers around it. */
    method CommitImport(ids: seq<nat>, x: Script, refs: seq<nat>) returns (r: Result)
      requires |ids| <= |x.draws| && refs == x.draws[..|ids|] && Elements(refs) <= store && Distinct(refs)
      modifies this
      ensures (r, Now()) == Transact(old(Now()), ids, x)
    {
      var mine := Elements(refs);
      if x.operationFails {
        MarkUnseen(x);
        if x.rollbackFails {
          return Uncertain;
        }
        var failed := DeleteAll(mine, x.undeletable);
        return Failed(failed);
      }
      if db.marker || db.agents != map[] {
        db := db.(marker := true);
        if x.rollbackFails {
          return Uncertain;
        }
        Interfere(x.after, mine);
        if x.verifyFails {
          return Uncertain;
        }
        var failed := DeleteOrphans(mine, x);
        return if failed then Failed(true) else NotNeeded;
      }
      if x.commit != NotCommitted {
        db := Db(Rows(ids, x.draws, |ids|), db.journal, true);
        ever, own := ever + References(db), true;
      }
      if x.commit == Seen {
        return Imported;
      }
      Interfere(x.after, mine);
      r := VerifyCommit(ids, x, refs);
    }

    /** Deletes the new credentials that the database does not name. */
    method DeleteOrphans(mine: set<nat>, x: Script) returns (failed: bool)
      requires mine <= store
      modifies this
      ensures Now() == Deleted(Interfered(old(Now()), x.later, mine), mine - References(old(db)), x.undeletable)
      ensures failed <==> (mine - References(old(db))) * x.undeletable != {}
    {
      var orphans := mine - References(db);
      Interfere(x.later, mine);
      failed := DeleteAll(orphans, x.undeletable);
    }

    method VerifyCommit(ids: seq<nat>, x: Script, refs: seq<nat>) returns (r: Result)
      requires |ids| <= |x.draws| && refs == x.draws[..|ids|] && Elements(refs) <= store && Distinct(refs)
      modifies this
      ensures (r, Now()) == Verify(old(Now()), ids, x)
    {
      var mine := Elements(refs);
      if x.verifyFails {
        return Uncertain;
      }
      var found := OwnReferences(ids, refs);
      assert AllOwn(db, ids, refs) <==> AllOwn(db, ids, x.draws);
      if db.marker && found == mine {
        return Imported;
      }
      var marker, referenced := db.marker, mine * References(db);
      var failed := DeleteOrphans(mine, x);
      if failed {
        return Failed(true);
      }
      if marker {
        return NotNeeded;
      }
      return if referenced != {} then Uncertain else Failed(false);
    }
  }

  lemma ElementsGrow(refs: seq<nat>, ref: nat)
    ensures Elements(refs + [ref]) == Elements(refs) + {ref}
  {
    assert (refs + [ref])[|refs|] == ref;
    forall m | m in Elements(refs) ensures m in Elements(refs + [ref]) {
      var i :| 0 <= i < |refs| && refs[i] == m;
      assert (refs + [ref])[i] == m;
    }
  }
}
