/**
 * The login rate limiter (backend/ic_env_guard/auth/rate_limit.py): one token
 * bucket per source address, in a table of bounded size that forgets the least
 * recently used source.  Times and token counts are real numbers.
 */
module LoginRateLimit {
  import opened Wrappers

  datatype Settings = Settings(capacity: int, refillSeconds: real, maxSources: int) {
    predicate Positive() {
      capacity >= 1 && refillSeconds > 0.0 && maxSources >= 1
    }
  }

  /** A caller, by its network address. */
  datatype Source = Source(address: string)

  datatype Bucket = Bucket(tokens: real, updatedAt: real)

  /** The ordered dictionary: `order` lists its keys, the least recently used first. */
  datatype Table = Table(order: seq<Source>, buckets: map<Source, Bucket>)

  function Min(a: real, b: real): real { if a <= b then a else b }

  function Without(xs: seq<Source>, x: Source): (ys: seq<Source>)
    ensures forall y :: y in ys <==> y in xs && y != x
    ensures |ys| <= |xs|
    ensures x in xs ==> |ys| < |xs|
  {
    if xs == [] then []
    else if xs[0] == x then Without(xs[1..], x)
    else [xs[0]] + Without(xs[1..], x)
  }

  /** The bucket as it stands when `source` calls, before a token is taken. */
  function Refilled(cfg: Settings, t: Table, source: Source, now: real): Bucket
    requires cfg.Positive()
  {
    if source !in t.buckets then Bucket(cfg.capacity as real, now)
    else
      var b := t.buckets[source];
      var elapsed := if now > b.updatedAt then now - b.updatedAt else 0.0;
      Bucket(Min(cfg.capacity as real, b.tokens + elapsed / cfg.refillSeconds), now)
  }

  /** The table without its least recently used source, if a new source finds it full. */
  function WithRoom(cfg: Settings, t: Table, source: Source): Table {
    if source !in t.buckets && |t.order| >= cfg.maxSources && t.order != [] then
      Table(t.order[1..], t.buckets - {t.order[0]})
    else t
  }

  /** The table with `source` at its end. */
  function MovedToEnd(t: Table, source: Source, b: Bucket): Table {
    Table(Without(t.order, source) + [source], t.buckets[source := b])
  }

  function Spent(b: Bucket): Bucket {
    if b.tokens >= 1.0 then b.(tokens := b.tokens - 1.0) else b
  }

  /** One call: the new table and whether the caller is admitted. */
  function Visit(cfg: Settings, t: Table, source: Source, now: real): (Table, bool)
    requires cfg.Positive()
  {
    var b := Refilled(cfg, t, source, now);
    (MovedToEnd(WithRoom(cfg, t, source), source, Spent(b)), b.tokens >= 1.0)
  }

  class LoginRateLimiter {
    const cfg: Settings
    var order: seq<Source>
    var buckets: map<Source, Bucket>

    ghost predicate Valid()
      reads this
    {
      cfg.Positive() && Coherent(cfg, Contents())
    }

    ghost function Contents(): Table
      reads this
    {
      Table(order, buckets)
    }

    constructor (settings: Settings)
      requires settings.Positive()
      ensures Valid() && cfg == settings && Contents() == Table([], map[])
    {
      cfg := settings;
      order, buckets := [], map[];
    }

    /** `allow`: the caller's bucket is refilled, moved to the end and, if it can, pays a token. */
    method Allow(source: Source, now: real) returns (admitted: bool)
      requires Valid()
      modifies this
      ensures Valid()
      ensures (Contents(), admitted) == Visit(cfg, old(Contents()), source, now)
    {
      ghost var before := Contents();
      VisitCoherent(cfg, before, source, now);
      var bucket: Bucket;
      if source !in buckets {
        NewcomerLast(cfg, before, source);
        if |order| >= cfg.maxSources {
          buckets := buckets - {order[0]};
          order := order[1..];
        }
        bucket := Bucket(cfg.capacity as real, now);
        order := order + [source];
      } else {
        bucket := buckets[source];
        var elapsed := if now > bucket.updatedAt then now - bucket.updatedAt else 0.0;
        bucket := Bucket(Min(cfg.capacity as real, bucket.tokens + elapsed / cfg.refillSeconds), now);
        order := Without(order, source) + [source];
      }
      assert bucket == Refilled(cfg, before, source, now);
      admitted := bucket.tokens >= 1.0;
      if admitted {
        bucket := bucket.(tokens := bucket.tokens - 1.0);
      }
      buckets := buckets[source := bucket];
      assert Contents() == MovedToEnd(WithRoom(cfg, before, source), source, bucket);
    }
  }

  /** A new source comes last in the table that has room for it. */
  lemma NewcomerLast(cfg: Settings, t: Table, source: Source)
    requires cfg.Positive() && Coherent(cfg, t) && source !in t.buckets
    ensures Without(WithRoom(cfg, t, source).order, source) == WithRoom(cfg, t, source).order
    ensures |t.order| >= cfg.maxSources ==> t.order != []
  {
    assert source !in t.order;
    assert forall s :: s in WithRoom(cfg, t, source).order ==> s in t.order;
    WithoutAbsent(WithRoom(cfg, t, source).order, source);
  }

  /** The constructor's check: settings that are not all positive are refused. */
  method Create(settings: Settings) returns (limiter: Option<LoginRateLimiter>)
    ensures limiter.Some? <==> settings.Positive()
    ensures limiter.Some? ==> limiter.value.Valid() && limiter.value.cfg == settings
  {
    if !settings.Positive() { return None; }
    var l := new LoginRateLimiter(settings);
    limiter := Some(l);
  }

  ghost predicate Distinct(xs: seq<Source>) {
    forall i, j :: 0 <= i < j < |xs| ==> xs[i] != xs[j]
  }

  /** The list of keys and the dictionary agree, and the table is not too large. */
  ghost predicate Coherent(cfg: Settings, t: Table) {
    && Distinct(t.order)
    && (forall s :: s in t.order <==> s in t.buckets)
    && |t.order| <= cfg.maxSources
  }

  lemma {:induction false} WithoutDistinct(xs: seq<Source>, x: Source)
    requires Distinct(xs)
    ensures Distinct(Without(xs, x))
  {
    if xs != [] {
      WithoutDistinct(xs[1..], x);
      var rest := Without(xs[1..], x);
      assert xs[0] !in xs[1..];
      assert forall i :: 0 <= i < |rest| ==> rest[i] in xs[1..];
    }
  }

  lemma {:induction false} WithoutAbsent(xs: seq<Source>, x: Source)
    ensures x !in xs ==> Without(xs, x) == xs
  {
    if xs != [] && x !in xs {
      WithoutAbsent(xs[1..], x);
      assert xs == [xs[0]] + xs[1..];
    }
  }

  lemma WithRoomCoherent(cfg: Settings, t: Table, source: Source)
    requires cfg.Positive() && Coherent(cfg, t)
    ensures Coherent(cfg, WithRoom(cfg, t, source))
    ensures source !in t.buckets ==> |WithRoom(cfg, t, source).order| < cfg.maxSources
  {
    var u := WithRoom(cfg, t, source);
    if u != t {
      assert t.order == [t.order[0]] + u.order;
      assert t.order[0] !in u.order;
    }
  }

  /** The table never exceeds `max_sources`, and its two parts never disagree. */
  lemma VisitCoherent(cfg: Settings, t: Table, source: Source, now: real)
    requires cfg.Positive() && Coherent(cfg, t)
    ensures Coherent(cfg, Visit(cfg, t, source, now).0)
  {
    WithRoomCoherent(cfg, t, source);
    var u := WithRoom(cfg, t, source);
    WithoutDistinct(u.order, source);
    assert source !in Without(u.order, source);
  }

  // ---------------------------------------------------------------------------
  // Runs: any sequence of calls.

  datatype Call = Call(source: Source, at: real)

  /** The table after the first `k` calls. */
  function TableAfter(cfg: Settings, calls: seq<Call>, k: nat): Table
    requires cfg.Positive() && k <= |calls|
  {
    if k == 0 then Table([], map[])
    else Visit(cfg, TableAfter(cfg, calls, k - 1), calls[k - 1].source, calls[k - 1].at).0
  }

  predicate Admitted(cfg: Settings, calls: seq<Call>, k: nat)
    requires cfg.Positive() && k < |calls|
  {
    Visit(cfg, TableAfter(cfg, calls, k), calls[k].source, calls[k].at).1
  }

  /** How many calls of `source` among calls `i` to `j - 1` were admitted. */
  function Admissions(cfg: Settings, calls: seq<Call>, source: Source, i: nat, j: nat): nat
    requires cfg.Positive() && i <= j <= |calls|
  {
    if i == j then 0
    else
      Admissions(cfg, calls, source, i, j - 1) +
      (if calls[j - 1].source == source && Admitted(cfg, calls, j - 1) then 1 else 0)
  }

  ghost predicate ClockNeverGoesBack(calls: seq<Call>) {
    forall i, j :: 0 <= i <= j < |calls| ==> calls[i].at <= calls[j].at
  }

  /** For each source, the index of the last call it made among the first `k`. */
  function LastCalls(calls: seq<Call>, k: nat): map<Source, nat>
    requires k <= |calls|
  {
    if k == 0 then map[] else LastCalls(calls, k - 1)[calls[k - 1].source := k - 1]
  }

  lemma {:induction false} LastCallIsLast(calls: seq<Call>, k: nat, source: Source)
    requires k <= |calls|
    ensures source in LastCalls(calls, k) ==>
              && LastCalls(calls, k)[source] < k
              && calls[LastCalls(calls, k)[source]].source == source
              && forall i :: LastCalls(calls, k)[source] < i < k ==> calls[i].source != source
    ensures source !in LastCalls(calls, k) ==> forall i :: 0 <= i < k ==> calls[i].source != source
  {
    if k > 0 { LastCallIsLast(calls, k - 1, source); }
  }

  /** The sources of a table are listed in the order of their last calls. */
  ghost predicate ByLastCall(last: map<Source, nat>, order: seq<Source>) {
    && (forall i :: 0 <= i < |order| ==> order[i] in last)
    && (forall i, j :: 0 <= i < j < |order| ==> last[order[i]] < last[order[j]])
  }

  /** The bucket was last touched by call `m` and holds between 0 and `capacity` tokens. */
  ghost predicate SoundBucket(cfg: Settings, calls: seq<Call>, b: Bucket, m: nat) {
    0.0 <= b.tokens <= cfg.capacity as real && m < |calls| && b.updatedAt == calls[m].at
  }

  ghost predicate SoundBuckets(cfg: Settings, calls: seq<Call>, last: map<Source, nat>, t: Table) {
    forall s :: s in t.buckets ==> s in last && SoundBucket(cfg, calls, t.buckets[s], last[s])
  }

  lemma {:induction false} WithoutByLastCall(last: map<Source, nat>, xs: seq<Source>, x: Source)
    requires ByLastCall(last, xs)
    ensures ByLastCall(last, Without(xs, x))
  {
    if xs != [] {
      assert forall i :: 0 <= i < |xs| - 1 ==> xs[1..][i] == xs[i + 1];
      WithoutByLastCall(last, xs[1..], x);
      var rest := Without(xs[1..], x);
      assert forall i :: 0 <= i < |rest| ==> rest[i] in xs[1..];
    }
  }

  /** Appending the caller keeps the list in the order of last calls. */
  lemma CallerIsLast(last: map<Source, nat>, xs: seq<Source>, x: Source, k: nat)
    requires ByLastCall(last, xs) && x !in xs && forall s :: s in last ==> last[s] < k
    ensures ByLastCall(last[x := k], xs + [x])
  {
    var l, ys := last[x := k], xs + [x];
    assert forall i :: 0 <= i < |xs| ==> ys[i] == xs[i] && xs[i] != x;
  }

  lemma QuotientPositive(x: real, r: real)
    requires x >= 0.0 && r > 0.0
    ensures x / r >= 0.0
  {
  }

  lemma SpentIsSound(cfg: Settings, calls: seq<Call>, k: nat, t: Table)
    requires cfg.Positive() && k < |calls|
    requires calls[k].source in t.buckets ==> 0.0 <= t.buckets[calls[k].source].tokens
    ensures SoundBucket(cfg, calls, Spent(Refilled(cfg, t, calls[k].source, calls[k].at)), k)
  {
    var source, now := calls[k].source, calls[k].at;
    if source in t.buckets && now > t.buckets[source].updatedAt {
      QuotientPositive(now - t.buckets[source].updatedAt, cfg.refillSeconds);
    }
  }

  /** A visit touches the caller's bucket and, at most, drops another. */
  lemma OthersKeepTheirs(cfg: Settings, t: Table, source: Source, now: real)
    requires cfg.Positive()
    ensures var u := Visit(cfg, t, source, now).0;
            && source in u.buckets && u.buckets[source] == Spent(Refilled(cfg, t, source, now))
            && forall s :: s in u.buckets && s != source ==> s in t.buckets && u.buckets[s] == t.buckets[s]
  {
  }

  lemma VisitSound(cfg: Settings, calls: seq<Call>, k: nat, last: map<Source, nat>, t: Table)
    requires cfg.Positive() && k < |calls| && SoundBuckets(cfg, calls, last, t)
    ensures SoundBuckets(cfg, calls, last[calls[k].source := k], Visit(cfg, t, calls[k].source, calls[k].at).0)
  {
    SpentIsSound(cfg, calls, k, t);
    OthersKeepTheirs(cfg, t, calls[k].source, calls[k].at);
  }

  lemma VisitOrdered(cfg: Settings, t: Table, source: Source, now: real, last: map<Source, nat>, k: nat)
    requires cfg.Positive() && ByLastCall(last, t.order) && forall s :: s in last ==> last[s] < k
    ensures ByLastCall(last[source := k], Visit(cfg, t, source, now).0.order)
  {
    var u := WithRoom(cfg, t, source);
    assert ByLastCall(last, u.order);
    WithoutByLastCall(last, u.order, source);
    CallerIsLast(last, Without(u.order, source), source, k);
  }

  /** What holds of a table after the first `k` calls. */
  ghost predicate SoundTable(cfg: Settings, calls: seq<Call>, k: nat, t: Table)
    requires k <= |calls|
  {
    && Coherent(cfg, t) && ByLastCall(LastCalls(calls, k), t.order) && SoundBuckets(cfg, calls, LastCalls(calls, k), t)
  }

  lemma SoundStep(cfg: Settings, calls: seq<Call>, k: nat, t: Table)
    requires cfg.Positive() && 0 < k <= |calls| && SoundTable(cfg, calls, k - 1, t)
    ensures SoundTable(cfg, calls, k, Visit(cfg, t, calls[k - 1].source, calls[k - 1].at).0)
  {
    var source, now, last := calls[k - 1].source, calls[k - 1].at, LastCalls(calls, k - 1);
    VisitCoherent(cfg, t, source, now);
    VisitSound(cfg, calls, k - 1, last, t);
    forall s | s in last ensures last[s] < k - 1 {
      LastCallIsLast(calls, k - 1, s);
    }
    VisitOrdered(cfg, t, source, now, last, k - 1);
  }

  /** What holds after any number of calls. */
  lemma {:induction false} RunInvariant(cfg: Settings, calls: seq<Call>, k: nat)
    requires cfg.Positive() && k <= |calls|
    ensures SoundTable(cfg, calls, k, TableAfter(cfg, calls, k))
    decreases k
  {
    if k > 0 {
      RunInvariant(cfg, calls, k - 1);
      SoundStep(cfg, calls, k, TableAfter(cfg, calls, k - 1));
    }
  }

  // ---------------------------------------------------------------------------
  // The rate bound.

  /** No call from `i` to `j - 1` made the table forget `source`. */
  ghost predicate NeverForgotten(cfg: Settings, calls: seq<Call>, source: Source, i: nat, j: nat)
    requires cfg.Positive() && i <= j <= |calls|
  {
    forall k :: i <= k < j && source in TableAfter(cfg, calls, k).buckets ==>
      source in TableAfter(cfg, calls, k + 1).buckets
  }

  /** The tokens the bucket would hold if it were refilled at time `at`. */
  function Level(cfg: Settings, b: Bucket, at: real): real
    requires cfg.Positive()
  {
    Min(cfg.capacity as real, b.tokens + (at - b.updatedAt) / cfg.refillSeconds)
  }

  lemma AddQuotients(x: real, y: real, r: real)
    requires r > 0.0
    ensures x / r + y / r == (x + y) / r
  {
  }

  /** Between calls the level grows by at most the time passed, in units of `refill_seconds`. */
  lemma LevelGrows(cfg: Settings, b: Bucket, earlier: real, later: real)
    requires cfg.Positive() && earlier <= later
    ensures Level(cfg, b, later) <= Level(cfg, b, earlier) + (later - earlier) / cfg.refillSeconds
  {
    AddQuotients(earlier - b.updatedAt, later - earlier, cfg.refillSeconds);
    QuotientPositive(later - earlier, cfg.refillSeconds);
  }

  /** A call spends at most what the level offers. */
  lemma CallSpends(cfg: Settings, t: Table, source: Source, now: real)
    requires cfg.Positive() && (source in t.buckets ==> t.buckets[source].updatedAt <= now)
    ensures var (u, admitted) := Visit(cfg, t, source, now);
            && source in u.buckets
            && (if admitted then 1.0 else 0.0) + Level(cfg, u.buckets[source], now) <=
               if source in t.buckets then Level(cfg, t.buckets[source], now) else cfg.capacity as real
  {
  }

  /** The bound that holds after call `j - 1` of a window that begins at call `i`. */
  ghost predicate WithinBound(cfg: Settings, calls: seq<Call>, source: Source, i: nat, j: nat)
    requires cfg.Positive() && i < j <= |calls|
  {
    var t := TableAfter(cfg, calls, j);
    var n := Admissions(cfg, calls, source, i, j) as real;
    if source in t.buckets then
      n + Level(cfg, t.buckets[source], calls[j - 1].at) <=
      cfg.capacity as real + (calls[j - 1].at - calls[i].at) / cfg.refillSeconds
    else n == 0.0
  }

  /** One call of the window: what it spends, its level offered. */
  lemma LevelAfterCall(cfg: Settings, calls: seq<Call>, source: Source, k: nat)
    requires cfg.Positive() && k < |calls| && ClockNeverGoesBack(calls)
    ensures var t, u := TableAfter(cfg, calls, k), TableAfter(cfg, calls, k + 1);
            var n := if calls[k].source == source && Admitted(cfg, calls, k) then 1.0 else 0.0;
            && (source in u.buckets ==>
                  n + Level(cfg, u.buckets[source], calls[k].at) <=
                  if source in t.buckets then Level(cfg, t.buckets[source], calls[k].at) else cfg.capacity as real)
            && (source !in u.buckets ==> n == 0.0)
  {
    var t := TableAfter(cfg, calls, k);
    if calls[k].source in t.buckets { TouchedEarlier(cfg, calls, k, calls[k].source); }
    CallSpends(cfg, t, calls[k].source, calls[k].at);
    OthersKeepTheirs(cfg, t, calls[k].source, calls[k].at);
  }

  /** The bound before a call, at the time of the call. */
  lemma LevelBefore(cfg: Settings, t: Table, source: Source, n: real, start: real, earlier: real, now: real)
    requires cfg.Positive() && start <= earlier <= now
    requires if source in t.buckets
             then n + Level(cfg, t.buckets[source], earlier) <= cfg.capacity as real + (earlier - start) / cfg.refillSeconds
             else n == 0.0
    ensures n + (if source in t.buckets then Level(cfg, t.buckets[source], now) else cfg.capacity as real) <=
            cfg.capacity as real + (now - start) / cfg.refillSeconds
  {
    AddQuotients(earlier - start, now - earlier, cfg.refillSeconds);
    QuotientPositive(now - start, cfg.refillSeconds);
    if source in t.buckets {
      LevelGrows(cfg, t.buckets[source], earlier, now);
    }
  }

  /** The next call of a window: what has been admitted and what is left stay within the bound. */
  lemma WindowStep(cfg: Settings, calls: seq<Call>, source: Source, i: nat, j: nat)
    requires cfg.Positive() && i + 1 < j <= |calls| && ClockNeverGoesBack(calls)
    requires WithinBound(cfg, calls, source, i, j - 1)
    requires source in TableAfter(cfg, calls, j - 1).buckets ==> source in TableAfter(cfg, calls, j).buckets
    ensures WithinBound(cfg, calls, source, i, j)
  {
    var n := Admissions(cfg, calls, source, i, j - 1) as real;
    LevelBefore(cfg, TableAfter(cfg, calls, j - 1), source, n, calls[i].at, calls[j - 2].at, calls[j - 1].at);
    NextCall(cfg, calls, source, i, j, n, cfg.capacity as real + (calls[j - 1].at - calls[i].at) / cfg.refillSeconds);
  }

  /** A call stays within the bound that held before it. */
  lemma NextCall(cfg: Settings, calls: seq<Call>, source: Source, i: nat, j: nat, n: real, bound: real)
    requires cfg.Positive() && i < j <= |calls| && ClockNeverGoesBack(calls)
    requires n == Admissions(cfg, calls, source, i, j - 1) as real
    requires bound == cfg.capacity as real + (calls[j - 1].at - calls[i].at) / cfg.refillSeconds
    requires var t := TableAfter(cfg, calls, j - 1);
             && n + (if source in t.buckets then Level(cfg, t.buckets[source], calls[j - 1].at) else cfg.capacity as real) <= bound
             && (source in t.buckets ==> source in TableAfter(cfg, calls, j).buckets)
             && (source !in t.buckets ==> n == 0.0)
    ensures WithinBound(cfg, calls, source, i, j)
  {
    LevelAfterCall(cfg, calls, source, j - 1);
    assert Admissions(cfg, calls, source, i, j) as real ==
      n + if calls[j - 1].source == source && Admitted(cfg, calls, j - 1) then 1.0 else 0.0;
  }

  lemma WindowStart(cfg: Settings, calls: seq<Call>, source: Source, i: nat)
    requires cfg.Positive() && i < |calls| && ClockNeverGoesBack(calls)
    requires source in TableAfter(cfg, calls, i).buckets ==> source in TableAfter(cfg, calls, i + 1).buckets
    ensures WithinBound(cfg, calls, source, i, i + 1)
  {
    LevelAfterCall(cfg, calls, source, i);
    assert Admissions(cfg, calls, source, i, i) == 0;
  }

  /** Admissions spend what refilling added: a potential argument along the window. */
  lemma {:induction false} SpentIsRefilled(cfg: Settings, calls: seq<Call>, source: Source, i: nat, j: nat)
    requires cfg.Positive() && i < j <= |calls|
    requires ClockNeverGoesBack(calls) && NeverForgotten(cfg, calls, source, i, j)
    ensures WithinBound(cfg, calls, source, i, j)
    decreases j
  {
    if j == i + 1 {
      WindowStart(cfg, calls, source, i);
    } else {
      SpentIsRefilled(cfg, calls, source, i, j - 1);
      WindowStep(cfg, calls, source, i, j);
    }
  }

  lemma TouchedEarlier(cfg: Settings, calls: seq<Call>, k: nat, source: Source)
    requires cfg.Positive() && k < |calls| && ClockNeverGoesBack(calls)
    requires source in TableAfter(cfg, calls, k).buckets
    ensures TableAfter(cfg, calls, k).buckets[source].updatedAt <= calls[k].at
  {
    RunInvariant(cfg, calls, k);
    LastCallIsLast(calls, k, source);
  }

  /**
   * A source whose bucket is not forgotten is admitted at most
   * `capacity + T / refill_seconds` times in any span `T` of the run.
   */
  lemma RateBound(cfg: Settings, calls: seq<Call>, source: Source, i: nat, j: nat)
    requires cfg.Positive() && i < j <= |calls|
    requires ClockNeverGoesBack(calls) && NeverForgotten(cfg, calls, source, i, j)
    ensures Admissions(cfg, calls, source, i, j) as real <=
            cfg.capacity as real + (calls[j - 1].at - calls[i].at) / cfg.refillSeconds
  {
    SpentIsRefilled(cfg, calls, source, i, j);
    QuotientPositive(calls[j - 1].at - calls[i].at, cfg.refillSeconds);
    if source in TableAfter(cfg, calls, j).buckets {
      LevelNotNegative(cfg, calls, source, j);
    }
  }

  lemma LevelNotNegative(cfg: Settings, calls: seq<Call>, source: Source, j: nat)
    requires cfg.Positive() && 0 < j <= |calls| && ClockNeverGoesBack(calls)
    requires source in TableAfter(cfg, calls, j).buckets
    ensures Level(cfg, TableAfter(cfg, calls, j).buckets[source], calls[j - 1].at) >= 0.0
  {
    var m := LastTouched(cfg, calls, j, source);
    QuotientPositive(calls[j - 1].at - calls[m].at, cfg.refillSeconds);
  }

  lemma FullAfterSilence(cfg: Settings, b: Bucket, now: real)
    requires cfg.Positive() && b.tokens >= 0.0 && b.updatedAt + cfg.refillSeconds <= now
    ensures Min(cfg.capacity as real, b.tokens + (now - b.updatedAt) / cfg.refillSeconds) >= 1.0
  {
    AtLeastOnce(now - b.updatedAt, cfg.refillSeconds);
  }

  lemma AtLeastOnce(waited: real, r: real)
    requires r > 0.0 && waited >= r
    ensures waited / r >= 1.0
  {
    assert waited == (waited - r) + r && r / r == 1.0;
    AddQuotients(waited - r, r, r);
    QuotientPositive(waited - r, r);
  }

  lemma LastTouched(cfg: Settings, calls: seq<Call>, k: nat, source: Source) returns (m: nat)
    requires cfg.Positive() && k <= |calls| && source in TableAfter(cfg, calls, k).buckets
    ensures m < k && calls[m].source == source
    ensures var b := TableAfter(cfg, calls, k).buckets[source]; b.tokens >= 0.0 && b.updatedAt == calls[m].at
  {
    RunInvariant(cfg, calls, k);
    LastCallIsLast(calls, k, source);
    m := LastCalls(calls, k)[source];
  }

  /** A source that has been silent for `refill_seconds`, or has never called, is admitted. */
  lemma SilenceAdmits(cfg: Settings, calls: seq<Call>, k: nat)
    requires cfg.Positive() && k < |calls|
    requires forall m :: 0 <= m < k && calls[m].source == calls[k].source ==>
               calls[m].at + cfg.refillSeconds <= calls[k].at
    ensures Admitted(cfg, calls, k)
  {
    var t, source := TableAfter(cfg, calls, k), calls[k].source;
    if source in t.buckets {
      var m := LastTouched(cfg, calls, k, source);
      FullAfterSilence(cfg, t.buckets[source], calls[k].at);
    }
  }

  /** The sources that called among calls `i` to `j - 1`. */
  function Callers(calls: seq<Call>, i: nat, j: nat): set<Source>
    requires i <= j <= |calls|
  {
    if i == j then {} else Callers(calls, i, j - 1) + {calls[j - 1].source}
  }

  lemma {:induction false} IsCaller(calls: seq<Call>, i: nat, j: nat, m: nat)
    requires i <= m < j <= |calls|
    ensures calls[m].source in Callers(calls, i, j)
  {
    if m < j - 1 {
      IsCaller(calls, i, j - 1, m);
    }
  }

  lemma {:induction false} DistinctCount(xs: seq<Source>, ys: set<Source>)
    requires Distinct(xs) && forall i :: 0 <= i < |xs| ==> xs[i] in ys
    ensures |xs| <= |ys|
  {
    if xs != [] {
      assert xs[0] !in xs[1..];
      DistinctCount(xs[1..], ys - {xs[0]});
    }
  }

  /** Call `m` is the last of `source` before call `k`. */
  predicate LastBefore(calls: seq<Call>, k: nat, source: Source, m: nat) {
    m < k <= |calls| && calls[m].source == source && forall i :: m < i < k ==> calls[i].source != source
  }

  /**
   * A bucket is forgotten only by the call of a new source that finds the table
   * full, and only after `max_sources` different other sources have called since
   * the bucket's own last call `m`.
   */
  lemma ForgottenOnlyAfterOthers(cfg: Settings, calls: seq<Call>, k: nat, source: Source) returns (m: nat)
    requires cfg.Positive() && k < |calls|
    requires source in TableAfter(cfg, calls, k).buckets
    requires source !in TableAfter(cfg, calls, k + 1).buckets
    ensures LastBefore(calls, k, source, m)
    ensures source !in Callers(calls, m + 1, k + 1)
    ensures |Callers(calls, m + 1, k + 1)| >= cfg.maxSources
  {
    RunInvariant(cfg, calls, k);
    EvictedIsOldest(cfg, TableAfter(cfg, calls, k), calls[k].source, calls[k].at, source);
    m := OldestWaits(cfg, calls, k, TableAfter(cfg, calls, k), source);
  }

  lemma OldestWaits(cfg: Settings, calls: seq<Call>, k: nat, t: Table, oldest: Source) returns (m: nat)
    requires k < |calls| && SoundTable(cfg, calls, k, t) && calls[k].source !in t.buckets
    requires t.order != [] && oldest == t.order[0]
    ensures LastBefore(calls, k, oldest, m)
    ensures oldest !in Callers(calls, m + 1, k + 1)
    ensures |Callers(calls, m + 1, k + 1)| >= |t.order|
  {
    m := LastOf(calls, k, t, oldest);
    assert oldest in t.buckets;
    NotAmongCallers(calls, m + 1, k + 1, oldest);
    OldestOutnumbered(cfg, calls, k, t, m);
  }

  lemma LastOf(calls: seq<Call>, k: nat, t: Table, source: Source) returns (m: nat)
    requires k <= |calls| && ByLastCall(LastCalls(calls, k), t.order) && source in t.order
    ensures LastBefore(calls, k, source, m) && source in LastCalls(calls, k) && LastCalls(calls, k)[source] == m
  {
    LastCallIsLast(calls, k, source);
    m := LastCalls(calls, k)[source];
  }

  /** Only the least recently used source of a full table is evicted, and for a source it does not have. */
  lemma EvictedIsOldest(cfg: Settings, t: Table, newcomer: Source, now: real, source: Source)
    requires cfg.Positive() && Coherent(cfg, t) && source in t.buckets && source !in Visit(cfg, t, newcomer, now).0.buckets
    ensures t.order != [] && source == t.order[0] && |t.order| == cfg.maxSources && newcomer !in t.buckets
  {
  }

  /** Every other source of the table has called since the oldest one did. */
  lemma OtherCalledSince(cfg: Settings, calls: seq<Call>, k: nat, t: Table, i: nat)
    requires k < |calls| && SoundTable(cfg, calls, k, t) && 0 < i < |t.order|
    ensures t.order[0] in LastCalls(calls, k) && LastCalls(calls, k)[t.order[0]] < k
    ensures t.order[i] in Callers(calls, LastCalls(calls, k)[t.order[0]] + 1, k + 1)
  {
    LastCallIsLast(calls, k, t.order[0]);
    LastCallIsLast(calls, k, t.order[i]);
    IsCaller(calls, LastCalls(calls, k)[t.order[0]] + 1, k + 1, LastCalls(calls, k)[t.order[i]]);
  }

  lemma OthersCalledSince(cfg: Settings, calls: seq<Call>, k: nat, t: Table, callers: set<Source>)
    requires k < |calls| && SoundTable(cfg, calls, k, t) && t.order != [] && calls[k].source !in t.buckets
    requires forall i :: 0 < i < |t.order| ==> t.order[i] in callers
    requires calls[k].source in callers
    ensures |callers| >= |t.order|
  {
    var others := t.order[1..] + [calls[k].source];
    assert forall i :: 0 <= i < |t.order| - 1 ==> others[i] == t.order[i + 1];
    assert forall i :: 0 <= i < |t.order| ==> t.order[i] in t.buckets;
    DistinctCount(others, callers);
  }

  /** Since the oldest source's last call, at least as many others have called as the table has sources. */
  lemma OldestOutnumbered(cfg: Settings, calls: seq<Call>, k: nat, t: Table, m: nat)
    requires k < |calls| && SoundTable(cfg, calls, k, t) && t.order != [] && calls[k].source !in t.buckets
    requires m < k && t.order[0] in LastCalls(calls, k) && LastCalls(calls, k)[t.order[0]] == m
    ensures |Callers(calls, m + 1, k + 1)| >= |t.order|
  {
    var callers := Callers(calls, m + 1, k + 1);
    forall i | 0 < i < |t.order| ensures t.order[i] in callers {
      OtherCalledSince(cfg, calls, k, t, i);
    }
    OthersCalledSince(cfg, calls, k, t, callers);
  }

  lemma {:induction false} NotAmongCallers(calls: seq<Call>, i: nat, j: nat, source: Source)
    requires i <= j <= |calls| && forall m :: i <= m < j ==> calls[m].source != source
    ensures source !in Callers(calls, i, j)
  {
    if i < j {
      NotAmongCallers(calls, i, j - 1, source);
    }
  }
}
