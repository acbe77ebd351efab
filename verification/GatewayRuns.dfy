/**
 * Every interleaving of connect-token requests
 * (backend/ic_env_guard/api/agent_terminals.py), ticket consumption, session
 * ends, expiry, legacy slot users and Agent removals over one ticket store and
 * one limiter.
 */
module GatewayRuns {
  import opened Wrappers
  import opened GatewaySpec

  /** Who holds an occupied slot. */
  datatype Owner =
    | ByRequest(request: nat)
    | ByReservation(id: string)
    | ByTicket(ticket: string)
    | ByActive(ticket: string)
    | ByAcquirer
    | ByLegacy

  /** A connect-token request between its awaits. */
  datatype Phase = HoldsSlot(slot: string) | HoldsReservation(reservation: Reservation)

  /** What happened so far, for stating properties of whole runs. */
  datatype History = History(
    made: map<string, Reservation>,
    origin: map<string, string>,
    committed: map<string, Ticket>,
    accepted: set<string>)

  /**
   * The whole system.  `acquiring` are slots that `try_acquire` has reserved and
   * not yet recorded, `removals` the Agent removals under way, `issued` every
   * random identifier drawn so far.  `ledger` is kept for the proof only: it
   * names the holder of each occupied slot, and no step reads it.
   */
  datatype System = System(
    gate: Gate,
    now: int,
    requests: map<nat, Phase>,
    acquiring: set<string>,
    removals: map<nat, string>,
    issued: set<string>,
    history: History,
    ledger: map<string, Owner>)

  datatype Action =
    | Tick(to: int)
    | AskSlot(request: nat, id: string)
    | GiveUpSlot(request: nat)
    | AskReservation(request: nat, agentId: string, route: Route, id: string, blocker: Blocker)
    | CommitTicket(request: nat, bound: Binding, upstreamTicket: string, expiresAt: int, id: string, blocker: Blocker)
    | Finish(request: nat)
    | ConsumeTicket(ticket: string, actorId: Option<string>, agentId: string, terminalId: string, wsPath: string)
    | EndSession(ticket: string)
    | LegacyReserve(id: string)
    | LegacyRecord(id: string)
    | LegacyRelease
    | CheckUsage
    | StartRemoval(removal: nat, agentId: string)
    | StopRemoval(removal: nat)

  function Initial(): System {
    System(
      Gate(Store(map[], map[], map[], {}), Limiter({}, [])), 0, map[], {}, map[], {},
      History(map[], map[], map[], {}), map[])
  }

  function ExpiredSlots(s: System): set<string> {
    ReservationSlots(s.gate.store.reservations, ExpiredReservations(s.gate.store, s.now)) +
    TicketSlots(s.gate.store.tickets, ExpiredTickets(s.gate.store, s.now))
  }

  function Prune(s: System): System {
    s.(gate := Pruned(s.gate, s.now), ledger := s.ledger - ExpiredSlots(s))
  }

  function Assign(ledger: map<string, Owner>, slot: Option<string>, owner: Owner): map<string, Owner> {
    if slot.Some? then ledger[slot.value := owner] else ledger
  }

  /** One step.  An action that is not possible leaves everything as it was; new identifiers are fresh. */
  function Apply(s: System, limits: Limits, a: Action): System {
    match a
    case Tick(to) => if to >= s.now then s.(now := to) else s
    case AskSlot(r, id) => DoAskSlot(s, limits, r, id)
    case GiveUpSlot(r) => DoGiveUpSlot(s, r)
    case AskReservation(r, agentId, route, id, blocker) => DoAskReservation(s, limits, r, agentId, route, id, blocker)
    case CommitTicket(r, bound, up, exp, id, blocker) => DoCommit(s, r, bound, up, exp, id, blocker)
    case Finish(r) => DoFinish(s, r)
    case ConsumeTicket(t, actor, agent, terminal, path) => DoConsume(s, t, actor, agent, terminal, path)
    case EndSession(t) => DoEndSession(s, t)
    case LegacyReserve(id) => DoLegacyReserve(s, limits, id)
    case LegacyRecord(id) => DoLegacyRecord(s, id)
    case LegacyRelease => DoLegacyRelease(s)
    case CheckUsage => Prune(s)
    case StartRemoval(k, agentId) => DoStartRemoval(s, k, agentId)
    case StopRemoval(k) => DoStopRemoval(s, k)
  }

  function DoAskSlot(s: System, limits: Limits, r: nat, id: string): System {
    var (l, slot) := Occupied(s.gate.limiter, limits.maxActive, id);
    if r in s.requests || id in s.issued || slot.None? then s
    else s.(
      gate := s.gate.(limiter := l), requests := s.requests[r := HoldsSlot(id)],
      issued := s.issued + {id}, ledger := s.ledger[id := ByRequest(r)])
  }

  /** The `finally` of a request without a reservation. */
  function DoGiveUpSlot(s: System, r: nat): System {
    if r !in s.requests || !s.requests[r].HoldsSlot? then s
    else
      var slot := s.requests[r].slot;
      s.(gate := s.gate.(limiter := Freed(s.gate.limiter, {slot})), requests := s.requests - {r}, ledger := s.ledger - {slot})
  }

  function DoAskReservation(s: System, limits: Limits, r: nat, agentId: string, route: Route, id: string,
                            blocker: Blocker): System
  {
    if r !in s.requests || !s.requests[r].HoldsSlot? || id in s.issued then s
    else
      var slot := s.requests[r].slot;
      var (g, made) := Reserve(s.gate, limits, agentId, route, Some(slot), id, blocker, s.now);
      var p := Prune(s).(gate := g);
      if made.None? then p
      else p.(
        requests := s.requests[r := HoldsReservation(made.value)], issued := s.issued + {id},
        ledger := p.ledger[slot := ByReservation(id)],
        history := s.history.(made := s.history.made[id := made.value]))
  }

  function DoCommit(s: System, r: nat, bound: Binding, upstreamTicket: string, expiresAt: int, id: string,
                    blocker: Blocker): System
  {
    if r !in s.requests || !s.requests[r].HoldsReservation? || id in s.issued then s
    else
      var res := s.requests[r].reservation;
      var (g, result) := Commit(s.gate, res.id, bound, upstreamTicket, expiresAt, id, blocker, s.now);
      var p := Prune(s).(gate := g);
      if !result.Committed? then p
      else p.(
        requests := s.requests - {r}, issued := s.issued + {id},
        ledger := Assign(p.ledger, result.ticket.slot, ByTicket(id)),
        history := s.history.(
          origin := s.history.origin[id := res.id], committed := s.history.committed[id := result.ticket]))
  }

  /** The `finally` of a request that has a reservation and did not commit it. */
  function DoFinish(s: System, r: nat): System {
    if r !in s.requests || !s.requests[r].HoldsReservation? then s
    else
      var id := s.requests[r].reservation.id;
      var freed := ReservationSlots(s.gate.store.reservations, {id});
      s.(gate := ReleaseReservation(s.gate, id), requests := s.requests - {r}, ledger := s.ledger - freed)
  }

  function DoConsume(s: System, t: string, actorId: Option<string>, agentId: string, terminalId: string,
                     wsPath: string): System
  {
    var (g, result) := Consume(s.gate, t, actorId, agentId, terminalId, wsPath, s.now);
    if result.status == Ok then
      s.(gate := g, ledger := Assign(s.ledger, result.record.value.slot, ByActive(t)),
         history := s.history.(accepted := s.history.accepted + {t}))
    else if g != s.gate then s.(gate := g, ledger := s.ledger - TicketSlots(s.gate.store.tickets, {t}))
    else s
  }

  function DoEndSession(s: System, t: string): System {
    if t !in s.gate.store.active then s
    else s.(gate := ReleaseActive(s.gate, t), ledger := s.ledger - SlotSet(s.gate.store.active[t].slot))
  }

  /** The first half of `try_acquire`. */
  function DoLegacyReserve(s: System, limits: Limits, id: string): System {
    var (l, slot) := Occupied(s.gate.limiter, limits.maxActive, id);
    if id in s.issued || slot.None? then s
    else s.(
      gate := s.gate.(limiter := l), acquiring := s.acquiring + {id},
      issued := s.issued + {id}, ledger := s.ledger[id := ByAcquirer])
  }

  /** The second half of `try_acquire`. */
  function DoLegacyRecord(s: System, id: string): System {
    if id !in s.acquiring then s
    else s.(
      gate := s.gate.(limiter := s.gate.limiter.(legacy := s.gate.limiter.legacy + [id])),
      acquiring := s.acquiring - {id}, ledger := s.ledger[id := ByLegacy])
  }

  function DoLegacyRelease(s: System): System {
    var legacy := s.gate.limiter.legacy;
    if legacy == [] then s
    else s.(gate := s.gate.(limiter := LegacyReleased(s.gate.limiter)), ledger := s.ledger - {legacy[|legacy| - 1]})
  }

  /** A removal marks the Agent, or is refused. */
  function DoStartRemoval(s: System, k: nat, agentId: string): System {
    if k in s.removals then s
    else
      var (g, begun) := BeginRemoval(s.gate, agentId, s.now);
      var p := Prune(s).(gate := g);
      if begun then p.(removals := s.removals[k := agentId]) else p
  }

  /** The `finally` of a removal that was not refused. */
  function DoStopRemoval(s: System, k: nat): System {
    if k !in s.removals then s
    else s.(gate := EndRemoval(s.gate, s.removals[k]), removals := s.removals - {k})
  }

  /** A run: the states the system passes through when it performs `actions`. */
  ghost predicate IsRun(limits: Limits, states: seq<System>, actions: seq<Action>) {
    && |states| == |actions| + 1
    && states[0] == Initial()
    && forall i {:trigger actions[i]} :: 0 <= i < |actions| ==> states[i + 1] == Apply(states[i], limits, actions[i])
  }

  // ---------------------------------------------------------------------------
  // The invariant.

  ghost predicate Distinct(xs: seq<string>) {
    forall i, j :: 0 <= i < j < |xs| ==> xs[i] != xs[j]
  }

  /** `owner` holds slot `x`. */
  predicate Holds(s: System, owner: Owner, x: string) {
    var st := s.gate.store;
    match owner
    case ByRequest(r) => r in s.requests && s.requests[r] == HoldsSlot(x)
    case ByReservation(id) => id in st.reservations && st.reservations[id].slot == Some(x)
    case ByTicket(t) => t in st.tickets && st.tickets[t].slot == Some(x)
    case ByActive(t) => t in st.active && st.active[t].slot == Some(x)
    case ByAcquirer => x in s.acquiring
    case ByLegacy => x in s.gate.limiter.legacy
  }

  /** Every holder is in the ledger, and the ledger names the occupied slots and their real holders. */
  ghost predicate LedgerRight(s: System) {
    && (forall o, x :: Holds(s, o, x) ==> x in s.ledger && s.ledger[x] == o)
    && (forall x :: x in s.ledger ==> Holds(s, s.ledger[x], x))
    && s.ledger.Keys == s.gate.limiter.slots
    && Distinct(s.gate.limiter.legacy)
  }

  /** Records are filed under their own identifiers, which have been drawn before. */
  ghost predicate WellKeyed(s: System) {
    var st := s.gate.store;
    && (forall id :: id in st.reservations ==> st.reservations[id].id == id && id in s.issued)
    && (forall t :: t in st.tickets ==> st.tickets[t].ticket == t && t in s.issued)
    && (forall t :: t in st.active ==> st.active[t].ticket == t && t in s.issued)
    && (forall x :: x in s.gate.limiter.slots ==> x in s.issued)
    && (forall r :: r in s.requests && s.requests[r].HoldsReservation? ==> s.requests[r].reservation.id in s.history.made)
  }

  ghost predicate WithinLimits(s: System, limits: Limits) {
    && |s.gate.limiter.slots| <= limits.maxActive
    && |s.gate.store.reservations| + |s.gate.store.tickets| <= limits.maxOutstanding
  }

  /** No record of any kind names an Agent that is being removed, and each mark has one removal behind it. */
  ghost predicate Interlocked(s: System) {
    && (forall a :: a in s.gate.store.removing ==> !InUse(s.gate.store, a))
    && (forall k :: k in s.removals ==> s.removals[k] in s.gate.store.removing)
    && (forall j, k :: j in s.removals && k in s.removals && s.removals[j] == s.removals[k] ==> j == k)
    && (forall a :: a in s.gate.store.removing ==> exists k :: k in s.removals && s.removals[k] == a)
  }

  /** Tickets are as they were committed, with the route their reservation was made with. */
  ghost predicate HistoryRight(s: System) {
    var st, h := s.gate.store, s.history;
    && (forall id :: id in h.made ==> id in s.issued && h.made[id].id == id)
    && (forall id :: id in st.reservations ==> id in h.made && st.reservations[id] == h.made[id])
    && (forall t :: t in h.committed ==>
          && t in s.issued && t in h.origin && h.origin[t] in h.made
          && h.committed[t].ticket == t
          && h.committed[t].route == h.made[h.origin[t]].route
          && (h.made[h.origin[t]].agentId == "" || h.made[h.origin[t]].agentId == h.committed[t].bound.agentId))
    && (forall t :: t in st.tickets ==> t in h.committed && st.tickets[t] == h.committed[t] && t !in h.accepted)
    && (forall t :: t in h.accepted ==> t in h.committed)
    && (forall t :: t in st.active ==> t in h.accepted && st.active[t] == h.committed[t])
  }

  ghost predicate Invariant(s: System, limits: Limits) {
    LedgerRight(s) && WellKeyed(s) && WithinLimits(s, limits) && Interlocked(s) && HistoryRight(s)
  }

  /**
   * The invariant by its parts.  The quantifier in `Kept` serves no other purpose than
   * to keep the parts' definitions from the solver in proofs that only pass them on.
   */
  datatype Concern = Slots | Keys | Bounds | Marks | Records

  ghost predicate Upholds(c: Concern, s: System, limits: Limits) {
    match c
    case Slots => LedgerRight(s)
    case Keys => WellKeyed(s)
    case Bounds => WithinLimits(s, limits)
    case Marks => Interlocked(s)
    case Records => HistoryRight(s)
  }

  ghost predicate Kept(s: System, limits: Limits) {
    forall c :: Upholds(c, s, limits)
  }

  lemma KeptIsInvariant(s: System, limits: Limits)
    ensures Kept(s, limits) <==> Invariant(s, limits)
  {
    if Kept(s, limits) {
      assert Upholds(Slots, s, limits) && Upholds(Keys, s, limits) && Upholds(Bounds, s, limits);
      assert Upholds(Marks, s, limits) && Upholds(Records, s, limits);
    }
  }

  // ---------------------------------------------------------------------------
  // Expiry.

  lemma {:induction false} NothingToDrop(xs: seq<string>, dropped: set<string>)
    requires forall x :: x in xs ==> x !in dropped
    ensures WithoutAll(xs, dropped) == xs
  {
    if xs != [] {
      NothingToDrop(xs[1..], dropped);
      assert xs == [xs[0]] + xs[1..];
    }
  }

  lemma FewerEntries<T>(m: map<string, T>, gone: set<string>)
    ensures |m - gone| <= |m|
  {
    assert (m - gone).Keys == m.Keys - gone;
  }

  /** A slot that expiry frees belongs to a record that has expired, and to nobody else. */
  lemma ExpiredOwner(s: System, x: string)
    requires LedgerRight(s) && x in ExpiredSlots(s)
    ensures x in s.ledger
    ensures || (s.ledger[x].ByReservation? && s.ledger[x].id in ExpiredReservations(s.gate.store, s.now))
            || (s.ledger[x].ByTicket? && s.ledger[x].ticket in ExpiredTickets(s.gate.store, s.now))
  {
    var st := s.gate.store;
    if x in ReservationSlots(st.reservations, ExpiredReservations(st, s.now)) {
      var id :| id in ExpiredReservations(st, s.now) && st.reservations[id].slot == Some(x);
      assert Holds(s, ByReservation(id), x);
    } else {
      var t :| t in ExpiredTickets(st, s.now) && st.tickets[t].slot == Some(x);
      assert Holds(s, ByTicket(t), x);
    }
  }

  lemma SlotOfExpired(s: System, x: string)
    requires x in s.ledger && Holds(s, s.ledger[x], x)
    ensures s.ledger[x].ByReservation? && s.ledger[x].id in ExpiredReservations(s.gate.store, s.now) ==> x in ExpiredSlots(s)
    ensures s.ledger[x].ByTicket? && s.ledger[x].ticket in ExpiredTickets(s.gate.store, s.now) ==> x in ExpiredSlots(s)
  {
  }

  lemma PruneLedger(s: System)
    requires LedgerRight(s)
    ensures LedgerRight(Prune(s))
    ensures Prune(s).gate.limiter.legacy == s.gate.limiter.legacy
  {
    var p := Prune(s);
    var st := s.gate.store;
    forall x | x in s.gate.limiter.legacy ensures x !in ExpiredSlots(s) {
      assert Holds(s, ByLegacy, x);
      if x in ExpiredSlots(s) { ExpiredOwner(s, x); }
    }
    NothingToDrop(s.gate.limiter.legacy, ExpiredSlots(s));
    forall o, x | Holds(p, o, x) ensures x in p.ledger && p.ledger[x] == o {
      assert Holds(s, o, x);
      if x in ExpiredSlots(s) { ExpiredOwner(s, x); }
    }
    forall x | x in p.ledger ensures Holds(p, p.ledger[x], x) {
      assert Holds(s, s.ledger[x], x);
      SlotOfExpired(s, x);
    }
  }

  lemma PruneLimits(s: System, limits: Limits)
    requires WithinLimits(s, limits)
    ensures WithinLimits(Prune(s), limits)
  {
    var st := s.gate.store;
    FewerEntries(st.reservations, ExpiredReservations(st, s.now));
    FewerEntries(st.tickets, ExpiredTickets(st, s.now));
  }

  lemma PruneInterlock(s: System)
    requires Interlocked(s)
    ensures Interlocked(Prune(s))
  {
    forall a | a in s.gate.store.removing ensures !InUse(Prune(s).gate.store, a) {
      assert !InUse(s.gate.store, a);
    }
  }

  lemma PruneHistory(s: System)
    requires WellKeyed(s) && HistoryRight(s)
    ensures WellKeyed(Prune(s)) && HistoryRight(Prune(s))
  {
  }

  lemma PruneKeeps(s: System, limits: Limits)
    requires Invariant(s, limits)
    ensures Invariant(Prune(s), limits)
  {
    PruneLedger(s);
    PruneLimits(s, limits);
    PruneInterlock(s);
    PruneHistory(s);
  }

  // ---------------------------------------------------------------------------
  // Every other step hands over, occupies or frees at most one slot.

  lemma Transfer(s: System, t: System, x: string, owner: Option<Owner>)
    requires LedgerRight(s) && Distinct(t.gate.limiter.legacy)
    requires forall o, y :: y != x ==> (Holds(t, o, y) <==> Holds(s, o, y))
    requires forall o :: Holds(t, o, x) <==> owner == Some(o)
    requires t.ledger == if owner.Some? then s.ledger[x := owner.value] else s.ledger - {x}
    requires t.gate.limiter.slots ==
             if owner.Some? then s.gate.limiter.slots + {x} else s.gate.limiter.slots - {x}
    ensures LedgerRight(t)
  {
    forall o, y | Holds(t, o, y) ensures y in t.ledger && t.ledger[y] == o {
      assert y != x ==> Holds(s, o, y);
    }
    forall y | y in t.ledger ensures Holds(t, t.ledger[y], y) {
      assert y != x ==> Holds(s, s.ledger[y], y);
    }
  }

  /** Freeing a slot that its only holder gives up. */
  lemma FreeOne(s: System, x: string)
    requires LedgerRight(s) && x !in s.gate.limiter.legacy
    ensures Freed(s.gate.limiter, {x}) == s.gate.limiter.(slots := s.gate.limiter.slots - {x})
  {
    NothingToDrop(s.gate.limiter.legacy, {x});
  }

  lemma NotLegacy(s: System, o: Owner, x: string)
    requires LedgerRight(s) && Holds(s, o, x) && o != ByLegacy
    ensures x !in s.gate.limiter.legacy
    ensures forall p :: Holds(s, p, x) <==> p == o
  {
    assert x in s.gate.limiter.legacy <==> Holds(s, ByLegacy, x);
  }

  /** A step that leaves the store alone. */
  ghost predicate LimiterFrame(s: System, t: System, limits: Limits) {
    && t.gate.store == s.gate.store && t.history == s.history && t.removals == s.removals && s.issued <= t.issued
    && t.gate.limiter.slots <= t.issued && |t.gate.limiter.slots| <= limits.maxActive
    && forall r :: r in t.requests && t.requests[r].HoldsReservation? ==> r in s.requests && s.requests[r] == t.requests[r]
  }

  lemma LimiterStep(s: System, t: System, limits: Limits)
    requires WellKeyed(s) && WithinLimits(s, limits) && Interlocked(s) && HistoryRight(s)
    requires LimiterFrame(s, t, limits)
    ensures WellKeyed(t) && WithinLimits(t, limits) && Interlocked(t) && HistoryRight(t)
  {
    IssuedGrows(s, t);
  }

  lemma IssuedGrows(s: System, t: System)
    requires WellKeyed(s) && HistoryRight(s)
    requires t.gate.store == s.gate.store && t.history == s.history && s.issued <= t.issued
    ensures HistoryRight(t)
  {
  }

  /** The system with a new slot for a request. */
  function WithSlot(s: System, r: nat, id: string): System {
    s.(gate := s.gate.(limiter := s.gate.limiter.(slots := s.gate.limiter.slots + {id})),
       requests := s.requests[r := HoldsSlot(id)], issued := s.issued + {id}, ledger := s.ledger[id := ByRequest(r)])
  }

  /** The system with a new slot for a legacy acquirer. */
  function WithAcquirer(s: System, id: string): System {
    s.(gate := s.gate.(limiter := s.gate.limiter.(slots := s.gate.limiter.slots + {id})),
       acquiring := s.acquiring + {id}, issued := s.issued + {id}, ledger := s.ledger[id := ByAcquirer])
  }

  predicate HasRoom(s: System, limits: Limits, id: string) {
    id !in s.issued && |s.gate.limiter.slots| < limits.maxActive
  }

  lemma AskSlotShape(s: System, limits: Limits, r: nat, id: string)
    ensures DoAskSlot(s, limits, r, id) == if r !in s.requests && HasRoom(s, limits, id) then WithSlot(s, r, id) else s
  {
  }

  lemma LegacyReserveShape(s: System, limits: Limits, id: string)
    ensures DoLegacyReserve(s, limits, id) == if HasRoom(s, limits, id) then WithAcquirer(s, id) else s
  {
  }

  lemma WithSlotLedger(s: System, r: nat, id: string)
    requires LedgerRight(s) && id !in s.gate.limiter.slots && r !in s.requests
    ensures LedgerRight(WithSlot(s, r, id))
  {
    var t := WithSlot(s, r, id);
    forall o ensures Holds(t, o, id) <==> o == ByRequest(r) { assert !Holds(s, o, id); }
    Transfer(s, t, id, Some(ByRequest(r)));
  }

  lemma WithAcquirerLedger(s: System, id: string)
    requires LedgerRight(s) && id !in s.gate.limiter.slots
    ensures LedgerRight(WithAcquirer(s, id))
  {
    var t := WithAcquirer(s, id);
    forall o ensures Holds(t, o, id) <==> o == ByAcquirer { assert !Holds(s, o, id); }
    Transfer(s, t, id, Some(ByAcquirer));
  }

  lemma AskSlotLedger(s: System, limits: Limits, r: nat, id: string)
    requires LedgerRight(s) && id !in s.gate.limiter.slots
    ensures LedgerRight(DoAskSlot(s, limits, r, id))
  {
    AskSlotShape(s, limits, r, id);
    if r !in s.requests && HasRoom(s, limits, id) {
      WithSlotLedger(s, r, id);
    }
  }

  lemma GiveUpSlotLedger(s: System, r: nat)
    requires LedgerRight(s)
    ensures LedgerRight(DoGiveUpSlot(s, r))
  {
    var t := DoGiveUpSlot(s, r);
    if r in s.requests && s.requests[r].HoldsSlot? {
      var x := s.requests[r].slot;
      assert Holds(s, ByRequest(r), x);
      NotLegacy(s, ByRequest(r), x);
      FreeOne(s, x);
      forall o ensures !Holds(t, o, x) { assert Holds(s, o, x) <==> o == ByRequest(r); }
      Transfer(s, t, x, None);
    }
  }

  lemma LegacyReserveLedger(s: System, limits: Limits, id: string)
    requires LedgerRight(s) && id !in s.gate.limiter.slots
    ensures LedgerRight(DoLegacyReserve(s, limits, id))
  {
    LegacyReserveShape(s, limits, id);
    if HasRoom(s, limits, id) {
      WithAcquirerLedger(s, id);
    }
  }

  lemma LegacyRecordLedger(s: System, id: string)
    requires LedgerRight(s)
    ensures LedgerRight(DoLegacyRecord(s, id))
  {
    var t := DoLegacyRecord(s, id);
    if id in s.acquiring {
      assert Holds(s, ByAcquirer, id);
      NotLegacy(s, ByAcquirer, id);
      assert id in s.ledger;
      forall o ensures Holds(t, o, id) <==> o == ByLegacy { assert Holds(s, o, id) <==> o == ByAcquirer; }
      Transfer(s, t, id, Some(ByLegacy));
    }
  }

  lemma LegacyReleaseLedger(s: System)
    requires LedgerRight(s)
    ensures LedgerRight(DoLegacyRelease(s))
  {
    var t, legacy := DoLegacyRelease(s), s.gate.limiter.legacy;
    if legacy != [] {
      var x := legacy[|legacy| - 1];
      assert Holds(s, ByLegacy, x);
      assert forall y :: y in legacy <==> y == x || y in legacy[..|legacy| - 1];
      forall o ensures !Holds(t, o, x) { assert Holds(s, o, x) ==> o == s.ledger[x] == ByLegacy; }
      Transfer(s, t, x, None);
    }
  }

  ghost predicate LimiterAction(a: Action) {
    a.AskSlot? || a.GiveUpSlot? || a.LegacyReserve? || a.LegacyRecord? || a.LegacyRelease?
  }

  lemma WithSlotFrame(s: System, limits: Limits, r: nat, id: string)
    requires s.gate.limiter.slots <= s.issued && HasRoom(s, limits, id)
    ensures LimiterFrame(s, WithSlot(s, r, id), limits) && LimiterFrame(s, WithAcquirer(s, id), limits)
  {
  }

  lemma TakingFrame(s: System, limits: Limits, a: Action)
    requires (a.AskSlot? || a.LegacyReserve?) && s.gate.limiter.slots <= s.issued && |s.gate.limiter.slots| <= limits.maxActive
    ensures LimiterFrame(s, Apply(s, limits, a), limits)
  {
    if HasRoom(s, limits, a.id) {
      WithSlotFrame(s, limits, if a.AskSlot? then a.request else 0, a.id);
    }
    if a.AskSlot? {
      AskSlotShape(s, limits, a.request, a.id);
    } else {
      LegacyReserveShape(s, limits, a.id);
    }
  }

  lemma GivingFrame(s: System, limits: Limits, a: Action)
    requires (a.GiveUpSlot? || a.LegacyRecord? || a.LegacyRelease?) && s.gate.limiter.slots <= s.issued && |s.gate.limiter.slots| <= limits.maxActive
    ensures LimiterFrame(s, Apply(s, limits, a), limits)
  {
    var t := Apply(s, limits, a);
    if t.gate.limiter.slots <= s.gate.limiter.slots {
      SubsetSize(t.gate.limiter.slots, s.gate.limiter.slots);
    }
  }

  lemma LimiterActionFrame(s: System, limits: Limits, a: Action)
    requires LimiterAction(a) && s.gate.limiter.slots <= s.issued && |s.gate.limiter.slots| <= limits.maxActive
    ensures LimiterFrame(s, Apply(s, limits, a), limits)
  {
    if a.AskSlot? || a.LegacyReserve? {
      TakingFrame(s, limits, a);
    } else {
      GivingFrame(s, limits, a);
    }
  }

  lemma LimiterActionLedger(s: System, limits: Limits, a: Action)
    requires LedgerRight(s) && s.gate.limiter.slots <= s.issued && LimiterAction(a)
    ensures LedgerRight(Apply(s, limits, a))
  {
    if a.AskSlot? || a.LegacyReserve? {
      TakingLedger(s, limits, a);
    } else if a.GiveUpSlot? {
      GivingLedger(s, limits, a);
    } else {
      LegacyLedger(s, limits, a);
    }
  }

  lemma TakingLedger(s: System, limits: Limits, a: Action)
    requires LedgerRight(s) && s.gate.limiter.slots <= s.issued && (a.AskSlot? || a.LegacyReserve?)
    ensures LedgerRight(Apply(s, limits, a))
  {
    if a.id in s.issued {
      assert Apply(s, limits, a) == s;
    } else if a.AskSlot? {
      AskSlotLedger(s, limits, a.request, a.id);
    } else {
      LegacyReserveLedger(s, limits, a.id);
    }
  }

  lemma GivingLedger(s: System, limits: Limits, a: Action)
    requires LedgerRight(s) && a.GiveUpSlot?
    ensures LedgerRight(Apply(s, limits, a))
  {
    GiveUpSlotLedger(s, a.request);
  }

  lemma LegacyLedger(s: System, limits: Limits, a: Action)
    requires LedgerRight(s) && (a.LegacyRecord? || a.LegacyRelease?)
    ensures LedgerRight(Apply(s, limits, a))
  {
    if a.LegacyRecord? {
      LegacyRecordLedger(s, a.id);
    } else {
      LegacyReleaseLedger(s);
    }
  }

  lemma LimiterActionKeeps(s: System, limits: Limits, a: Action)
    requires Invariant(s, limits) && LimiterAction(a)
    ensures Invariant(Apply(s, limits, a), limits)
  {
    LimiterActionLedger(s, limits, a);
    LimiterActionFrame(s, limits, a);
    LimiterStep(s, Apply(s, limits, a), limits);
  }

  lemma SubsetSize(a: set<string>, b: set<string>)
    requires a <= b
    ensures |a| <= |b|
  {
    assert b == a + (b - a);
  }

  lemma SameHolders(s: System, t: System)
    requires LedgerRight(s) && t.ledger == s.ledger && t.gate.limiter == s.gate.limiter
    requires forall o, y :: Holds(t, o, y) <==> Holds(s, o, y)
    ensures LedgerRight(t)
  {
  }

  // ---------------------------------------------------------------------------
  // Steps of the store, taken from a state in which nothing has expired.

  /** A reservation takes over the slot of the request that makes it. */
  function WithReservation(p: System, r: nat, made: Reservation): System {
    p.(gate := p.gate.(store := p.gate.store.(reservations := p.gate.store.reservations[made.id := made])),
       requests := p.requests[r := HoldsReservation(made)], issued := p.issued + {made.id},
       ledger := Assign(p.ledger, made.slot, ByReservation(made.id)),
       history := p.history.(made := p.history.made[made.id := made]))
  }

  lemma WithReservationLedger(p: System, r: nat, made: Reservation)
    requires LedgerRight(p) && made.id !in p.gate.store.reservations
    requires r in p.requests && p.requests[r].HoldsSlot? && made.slot == Some(p.requests[r].slot)
    ensures LedgerRight(WithReservation(p, r, made))
  {
    var t, x := WithReservation(p, r, made), p.requests[r].slot;
    assert Holds(p, ByRequest(r), x);
    NotLegacy(p, ByRequest(r), x);
    forall o ensures Holds(t, o, x) <==> o == ByReservation(made.id) { assert Holds(p, o, x) <==> o == ByRequest(r); }
    Transfer(p, t, x, Some(ByReservation(made.id)));
  }

  lemma WithReservationRecords(p: System, r: nat, made: Reservation)
    requires WellKeyed(p) && HistoryRight(p) && made.id !in p.issued
    ensures WellKeyed(WithReservation(p, r, made)) && HistoryRight(WithReservation(p, r, made))
  {
  }

  lemma WithReservationInterlock(p: System, r: nat, made: Reservation)
    requires Interlocked(p) && made.agentId !in p.gate.store.removing && made.id !in p.gate.store.reservations
    ensures Interlocked(WithReservation(p, r, made))
  {
    var t := WithReservation(p, r, made);
    forall a | a in p.gate.store.removing ensures !InUse(t.gate.store, a) {
      assert !InUse(p.gate.store, a);
    }
  }

  lemma WithReservationKeeps(p: System, limits: Limits, r: nat, made: Reservation)
    requires Invariant(p, limits) && made.id !in p.issued && made.agentId !in p.gate.store.removing
    requires r in p.requests && p.requests[r].HoldsSlot? && made.slot == Some(p.requests[r].slot)
    requires |p.gate.store.reservations| + |p.gate.store.tickets| < limits.maxOutstanding
    ensures Invariant(WithReservation(p, r, made), limits)
  {
    assert made.id !in p.gate.store.reservations;
    WithReservationLedger(p, r, made);
    WithReservationRecords(p, r, made);
    WithReservationInterlock(p, r, made);
  }

  lemma AskReservationShape(s: System, limits: Limits, r: nat, agentId: string, route: Route, id: string, blocker: Blocker)
    requires r in s.requests && s.requests[r].HoldsSlot? && id !in s.issued
    ensures var p := Prune(s);
            var made := Reserve(s.gate, limits, agentId, route, Some(s.requests[r].slot), id, blocker, s.now).1;
            if made.None? then DoAskReservation(s, limits, r, agentId, route, id, blocker) == p
            else
              && DoAskReservation(s, limits, r, agentId, route, id, blocker) == WithReservation(p, r, made.value)
              && made.value.id == id && made.value.slot == Some(s.requests[r].slot)
              && made.value.agentId !in p.gate.store.removing
              && |p.gate.store.reservations| + |p.gate.store.tickets| < limits.maxOutstanding
  {
  }

  lemma AskReservationKeeps(s: System, limits: Limits, r: nat, agentId: string, route: Route, id: string, blocker: Blocker)
    requires Invariant(s, limits)
    ensures Invariant(DoAskReservation(s, limits, r, agentId, route, id, blocker), limits)
  {
    if r in s.requests && s.requests[r].HoldsSlot? && id !in s.issued {
      PruneKeeps(s, limits);
      AskReservationShape(s, limits, r, agentId, route, id, blocker);
      var made := Reserve(s.gate, limits, agentId, route, Some(s.requests[r].slot), id, blocker, s.now).1;
      if made.Some? { WithReservationKeeps(Prune(s), limits, r, made.value); }
    }
  }

  /** A ticket takes over the slot of the reservation it was committed from. */
  function WithTicket(p: System, r: nat, from: string, t: Ticket): System {
    p.(gate := p.gate.(store := p.gate.store.(
         reservations := p.gate.store.reservations - {from}, tickets := p.gate.store.tickets[t.ticket := t])),
       requests := p.requests - {r}, issued := p.issued + {t.ticket},
       ledger := Assign(p.ledger, t.slot, ByTicket(t.ticket)),
       history := p.history.(
         origin := p.history.origin[t.ticket := from], committed := p.history.committed[t.ticket := t]))
  }

  ghost predicate FromReservation(p: System, from: string, t: Ticket) {
    && from in p.gate.store.reservations
    && t.route == p.gate.store.reservations[from].route && t.slot == p.gate.store.reservations[from].slot
    && (p.gate.store.reservations[from].agentId == "" || p.gate.store.reservations[from].agentId == t.bound.agentId)
  }

  lemma WithTicketLedger(p: System, r: nat, from: string, t: Ticket)
    requires LedgerRight(p) && FromReservation(p, from, t) && t.ticket !in p.gate.store.tickets
    requires r in p.requests && p.requests[r].HoldsReservation?
    ensures LedgerRight(WithTicket(p, r, from, t))
  {
    var u := WithTicket(p, r, from, t);
    if t.slot.Some? {
      var x := t.slot.value;
      assert Holds(p, ByReservation(from), x);
      NotLegacy(p, ByReservation(from), x);
      forall o ensures Holds(u, o, x) <==> o == ByTicket(t.ticket) { assert Holds(p, o, x) <==> o == ByReservation(from); }
      Transfer(p, u, x, Some(ByTicket(t.ticket)));
    } else {
      SameHolders(p, u);
    }
  }

  lemma WithTicketRecords(p: System, r: nat, from: string, t: Ticket)
    requires WellKeyed(p) && HistoryRight(p) && FromReservation(p, from, t) && t.ticket !in p.issued
    ensures WellKeyed(WithTicket(p, r, from, t)) && HistoryRight(WithTicket(p, r, from, t))
  {
  }

  lemma WithTicketInterlock(p: System, r: nat, from: string, t: Ticket)
    requires Interlocked(p) && t.bound.agentId !in p.gate.store.removing && t.ticket !in p.gate.store.tickets
    ensures Interlocked(WithTicket(p, r, from, t))
  {
    var u := WithTicket(p, r, from, t);
    forall a | a in p.gate.store.removing ensures !InUse(u.gate.store, a) {
      assert !InUse(p.gate.store, a);
    }
  }

  lemma WithTicketLimits(p: System, limits: Limits, r: nat, from: string, t: Ticket)
    requires WithinLimits(p, limits) && from in p.gate.store.reservations && t.ticket !in p.gate.store.tickets
    ensures WithinLimits(WithTicket(p, r, from, t), limits)
  {
    var rs := p.gate.store.reservations;
    assert (rs - {from}).Keys == rs.Keys - {from};
    assert |rs - {from}| == |rs| - 1;
  }

  lemma WithTicketKeeps(p: System, limits: Limits, r: nat, from: string, t: Ticket)
    requires Invariant(p, limits) && FromReservation(p, from, t) && t.ticket !in p.issued
    requires t.bound.agentId !in p.gate.store.removing && r in p.requests && p.requests[r].HoldsReservation?
    ensures Invariant(WithTicket(p, r, from, t), limits)
  {
    assert t.ticket !in p.gate.store.tickets;
    WithTicketLedger(p, r, from, t);
    WithTicketRecords(p, r, from, t);
    WithTicketInterlock(p, r, from, t);
    WithTicketLimits(p, limits, r, from, t);
  }

  lemma CommitShape(s: System, r: nat, bound: Binding, up: string, exp: int, id: string, blocker: Blocker)
    requires r in s.requests && s.requests[r].HoldsReservation? && id !in s.issued
    ensures var p, from := Prune(s), s.requests[r].reservation.id;
            var result := Commit(s.gate, from, bound, up, exp, id, blocker, s.now).1;
            if !result.Committed? then DoCommit(s, r, bound, up, exp, id, blocker) == p
            else
              && DoCommit(s, r, bound, up, exp, id, blocker) == WithTicket(p, r, from, result.ticket)
              && FromReservation(p, from, result.ticket) && result.ticket.ticket == id
              && result.ticket.bound.agentId !in p.gate.store.removing
  {
  }

  lemma CommitKeeps(s: System, limits: Limits, r: nat, bound: Binding, up: string, exp: int, id: string, blocker: Blocker)
    requires Invariant(s, limits)
    ensures Invariant(DoCommit(s, r, bound, up, exp, id, blocker), limits)
  {
    if r in s.requests && s.requests[r].HoldsReservation? && id !in s.issued {
      PruneKeeps(s, limits);
      CommitShape(s, r, bound, up, exp, id, blocker);
      var from := s.requests[r].reservation.id;
      var result := Commit(s.gate, from, bound, up, exp, id, blocker, s.now).1;
      if result.Committed? { WithTicketKeeps(Prune(s), limits, r, from, result.ticket); }
    }
  }

  /** Dropping one reservation or one ticket. */
  function WithoutRecord(s: System, reservations: set<string>, tickets: set<string>, active: set<string>): System {
    var st := s.gate.store;
    var freed := ReservationSlots(st.reservations, reservations) + TicketSlots(st.tickets, tickets) + TicketSlots(st.active, active);
    s.(gate := Gate(
         st.(reservations := st.reservations - reservations, tickets := st.tickets - tickets, active := st.active - active),
         Freed(s.gate.limiter, freed)),
       ledger := s.ledger - freed)
  }

  lemma WithoutRecordRest(s: System, limits: Limits, reservations: set<string>, tickets: set<string>, active: set<string>)
    requires WellKeyed(s) && WithinLimits(s, limits) && HistoryRight(s)
    ensures var t := WithoutRecord(s, reservations, tickets, active);
            WellKeyed(t) && WithinLimits(t, limits) && HistoryRight(t)
  {
    FewerEntries(s.gate.store.reservations, reservations);
    FewerEntries(s.gate.store.tickets, tickets);
    SubsetSize(WithoutRecord(s, reservations, tickets, active).gate.limiter.slots, s.gate.limiter.slots);
  }

  lemma WithoutRecordInterlock(s: System, reservations: set<string>, tickets: set<string>, active: set<string>)
    requires Interlocked(s)
    ensures Interlocked(WithoutRecord(s, reservations, tickets, active))
  {
    var t := WithoutRecord(s, reservations, tickets, active);
    forall a | a in s.gate.store.removing ensures !InUse(t.gate.store, a) {
      assert !InUse(s.gate.store, a);
    }
  }

  /** The owner an entry has in the ledger. */
  ghost predicate SingleRecord(s: System, reservations: set<string>, tickets: set<string>, active: set<string>,
                               owner: Owner, slot: Option<string>)
  {
    var st := s.gate.store;
    match owner
    case ByReservation(id) =>
      reservations == {id} && tickets == {} && active == {} && id in st.reservations && slot == st.reservations[id].slot
    case ByTicket(t) =>
      reservations == {} && tickets == {t} && active == {} && t in st.tickets && slot == st.tickets[t].slot
    case ByActive(t) =>
      reservations == {} && tickets == {} && active == {t} && t in st.active && slot == st.active[t].slot
    case _ => false
  }

  lemma SingleRecordSlots(s: System, reservations: set<string>, tickets: set<string>, active: set<string>,
                          owner: Owner, slot: Option<string>)
    requires SingleRecord(s, reservations, tickets, active, owner, slot)
    ensures var st := s.gate.store;
            ReservationSlots(st.reservations, reservations) + TicketSlots(st.tickets, tickets) +
            TicketSlots(st.active, active) == SlotSet(slot)
  {
  }

  lemma WithoutRecordHolds(s: System, reservations: set<string>, tickets: set<string>, active: set<string>,
                           owner: Owner, slot: Option<string>)
    requires SingleRecord(s, reservations, tickets, active, owner, slot)
    requires WithoutAll(s.gate.limiter.legacy, SlotSet(slot)) == s.gate.limiter.legacy
    ensures var t := WithoutRecord(s, reservations, tickets, active);
            && t.gate.limiter == s.gate.limiter.(slots := s.gate.limiter.slots - SlotSet(slot))
            && t.ledger == s.ledger - SlotSet(slot)
            && forall o, y :: Holds(t, o, y) <==> Holds(s, o, y) && o != owner
  {
    SingleRecordSlots(s, reservations, tickets, active, owner, slot);
  }

  lemma WithoutRecordLedger(s: System, reservations: set<string>, tickets: set<string>, active: set<string>,
                            owner: Owner, slot: Option<string>)
    requires LedgerRight(s) && SingleRecord(s, reservations, tickets, active, owner, slot)
    ensures LedgerRight(WithoutRecord(s, reservations, tickets, active))
  {
    var t := WithoutRecord(s, reservations, tickets, active);
    assert forall y :: Holds(s, owner, y) <==> slot == Some(y);
    if slot.Some? {
      assert Holds(s, owner, slot.value);
      NotLegacy(s, owner, slot.value);
    }
    NothingToDrop(s.gate.limiter.legacy, SlotSet(slot));
    WithoutRecordHolds(s, reservations, tickets, active, owner, slot);
    RecordFreed(s, t, owner, slot);
  }

  lemma RecordFreed(s: System, t: System, owner: Owner, slot: Option<string>)
    requires LedgerRight(s) && t.gate.limiter == s.gate.limiter.(slots := s.gate.limiter.slots - SlotSet(slot))
    requires t.ledger == s.ledger - SlotSet(slot)
    requires forall o, y :: Holds(t, o, y) <==> Holds(s, o, y) && o != owner
    requires forall y :: Holds(s, owner, y) <==> slot == Some(y)
    ensures LedgerRight(t)
  {
    forall o, y | Holds(t, o, y) ensures y in t.ledger && t.ledger[y] == o {
      assert Holds(s, o, y);
    }
    forall y | y in t.ledger ensures Holds(t, t.ledger[y], y) {
      assert Holds(s, s.ledger[y], y);
    }
  }

  lemma WithoutRecordKeeps(s: System, limits: Limits, reservations: set<string>, tickets: set<string>, active: set<string>,
                           owner: Owner, slot: Option<string>)
    requires Invariant(s, limits) && SingleRecord(s, reservations, tickets, active, owner, slot)
    ensures Invariant(WithoutRecord(s, reservations, tickets, active), limits)
  {
    WithoutRecordLedger(s, reservations, tickets, active, owner, slot);
    WithoutRecordRest(s, limits, reservations, tickets, active);
    WithoutRecordInterlock(s, reservations, tickets, active);
  }

  /** A request that is over no longer counts; what it reserved is not its own to hold. */
  lemma ForgetRequestLedger(s: System, r: nat)
    requires LedgerRight(s) && r in s.requests && s.requests[r].HoldsReservation?
    ensures LedgerRight(s.(requests := s.requests - {r}))
  {
    SameHolders(s, s.(requests := s.requests - {r}));
  }

  lemma ForgetRequest(s: System, limits: Limits, r: nat)
    requires Invariant(s, limits) && r in s.requests && s.requests[r].HoldsReservation?
    ensures Invariant(s.(requests := s.requests - {r}), limits)
  {
    ForgetRequestLedger(s, r);
    var t := s.(requests := s.requests - {r});
    assert LimiterFrame(s, t, limits);
    LimiterStep(s, t, limits);
  }

  lemma FinishKeeps(s: System, limits: Limits, r: nat)
    requires Invariant(s, limits)
    ensures Invariant(DoFinish(s, r), limits)
  {
    if r in s.requests && s.requests[r].HoldsReservation? {
      var id, st := s.requests[r].reservation.id, s.gate.store;
      if id in st.reservations {
        var t := WithoutRecord(s, {id}, {}, {});
        WithoutRecordKeeps(s, limits, {id}, {}, {}, ByReservation(id), st.reservations[id].slot);
        ForgetRequest(t, limits, r);
        FinishShape(s, r);
      } else {
        ForgetRequest(s, limits, r);
        assert s.ledger - ReservationSlots(st.reservations, {id}) == s.ledger;
      }
    }
  }

  lemma FinishShape(s: System, r: nat)
    requires r in s.requests && s.requests[r].HoldsReservation? && s.requests[r].reservation.id in s.gate.store.reservations
    ensures var id := s.requests[r].reservation.id;
            DoFinish(s, r) == WithoutRecord(s, {id}, {}, {}).(requests := s.requests - {r})
  {
    var id, st := s.requests[r].reservation.id, s.gate.store;
    assert TicketSlots(st.tickets, {}) == {} && TicketSlots(st.active, {}) == {};
    assert st.tickets - {} == st.tickets && st.active - {} == st.active;
    assert ReservationSlots(st.reservations, {id}) + {} + {} == ReservationSlots(st.reservations, {id});
  }

  lemma EndSessionKeeps(s: System, limits: Limits, t: string)
    requires Invariant(s, limits)
    ensures Invariant(DoEndSession(s, t), limits)
  {
    if t in s.gate.store.active {
      WithoutRecordKeeps(s, limits, {}, {}, {t}, ByActive(t), s.gate.store.active[t].slot);
      EndSessionShape(s, t);
    }
  }

  lemma EndSessionShape(s: System, t: string)
    requires t in s.gate.store.active
    ensures DoEndSession(s, t) == WithoutRecord(s, {}, {}, {t})
  {
    var st := s.gate.store;
    SingleRecordSlots(s, {}, {}, {t}, ByActive(t), st.active[t].slot);
    assert st.tickets - {} == st.tickets && st.reservations - {} == st.reservations;
  }

  /** An accepted ticket becomes an active session and keeps its slot. */
  function WithSession(s: System, t: string): System
    requires t in s.gate.store.tickets
  {
    var st := s.gate.store;
    var rec := st.tickets[t];
    s.(gate := s.gate.(store := st.(tickets := st.tickets - {t}, active := st.active[rec.ticket := rec])),
       ledger := Assign(s.ledger, rec.slot, ByActive(t)),
       history := s.history.(accepted := s.history.accepted + {t}))
  }

  lemma WithSessionLedger(s: System, t: string)
    requires LedgerRight(s) && t in s.gate.store.tickets && s.gate.store.tickets[t].ticket == t && t !in s.gate.store.active
    ensures LedgerRight(WithSession(s, t))
  {
    var u, slot := WithSession(s, t), s.gate.store.tickets[t].slot;
    if slot.Some? {
      var x := slot.value;
      assert Holds(s, ByTicket(t), x);
      NotLegacy(s, ByTicket(t), x);
      forall o ensures Holds(u, o, x) <==> o == ByActive(t) { assert Holds(s, o, x) <==> o == ByTicket(t); }
      Transfer(s, u, x, Some(ByActive(t)));
    } else {
      SameHolders(s, u);
    }
  }

  lemma WithSessionRecords(s: System, t: string)
    requires WellKeyed(s) && HistoryRight(s) && t in s.gate.store.tickets
    ensures WellKeyed(WithSession(s, t)) && HistoryRight(WithSession(s, t))
  {
  }

  lemma WithSessionLimits(s: System, limits: Limits, t: string)
    requires WithinLimits(s, limits) && t in s.gate.store.tickets
    ensures WithinLimits(WithSession(s, t), limits)
  {
    FewerEntries(s.gate.store.tickets, {t});
  }

  lemma WithSessionInterlock(s: System, t: string)
    requires Interlocked(s) && t in s.gate.store.tickets
    ensures Interlocked(WithSession(s, t))
  {
    forall a | a in s.gate.store.removing ensures !InUse(WithSession(s, t).gate.store, a) {
      assert !InUse(s.gate.store, a);
    }
  }

  lemma ConsumeShape(s: System, t: string, actorId: Option<string>, agentId: string, terminalId: string, wsPath: string)
    ensures var (g, result) := Consume(s.gate, t, actorId, agentId, terminalId, wsPath, s.now);
            var u := DoConsume(s, t, actorId, agentId, terminalId, wsPath);
            if result.status == Ok then t in s.gate.store.tickets && u == WithSession(s, t)
            else u == s || (t in s.gate.store.tickets && u == WithoutRecord(s, {}, {t}, {}))
  {
    var st := s.gate.store;
    if t in st.tickets {
      SingleRecordSlots(s, {}, {t}, {}, ByTicket(t), st.tickets[t].slot);
      assert ReservationSlots(st.reservations, {}) == {} && TicketSlots(st.active, {}) == {};
      assert {} + TicketSlots(st.tickets, {t}) == TicketSlots(st.tickets, {t}) == SlotSet(st.tickets[t].slot);
      assert st.reservations - {} == st.reservations && st.active - {} == st.active;
    }
  }

  lemma ConsumeKeeps(s: System, limits: Limits, t: string, actorId: Option<string>, agentId: string, terminalId: string,
                     wsPath: string)
    requires Invariant(s, limits)
    ensures Invariant(DoConsume(s, t, actorId, agentId, terminalId, wsPath), limits)
  {
    ConsumeShape(s, t, actorId, agentId, terminalId, wsPath);
    if t in s.gate.store.tickets {
      WithoutRecordKeeps(s, limits, {}, {t}, {}, ByTicket(t), s.gate.store.tickets[t].slot);
      assert t !in s.gate.store.active;
      WithSessionLedger(s, t);
      WithSessionRecords(s, t);
      WithSessionLimits(s, limits, t);
      WithSessionInterlock(s, t);
    }
  }

  function WithMark(p: System, k: nat, agentId: string): System {
    p.(gate := p.gate.(store := p.gate.store.(removing := p.gate.store.removing + {agentId})),
       removals := p.removals[k := agentId])
  }

  lemma WithMarkInterlock(p: System, k: nat, agentId: string)
    requires Interlocked(p) && k !in p.removals
    requires agentId !in p.gate.store.removing && !InUse(p.gate.store, agentId)
    ensures Interlocked(WithMark(p, k, agentId))
  {
    var t := WithMark(p, k, agentId);
    forall a | a in t.gate.store.removing
      ensures !InUse(t.gate.store, a) && exists j :: j in t.removals && t.removals[j] == a
    {
      if a == agentId {
        assert t.removals[k] == a;
      } else {
        assert !InUse(p.gate.store, a);
        var j :| j in p.removals && p.removals[j] == a;
        assert t.removals[j] == a;
      }
    }
  }

  lemma WithMarkKeeps(p: System, limits: Limits, k: nat, agentId: string)
    requires Invariant(p, limits) && k !in p.removals
    requires agentId !in p.gate.store.removing && !InUse(p.gate.store, agentId)
    ensures Invariant(WithMark(p, k, agentId), limits)
  {
    MarkLedger(p, WithMark(p, k, agentId));
    IssuedUnchanged(p, WithMark(p, k, agentId));
    WithMarkInterlock(p, k, agentId);
  }

  ghost predicate OnlyMarksDiffer(p: System, t: System) {
    && t.gate.limiter == p.gate.limiter && t.gate.store.(removing := {}) == p.gate.store.(removing := {})
    && t.issued == p.issued && t.history == p.history && t.requests == p.requests
    && t.acquiring == p.acquiring && t.ledger == p.ledger
  }

  lemma MarkLedger(p: System, t: System)
    requires LedgerRight(p) && OnlyMarksDiffer(p, t)
    ensures LedgerRight(t)
  {
    SameHolders(p, t);
  }

  /** Marks do not appear in records. */
  lemma IssuedUnchanged(p: System, t: System)
    requires WellKeyed(p) && HistoryRight(p)
    requires OnlyMarksDiffer(p, t)
    ensures WellKeyed(t) && HistoryRight(t)
  {
  }

  lemma StartRemovalShape(s: System, k: nat, agentId: string)
    requires k !in s.removals
    ensures var p := Prune(s);
            if BeginRemoval(s.gate, agentId, s.now).1 then
              && DoStartRemoval(s, k, agentId) == WithMark(p, k, agentId)
              && agentId !in p.gate.store.removing && !InUse(p.gate.store, agentId)
            else DoStartRemoval(s, k, agentId) == p
  {
  }

  lemma StartRemovalKeeps(s: System, limits: Limits, k: nat, agentId: string)
    requires Invariant(s, limits)
    ensures Invariant(DoStartRemoval(s, k, agentId), limits)
  {
    if k !in s.removals {
      PruneKeeps(s, limits);
      StartRemovalShape(s, k, agentId);
      if BeginRemoval(s.gate, agentId, s.now).1 { WithMarkKeeps(Prune(s), limits, k, agentId); }
    }
  }

  lemma StopRemovalInterlock(s: System, k: nat)
    requires Interlocked(s) && k in s.removals
    ensures Interlocked(DoStopRemoval(s, k))
  {
    var t := DoStopRemoval(s, k);
    forall a | a in t.gate.store.removing
      ensures !InUse(t.gate.store, a) && exists j :: j in t.removals && t.removals[j] == a
    {
      assert !InUse(s.gate.store, a);
      var j :| j in s.removals && s.removals[j] == a;
      assert t.removals[j] == a;
    }
  }

  lemma StopRemovalKeeps(s: System, limits: Limits, k: nat)
    requires Invariant(s, limits)
    ensures Invariant(DoStopRemoval(s, k), limits)
  {
    if k in s.removals {
      MarkLedger(s, DoStopRemoval(s, k));
      IssuedUnchanged(s, DoStopRemoval(s, k));
      StopRemovalInterlock(s, k);
    }
  }

  lemma TickKeeps(s: System, limits: Limits, to: int)
    requires Invariant(s, limits)
    ensures Invariant(s.(now := to), limits)
  {
    MarkLedger(s, s.(now := to));
  }

  // ---------------------------------------------------------------------------
  // One lemma for each action, about the whole invariant.

  lemma TickKept(s: System, limits: Limits, to: int)
    requires Kept(s, limits)
    ensures Kept(s.(now := to), limits)
  {
    KeptIsInvariant(s, limits);
    TickKeeps(s, limits, to);
    KeptIsInvariant(s.(now := to), limits);
  }

  lemma AskReservationKept(s: System, limits: Limits, r: nat, agentId: string, route: Route, id: string, blocker: Blocker)
    requires Kept(s, limits)
    ensures Kept(DoAskReservation(s, limits, r, agentId, route, id, blocker), limits)
  {
    KeptIsInvariant(s, limits);
    AskReservationKeeps(s, limits, r, agentId, route, id, blocker);
    KeptIsInvariant(DoAskReservation(s, limits, r, agentId, route, id, blocker), limits);
  }

  lemma CommitKept(s: System, limits: Limits, r: nat, bound: Binding, up: string, exp: int, id: string, blocker: Blocker)
    requires Kept(s, limits)
    ensures Kept(DoCommit(s, r, bound, up, exp, id, blocker), limits)
  {
    KeptIsInvariant(s, limits);
    CommitKeeps(s, limits, r, bound, up, exp, id, blocker);
    KeptIsInvariant(DoCommit(s, r, bound, up, exp, id, blocker), limits);
  }

  lemma FinishKept(s: System, limits: Limits, r: nat)
    requires Kept(s, limits)
    ensures Kept(DoFinish(s, r), limits)
  {
    KeptIsInvariant(s, limits);
    FinishKeeps(s, limits, r);
    KeptIsInvariant(DoFinish(s, r), limits);
  }

  lemma ConsumeKept(s: System, limits: Limits, t: string, actor: Option<string>, agent: string, terminal: string, path: string)
    requires Kept(s, limits)
    ensures Kept(DoConsume(s, t, actor, agent, terminal, path), limits)
  {
    KeptIsInvariant(s, limits);
    ConsumeKeeps(s, limits, t, actor, agent, terminal, path);
    KeptIsInvariant(DoConsume(s, t, actor, agent, terminal, path), limits);
  }

  lemma EndSessionKept(s: System, limits: Limits, t: string)
    requires Kept(s, limits)
    ensures Kept(DoEndSession(s, t), limits)
  {
    KeptIsInvariant(s, limits);
    EndSessionKeeps(s, limits, t);
    KeptIsInvariant(DoEndSession(s, t), limits);
  }

  lemma PruneKept(s: System, limits: Limits)
    requires Kept(s, limits)
    ensures Kept(Prune(s), limits)
  {
    KeptIsInvariant(s, limits);
    PruneKeeps(s, limits);
    KeptIsInvariant(Prune(s), limits);
  }

  lemma StartRemovalKept(s: System, limits: Limits, k: nat, agentId: string)
    requires Kept(s, limits)
    ensures Kept(DoStartRemoval(s, k, agentId), limits)
  {
    KeptIsInvariant(s, limits);
    StartRemovalKeeps(s, limits, k, agentId);
    KeptIsInvariant(DoStartRemoval(s, k, agentId), limits);
  }

  lemma StopRemovalKept(s: System, limits: Limits, k: nat)
    requires Kept(s, limits)
    ensures Kept(DoStopRemoval(s, k), limits)
  {
    KeptIsInvariant(s, limits);
    StopRemovalKeeps(s, limits, k);
    KeptIsInvariant(DoStopRemoval(s, k), limits);
  }

  lemma LimiterActionKept(s: System, limits: Limits, a: Action)
    requires Kept(s, limits) && LimiterAction(a)
    ensures Kept(Apply(s, limits, a), limits)
  {
    KeptIsInvariant(s, limits);
    LimiterActionKeeps(s, limits, a);
    KeptIsInvariant(Apply(s, limits, a), limits);
  }

  /** Every action keeps the invariant. */
  lemma StepKeeps(s: System, limits: Limits, a: Action)
    requires Kept(s, limits)
    ensures Kept(Apply(s, limits, a), limits)
  {
    match a
    case Tick(to) => TickKept(s, limits, to);
    case AskReservation(r, agentId, route, id, blocker) => AskReservationKept(s, limits, r, agentId, route, id, blocker);
    case CommitTicket(r, bound, up, exp, id, blocker) => CommitKept(s, limits, r, bound, up, exp, id, blocker);
    case Finish(r) => FinishKept(s, limits, r);
    case ConsumeTicket(t, actor, agent, terminal, path) => ConsumeKept(s, limits, t, actor, agent, terminal, path);
    case EndSession(t) => EndSessionKept(s, limits, t);
    case CheckUsage => PruneKept(s, limits);
    case StartRemoval(k, agentId) => StartRemovalKept(s, limits, k, agentId);
    case StopRemoval(k) => StopRemovalKept(s, limits, k);
    case _ => LimiterActionKept(s, limits, a);
  }

  lemma InitiallyKept(limits: Limits)
    ensures Kept(Initial(), limits)
  {
    assert forall o, x :: !Holds(Initial(), o, x);
  }

  lemma {:induction false} RunKeeps(limits: Limits, states: seq<System>, actions: seq<Action>, k: nat)
    requires IsRun(limits, states, actions) && k < |states|
    ensures Kept(states[k], limits)
    decreases k
  {
    if k == 0 {
      InitiallyKept(limits);
    } else {
      RunKeeps(limits, states, actions, k - 1);
      StepKeeps(states[k - 1], limits, actions[k - 1]);
      assert states[k] == Apply(states[k - 1], limits, actions[k - 1]);
    }
  }

  /** The invariant holds in every state of every run. */
  lemma RunInvariant(limits: Limits, states: seq<System>, actions: seq<Action>, k: nat)
    requires IsRun(limits, states, actions) && k < |states|
    ensures Invariant(states[k], limits)
  {
    RunKeeps(limits, states, actions, k);
    KeptIsInvariant(states[k], limits);
  }

  // ---------------------------------------------------------------------------
  // What follows for every run.

  /**
   * Slot conservation: after any run the occupied slots are exactly those that a
   * request, a reservation, an unused ticket, an active session or a legacy
   * acquirer holds, each of them held once, and both limits are respected.
   */
  lemma SlotConservation(limits: Limits, states: seq<System>, actions: seq<Action>, k: nat)
    requires IsRun(limits, states, actions) && k < |states|
    ensures var s := states[k];
            && (forall x :: x in s.gate.limiter.slots <==> exists o :: Holds(s, o, x))
            && (forall x, o, p :: Holds(s, o, x) && Holds(s, p, x) ==> o == p)
            && Distinct(s.gate.limiter.legacy)
            && |s.gate.limiter.slots| <= limits.maxActive
            && |s.gate.store.reservations| + |s.gate.store.tickets| <= limits.maxOutstanding
  {
    RunInvariant(limits, states, actions, k);
    var s := states[k];
    forall x | x in s.gate.limiter.slots ensures exists o :: Holds(s, o, x) {
      assert Holds(s, s.ledger[x], x);
    }
  }

  /** While an Agent is marked no record names it, and every mark belongs to exactly one removal under way. */
  lemma RemovalInterlock(limits: Limits, states: seq<System>, actions: seq<Action>, k: nat, agentId: string)
    requires IsRun(limits, states, actions) && k < |states|
    requires agentId in states[k].gate.store.removing
    ensures var s := states[k];
            && !InUse(s.gate.store, agentId)
            && (exists j :: j in s.removals && s.removals[j] == agentId)
            && (forall i, j :: i in s.removals && j in s.removals && s.removals[i] == s.removals[j] == agentId ==> i == j)
  {
    RunInvariant(limits, states, actions, k);
  }

  lemma MarkStep(s: System, limits: Limits, a: Action)
    ensures !a.StartRemoval? && !a.StopRemoval? ==> Apply(s, limits, a).gate.store.removing == s.gate.store.removing
  {
    match a
    case AskReservation(r, agentId, route, id, blocker) =>
      if r in s.requests && s.requests[r].HoldsSlot? && id !in s.issued {
        AskReservationShape(s, limits, r, agentId, route, id, blocker);
      }
    case CommitTicket(r, bound, up, exp, id, blocker) =>
      if r in s.requests && s.requests[r].HoldsReservation? && id !in s.issued {
        CommitShape(s, r, bound, up, exp, id, blocker);
      }
    case ConsumeTicket(t, actor, agent, terminal, path) => ConsumeShape(s, t, actor, agent, terminal, path);
    case _ =>
  }

  /** A mark appears only when a removal sets it on an unused Agent, and goes only when that removal ends. */
  lemma MarksChangeOnlyByTheirRemoval(s: System, limits: Limits, a: Action, agentId: string)
    ensures agentId in s.gate.store.removing && agentId !in Apply(s, limits, a).gate.store.removing ==>
              a.StopRemoval? && a.removal in s.removals && s.removals[a.removal] == agentId
    ensures agentId !in s.gate.store.removing && agentId in Apply(s, limits, a).gate.store.removing ==>
              a.StartRemoval? && a.agentId == agentId && !InUse(Pruned(s.gate, s.now).store, agentId)
  {
    MarkStep(s, limits, a);
    if a.StartRemoval? && a.removal !in s.removals {
      StartRemovalShape(s, a.removal, a.agentId);
    }
  }

  predicate Accepts(s: System, a: Action, ticket: string) {
    a.ConsumeTicket? && a.ticket == ticket &&
    Consume(s.gate, a.ticket, a.actorId, a.agentId, a.terminalId, a.wsPath, s.now).1.status == Ok
  }

  /** What is true when `a` accepts a ticket in state `s`. */
  ghost predicate AcceptedRightly(s: System, a: Action) {
    && a.ConsumeTicket? && a.ticket in s.history.committed && a.ticket !in s.history.accepted
    && var t := s.history.committed[a.ticket];
    && s.now < t.expiresAt
    && t.bound.agentId == a.agentId && t.bound.terminalId == a.terminalId && t.bound.wsPath == a.wsPath
    && (a.actorId.Some? ==> t.bound.actorId == a.actorId.value)
    && a.ticket in s.history.origin && s.history.origin[a.ticket] in s.history.made
    && t.route == s.history.made[s.history.origin[a.ticket]].route
    && Consume(s.gate, a.ticket, a.actorId, a.agentId, a.terminalId, a.wsPath, s.now).1.record == Some(t)
  }

  /** A ticket is accepted only before it expires, for what it was committed for, with the route its reservation captured. */
  lemma AcceptedForItsBinding(limits: Limits, states: seq<System>, actions: seq<Action>, k: nat, ticket: string)
    requires IsRun(limits, states, actions) && k < |actions| && Accepts(states[k], actions[k], ticket)
    ensures AcceptedRightly(states[k], actions[k])
  {
    RunInvariant(limits, states, actions, k);
  }

  /** The accepted tickets stay accepted, and one that is accepted now joins them. */
  ghost predicate AcceptedGrows(s: System, t: System, a: Action, ticket: string) {
    ticket in s.history.accepted || Accepts(s, a, ticket) ==> ticket in t.history.accepted
  }

  lemma ReservationAccepts(s: System, limits: Limits, a: Action, ticket: string)
    requires a.AskReservation?
    ensures AcceptedGrows(s, Apply(s, limits, a), a, ticket)
  {
    if a.request in s.requests && s.requests[a.request].HoldsSlot? && a.id !in s.issued {
      AskReservationShape(s, limits, a.request, a.agentId, a.route, a.id, a.blocker);
    }
  }

  lemma CommitAccepts(s: System, limits: Limits, a: Action, ticket: string)
    requires a.CommitTicket?
    ensures AcceptedGrows(s, Apply(s, limits, a), a, ticket)
  {
    if a.request in s.requests && s.requests[a.request].HoldsReservation? && a.id !in s.issued {
      CommitShape(s, a.request, a.bound, a.upstreamTicket, a.expiresAt, a.id, a.blocker);
    }
  }

  lemma ConsumeAccepts(s: System, limits: Limits, a: Action, ticket: string)
    requires a.ConsumeTicket?
    ensures AcceptedGrows(s, Apply(s, limits, a), a, ticket)
  {
    ConsumeShape(s, a.ticket, a.actorId, a.agentId, a.terminalId, a.wsPath);
  }

  lemma AcceptedStep(s: System, limits: Limits, a: Action, ticket: string)
    ensures AcceptedGrows(s, Apply(s, limits, a), a, ticket)
  {
    if a.AskReservation? {
      ReservationAccepts(s, limits, a, ticket);
    } else if a.CommitTicket? {
      CommitAccepts(s, limits, a, ticket);
    } else if a.ConsumeTicket? {
      ConsumeAccepts(s, limits, a, ticket);
    }
  }

  lemma {:induction false} AcceptedForever(limits: Limits, states: seq<System>, actions: seq<Action>, i: nat, j: nat,
                                           ticket: string)
    requires IsRun(limits, states, actions) && i < j < |states| && Accepts(states[i], actions[i], ticket)
    ensures ticket in states[j].history.accepted
  {
    AcceptedStep(states[j - 1], limits, actions[j - 1], ticket);
    if i < j - 1 { AcceptedForever(limits, states, actions, i, j - 1, ticket); }
  }

  /** Over any run a ticket is accepted at most once. */
  lemma AcceptedAtMostOnce(limits: Limits, states: seq<System>, actions: seq<Action>, i: nat, j: nat, ticket: string)
    requires IsRun(limits, states, actions) && i < |actions| && j < |actions|
    requires Accepts(states[i], actions[i], ticket) && Accepts(states[j], actions[j], ticket)
    ensures i == j
  {
    AcceptedForItsBinding(limits, states, actions, i, ticket);
    AcceptedForItsBinding(limits, states, actions, j, ticket);
    if i < j { AcceptedForever(limits, states, actions, i, j, ticket); }
    if j < i { AcceptedForever(limits, states, actions, j, i, ticket); }
  }
}
