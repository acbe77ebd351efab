/**
 * What the gateway ticket store and the proxy limiter
 * (backend/ic_env_guard/agents/terminal_proxy.py) compute, call by call, as
 * functions on values.  `Gateway.dfy` holds the classes that are proved to
 * compute these, `GatewayRuns.dfy` what follows for every run.
 */
module GatewaySpec {
  import opened Wrappers

  /** The registry facts captured when a reservation is made. */
  datatype Route = Route(
    revision: Option<int>,
    credentialRef: Option<string>,
    transportProfileId: Option<string>,
    normalizedEndpoint: Option<string>,
    enrollmentMethod: Option<string>,
    source: Option<string>)

  datatype Reservation = Reservation(
    id: string, agentId: string, expiresAt: int, route: Route, slot: Option<string>)

  /** What a connect-token request commits a reservation for. */
  datatype Binding = Binding(actorId: string, agentId: string, terminalId: string, wsPath: string)

  datatype Ticket = Ticket(
    ticket: string, bound: Binding, upstreamTicket: string, expiresAt: int, route: Route, slot: Option<string>)

  datatype Store = Store(
    reservations: map<string, Reservation>,
    tickets: map<string, Ticket>,
    active: map<string, Ticket>,
    removing: set<string>)

  /** The occupied slots, and those of them that `try_acquire` handed out. */
  datatype Limiter = Limiter(slots: set<string>, legacy: seq<string>)

  datatype Gate = Gate(store: Store, limiter: Limiter)

  datatype Limits = Limits(maxOutstanding: nat, maxActive: nat, reservationTtl: int)

  /** What the durable removal check answers. */
  datatype Blocker = NoBlocker | Answers(blocked: bool) | Raises

  predicate DurablyBlocked(agentId: string, blocker: Blocker) {
    agentId != "" && (blocker.Raises? || (blocker.Answers? && blocker.blocked))
  }

  // ---------------------------------------------------------------------------
  // The limiter.

  function WithoutAll(xs: seq<string>, dropped: set<string>): (ys: seq<string>)
    ensures forall y :: y in ys <==> y in xs && y !in dropped
  {
    if xs == [] then []
    else if xs[0] in dropped then WithoutAll(xs[1..], dropped)
    else [xs[0]] + WithoutAll(xs[1..], dropped)
  }

  function Freed(l: Limiter, slots: set<string>): Limiter {
    Limiter(l.slots - slots, WithoutAll(l.legacy, slots))
  }

  function SlotSet(slot: Option<string>): set<string> {
    if slot.Some? then {slot.value} else {}
  }

  /** `GatewayProxyLimiter.reserve`, drawing `identifier`. */
  function Occupied(l: Limiter, maxActive: nat, identifier: string): (Limiter, Option<string>) {
    if |l.slots| >= maxActive then (l, None)
    else (l.(slots := l.slots + {identifier}), Some(identifier))
  }

  /** `GatewayProxyLimiter.release()`: the slot acquired last without a record. */
  function LegacyReleased(l: Limiter): Limiter {
    if l.legacy == [] then l
    else
      var last := |l.legacy| - 1;
      Limiter(l.slots - {l.legacy[last]}, l.legacy[..last])
  }

  // ---------------------------------------------------------------------------
  // The store.

  function ExpiredReservations(s: Store, now: int): set<string> {
    set id | id in s.reservations && s.reservations[id].expiresAt <= now
  }

  function ExpiredTickets(s: Store, now: int): set<string> {
    set t | t in s.tickets && s.tickets[t].expiresAt <= now
  }

  function ReservationSlots(rs: map<string, Reservation>, ids: set<string>): set<string> {
    set id | id in ids && id in rs && rs[id].slot.Some? :: rs[id].slot.value
  }

  function TicketSlots(ts: map<string, Ticket>, ids: set<string>): set<string> {
    set t | t in ids && t in ts && ts[t].slot.Some? :: ts[t].slot.value
  }

  /** Forgets reservations and tickets and frees their slots. */
  function Dropped(g: Gate, reservations: set<string>, tickets: set<string>): Gate {
    Gate(
      g.store.(reservations := g.store.reservations - reservations, tickets := g.store.tickets - tickets),
      Freed(g.limiter, ReservationSlots(g.store.reservations, reservations) + TicketSlots(g.store.tickets, tickets)))
  }

  /** `_prune_expired_unlocked` */
  function Pruned(g: Gate, now: int): Gate {
    Dropped(g, ExpiredReservations(g.store, now), ExpiredTickets(g.store, now))
  }

  function Reserve(g: Gate, limits: Limits, agentId: string, route: Route, slot: Option<string>,
                   id: string, blocker: Blocker, now: int): (Gate, Option<Reservation>)
  {
    var p := Pruned(g, now);
    if agentId in p.store.removing || DurablyBlocked(agentId, blocker) then (p, None)
    else if |p.store.reservations| + |p.store.tickets| >= limits.maxOutstanding then (p, None)
    else
      var r := Reservation(id, agentId, now + limits.reservationTtl, route, slot);
      (p.(store := p.store.(reservations := p.store.reservations[id := r])), Some(r))
  }

  function ReleaseReservation(g: Gate, id: string): Gate {
    if id in g.store.reservations then Dropped(g, {id}, {}) else g
  }

  /** `commit` raises `ValueError` in three cases; each leaves the reservation where it was. */
  datatype CommitResult = Committed(ticket: Ticket) | NotActive | OtherAgent | RemovalInProgress

  function Commit(g: Gate, reservationId: string, bound: Binding, upstreamTicket: string, expiresAt: int,
                  ticket: string, blocker: Blocker, now: int): (Gate, CommitResult)
  {
    var p := Pruned(g, now);
    if reservationId !in p.store.reservations then (p, NotActive)
    else
      var r := p.store.reservations[reservationId];
      if r.agentId != "" && r.agentId != bound.agentId then (p, OtherAgent)
      else if bound.agentId in p.store.removing || DurablyBlocked(bound.agentId, blocker) then (p, RemovalInProgress)
      else
        var t := Ticket(ticket, bound, upstreamTicket, expiresAt, r.route, r.slot);
        (p.(store := p.store.(
              reservations := p.store.reservations - {reservationId},
              tickets := p.store.tickets[ticket := t])), Committed(t))
  }

  datatype ConsumeStatus = Ok | Invalid | ActorMismatch

  datatype ConsumeResult = ConsumeResult(status: ConsumeStatus, record: Option<Ticket>)

  function Consume(g: Gate, ticket: string, actorId: Option<string>, agentId: string, terminalId: string,
                   wsPath: string, now: int): (Gate, ConsumeResult)
  {
    if ticket !in g.store.tickets then (g, ConsumeResult(Invalid, None))
    else
      var t := g.store.tickets[ticket];
      if t.expiresAt <= now then (Dropped(g, {}, {ticket}), ConsumeResult(Invalid, None))
      else if actorId.Some? && t.bound.actorId != actorId.value then (g, ConsumeResult(ActorMismatch, Some(t)))
      else if t.bound.agentId != agentId || t.bound.terminalId != terminalId || t.bound.wsPath != wsPath then
        (g, ConsumeResult(Invalid, None))
      else
        (g.(store := g.store.(tickets := g.store.tickets - {ticket}, active := g.store.active[t.ticket := t])),
         ConsumeResult(Ok, Some(t)))
  }

  function ReleaseActive(g: Gate, ticket: string): Gate {
    if ticket in g.store.active then
      Gate(g.store.(active := g.store.active - {ticket}), Freed(g.limiter, SlotSet(g.store.active[ticket].slot)))
    else g
  }

  /** Some record of any kind names the Agent. */
  predicate InUse(s: Store, agentId: string) {
    || (exists id :: id in s.reservations && s.reservations[id].agentId == agentId)
    || (exists t :: t in s.tickets && s.tickets[t].bound.agentId == agentId)
    || (exists t :: t in s.active && s.active[t].bound.agentId == agentId)
  }

  function BeginRemoval(g: Gate, agentId: string, now: int): (Gate, bool) {
    var p := Pruned(g, now);
    if agentId in p.store.removing || InUse(p.store, agentId) then (p, false)
    else (p.(store := p.store.(removing := p.store.removing + {agentId})), true)
  }

  function EndRemoval(g: Gate, agentId: string): Gate {
    g.(store := g.store.(removing := g.store.removing - {agentId}))
  }
}
