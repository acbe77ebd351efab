/**
 * The gateway ticket store and the proxy limiter as the objects they are
 * (backend/ic_env_guard/agents/terminal_proxy.py).  Each public method runs
 * under a lock, so one call is one atomic step.  Random identifiers and the
 * clock's reading are arguments.
 */
module Gateway {
  import opened Wrappers
  import opened GatewaySpec

  class GatewayProxyLimiter {
    const maxActive: nat
    var slots: set<string>
    var legacy: seq<string>

    ghost function Contents(): Limiter
      reads this
    {
      Limiter(slots, legacy)
    }

    constructor (maxActive: nat)
      ensures this.maxActive == maxActive && Contents() == Limiter({}, [])
    {
      this.maxActive := maxActive;
      slots, legacy := {}, [];
    }

    method Reserve(identifier: string) returns (slot: Option<string>)
      modifies this
      ensures (Contents(), slot) == Occupied(old(Contents()), maxActive, identifier)
    {
      if |slots| >= maxActive { return None; }
      slots := slots + {identifier};
      slot := Some(identifier);
    }

    method TryAcquire(identifier: string) returns (acquired: bool)
      modifies this
      ensures var (l, slot) := Occupied(old(Contents()), maxActive, identifier);
              && acquired == slot.Some?
              && Contents() == if acquired then l.(legacy := l.legacy + [identifier]) else l
    {
      var slot := Reserve(identifier);
      if slot.None? { return false; }
      legacy := legacy + [identifier];
      acquired := true;
    }

    method Release(slot: string)
      modifies this
      ensures Contents() == Freed(old(Contents()), {slot})
    {
      legacy := WithoutAll(legacy, {slot});
      slots := slots - {slot};
    }

    method ReleaseLegacy()
      modifies this
      ensures Contents() == LegacyReleased(old(Contents()))
    {
      if legacy != [] {
        var last := |legacy| - 1;
        slots := slots - {legacy[last]};
        legacy := legacy[..last];
      }
    }
  }

  class GatewayTicketStore {
    const maxOutstanding: nat
    const reservationTtl: int
    const limiter: GatewayProxyLimiter
    var reservations: map<string, Reservation>
    var tickets: map<string, Ticket>
    var active: map<string, Ticket>
    var removing: set<string>

    ghost function Contents(): Gate
      reads this, limiter
    {
      Gate(Store(reservations, tickets, active, removing), limiter.Contents())
    }

    ghost function LimitsOf(): Limits {
      Limits(maxOutstanding, limiter.maxActive, reservationTtl)
    }

    constructor (limiter: GatewayProxyLimiter, maxOutstanding: nat, reservationTtl: int)
      ensures this.limiter == limiter && this.maxOutstanding == maxOutstanding && this.reservationTtl == reservationTtl
      ensures Contents() == Gate(Store(map[], map[], map[], {}), limiter.Contents())
    {
      this.limiter, this.maxOutstanding, this.reservationTtl := limiter, maxOutstanding, reservationTtl;
      reservations, tickets, active, removing := map[], map[], map[], {};
    }

    method ReleaseSlot(slot: Option<string>)
      modifies limiter
      ensures limiter.Contents() == Freed(old(limiter.Contents()), SlotSet(slot))
    {
      NothingDropped(limiter.legacy);
      if slot.Some? {
        limiter.Release(slot.value);
      }
    }

    /** Removes everything that has expired, one record at a time. */
    method PruneExpired(now: int)
      modifies this, limiter
      ensures Contents() == Pruned(old(Contents()), now)
    {
      ghost var before := Contents();
      var expired := set id | id in reservations && reservations[id].expiresAt <= now;
      ghost var done: set<string> := {};
      DroppedNothing(before);
      while expired != {}
        invariant expired + done == ExpiredReservations(before.store, now) && expired !! done
        invariant Contents() == Dropped(before, done, {})
        decreases expired
      {
        var id :| id in expired;
        var record := reservations[id];
        DropReservation(before, done, id);
        reservations := reservations - {id};
        ReleaseSlot(record.slot);
        expired, done := expired - {id}, done + {id};
      }
      assert done == ExpiredReservations(before.store, now);
      var stale := set t | t in tickets && tickets[t].expiresAt <= now;
      ghost var gone: set<string> := {};
      while stale != {}
        invariant stale + gone == ExpiredTickets(before.store, now) && stale !! gone
        invariant Contents() == Dropped(before, done, gone)
        decreases stale
      {
        var t :| t in stale;
        var record := tickets[t];
        DropTicket(before, done, gone, t);
        tickets := tickets - {t};
        ReleaseSlot(record.slot);
        stale, gone := stale - {t}, gone + {t};
      }
      assert gone == ExpiredTickets(before.store, now);
    }

    method Reserve(agentId: string, route: Route, slot: Option<string>, id: string, blocker: Blocker, now: int)
      returns (reservation: Option<Reservation>)
      modifies this, limiter
      ensures (Contents(), reservation) ==
              GatewaySpec.Reserve(old(Contents()), LimitsOf(), agentId, route, slot, id, blocker, now)
    {
      PruneExpired(now);
      if agentId in removing || DurablyBlocked(agentId, blocker) { return None; }
      if |reservations| + |tickets| >= maxOutstanding { return None; }
      var r := Reservation(id, agentId, now + reservationTtl, route, slot);
      reservations := reservations[id := r];
      reservation := Some(r);
    }

    method ReleaseReservation(reservation: Option<Reservation>)
      modifies this, limiter
      ensures Contents() == if reservation.Some?
                            then GatewaySpec.ReleaseReservation(old(Contents()), reservation.value.id)
                            else old(Contents())
    {
      if reservation.Some? && reservation.value.id in reservations {
        var id := reservation.value.id;
        var removed := reservations[id];
        DroppedNothing(Contents());
        DropReservation(Contents(), {}, id);
        reservations := reservations - {id};
        ReleaseSlot(removed.slot);
        assert {} + {id} == {id};
      }
    }

    method Commit(reservation: Reservation, bound: Binding, upstreamTicket: string, expiresAt: int,
                  ticket: string, blocker: Blocker, now: int)
      returns (result: CommitResult)
      modifies this, limiter
      ensures (Contents(), result) ==
              GatewaySpec.Commit(old(Contents()), reservation.id, bound, upstreamTicket, expiresAt, ticket, blocker, now)
    {
      PruneExpired(now);
      if reservation.id !in reservations { return NotActive; }
      var stored := reservations[reservation.id];
      if stored.agentId != "" && stored.agentId != bound.agentId { return OtherAgent; }
      if bound.agentId in removing || DurablyBlocked(bound.agentId, blocker) { return RemovalInProgress; }
      reservations := reservations - {reservation.id};
      var record := Ticket(ticket, bound, upstreamTicket, expiresAt, stored.route, stored.slot);
      tickets := tickets[ticket := record];
      result := Committed(record);
    }

    method ConsumeForWebsocket(ticket: string, actorId: Option<string>, agentId: string, terminalId: string,
                               wsPath: string, now: int)
      returns (result: ConsumeResult)
      modifies this, limiter
      ensures (Contents(), result) ==
              GatewaySpec.Consume(old(Contents()), ticket, actorId, agentId, terminalId, wsPath, now)
    {
      if ticket !in tickets { return ConsumeResult(Invalid, None); }
      var record := tickets[ticket];
      if record.expiresAt <= now {
        DroppedNothing(Contents());
        DropTicket(Contents(), {}, {}, ticket);
        tickets := tickets - {ticket};
        ReleaseSlot(record.slot);
        assert {} + {ticket} == {ticket};
        return ConsumeResult(Invalid, None);
      }
      if actorId.Some? && record.bound.actorId != actorId.value {
        return ConsumeResult(ActorMismatch, Some(record));
      }
      if record.bound.agentId != agentId || record.bound.terminalId != terminalId || record.bound.wsPath != wsPath {
        return ConsumeResult(Invalid, None);
      }
      tickets := tickets - {ticket};
      active := active[record.ticket := record];
      result := ConsumeResult(Ok, Some(record));
    }

    method ReleaseActive(ticket: Ticket)
      modifies this, limiter
      ensures Contents() == GatewaySpec.ReleaseActive(old(Contents()), ticket.ticket)
    {
      if ticket.ticket in active {
        var removed := active[ticket.ticket];
        active := active - {ticket.ticket};
        ReleaseSlot(removed.slot);
      }
    }

    method BeginRemoval(agentId: string, now: int) returns (begun: bool)
      modifies this, limiter
      ensures (Contents(), begun) == GatewaySpec.BeginRemoval(old(Contents()), agentId, now)
    {
      PruneExpired(now);
      var used := HasUsageUnlocked(agentId);
      if agentId in removing || used { return false; }
      removing := removing + {agentId};
      begun := true;
    }

    method AbortRemoval(agentId: string)
      modifies this
      ensures Contents() == EndRemoval(old(Contents()), agentId)
    {
      removing := removing - {agentId};
    }

    method HasUsage(agentId: string, now: int) returns (used: bool)
      modifies this, limiter
      ensures Contents() == Pruned(old(Contents()), now) && used == InUse(Contents().store, agentId)
    {
      PruneExpired(now);
      used := HasUsageUnlocked(agentId);
    }

    method HasUsageUnlocked(agentId: string) returns (used: bool)
      ensures used == InUse(Contents().store, agentId)
    {
      used :=
        || (exists id | id in reservations :: reservations[id].agentId == agentId)
        || (exists t | t in tickets :: tickets[t].bound.agentId == agentId)
        || (exists t | t in active :: active[t].bound.agentId == agentId);
    }
  }

  // ---------------------------------------------------------------------------
  // Dropping one more record.

  lemma {:induction false} NothingDropped(xs: seq<string>)
    ensures WithoutAll(xs, {}) == xs
  {
    if xs != [] {
      NothingDropped(xs[1..]);
      assert xs == [xs[0]] + xs[1..];
    }
  }

  lemma {:induction false} WithoutTwice(xs: seq<string>, a: set<string>, b: set<string>)
    ensures WithoutAll(WithoutAll(xs, a), b) == WithoutAll(xs, a + b)
  {
    if xs != [] {
      WithoutTwice(xs[1..], a, b);
      var rest := WithoutAll(xs[1..], a);
      assert ([xs[0]] + rest)[1..] == rest;
    }
  }

  lemma FreedTwice(l: Limiter, a: set<string>, b: set<string>)
    ensures Freed(Freed(l, a), b) == Freed(l, a + b)
  {
    WithoutTwice(l.legacy, a, b);
    assert l.slots - a - b == l.slots - (a + b);
  }

  lemma DroppedNothing(g: Gate)
    ensures Dropped(g, {}, {}) == g
  {
    NothingDropped(g.limiter.legacy);
    assert ReservationSlots(g.store.reservations, {}) + TicketSlots(g.store.tickets, {}) == {};
    assert g.store.reservations - {} == g.store.reservations && g.store.tickets - {} == g.store.tickets;
    assert g.limiter.slots - {} == g.limiter.slots;
  }

  lemma DropReservation(g: Gate, done: set<string>, id: string)
    requires id in g.store.reservations && id !in done
    ensures var d := Dropped(g, done, {});
            && id in d.store.reservations && d.store.reservations[id] == g.store.reservations[id]
            && Dropped(g, done + {id}, {}) ==
               Gate(d.store.(reservations := d.store.reservations - {id}),
                    Freed(d.limiter, SlotSet(g.store.reservations[id].slot)))
  {
    var rs := g.store.reservations;
    var a := ReservationSlots(rs, done) + TicketSlots(g.store.tickets, {});
    FreedTwice(g.limiter, a, SlotSet(rs[id].slot));
    assert ReservationSlots(rs, done + {id}) == ReservationSlots(rs, done) + SlotSet(rs[id].slot);
    assert a + SlotSet(rs[id].slot) == ReservationSlots(rs, done + {id}) + TicketSlots(g.store.tickets, {});
    assert rs - done - {id} == rs - (done + {id});
  }

  lemma DropTicket(g: Gate, done: set<string>, gone: set<string>, t: string)
    requires t in g.store.tickets && t !in gone
    ensures var d := Dropped(g, done, gone);
            && t in d.store.tickets && d.store.tickets[t] == g.store.tickets[t]
            && Dropped(g, done, gone + {t}) ==
               Gate(d.store.(tickets := d.store.tickets - {t}),
                    Freed(d.limiter, SlotSet(g.store.tickets[t].slot)))
  {
    var ts := g.store.tickets;
    var a := ReservationSlots(g.store.reservations, done) + TicketSlots(ts, gone);
    FreedTwice(g.limiter, a, SlotSet(ts[t].slot));
    assert TicketSlots(ts, gone + {t}) == TicketSlots(ts, gone) + SlotSet(ts[t].slot);
    assert a + SlotSet(ts[t].slot) == ReservationSlots(g.store.reservations, done) + TicketSlots(ts, gone + {t});
    assert ts - gone - {t} == ts - (gone + {t});
  }
}
