/** The authentication rate limiter: deques with eviction against a log that never forgets. */
module RateLimiter {
  import opened Prelude
  import opened Sequences

  const WINDOW := 60
  const PRUNE_INTERVAL := 60

  /** A reserved attempt; slots are told apart by identity, not by their time. */
  datatype Slot = Slot(id: nat, at: int)

  /** Per client, in the order of reservation. */
  type Attempts = map<string, seq<Slot>>

  function Young(now: int): Slot -> bool {
    (s: Slot) => s.at > now - WINDOW
  }

  function OtherThan(id: nat): Slot -> bool {
    (s: Slot) => s.id != id
  }

  /** The slots of the last minute. */
  function Fresh(slots: seq<Slot>, now: int): seq<Slot> {
    Filter(slots, Young(now))
  }

  function Without(slots: seq<Slot>, id: nat): seq<Slot> {
    Filter(slots, OtherThan(id))
  }

  function Of(attempts: Attempts, client: string): seq<Slot> {
    if client in attempts then attempts[client] else []
  }

  predicate Sorted(slots: seq<Slot>) {
    forall i, j :: 0 <= i < j < |slots| ==> slots[i].at <= slots[j].at
  }

  lemma {:induction false} FilterKeepsOrder(slots: seq<Slot>, p: Slot -> bool)
    requires Sorted(slots)
    ensures Sorted(Filter(slots, p))
  {
    if slots == [] {
    } else {
      var front, last := slots[..|slots| - 1], slots[|slots| - 1];
      FilterKeepsOrder(front, p);
      forall i | 0 <= i < |Filter(front, p)| ensures Filter(front, p)[i].at <= last.at {
        assert Filter(front, p)[i] in front;
      }
    }
  }

  /** In a sorted deque the front decides: a fresh front means that everything is fresh. */
  lemma FrontDecides(slots: seq<Slot>, now: int)
    requires Sorted(slots)
    ensures slots != [] && slots[0].at <= now - WINDOW ==> Fresh(slots, now) == Fresh(slots[1..], now)
    ensures slots == [] || slots[0].at > now - WINDOW ==> Fresh(slots, now) == slots
  {
    if slots == [] {
    } else if slots[0].at <= now - WINDOW {
      FilterDropsFirst(slots, Young(now));
    } else {
      FilterAll(slots, Young(now));
    }
  }

  // ------------------------------------------------------------- deques and log agree

  /** The deque holds every unreleased slot of the log that is still fresh, and not more than the limit. */
  ghost predicate Agrees(deque: seq<Slot>, log: seq<Slot>, clock: int, limit: int) {
    && Fresh(deque, clock) == Fresh(log, clock)
    && Sorted(deque) && |deque| <= limit
    && (deque != [] ==> deque[|deque| - 1].at <= clock)
  }

  lemma AgreesLater(deque: seq<Slot>, log: seq<Slot>, clock: int, now: int, limit: int)
    requires Agrees(deque, log, clock, limit) && clock <= now
    ensures Agrees(deque, log, now, limit)
  {
    FilterTwice(deque, Young(clock), Young(now));
    FilterTwice(log, Young(clock), Young(now));
  }

  /** Evicting what expired loses nothing. */
  lemma AgreesEvicted(deque: seq<Slot>, log: seq<Slot>, now: int, limit: int)
    requires Agrees(deque, log, now, limit)
    ensures Agrees(Fresh(deque, now), log, now, limit) && Fresh(deque, now) == Fresh(log, now)
  {
    FilterTwice(deque, Young(now), Young(now));
    FilterKeepsOrder(deque, Young(now));
    NothingNewer(deque, Young(now), now);
  }

  lemma SortedAppend(deque: seq<Slot>, slot: Slot)
    requires Sorted(deque) && (deque != [] ==> deque[|deque| - 1].at <= slot.at)
    ensures Sorted(deque + [slot])
  {
  }

  lemma NothingNewer(deque: seq<Slot>, p: Slot -> bool, clock: int)
    requires Sorted(deque) && (deque != [] ==> deque[|deque| - 1].at <= clock)
    ensures var kept := Filter(deque, p); kept != [] ==> kept[|kept| - 1].at <= clock
  {
  }

  lemma AgreesReserved(deque: seq<Slot>, log: seq<Slot>, slot: Slot, limit: int)
    requires Agrees(deque, log, slot.at, limit) && |deque| < limit
    ensures Agrees(deque + [slot], log + [slot], slot.at, limit)
  {
    FilterLast(deque, slot, Young(slot.at));
    FilterLast(log, slot, Young(slot.at));
    SortedAppend(deque, slot);
  }

  /** Releasing by identity and forgetting by age do not get in each other's way. */
  lemma AgreesReleased(deque: seq<Slot>, log: seq<Slot>, id: nat, clock: int, limit: int)
    requires Agrees(deque, log, clock, limit)
    ensures Agrees(Without(deque, id), Without(log, id), clock, limit)
  {
    FilterOrder(deque, OtherThan(id), Young(clock));
    FilterOrder(log, OtherThan(id), Young(clock));
    FilterKeepsOrder(deque, OtherThan(id));
    NothingNewer(deque, OtherThan(id), clock);
  }

  /** Every client's deque agrees with the log, and no client is kept without slots. */
  ghost predicate Tracks(attempts: Attempts, log: Attempts, clock: int, limit: int) {
    && (forall client :: Agrees(Of(attempts, client), Of(log, client), clock, limit))
    && (forall client :: client in attempts ==> attempts[client] != [])
  }

  function Stored(attempts: Attempts, client: string, deque: seq<Slot>): Attempts {
    if deque == [] then attempts - {client} else attempts[client := deque]
  }

  lemma StoringKeepsTrack(attempts: Attempts, log: Attempts, client: string, deque: seq<Slot>, slots: seq<Slot>,
                          clock: int, limit: int)
    requires Tracks(attempts, log, clock, limit) && Agrees(deque, slots, clock, limit)
    ensures Tracks(Stored(attempts, client, deque), log[client := slots], clock, limit)
  {
    var next := Stored(attempts, client, deque);
    forall other ensures Agrees(Of(next, other), Of(log[client := slots], other), clock, limit) {
      if other != client {
        assert Agrees(Of(attempts, other), Of(log, other), clock, limit);
      }
    }
  }

  lemma StoringAgain(attempts: Attempts, log: Attempts, client: string, deque: seq<Slot>, clock: int, limit: int)
    requires Tracks(attempts, log, clock, limit) && Agrees(deque, Of(log, client), clock, limit)
    ensures Tracks(Stored(attempts, client, deque), log, clock, limit)
  {
  }

  /** What is left of a deque after eviction are the fresh slots of the log. */
  lemma FreshSlots(attempts: Attempts, log: Attempts, client: string, now: int, limit: int)
    requires Tracks(attempts, log, now, limit)
    ensures Sorted(Of(attempts, client))
    ensures Fresh(Of(attempts, client), now) == Fresh(Of(log, client), now)
    ensures Agrees(Fresh(Of(attempts, client), now), Of(log, client), now, limit)
  {
    assert Agrees(Of(attempts, client), Of(log, client), now, limit);
    AgreesEvicted(Of(attempts, client), Of(log, client), now, limit);
  }

  lemma TracksLater(attempts: Attempts, log: Attempts, clock: int, now: int, limit: int)
    requires Tracks(attempts, log, clock, limit) && clock <= now
    ensures Tracks(attempts, log, now, limit)
  {
    forall client ensures Agrees(Of(attempts, client), Of(log, client), now, limit) {
      AgreesLater(Of(attempts, client), Of(log, client), clock, now, limit);
    }
  }

  /** No client ever holds more than the limit within a minute. */
  lemma AtMostTheLimit(attempts: Attempts, log: Attempts, client: string, clock: int, now: int, limit: int)
    requires Tracks(attempts, log, clock, limit) && clock <= now
    ensures |Fresh(Of(log, client), now)| <= limit
  {
    AgreesLater(Of(attempts, client), Of(log, client), clock, now, limit);
  }

  // ------------------------------------------------------------- the limiter

  class Limiter {
    const limit: int
    var attempts: Attempts
    var nextGlobalPruneAt: int
    var nextId: nat
    /** Every slot that was reserved and not released, however old. */
    ghost var log: Attempts
    ghost var clock: int

    constructor (perMinute: int, burst: int, now: int)
      requires perMinute > 0 && 0 <= burst <= perMinute
      ensures Valid() && limit == perMinute + burst && log == map[] && clock == now
    {
      limit, attempts, nextGlobalPruneAt, nextId := perMinute + burst, map[], now + PRUNE_INTERVAL, 0;
      log, clock := map[], now;
    }

    ghost predicate Valid()
      reads this
    {
      limit > 0 && Tracks(attempts, log, clock, limit)
    }

    /** Drops expired slots from the front only. */
    static method Evict(slots: seq<Slot>, now: int) returns (kept: seq<Slot>)
      requires Sorted(slots)
      ensures kept == Fresh(slots, now)
    {
      kept := slots;
      while kept != [] && kept[0].at <= now - WINDOW
        invariant Sorted(kept) && Fresh(kept, now) == Fresh(slots, now)
        decreases |kept|
      {
        FrontDecides(kept, now);
        kept := kept[1..];
      }
      FrontDecides(kept, now);
    }

    /** Once a minute, all clients; a client without slots is forgotten. */
    method PruneExpired(now: int)
      requires Valid() && now >= clock
      modifies this`attempts, this`nextGlobalPruneAt, this`clock
      ensures Valid() && clock == now
      ensures now < old(nextGlobalPruneAt) ==> attempts == old(attempts) && nextGlobalPruneAt == old(nextGlobalPruneAt)
      ensures now >= old(nextGlobalPruneAt) ==>
        && nextGlobalPruneAt == now + PRUNE_INTERVAL
        && forall client :: client in attempts ==> Of(attempts, client) == Fresh(Of(log, client), now)
    {
      TracksLater(attempts, log, clock, now, limit);
      clock := now;
      if now < nextGlobalPruneAt {
        return;
      }
      PruneAll(now);
      nextGlobalPruneAt := now + PRUNE_INTERVAL;
    }

    method PruneAll(now: int)
      requires Valid() && clock == now
      modifies this`attempts
      ensures Valid()
      ensures forall client :: client in attempts ==> Of(attempts, client) == Fresh(Of(log, client), now)
    {
      var clients := attempts.Keys;
      while clients != {}
        invariant Valid()
        invariant forall client :: client in attempts && client !in clients ==>
                Of(attempts, client) == Fresh(Of(log, client), now)
        decreases |clients|
      {
        var client :| client in clients;
        clients := clients - {client};
        if client in attempts {
          PruneClient(client, now);
        }
      }
    }

    method PruneClient(client: string, now: int)
      requires Valid() && clock == now && client in attempts
      modifies this`attempts
      ensures Valid() && Of(attempts, client) == Fresh(Of(log, client), now)
      ensures attempts.Keys <= old(attempts).Keys
      ensures forall other :: other != client ==> Of(attempts, other) == Of(old(attempts), other)
    {
      FreshSlots(attempts, log, client, now, limit);
      var kept := Evict(attempts[client], now);
      StoringAgain(attempts, log, client, kept, now, limit);
      attempts := if kept == [] then attempts - {client} else attempts[client := kept];
    }

    /** Refused exactly when the log holds `limit` fresh unreleased attempts of the client. */
    method Reserve(client: string, now: int) returns (slot: Option<Slot>)
      requires Valid() && now >= clock
      modifies this
      ensures Valid() && clock == now
      ensures slot.None? <==> |Fresh(Of(old(log), client), now)| >= limit
      ensures slot.None? ==> log == old(log)
      ensures slot.Some? ==> slot.value == Slot(old(nextId), now) && nextId == old(nextId) + 1
      ensures slot.Some? ==> log == old(log)[client := Of(old(log), client) + [slot.value]]
    {
      hide Agrees, Fresh, Sorted;
      PruneExpired(now);
      FreshSlots(attempts, log, client, now, limit);
      var mine := Evict(Of(attempts, client), now);
      if |mine| >= limit {
        StoringAgain(attempts, log, client, mine, now, limit);
        attempts := attempts[client := mine];
        return None;
      }
      var reserved := Append(client, mine, now);
      slot := Some(reserved);
    }

    method Append(client: string, mine: seq<Slot>, now: int) returns (slot: Slot)
      requires Valid() && clock == now && |mine| < limit && Agrees(mine, Of(log, client), now, limit)
      modifies this
      ensures Valid() && clock == now && slot == Slot(old(nextId), now) && nextId == old(nextId) + 1
      ensures log == old(log)[client := Of(old(log), client) + [slot]]
    {
      hide Agrees, Fresh, Sorted;
      slot := Slot(nextId, now);
      AgreesReserved(mine, Of(log, client), slot, limit);
      var slots := mine + [slot];
      ghost var history := Of(log, client) + [slot];
      StoringKeepsTrack(attempts, log, client, slots, history, now, limit);
      assert slots[|mine|] == slot;
      assert Stored(attempts, client, slots) == attempts[client := slots];
      log := log[client := history];
      attempts, nextId := attempts[client := slots], nextId + 1;
    }

    /** A slot that was evicted or released before is gone already; the answer is the same. */
    method Release(client: string, slot: Slot)
      requires Valid()
      modifies this
      ensures Valid() && clock == old(clock)
      ensures log == old(log)[client := Without(Of(old(log), client), slot.id)]
    {
      assert Agrees(Of(attempts, client), Of(log, client), clock, limit);
      AgreesReleased(Of(attempts, client), Of(log, client), slot.id, clock, limit);
      var mine := Without(Of(attempts, client), slot.id);
      StoringKeepsTrack(attempts, log, client, mine, Without(Of(log, client), slot.id), clock, limit);
      log := log[client := Without(Of(log, client), slot.id)];
      if client in attempts {
        attempts := if mine == [] then attempts - {client} else attempts[client := mine];
      } else {
        assert attempts - {client} == attempts;
      }
    }
  }
}
