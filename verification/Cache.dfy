/**
  The response cache: freshness windows, query keys, and the store with its counters and
  refresh slots. Times are nanoseconds of the monotonic clock, passed in by the caller.
*/
module Cache {
  import opened Wrappers

  const SECOND: nat := 1_000_000_000
  const NEGATIVE_TTL: nat := 600 * SECOND
  const MAX_INFLIGHT_REFRESHES: nat := 4096

  /** A response body; nothing here looks inside it. */
  type Payload = string

  datatype Content = Hit(value: Payload) | Negative

  datatype Entry = Entry(content: Content, insertedAt: nat, ttl: nat, staleTtl: nat)
  {
    function Age(now: nat): nat { if now >= insertedAt then now - insertedAt else 0 }
    predicate IsFresh(now: nat) { Age(now) <= ttl }
    predicate IsInStaleWindow(now: nat) { ttl < Age(now) <= ttl + staleTtl }
  }

  datatype Status = FreshHit(value: Payload) | StaleHit(value: Payload) | NegativeHit | Miss

  /** What a lookup that found `found` answers at `now`. */
  function StatusAt(found: Option<Entry>, now: nat): Status {
    match found
    case None => Miss
    case Some(e) =>
      match e.content
      case Negative => if e.IsFresh(now) then NegativeHit else Miss
      case Hit(value) =>
        if e.IsFresh(now) then FreshHit(value)
        else if e.IsInStaleWindow(now) then StaleHit(value)
        else Miss
  }

  /** A fifth of the time to live, clamped to [30 s, 120 s]. */
  function StaleWindow(ttl: nat): (w: nat)
    ensures ttl <= 150 * SECOND ==> w == 30 * SECOND
    ensures 150 * SECOND <= ttl <= 600 * SECOND ==> 5 * w <= ttl < 5 * w + 5
    ensures ttl >= 600 * SECOND ==> w == 120 * SECOND
  {
    var fifth := ttl / 5;
    if fifth < 30 * SECOND then 30 * SECOND else if fifth > 120 * SECOND then 120 * SECOND else fifth
  }

  function PositiveEntry(value: Payload, ttl: nat, now: nat): Entry {
    Entry(Hit(value), now, ttl, StaleWindow(ttl))
  }

  function NegativeEntry(ttl: nat, now: nat): Entry {
    Entry(Negative, now, ttl, 0)
  }

  /** A stored answer is served fresh through its time to live, stale for the window after it, then no more. */
  lemma PositiveEntryOverTime(value: Payload, ttl: nat, stored: nat, age: nat)
    ensures var status := StatusAt(Some(PositiveEntry(value, ttl, stored)), stored + age);
            && (status == FreshHit(value) <==> age <= ttl)
            && (status == StaleHit(value) <==> ttl < age <= ttl + StaleWindow(ttl))
            && (status == Miss <==> age > ttl + StaleWindow(ttl))
  {
  }

  /** A recorded 404 is served through its time to live and never stale. */
  lemma NegativeEntryOverTime(ttl: nat, stored: nat, age: nat)
    ensures StatusAt(Some(NegativeEntry(ttl, stored)), stored + age) == if age <= ttl then NegativeHit else Miss
  {
  }

  // ── Query keys ────────────────────────────────────────────────────────────────

  datatype QueryKind = Domain | Ip | Asn | Nameserver | Entity
  {
    function Ttl(): nat {
      match this
      case Domain => 3_600 * SECOND
      case Ip => 86_400 * SECOND
      case Asn => 86_400 * SECOND
      case Nameserver => 21_600 * SECOND
      case Entity => 3_600 * SECOND
    }

    function Tag(): string {
      match this
      case Domain => "domain"
      case Ip => "ip"
      case Asn => "asn"
      case Nameserver => "nameserver"
      case Entity => "entity"
    }
  }

  /** A day for addresses and system numbers, six hours for nameservers, else an hour; all stale for two minutes. */
  lemma KindWindows(kind: QueryKind)
    ensures var hours := if kind == Ip || kind == Asn then 24 else if kind == Nameserver then 6 else 1;
            kind.Ttl() == hours * 3_600 * SECOND
    ensures StaleWindow(kind.Ttl()) == 2 * 60 * SECOND
  {
  }

  datatype Query = Query(kind: QueryKind, input: string)
  {
    function Key(): string { kind.Tag() + ":" + input }
  }

  lemma TagHasNoColon(kind: QueryKind, i: nat)
    requires i < |kind.Tag()|
    ensures kind.Tag()[i] != ':'
  {
  }

  /** Two queries share a cache key only if they are the same query. */
  lemma KeysAreInjective(a: Query, b: Query)
    ensures a.Key() == b.Key() <==> a == b
  {
    if a.Key() == b.Key() {
      var m, n := |a.kind.Tag()|, |b.kind.Tag()|;
      assert a.Key()[m] == ':' && b.Key()[n] == ':';
      if m < n {
        TagHasNoColon(b.kind, m);
      } else if n < m {
        TagHasNoColon(a.kind, n);
      }
      assert a.kind.Tag() == a.Key()[..m] == b.kind.Tag();
      assert a.input == a.Key()[m + 1..] == b.input;
    }
  }

  // ── The cache object ──────────────────────────────────────────────────────────

  /** The elected refresher's claim on `key`; `notify` identifies its wake-up object. */
  datatype RefreshGuard = RefreshGuard(key: string, notify: nat)

  /** Used by one caller at a time; interleavings are in SingleFlight. */
  class MemoryCache {
    var store: map<string, Entry>
    var hits: nat
    var misses: nat
    var staleHits: nat
    var negativeHits: nat
    var inFlight: map<string, nat>
    var nextNotify: nat
    var refreshDedup: nat
    var refreshCapped: nat

    /** The last entry written under each key, never evicted. */
    ghost var written: map<string, Entry>
    ghost var lookups: nat

    ghost predicate Valid()
      reads this
    {
      && (forall k | k in store :: k in written && store[k] == written[k])
      && hits + misses + staleHits + negativeHits == lookups
      && (forall k | k in inFlight :: inFlight[k] < nextNotify)
      && (forall k, k' | k in inFlight && k' in inFlight && inFlight[k] == inFlight[k'] :: k == k')
    }

    ghost function LastWritten(key: string): Option<Entry>
      reads this
    {
      if key in written then Some(written[key]) else None
    }

    constructor ()
      ensures Valid() && written == map[] && lookups == 0 && inFlight == map[]
    {
      store, inFlight, written := map[], map[], map[];
      hits, misses, staleHits, negativeHits, lookups := 0, 0, 0, 0, 0;
      nextNotify, refreshDedup, refreshCapped := 0, 0, 0;
    }

    /** A lookup misses or answers from the last write, and moves exactly one counter. */
    method GetStatus(key: string, now: nat) returns (status: Status)
      requires Valid()
      modifies this`store, this`hits, this`misses, this`staleHits, this`negativeHits, this`lookups
      ensures Valid() && lookups == old(lookups) + 1
      ensures status == if key in old(store) then StatusAt(LastWritten(key), now) else Miss
      ensures store == if key in old(store) && status == Miss then old(store) - {key} else old(store)
      ensures hits == old(hits) + (if status.FreshHit? then 1 else 0)
      ensures staleHits == old(staleHits) + (if status.StaleHit? then 1 else 0)
      ensures negativeHits == old(negativeHits) + (if status.NegativeHit? then 1 else 0)
    {
      lookups := lookups + 1;
      if key !in store {
        misses := misses + 1;
        return Miss;
      }
      var entry := store[key];
      match entry.content
      case Negative =>
        if entry.IsFresh(now) {
          negativeHits := negativeHits + 1;
          return NegativeHit;
        }
        store := store - {key};
        misses := misses + 1;
        return Miss;
      case Hit(value) =>
        if entry.IsFresh(now) {
          hits := hits + 1;
          return FreshHit(value);
        } else if entry.IsInStaleWindow(now) {
          staleHits := staleHits + 1;
          return StaleHit(value);
        }
        store := store - {key};
        misses := misses + 1;
        return Miss;
    }

    method SetWithTtl(key: string, value: Payload, ttl: nat, now: nat)
      requires Valid()
      modifies this`store, this`written
      ensures Valid()
      ensures store == old(store)[key := PositiveEntry(value, ttl, now)]
      ensures written == old(written)[key := PositiveEntry(value, ttl, now)]
    {
      var entry := PositiveEntry(value, ttl, now);
      store := store[key := entry];
      written := written[key := entry];
    }

    method SetNegative(key: string, ttl: nat, now: nat)
      requires Valid()
      modifies this`store, this`written
      ensures Valid()
      ensures store == old(store)[key := NegativeEntry(ttl, now)]
      ensures written == old(written)[key := NegativeEntry(ttl, now)]
    {
      var entry := NegativeEntry(ttl, now);
      store := store[key := entry];
      written := written[key := entry];
    }

    /** Capacity, expiry or `clear`: any entries may go at any time. */
    method Evict(keys: set<string>)
      requires Valid()
      modifies this`store
      ensures Valid() && store == old(store) - keys
    {
      store := store - keys;
    }

    /** The slot for `key` is granted exactly when the registry has room and the slot is free. */
    method TryAcquireRefresh(key: string) returns (guard: Option<RefreshGuard>)
      requires Valid()
      modifies this`inFlight, this`nextNotify, this`refreshDedup, this`refreshCapped
      ensures Valid()
      ensures guard.Some? <==> |old(inFlight)| < MAX_INFLIGHT_REFRESHES && key !in old(inFlight)
      ensures guard.Some? ==> guard.value.key == key && inFlight == old(inFlight)[key := guard.value.notify]
                              && guard.value.notify !in old(inFlight).Values
      ensures guard.None? ==> inFlight == old(inFlight)
      ensures refreshCapped == old(refreshCapped) + (if |old(inFlight)| >= MAX_INFLIGHT_REFRESHES then 1 else 0)
      ensures refreshDedup == old(refreshDedup)
                              + (if |old(inFlight)| < MAX_INFLIGHT_REFRESHES && key in old(inFlight) then 1 else 0)
    {
      if |inFlight| >= MAX_INFLIGHT_REFRESHES {
        refreshCapped := refreshCapped + 1;
        return None;
      }
      if key in inFlight {
        refreshDedup := refreshDedup + 1;
        return None;
      }
      var notify := nextNotify;
      nextNotify := nextNotify + 1;
      inFlight := inFlight[key := notify];
      return Some(RefreshGuard(key, notify));
    }

    /** Dropping a guard frees its slot and wakes whoever waits on its notify. */
    method Drop(guard: RefreshGuard) returns (woken: nat)
      requires Valid() && guard.key in inFlight && inFlight[guard.key] == guard.notify
      modifies this`inFlight
      ensures Valid() && inFlight == old(inFlight) - {guard.key} && woken == guard.notify
      ensures guard.notify !in inFlight.Values
    {
      inFlight := inFlight - {guard.key};
      woken := guard.notify;
    }
  }
}
