/** The memoised upstream fetch: a process-wide cache of upstream documents
    keyed on the six request arguments, holding at most 128 entries, each
    served for 300 seconds of a monotonic clock after it was stored. Only
    successful fetches are stored. */
module TtlCache {
  import opened SteamApi

  const Capacity: nat := 128
  const Ttl: real := 300.0

  /** A stored document and the clock reading when it was stored. */
  datatype Entry<G> = Entry(document: Document<G>, inserted: real)

  type Entries<G> = map<CacheKey, Entry<G>>

  /** An entry may be served while fewer than `Ttl` seconds have passed
      since it was stored; its age is measured on the monotonic clock. */
  predicate Live<G>(e: Entry<G>, now: real): (r: bool)
    ensures r <==> now - e.inserted < Ttl
  {
    now < e.inserted + Ttl
  }

  /** Once an entry has expired it stays expired as the monotonic clock
      advances. */
  lemma ExpiryIsPermanent<G>(e: Entry<G>, now: real, later: real)
    requires !Live(e, now) && now <= later
    ensures !Live(e, later)
  {
  }

  /** What a lookup at time `now` finds for `key`: the stored document if
      its entry is still live, nothing otherwise. */
  function Lookup<G>(m: Entries<G>, key: CacheKey, now: real): (r: Option<Document<G>>)
    ensures r.Some? <==> key in Purge(m, now)
    ensures r.Some? ==> r.value == Purge(m, now)[key].document
  {
    if key in m && Live(m[key], now) then Some(m[key].document) else None
  }

  /** The entries still live at `now`; expired ones are dropped. */
  function Purge<G>(m: Entries<G>, now: real): (p: Entries<G>)
    ensures p.Keys <= m.Keys
    ensures forall k :: k in p ==> p[k] == m[k] && Live(m[k], now)
    ensures forall k :: k in m && Live(m[k], now) ==> k in p
  {
    map k | k in m && Live(m[k], now) :: m[k]
  }

  /** The entry to evict before storing `key` in `live`: one exists, and is
      a stored key, exactly when the cache is full and `key` is new. */
  predicate ValidVictim<G>(live: Entries<G>, key: CacheKey, victim: Option<CacheKey>): (r: bool)
    ensures r && victim.Some? ==> |live| >= Capacity && victim.value in live && victim.value != key
    ensures r && |live| < Capacity ==> victim == None
  {
    if |live| >= Capacity && key !in live then victim.Some? && victim.value in live
    else victim.None?
  }

  /** `live` after evicting `victim` (if any) and storing `e` under `key`. */
  function Admit<G>(live: Entries<G>, key: CacheKey, e: Entry<G>, victim: Option<CacheKey>): (r: Entries<G>)
    ensures r.Keys == (if victim.Some? then live.Keys - {victim.value} else live.Keys) + {key}
    ensures r[key] == e
    ensures forall k :: k in r && k != key ==> r[k] == live[k]
  {
    (if victim.Some? then live - {victim.value} else live)[key := e]
  }

  /** Purging never grows the cache. */
  lemma PurgeShrinks<G>(m: Entries<G>, now: real)
    ensures |Purge(m, now)| <= |m|
  {
    var p := Purge(m, now);
    SubsetCardinality(p.Keys, m.Keys);
  }

  lemma SubsetCardinality<K>(a: set<K>, b: set<K>)
    requires a <= b
    ensures |a| <= |b|
  {
    assert b == a + (b - a);
  }

  /** Storing a new key with the chosen victim keeps the cache within its
      capacity. */
  lemma AdmitWithinCapacity<G>(live: Entries<G>, key: CacheKey, e: Entry<G>, victim: Option<CacheKey>)
    requires |live| <= Capacity && key !in live
    requires ValidVictim(live, key, victim)
    ensures |Admit(live, key, e, victim)| <= Capacity
    ensures key in Admit(live, key, e, victim)
  {
  }

  /** A document stored at `now` is found by every lookup before `now + Ttl`
      and by none from then on. */
  lemma ServedUntilExpiry<G>(m: Entries<G>, key: CacheKey, doc: Document<G>, now: real, victim: Option<CacheKey>, t: real)
    ensures var stored := Admit(Purge(m, now), key, Entry(doc, now), victim);
            Lookup(stored, key, t) == if t < now + Ttl then Some(doc) else None
  {
  }

  /** Storing one key leaves every other key's lookups, at `now` or later,
      as they were, unless that key was the evicted one: an entry the purge
      dropped had already expired and stays expired as the clock advances. */
  lemma OtherKeysUnaffected<G>(m: Entries<G>, key: CacheKey, doc: Document<G>, now: real, victim: Option<CacheKey>, other: CacheKey, t: real)
    requires other != key && victim != Some(other) && now <= t
    ensures Lookup(Admit(Purge(m, now), key, Entry(doc, now), victim), other, t) == Lookup(m, other, t)
  {
  }

  /** The cache of `_get_owned_games`. `entries` is the memo; `clock` is
      the latest reading of the monotonic timer; `upstreamCalls` counts the
      calls that reached the upstream. */
  class OwnedGamesCache<G> {
    var entries: Entries<G>
    var clock: real
    var upstreamCalls: nat

    ghost predicate Valid()
      reads this
    {
      && |entries| <= Capacity
      && forall k :: k in entries ==> entries[k].inserted <= clock
    }

    /** An empty cache whose timer reads `start`. */
    constructor (start: real)
      ensures Valid()
      ensures entries == map[] && clock == start && upstreamCalls == 0
    {
      entries := map[];
      clock := start;
      upstreamCalls := 0;
    }

    /** The memoised call at time `now`. A live entry for `key` is returned
        without contacting the upstream. Otherwise the upstream is called
        once; a 200 reply is stored under `key` (after dropping expired
        entries and, if the cache is still full, evicting `evicted`) and its
        document returned; any other status fails with that status and the
        upstream body, and nothing is stored. */
    method Get(key: CacheKey, now: real, upstream: Upstream<G>) returns (r: Result<Document<G>>, ghost evicted: Option<CacheKey>)
      requires Valid() && clock <= now
      modifies this
      ensures Valid() && clock == now
      ensures var cached, reply := Lookup(old(entries), key, now), upstream(key, now);
              if cached.Some? then
                && r == Ok(cached.value)
                && entries == old(entries)
                && upstreamCalls == old(upstreamCalls)
              else
                && r == Fetch(reply)
                && upstreamCalls == old(upstreamCalls) + 1
                && (r.Err? ==> entries == old(entries))
                && (r.Ok? ==>
                      && ValidVictim(Purge(old(entries), now), key, evicted)
                      && entries == Admit(Purge(old(entries), now), key, Entry(reply.json, now), evicted))
    {
      clock := now;
      evicted := None;
      if key in entries && Live(entries[key], now) {
        r := Ok(entries[key].document);
        return;
      }
      upstreamCalls := upstreamCalls + 1;
      r := Fetch(upstream(key, now));
      if r.Err? {
        return;
      }
      var live := Purge(entries, now);
      PurgeShrinks(entries, now);
      var victim := None;
      if |live| >= Capacity {
        var k :| k in live;
        victim := Some(k);
      }
      AdmitWithinCapacity(live, key, Entry(r.value, now), victim);
      entries := Admit(live, key, Entry(r.value, now), victim);
      evicted := victim;
    }
  }

  /** Two requests for the same key against a fresh cache, at `t1` and then
      at `t2`: the upstream is called once when the first call succeeded and
      the second comes before the entry expires, and both requests then see
      the same document; a failed first call is not remembered, so the
      second call asks the upstream again and sees its new answer. */
  method RepeatedRequest<G>(key: CacheKey, t1: real, t2: real, upstream: Upstream<G>)
    returns (first: Result<Document<G>>, second: Result<Document<G>>, calls: nat)
    requires t1 <= t2
    ensures first == Fetch(upstream(key, t1))
    ensures first.Ok? && t2 < t1 + Ttl ==> calls == 1 && second == first
    ensures first.Err? || t1 + Ttl <= t2 ==> calls == 2 && second == Fetch(upstream(key, t2))
  {
    var cache := new OwnedGamesCache<G>(t1);
    ghost var evicted;
    first, evicted := cache.Get(key, t1, upstream);
    second, evicted := cache.Get(key, t2, upstream);
    calls := cache.upstreamCalls;
  }

  /** Requests for two keys that differ in any field are independent: a
      request for `other` in between does not disturb the entry for `key`,
      which is served again without a third upstream call. */
  method IndependentKeys<G>(key: CacheKey, other: CacheKey, t1: real, t2: real, t3: real, upstream: Upstream<G>)
    returns (first: Result<Document<G>>, third: Result<Document<G>>, calls: nat)
    requires key != other && t1 <= t2 <= t3 < t1 + Ttl
    requires upstream(key, t1).status == 200
    ensures first == third == Ok(upstream(key, t1).json)
    ensures calls == 2
  {
    var cache := new OwnedGamesCache<G>(t1);
    ghost var evicted;
    first, evicted := cache.Get(key, t1, upstream);
    ghost var stored := cache.entries;
    var second;
    second, evicted := cache.Get(other, t2, upstream);
    if second.Ok? {
      assert |Purge(stored, t2)| <= 1 by {
        PurgeShrinks(stored, t2);
      }
      OtherKeysUnaffected(stored, other, upstream(other, t2).json, t2, evicted, key, t3);
    }
    third, evicted := cache.Get(key, t3, upstream);
    calls := cache.upstreamCalls;
  }
}
