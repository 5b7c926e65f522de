/** The owned-games endpoint: the memoised fetch followed by the response
    shaping. */
module Endpoint {
  import opened SteamApi
  import opened Pagination
  import opened TtlCache

  /** Shapes a fetched document into the envelope. A document without a
      "response" member fails; otherwise the envelope is built from its
      reported count and game list. */
  function Respond<G>(doc: Document<G>, page: int, limit: int): (r: Result<Envelope<G>>)
    ensures doc.response.None? ==> r == Err(MissingResponse)
    ensures doc.response.Some? ==> r == Shape(doc.response.value.gameCount, doc.response.value.games, page, limit)
  {
    match doc.response
    case None => Err(MissingResponse)
    case Some(body) => Shape(body.gameCount, body.games, page, limit)
  }

  /** The whole request on what the cache finds (`cached`) and what the
      upstream would answer: a cached document is shaped as is; otherwise
      the upstream's document is shaped, or its failure returned. */
  function Serve<G>(cached: Option<Document<G>>, reply: Reply<G>, page: int, limit: int): (r: Result<Envelope<G>>)
    ensures cached.Some? ==> r == Respond(cached.value, page, limit)
    ensures cached.None? && reply.status == 200 ==> r == Respond(reply.json, page, limit)
    ensures cached.None? && reply.status != 200 ==> r == Err(UpstreamError(reply.status, reply.content))
    ensures r.Ok? ==> r.value.pagination.page == page && r.value.pagination.limit == limit
    ensures r == Err(ZeroDivision) ==> limit == 0
  {
    if cached.Some? then Respond(cached.value, page, limit)
    else match Fetch(reply)
      case Ok(doc) => Respond(doc, page, limit)
      case Err(e) => Err(e)
  }

  /** An upstream failure reaches the caller with the upstream's status and
      body, before the page arguments are looked at: even a zero `limit`
      does not replace it. */
  lemma UpstreamFailurePassesThrough<G>(reply: Reply<G>, page: int, limit: int)
    requires reply.status != 200
    ensures Serve(None, reply, page, limit) == Err(UpstreamError(reply.status, reply.content))
  {
  }

  /** `get_owned_games`: the memoised fetch for `key` at time `now`, then
      the page `page` of size `limit` of the document it returns. The cache
      changes exactly as `Get` changes it: not at all on a hit or a failed
      fetch, and by storing the fetched document on a successful miss. */
  method Handle<G>(cache: OwnedGamesCache<G>, key: CacheKey, page: int, limit: int, now: real, upstream: Upstream<G>)
    returns (r: Result<Envelope<G>>, ghost evicted: Option<CacheKey>)
    requires cache.Valid() && cache.clock <= now
    modifies cache
    ensures cache.Valid() && cache.clock == now
    ensures r == Serve(Lookup(old(cache.entries), key, now), upstream(key, now), page, limit)
    ensures var cached, reply := Lookup(old(cache.entries), key, now), upstream(key, now);
            if cached.Some? then
              && cache.entries == old(cache.entries)
              && cache.upstreamCalls == old(cache.upstreamCalls)
            else
              && cache.upstreamCalls == old(cache.upstreamCalls) + 1
              && (reply.status != 200 ==> cache.entries == old(cache.entries))
              && (reply.status == 200 ==>
                    && ValidVictim(Purge(old(cache.entries), now), key, evicted)
                    && cache.entries == Admit(Purge(old(cache.entries), now), key, Entry(reply.json, now), evicted))
  {
    var data;
    data, evicted := cache.Get(key, now, upstream);
    match data
    case Err(e) =>
      r := Err(e);
    case Ok(doc) =>
      r := Respond(doc, page, limit);
  }

  /** Two requests through the whole endpoint for one key against a fresh
      cache: when the first fetch succeeds and the second request comes
      within the TTL, the second is answered from the stored document, with
      no second upstream call, shaped for its own page and limit. */
  method PagingThroughCache<G>(key: CacheKey, t1: real, t2: real, page1: int, page2: int, limit: int, upstream: Upstream<G>)
    returns (first: Result<Envelope<G>>, second: Result<Envelope<G>>, calls: nat)
    requires t1 <= t2 < t1 + Ttl
    requires upstream(key, t1).status == 200
    ensures first == Respond(upstream(key, t1).json, page1, limit)
    ensures second == Respond(upstream(key, t1).json, page2, limit)
    ensures calls == 1
  {
    var cache := new OwnedGamesCache<G>(t1);
    ghost var evicted;
    first, evicted := Handle(cache, key, page1, limit, t1, upstream);
    second, evicted := Handle(cache, key, page2, limit, t2, upstream);
    calls := cache.upstreamCalls;
  }
}
