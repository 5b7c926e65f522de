/** The response shaping of the owned-games endpoint: one page of the
    upstream game list and the pagination metadata around it. */
module Pagination {
  import opened PythonOps
  import opened SteamApi

  /** The "pagination" member of the envelope. */
  datatype Meta = Meta(totalGamesCount: int, page: int, totalPages: int, limit: int)

  /** The body returned to the caller. */
  datatype Envelope<G> = Envelope(pagination: Meta, results: seq<G>)

  /** The games on page `page` of size `limit`: the Python slice
      `games[(page-1)*limit : page*limit]`. */
  function PageOf<G>(games: seq<G>, page: int, limit: int): (r: seq<G>)
    ensures |r| <= |games|
    ensures r == Keep(games, Resolve((page - 1) * limit, |games|), Resolve(page * limit, |games|))
  {
    SliceIsReference(games, (page - 1) * limit, page * limit);
    Slice(games, (page - 1) * limit, page * limit)
  }

  /** `((count - 1) // limit) + 1` with Python's floor division: `p - 1`
      is the floor quotient of `count - 1` by `limit`. */
  function TotalPages(count: int, limit: int): (p: int)
    requires limit != 0
    ensures limit > 0 ==> limit * (p - 1) <= count - 1 < limit * p
    ensures limit < 0 ==> limit * p < count - 1 <= limit * (p - 1)
  {
    FloorDiv(count - 1, limit) + 1
  }

  /** Builds the envelope from the upstream's reported count and game list,
      each possibly absent (absent count reads as 0, absent list as empty).
      The only failure is the division by a zero `limit`. */
  function Shape<G>(gameCount: Option<int>, games: Option<seq<G>>, page: int, limit: int): (r: Result<Envelope<G>>)
    ensures r.Ok? <==> limit != 0
    ensures r.Err? ==> r.error == ZeroDivision
    ensures r.Ok? ==> r.value.pagination.page == page && r.value.pagination.limit == limit
    ensures r.Ok? ==> r.value.pagination.totalGamesCount == (if gameCount.Some? then gameCount.value else 0)
    ensures r.Ok? ==> r.value.results == PageOf(if games.Some? then games.value else [], page, limit)
    ensures r.Ok? ==> r.value.pagination.totalPages == TotalPages(r.value.pagination.totalGamesCount, limit)
  {
    var count := gameCount.GetOr(0);
    var results := PageOf(games.GetOr([]), page, limit);
    if limit == 0 then Err(ZeroDivision)
    else Ok(Envelope(Meta(count, page, TotalPages(count, limit), limit), results))
  }

  /** For a positive page and limit the results are the contiguous run of
      `games` starting at `(page-1)*limit`, in upstream order, at most
      `limit` long, and empty exactly when that start is past the end. */
  lemma ResultsAreContiguousRun<G>(games: seq<G>, page: int, limit: int)
    requires page >= 1 && limit >= 1
    ensures var start, r := (page - 1) * limit, PageOf(games, page, limit);
            && |r| <= limit
            && (r == [] <==> start >= |games|)
            && (start < |games| ==> r == games[start..if page * limit < |games| then page * limit else |games|])
  {
  }

  /** Page 0 is always empty when the limit is positive: its slice stops at
      position 0. */
  lemma PageZeroIsEmpty<G>(games: seq<G>, limit: int)
    requires limit >= 1
    ensures PageOf(games, 0, limit) == []
  {
  }

  /** For at least one game the page count is the ceiling of
      `count / limit`: every game fits in that many pages, and one page fewer
      would not hold them. */
  lemma TotalPagesIsCeiling(count: int, limit: int)
    requires count >= 1 && limit >= 1
    ensures var p := TotalPages(count, limit);
            && p >= 1
            && (p - 1) * limit < count <= p * limit
  {
  }

  /** No games means no pages: `((0 - 1) // limit) + 1` is 0 for every
      positive limit. */
  lemma NoGamesNoPages(limit: int)
    requires limit >= 1
    ensures TotalPages(0, limit) == 0
  {
  }

  /** An upstream document with neither field yields an empty page, a zero
      count and zero pages. */
  lemma MissingFieldsDefault<G>(page: int, limit: int)
    requires limit >= 1
    ensures var r := Shape<G>(None, None, page, limit);
            && r.Ok?
            && r.value.pagination == Meta(0, page, 0, limit)
            && r.value.results == []
  {
  }

  /** Pages 1 to n, concatenated. */
  function Pages<G>(games: seq<G>, limit: int, n: nat): seq<G>
  {
    if n == 0 then [] else Pages(games, limit, n - 1) + PageOf(games, n, limit)
  }

  /** The first `m` games, or all of them when there are fewer. */
  function Prefix<G>(games: seq<G>, m: nat): seq<G>
  {
    games[..if m < |games| then m else |games|]
  }

  lemma PrefixStep<G>(games: seq<G>, start: nat, limit: nat, page: seq<G>)
    requires start >= |games| ==> page == []
    requires start < |games| ==> page == games[start..if start + limit < |games| then start + limit else |games|]
    ensures Prefix(games, start) + page == Prefix(games, start + limit)
  {
    if start < |games| {
      var stop := if start + limit < |games| then start + limit else |games|;
      assert games[..start] + games[start..stop] == games[..stop];
    }
  }

  /** Reading pages 1 to n in turn yields the games in upstream order, up to
      position `n * limit`. */
  lemma {:induction false} PagesArePrefix<G>(games: seq<G>, limit: int, n: nat)
    requires limit >= 1
    ensures Pages(games, limit, n) == Prefix(games, n * limit)
  {
    if n > 0 {
      PagesArePrefix(games, limit, n - 1);
      ResultsAreContiguousRun(games, n, limit);
      var start := (n - 1) * limit;
      assert n * limit == start + limit;
      PrefixStep(games, start, limit, PageOf(games, n, limit));
    }
  }

  /** When the reported count is the true number of games, the pages
      1..total_pages, read in order, are exactly the upstream list, and the
      page after the last is empty. */
  lemma PagesPartitionGames<G>(games: seq<G>, limit: int)
    requires limit >= 1
    ensures var n := TotalPages(|games|, limit);
            && n >= 0
            && Pages(games, limit, n) == games
            && PageOf(games, n + 1, limit) == []
  {
    var n := TotalPages(|games|, limit);
    if |games| == 0 {
      NoGamesNoPages(limit);
    } else {
      TotalPagesIsCeiling(|games|, limit);
    }
    PagesArePrefix(games, limit, n);
    ResultsAreContiguousRun(games, n + 1, limit);
    assert games[..|games|] == games;
  }

  /** The worked example of a 250-game library with 100 games per page:
      pages 1 and 3 hold positions 0..100 and 200..250, page 4 is empty,
      there are 3 pages, and an empty library has 0. */
  lemma LibraryOf250<G>(games: seq<G>)
    requires |games| == 250
    ensures PageOf(games, 1, 100) == games[0..100]
    ensures PageOf(games, 3, 100) == games[200..250]
    ensures PageOf(games, 4, 100) == []
    ensures TotalPages(250, 100) == 3
    ensures TotalPages(0, 100) == 0
  {
  }
}
