# steam-proxy: owned-games endpoint, modelled in Dafny

The proxy serves one endpoint, `GET /IPlayerService/GetOwnedGames/v0001/`.
It forwards the six request arguments (`key`, `steamid`, `include_appinfo`,
`include_played_free_games`, `skip_unvetted_apps`, `format`) to the Steam
Web API through a memoised fetch. It then cuts one page out of the returned
`games` list and wraps it in a `{pagination, results}` envelope.

The model has five modules:

- `PythonOps` (`python_ops.dfy`): Python's `//` and the step-1 slice
  `s[i:j]`, written out explicitly. Dafny's `/` is Euclidean, and Dafny's
  `s[i..j]` neither clamps nor counts negative positions from the end. The
  slice is proved equal to an independent reference definition: the
  elements whose position `k` satisfies `i' <= k < j'`, where a negative
  bound has had the length added.
- `SteamApi` (`steam_api.dfy`): the cache key, the upstream document (only
  its `response.game_count` and `response.games` members, each optional),
  the upstream reply, and the failures. `Fetch` maps a reply to a document,
  or to an upstream error that carries the same status and body.
- `Pagination` (`pagination.dfy`): `Shape`, the response shaping of
  `get_owned_games`, and lemmas about it. These cover the page as a
  contiguous run in upstream order, `total_pages` as a ceiling, the
  zero-games and missing-fields cases, and pages 1..`total_pages`
  partitioning the list.
- `TtlCache` (`ttl_cache.dfy`): the memo behind `_get_owned_games`. It is
  the class `OwnedGamesCache` with a `map` from key to (document, insertion
  time), the last clock reading, and a count of upstream calls. `Get` takes
  the clock reading `now` and the upstream as an oracle, and only
  successful replies are stored. Capacity is 128 and the TTL is 300
  seconds.
- `Endpoint` (`endpoint.dfy`): `Handle` runs the cached fetch and then the
  shaping.

Edge behaviour, as main.py has it:

- The count field of the envelope is `total_games_count` (main.py:42). The
  model calls it `totalGamesCount`.
- With 0 games and a positive `limit`, `((0 - 1) // limit) + 1` is 0
  (main.py:44), so an empty library has 0 pages. `NoGamesNoPages` proves it.
- `limit = 0` is accepted. The slice at main.py:39 is then empty, and the
  division at main.py:44 raises. The model returns `Err(ZeroDivision)`.
  The fetch at main.py:37 runs first, so an upstream failure takes
  precedence.
- `page` and `limit` are used as given, with Python's meaning: page 0 is
  empty, negative pages count back from the end of the list, and a
  negative limit divides with floor rounding.
- An entry of the `ttl_cache` at main.py:10 is live while
  `now < inserted + 300`: it expires once the timer reaches its expiry
  time, so it is never served at an age of 300 seconds or more.
- `time.monotonic` (main.py:10) returns seconds as a float. The model's
  clock readings are reals.
- A document without a `response` member makes `data["response"]`
  (main.py:38) raise. The model returns `Err(MissingResponse)`.

## Model

| member | source | states |
|---|---|---|
| `PythonOps.FloorDiv` | main.py:44 | the quotient is rounded toward negative infinity: `b*q <= a < b*q + b` for positive `b`, mirrored for negative `b`; a zero divisor is excluded |
| `PythonOps.AdjustIndex` | main.py:39 | a slice bound becomes a position in `0..n`: in-range bounds are kept, a negative bound counts back from the end, and bounds beyond either end are clamped |
| `PythonOps.Slice` | main.py:39 | `s[i:j]` has length `hi - lo` (0 when `hi <= lo`) and holds `s[lo + k]` at position `k`, where `lo` and `hi` are the adjusted bounds |
| `PythonOps.KeepIsRun` | main.py:39 | selecting the positions in `lo..hi` gives the run of the sequence between those bounds, each clamped to the sequence's length |
| `PythonOps.SliceIsReference` | main.py:39 | Python's slice equals the reference selection of the elements at positions `Resolve(i) <= k < Resolve(j)`, in order |
| `SteamApi.Fetch` | main.py:20-23 | an upstream reply succeeds exactly when its status is 200, with its decoded document; otherwise the failure carries the same status and raw body |
| `Pagination.Shape` | main.py:38-48 | fails, with a division by zero, exactly when `limit == 0`; echoes `page` and `limit`; reports the upstream `game_count` (0 if absent) without recounting the games; `results` is the page slice of `games` (empty if absent); `total_pages` is computed from the reported count |
| `Pagination.PageOf` | main.py:39 | the page is never longer than the list, and holds exactly the games at positions from `(page-1)*limit` up to `page*limit`, negative positions counted from the end, in upstream order |
| `Pagination.TotalPages` | main.py:44 | `total_pages - 1` is the floor quotient of `game_count - 1` by `limit`: for positive `limit`, `limit*(p-1) <= game_count-1 < limit*p`, mirrored for negative `limit` |
| `Pagination.ResultsAreContiguousRun` | main.py:39 | for `page, limit >= 1`, `results` has at most `limit` games, is empty exactly when `(page-1)*limit` is at or past the end of `games`, and otherwise is the run of `games` from `(page-1)*limit` up to `page*limit` or the end of the list, in upstream order |
| `Pagination.PageZeroIsEmpty` | main.py:39 | page 0 with a positive limit yields no games |
| `Pagination.TotalPagesIsCeiling` | main.py:44 | for `game_count, limit >= 1`, `total_pages` is the ceiling of `game_count / limit`: `(p-1)*limit < game_count <= p*limit` |
| `Pagination.NoGamesNoPages` | main.py:44 | for `game_count = 0` and any positive limit, `total_pages` is exactly 0 |
| `Pagination.MissingFieldsDefault` | main.py:38-44 | a response without `game_count` and `games` yields count 0, 0 pages and empty results, with page and limit echoed |
| `Pagination.PagesArePrefix` | main.py:39 | pages 1..n read in order give the first `n*limit` games (all of them if fewer), in upstream order |
| `Pagination.PagesPartitionGames` | main.py:39-44 | when the count is the true list length, pages 1..`total_pages` concatenated are exactly the list, and the next page is empty |
| `Pagination.LibraryOf250` | main.py:39-44 | with 250 games and limit 100: page 1 is positions 0..100, page 3 is 200..250, page 4 is empty, there are 3 pages, and 0 games give 0 pages |
| `TtlCache.Live` | main.py:10 | an entry may be served exactly while its age on the monotonic clock is below 300 seconds |
| `TtlCache.ExpiryIsPermanent` | main.py:10 | an expired entry stays expired as the monotonic clock advances |
| `TtlCache.Lookup` | main.py:10 | a lookup finds a document exactly when the key survives dropping the expired entries, and then it is that entry's document |
| `TtlCache.Purge` | main.py:10 | dropping expired entries keeps exactly the entries live at `now`, unchanged |
| `TtlCache.ValidVictim` | main.py:10 | an entry is evicted only when the cache is full, and it is a stored key other than the one being inserted; no eviction below capacity |
| `TtlCache.Admit` | main.py:10 | the new map holds the old keys minus the victim plus the inserted key, maps the inserted key to the new entry, and leaves every other entry unchanged |
| `TtlCache.PurgeShrinks` | main.py:10 | dropping expired entries never grows the cache |
| `TtlCache.AdmitWithinCapacity` | main.py:10 | storing a new key, after evicting one entry when full, keeps at most 128 entries and contains the key |
| `TtlCache.ServedUntilExpiry` | main.py:10 | a document stored at `now` is found by every lookup before `now + 300` and by none from then on |
| `TtlCache.OtherKeysUnaffected` | main.py:10-11 | storing one key leaves every other key's lookups at `now` or later unchanged, unless that key was evicted |
| `TtlCache.OwnedGamesCache.constructor` | main.py:10 | the cache starts empty, with no upstream calls |
| `TtlCache.OwnedGamesCache.Get` | main.py:10-23 | a live entry is returned with no upstream call and no change. Otherwise the upstream is called once. A 200 reply is stored under the key at time `now`, after expired entries are dropped and one is evicted if the cache is full, and its document is returned. Any other status fails with that status and body, and the map is unchanged. At most 128 entries remain |
| `TtlCache.RepeatedRequest` | main.py:10-21 | two requests for one key: one upstream call, and the same document twice, when the first succeeded and the second comes within 300; two calls, the second seeing the upstream's new answer, when the first failed or the entry expired |
| `TtlCache.IndependentKeys` | main.py:10-11 | a request for a different key in between does not disturb a key's entry: it is served again within 300, for 2 upstream calls in all |
| `Endpoint.Respond` | main.py:38-48 | a document without `response` fails; otherwise the envelope is the shaping of its count and games |
| `Endpoint.Serve` | main.py:37-48 | a cached document is shaped directly; on a miss a 200 reply's document is shaped and any other status fails with that status and body; success echoes `page` and `limit`; a division-by-zero failure happens only for `limit == 0` |
| `Endpoint.UpstreamFailurePassesThrough` | main.py:20-21 | on a miss, a non-200 upstream reply reaches the caller with its own status and body, whatever `page` and `limit` are |
| `Endpoint.Handle` | main.py:27-48 | the request's result is the shaping of the cached document, or on a miss of the upstream's document or failure; an upstream call is made exactly on a miss; the cache is unchanged on a hit or a failed fetch, and on a successful miss the fetched document is stored at `now` after expired entries are dropped and one is evicted if the cache is full |
| `Endpoint.PagingThroughCache` | main.py:10-48 | two requests for one key within 300 seconds of a successful fetch: one upstream call, and both are shaped from the same stored document for their own page |

## Left out

- The outbound HTTP request and `resp.json()` decoding (main.py:12-22) are network I/O. The upstream is an oracle from (key, time) to a reply, and the reply holds its decoded document.
- The document is reduced to `response.game_count` and `response.games`. Other members are passed through by the source and never read. A `game_count` or `games` of the wrong JSON type, which would raise a `TypeError` in the source, is not modelled.
- Game records are an uninterpreted type parameter. They pass through unchanged.
- The wording of the error detail (`"Error from SteamAPI: "` followed by the bytes' `repr`) is not modelled. The failure carries the status and the raw body.
- `TtlCache.OwnedGamesCache.Get`: evicts an arbitrary live entry when the cache is full, not the least recently used one. The cache library's recency order is not visible in this repository. Its internal locking and the order in which it purges expired entries are left out too.
- `TtlCache.OwnedGamesCache.Get`: stamps a new entry with the clock reading taken at lookup, not a reading taken after the upstream call returns. The duration of the call is not modelled.
- The key normalisation of `typed=False` (equal values of different numeric types share a key) is not modelled. The key's flag fields are plain integers.
- Concurrent requests are not modelled. This covers duplicate upstream calls for one key missed twice at once, and the cache's preference for an entry already stored by a racing request.
- FastAPI routing, query-parameter parsing and defaults, the `async` handler, the translation of exceptions into HTTP responses, and `app()` startup (main.py:4, 8, 26-36, 50-51) are framework plumbing.
