/**
 * The pagination arithmetic of the lead listing (GET / in backend/routes/leads.js)
 * and the page of results it asks the store for: the matching documents sorted
 * newest first, `skip` of them dropped and at most `limit` kept.
 *
 * `parseInt` is not modelled: a page or limit parameter arrives as the integer it
 * parses to, or None when it is missing or not a number (NaN).
 */
module Pagination {
  import opened Wrappers

  const DefaultPage: int := 1
  const DefaultLimit: int := 20
  const MaxLimit: int := 100

  /** `parseInt(req.query.page) || 1`: a missing, unparsable or zero page becomes 1; others pass through. */
  function PageNumber(parsed: Option<int>): (page: int)
    ensures page != 0
    ensures parsed.Some? && parsed.value != 0 ==> page == parsed.value
    ensures parsed.None? || parsed.value == 0 ==> page == DefaultPage
  {
    if parsed.Some? && parsed.value != 0 then parsed.value else DefaultPage
  }

  /** `Math.min(parseInt(req.query.limit) || 20, 100)`. */
  function PageSize(parsed: Option<int>): (limit: int)
    ensures limit != 0 && limit <= MaxLimit
    ensures parsed.Some? && parsed.value != 0 && parsed.value <= MaxLimit ==> limit == parsed.value
    ensures parsed.Some? && parsed.value > MaxLimit ==> limit == MaxLimit
    ensures parsed.None? || parsed.value == 0 ==> limit == DefaultLimit
  {
    var requested := if parsed.Some? && parsed.value != 0 then parsed.value else DefaultLimit;
    if requested < MaxLimit then requested else MaxLimit
  }

  /** `(page - 1) * limit`: the number of documents before the requested page. */
  function Skip(page: int, limit: int): (skip: int)
    ensures page >= 1 && limit >= 1 ==> skip >= 0
    ensures page == 1 ==> skip == 0
  {
    (page - 1) * limit
  }

  /** Each page starts `limit` documents after the previous one. */
  lemma SkipAdvancesByLimit(page: int, limit: int)
    ensures Skip(page + 1, limit) == Skip(page, limit) + limit
  {
  }

  /** `Math.ceil(total / limit)` for a non-zero limit. */
  function TotalPages(total: nat, limit: int): (pages: int)
    requires limit != 0
    ensures total == 0 ==> pages == 0
    ensures limit > 0 && total > 0 ==> (pages - 1) * limit < total <= pages * limit
    ensures limit < 0 ==> pages * limit <= total < (pages - 1) * limit
  {
    if limit > 0 then (total + limit - 1) / limit else -(total / -limit)
  }

  /** For a positive limit there are no pages exactly when there are no documents. */
  lemma TotalPagesZero(total: nat, limit: int)
    requires limit >= 1
    ensures TotalPages(total, limit) == 0 <==> total == 0
  {
  }

  /** The last page is the one holding the last document, and it is not empty. */
  lemma LastPageHoldsRemainder(total: nat, limit: int)
    requires limit >= 1 && total > 0
    ensures var lastSkip := Skip(TotalPages(total, limit), limit);
      0 <= lastSkip < total && total - lastSkip <= limit
  {
  }

  lemma ExamplePageCounts()
    ensures TotalPages(105, 20) == 6
    ensures TotalPages(100, 20) == 5
    ensures TotalPages(0, 20) == 0
    ensures TotalPages(1, 100) == 1
  {
  }

  // ---------------------------------------------------------------------------
  // Sorting newest first and taking a window

  /** `s` is ordered by `key`, largest first (`.sort({ createdAt: -1 })`). */
  predicate NewestFirst<T>(s: seq<T>, key: T -> int) {
    forall i, j :: 0 <= i < j < |s| ==> key(s[i]) >= key(s[j])
  }

  /** An element no older than every element of a newest-first sequence may be put in front of it. */
  lemma PrependKeepsOrder<T>(y: T, s: seq<T>, key: T -> int)
    requires NewestFirst(s, key)
    requires forall k :: 0 <= k < |s| ==> key(y) >= key(s[k])
    ensures NewestFirst([y] + s, key)
  {
  }

  /** A bound on `x` and on every element of `rest` bounds every element of a permutation of both. */
  lemma BoundsPermutation<T>(h: T, x: T, rest: seq<T>, tail: seq<T>, key: T -> int)
    requires multiset(tail) == multiset(rest) + multiset{x}
    requires key(h) >= key(x)
    requires forall k :: 0 <= k < |rest| ==> key(h) >= key(rest[k])
    ensures forall k :: 0 <= k < |tail| ==> key(h) >= key(tail[k])
  {
    forall k | 0 <= k < |tail| ensures key(h) >= key(tail[k]) {
      assert tail[k] in multiset(tail);
      if tail[k] != x {
        assert tail[k] in multiset(rest);
        var j :| 0 <= j < |rest| && rest[j] == tail[k];
      }
    }
  }

  /** Inserts `x` into a newest-first sequence. */
  function Insert<T>(x: T, s: seq<T>, key: T -> int): (r: seq<T>)
    requires NewestFirst(s, key)
    ensures NewestFirst(r, key)
    ensures multiset(r) == multiset(s) + multiset{x}
  {
    if s == [] || key(x) >= key(s[0]) then
      PrependKeepsOrder(x, s, key);
      [x] + s
    else
      var tail := Insert(x, s[1..], key);
      assert s == [s[0]] + s[1..];
      BoundsPermutation(s[0], x, s[1..], tail, key);
      PrependKeepsOrder(s[0], tail, key);
      [s[0]] + tail
  }

  /** The documents of `s` ordered newest first. */
  function SortNewestFirst<T>(s: seq<T>, key: T -> int): (r: seq<T>)
    ensures NewestFirst(r, key)
    ensures multiset(r) == multiset(s)
  {
    if s == [] then []
    else
      assert s == [s[0]] + s[1..];
      Insert(s[0], SortNewestFirst(s[1..], key), key)
  }

  /** `.skip(skip).limit(limit)`: the documents at positions skip, skip+1, ..., at most `limit` of them. */
  function Window<T>(s: seq<T>, skip: nat, limit: nat): (r: seq<T>)
    ensures |r| == if skip >= |s| then 0 else if |s| - skip < limit then |s| - skip else limit
    ensures forall i :: 0 <= i < |r| ==> r[i] == s[skip + i]
  {
    if skip >= |s| then []
    else if |s| - skip < limit then s[skip..]
    else s[skip..skip + limit]
  }

  /** The window after a window continues it without overlap or gap. */
  lemma {:induction false} AdjacentWindows<T>(s: seq<T>, skip: nat, limit: nat)
    ensures Window(s, skip, limit) + Window(s, skip + limit, limit) == Window(s, skip, 2 * limit)
  {
    var a := Window(s, skip, limit);
    var b := Window(s, skip + limit, limit);
    var c := Window(s, skip, 2 * limit);
    assert |a + b| == |c|;
    forall i | 0 <= i < |c| ensures (a + b)[i] == c[i] {
      if i >= |a| {
        assert (a + b)[i] == b[i - |a|];
      }
    }
  }

  /** Consecutive pages of one ordering neither overlap nor leave gaps. */
  lemma WindowsTile<T>(s: seq<T>, page: nat, limit: nat)
    ensures Window(s, page * limit, limit) + Window(s, (page + 1) * limit, limit) ==
      Window(s, page * limit, 2 * limit)
  {
    assert (page + 1) * limit == page * limit + limit;
    AdjacentWindows(s, page * limit, limit);
  }

  /** With 105 documents and 20 per page, page 6 holds the remaining 5. */
  lemma SixthPageOfHundredFive<T>(s: seq<T>)
    requires |s| == 105
    ensures |Window(s, Skip(6, 20), 20)| == 5
    ensures Window(s, Skip(6, 20), 20) == s[100..]
  {
  }
}
