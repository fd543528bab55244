/** Paged search over two ordered sources. Titles and ids stand for their rank in the string
    order, which the database and the process are taken to share. */
module Search {
  import opened Wrappers
  import opened Sequences

  datatype EntityType = CustomerType | SupplierType | InvoiceType | ProductType | BlackBookType

  datatype Hit = Hit(score: int, title: nat, id: nat, entityType: EntityType)

  /** The order of the results: score downwards, then title, then id. */
  predicate Precedes(a: Hit, b: Hit) {
    a.score > b.score || (a.score == b.score && (a.title < b.title || (a.title == b.title && a.id < b.id)))
  }

  predicate SameKey(a: Hit, b: Hit) { a.score == b.score && a.title == b.title && a.id == b.id }

  predicate Ordered(s: seq<Hit>) { forall i, j :: 0 <= i < j < |s| ==> !Precedes(s[j], s[i]) }

  /** Score, title and id tell the results apart. */
  predicate KeysTell(s: seq<Hit>) { forall a <- s, b <- s :: SameKey(a, b) ==> a == b }

  function Insert(s: seq<Hit>, h: Hit): seq<Hit> {
    if s == [] then [h]
    else if Precedes(h, s[|s| - 1]) then Insert(s[..|s| - 1], h) + [s[|s| - 1]]
    else s + [h]
  }

  /** The stable sort of the results. */
  function SortHits(s: seq<Hit>): seq<Hit> {
    if s == [] then [] else Insert(SortHits(s[..|s| - 1]), s[|s| - 1])
  }

  function Take(s: seq<Hit>, n: nat): seq<Hit> { if n < |s| then s[..n] else s }

  function Slice(s: seq<Hit>, offset: nat, limit: nat): seq<Hit> {
    if |s| <= offset then [] else Take(s[offset..], limit)
  }

  // ----- Cursors -----

  const MAX_OFFSET := 1_000_000

  /** A fingerprint stands for the query it was computed from. */
  datatype Scope = Scope(text: string, entityTypes: set<EntityType>)

  datatype Cursor = Cursor(offset: int, scope: Scope)

  function DecodeCursor(cursor: Option<Cursor>, scope: Scope): Result<nat> {
    if cursor.None? then Ok(0)
    else if 0 <= cursor.value.offset <= MAX_OFFSET && cursor.value.scope == scope then Ok(cursor.value.offset)
    else Err(BadRequest)
  }

  datatype Response = Response(results: seq<Hit>, nextCursor: Option<Cursor>)

  /** What sorting everything would answer. */
  function Answer(all: seq<Hit>, scope: Scope, offset: nat, limit: nat): Response {
    Response(Slice(all, offset, limit), if |all| > offset + limit then Some(Cursor(offset + limit, scope)) else None)
  }

  /** Fetches only the first offset + limit + 1 of each source, in the order the source answers,
      yet answers as if everything had been sorted. */
  method RunSearch(indexed: seq<Hit>, blackbook: seq<Hit>, scope: Scope, cursor: Option<Cursor>, limit: nat)
    returns (r: Result<Response>)
    requires Ordered(indexed) && Ordered(blackbook)
    ensures r.Ok? <==> DecodeCursor(cursor, scope).Ok?
    ensures r.Ok? ==> r.value == Answer(SortHits(indexed + blackbook), scope, DecodeCursor(cursor, scope).value, limit)
  {
    var offset :- DecodeCursor(cursor, scope);
    var fetchLimit := offset + limit + 1;
    var ranked: seq<Hit> := [];
    var rows := Take(indexed, fetchLimit);
    for i := 0 to |rows|
      invariant ranked == rows[..i]
    {
      ranked := ranked + [rows[i]];
    }
    var entries := Take(blackbook, fetchLimit);
    for i := 0 to |entries|
      invariant ranked == rows + entries[..i]
    {
      ranked := ranked + [entries[i]];
    }
    assert ranked == Take(indexed, fetchLimit) + Take(blackbook, fetchLimit);
    var found := SortHits(ranked);
    FetchSuffices(indexed, blackbook, fetchLimit);
    var hasMore := |found| > offset + limit;
    var page := Slice(found, offset, limit);
    SameSlice(found, SortHits(indexed + blackbook), offset, limit);
    return Ok(Response(page, if hasMore then Some(Cursor(offset + limit, scope)) else None));
  }

  lemma SameSlice(s: seq<Hit>, t: seq<Hit>, offset: nat, limit: nat)
    requires Take(s, offset + limit + 1) == Take(t, offset + limit + 1)
    ensures Slice(s, offset, limit) == Slice(t, offset, limit)
    ensures |s| > offset + limit <==> |t| > offset + limit
  {
    var m := offset + limit + 1;
    var u := Take(s, m);
    forall k | 0 <= k < |u| ensures s[k] == u[k] && t[k] == u[k] {}
    assert |u| <= m && (|u| < m ==> s == u && t == u);
  }

  // ----- Sorting and merging -----

  /** Merges two ordered sources; on a tie the first source goes first. */
  function Merge(a: seq<Hit>, b: seq<Hit>): seq<Hit>
    decreases |a| + |b|
  {
    if a == [] then b
    else if b == [] then a
    else if Precedes(b[0], a[0]) then [b[0]] + Merge(a, b[1..])
    else [a[0]] + Merge(a[1..], b)
  }

  lemma {:induction false} InsertKeeps(s: seq<Hit>, h: Hit)
    ensures multiset(Insert(s, h)) == multiset(s) + multiset{h} && |Insert(s, h)| == |s| + 1
  {
    if s != [] && Precedes(h, s[|s| - 1]) {
      InsertKeeps(s[..|s| - 1], h);
      assert s == s[..|s| - 1] + [s[|s| - 1]];
    }
  }

  lemma {:induction false} InsertOrders(s: seq<Hit>, h: Hit)
    requires Ordered(s)
    ensures Ordered(Insert(s, h))
  {
    if s != [] && Precedes(h, s[|s| - 1]) {
      var n := |s| - 1;
      InsertOrders(s[..n], h);
      InsertKeeps(s[..n], h);
      var t := Insert(s[..n], h);
      forall i | 0 <= i < |t| ensures !Precedes(s[n], t[i]) {
        assert t[i] in multiset(t);
        assert t[i] in s[..n] || t[i] == h;
      }
    }
  }

  lemma {:induction false} SortKeeps(s: seq<Hit>)
    ensures multiset(SortHits(s)) == multiset(s) && |SortHits(s)| == |s| && Ordered(SortHits(s))
  {
    if s != [] {
      var n := |s| - 1;
      SortKeeps(s[..n]);
      InsertKeeps(SortHits(s[..n]), s[n]);
      InsertOrders(SortHits(s[..n]), s[n]);
      assert s == s[..n] + [s[n]];
    }
  }

  lemma HeadFirst(s: seq<Hit>)
    requires s != []
    ensures multiset(s) == multiset{s[0]} + multiset(s[1..])
  {
    assert s == [s[0]] + s[1..];
  }

  lemma {:induction false} MergeHolds(a: seq<Hit>, b: seq<Hit>)
    ensures multiset(Merge(a, b)) == multiset(a) + multiset(b) && |Merge(a, b)| == |a| + |b|
    decreases |a| + |b|
  {
    if a != [] && b != [] {
      var merged := Merge(a, b);
      HeadFirst(merged);
      if Precedes(b[0], a[0]) {
        MergeHolds(a, b[1..]);
        HeadFirst(b);
        assert merged[1..] == Merge(a, b[1..]);
      } else {
        MergeHolds(a[1..], b);
        HeadFirst(a);
        assert merged[1..] == Merge(a[1..], b);
      }
    }
  }

  lemma {:induction false} InsertAfterHead(head: Hit, s: seq<Hit>, h: Hit)
    requires !Precedes(h, head)
    ensures Insert([head] + s, h) == [head] + Insert(s, h)
  {
    var t := [head] + s;
    if s == [] {
      assert t == [head] && [head] + [h] == t + [h];
    } else {
      var n := |s| - 1;
      assert t[..n + 1] == [head] + s[..n];
      InsertAfterHead(head, s[..n], h);
      assert [head] + Insert(s[..n], h) + [s[n]] == [head] + (Insert(s[..n], h) + [s[n]]);
      assert t + [h] == [head] + (s + [h]);
    }
  }

  lemma {:induction false} InsertInFront(s: seq<Hit>, h: Hit)
    requires forall x <- s :: Precedes(h, x)
    ensures Insert(s, h) == [h] + s
  {
    if s != [] {
      InsertInFront(s[..|s| - 1], h);
      assert s[|s| - 1] in s;
      assert [h] + s[..|s| - 1] + [s[|s| - 1]] == [h] + s;
    }
  }

  lemma FirstOfOrdered(s: seq<Hit>, x: Hit)
    requires Ordered(s) && s != [] && Precedes(x, s[0])
    ensures forall y <- s :: Precedes(x, y)
  {
    forall y <- s ensures Precedes(x, y) {
      var i :| 0 <= i < |s| && s[i] == y;
      assert i > 0 ==> !Precedes(s[i], s[0]);
    }
  }

  lemma {:induction false} InsertIntoOne(a: seq<Hit>, x: Hit)
    requires Ordered(a)
    ensures Merge(a, [x]) == Insert(a, x)
  {
    if a != [] {
      if Precedes(x, a[0]) {
        FirstOfOrdered(a, x);
        InsertInFront(a, x);
        assert [x][1..] == [];
      } else {
        InsertIntoOne(a[1..], x);
        InsertAfterHead(a[0], a[1..], x);
        assert a == [a[0]] + a[1..];
      }
    }
  }

  /** Inserting the next element of the second source into the merge so far. */
  lemma {:induction false} InsertIntoMerge(a: seq<Hit>, b: seq<Hit>, x: Hit)
    requires Ordered(a) && Ordered(b + [x])
    ensures Merge(a, b + [x]) == Insert(Merge(a, b), x)
    decreases |a| + |b|
  {
    if b == [] {
      assert b + [x] == [x];
      InsertIntoOne(a, x);
    } else {
      assert (b + [x])[|b|] == x && (b + [x])[0] == b[0] && !Precedes(x, b[0]);
      assert (b + [x])[1..] == b[1..] + [x] && b[1..] + [x] == (b + [x])[1..];
      if a == [] {
        LastIsAppended(b, x);
      } else if Precedes(b[0], a[0]) {
        InsertIntoMerge(a, b[1..], x);
        InsertAfterHead(b[0], Merge(a, b[1..]), x);
      } else {
        InsertIntoMerge(a[1..], b, x);
        InsertAfterHead(a[0], Merge(a[1..], b), x);
      }
    }
  }

  lemma LastIsAppended(s: seq<Hit>, x: Hit)
    requires Ordered(s + [x])
    ensures Insert(s, x) == s + [x]
  {
    if s != [] {
      assert (s + [x])[|s|] == x && (s + [x])[|s| - 1] == s[|s| - 1];
    }
  }

  lemma {:induction false} SortOfOrdered(s: seq<Hit>)
    requires Ordered(s)
    ensures SortHits(s) == s
  {
    if s != [] {
      var n := |s| - 1;
      SortOfOrdered(s[..n]);
      assert s[..n] + [s[n]] == s;
      LastIsAppended(s[..n], s[n]);
    }
  }

  lemma SameFirst(s: seq<Hit>, t: seq<Hit>)
    requires multiset(s) == multiset(t) && Ordered(s) && Ordered(t) && KeysTell(s) && s != []
    ensures t != [] && s[0] == t[0]
  {
    assert s[0] in multiset(t);
    assert t[0] in multiset(s);
    var i :| 0 <= i < |s| && s[i] == t[0];
    var j :| 0 <= j < |t| && t[j] == s[0];
    if i > 0 && j > 0 {
      assert !Precedes(s[i], s[0]) && !Precedes(t[j], t[0]);
      assert s[0] in s && s[i] in s && SameKey(s[0], s[i]);
    }
  }

  /** When keys tell results apart there is only one order. */
  lemma {:induction false} OneOrder(s: seq<Hit>, t: seq<Hit>)
    requires multiset(s) == multiset(t) && Ordered(s) && Ordered(t) && KeysTell(s)
    ensures s == t
  {
    if s == [] {
      assert |multiset(t)| == |t|;
    } else {
      SameFirst(s, t);
      assert s == [s[0]] + s[1..] && t == [t[0]] + t[1..];
      assert multiset(s[1..]) == multiset(s) - multiset{s[0]} == multiset(t[1..]);
      OneOrder(s[1..], t[1..]);
    }
  }

  lemma SortOneMore(s: seq<Hit>, h: Hit)
    ensures SortHits(s + [h]) == Insert(SortHits(s), h)
  {
    assert (s + [h])[..|s|] == s;
  }

  /** Sorting two ordered sources together, stably, is merging them. */
  lemma {:induction false} SortIsMerge(a: seq<Hit>, b: seq<Hit>)
    requires Ordered(a) && Ordered(b)
    ensures SortHits(a + b) == Merge(a, b)
  {
    if b == [] {
      assert a + b == a;
      SortOfOrdered(a);
    } else {
      var front, last := b[..|b| - 1], b[|b| - 1];
      assert b == front + [last];
      Regroup(a, front, [last]);
      SortOneMore(a + front, last);
      SortIsMerge(a, front);
      InsertIntoMerge(a, front, last);
    }
  }

  /** The first m of a merge need only the first m, or more, of each side. */
  lemma {:induction false} MergePrefix(a: seq<Hit>, b: seq<Hit>, m: nat, p: nat, q: nat)
    requires m <= p && m <= q
    ensures Take(Merge(Take(a, p), Take(b, q)), m) == Take(Merge(a, b), m)
    decreases |a| + |b|
  {
    if m > 0 && a != [] && b != [] {
      if Precedes(b[0], a[0]) {
        MergePrefix(a, b[1..], m - 1, p, q - 1);
        TakeTail(b, q);
        TakeCons(b[0], Merge(Take(a, p), Take(b[1..], q - 1)), Merge(a, b[1..]), m);
      } else {
        MergePrefix(a[1..], b, m - 1, p - 1, q);
        TakeTail(a, p);
        TakeCons(a[0], Merge(Take(a[1..], p - 1), Take(b, q)), Merge(a[1..], b), m);
      }
    }
  }

  lemma TakeTail(s: seq<Hit>, m: nat)
    requires 0 < m && s != []
    ensures Take(s, m) != [] && Take(s, m)[0] == s[0] && Take(s, m)[1..] == Take(s[1..], m - 1)
  {
    if m < |s| { assert s[..m][1..] == s[1..][..m - 1]; }
  }

  lemma TakeCons(h: Hit, s: seq<Hit>, t: seq<Hit>, m: nat)
    requires 0 < m && Take(s, m - 1) == Take(t, m - 1)
    ensures Take([h] + s, m) == Take([h] + t, m)
  {
    assert Take([h] + s, m) == [h] + Take(s, m - 1) && Take([h] + t, m) == [h] + Take(t, m - 1);
  }

  lemma FetchSuffices(a: seq<Hit>, b: seq<Hit>, m: nat)
    requires Ordered(a) && Ordered(b)
    ensures Take(SortHits(Take(a, m) + Take(b, m)), m) == Take(SortHits(a + b), m)
  {
    SortIsMerge(Take(a, m), Take(b, m));
    SortIsMerge(a, b);
    MergePrefix(a, b, m, m, m);
  }

  // ----- Walking the pages -----

  /** Follows the cursor with a limit of the caller's choice for each page; Err when a cursor
      is refused, None when the limits run out first. */
  function Walk(all: seq<Hit>, scope: Scope, cursor: Option<Cursor>, limits: seq<nat>): Result<Option<seq<Hit>>>
    decreases |limits|
  {
    var offset :- DecodeCursor(cursor, scope);
    if limits == [] then Ok(None)
    else
      var response := Answer(all, scope, offset, limits[0]);
      if response.nextCursor.None? then Ok(Some(response.results))
      else
        var rest :- Walk(all, scope, response.nextCursor, limits[1..]);
        Ok(if rest.None? then None else Some(response.results + rest.value))
  }

  lemma {:induction false} WalkFrom(all: seq<Hit>, scope: Scope, cursor: Option<Cursor>, limits: seq<nat>)
    requires DecodeCursor(cursor, scope).Ok? && DecodeCursor(cursor, scope).value <= |all|
    requires Walk(all, scope, cursor, limits).Ok? && Walk(all, scope, cursor, limits).value.Some?
    ensures Walk(all, scope, cursor, limits).value.value == all[DecodeCursor(cursor, scope).value..]
    decreases |limits|
  {
    var offset := DecodeCursor(cursor, scope).value;
    var response := Answer(all, scope, offset, limits[0]);
    if response.nextCursor.Some? {
      WalkFrom(all, scope, response.nextCursor, limits[1..]);
      assert all[offset..] == all[offset..offset + limits[0]] + all[offset + limits[0]..];
    }
  }

  function Sum(limits: seq<nat>): nat {
    if limits == [] then 0 else limits[0] + Sum(limits[1..])
  }

  /** Some page ends past the largest offset and before the end of the list. */
  ghost predicate Oversteps(n: nat, offset: nat, limits: seq<nat>) {
    exists k :: 0 < k <= |limits| && MAX_OFFSET < offset + Sum(limits[..k]) < n
  }

  /** Some page ends at or past the end of the list. */
  ghost predicate Reaches(n: nat, offset: nat, limits: seq<nat>) {
    exists k :: 0 < k <= |limits| && n <= offset + Sum(limits[..k])
  }

  lemma SumOfMore(limits: seq<nat>, k: nat)
    requires 0 < k <= |limits|
    ensures Sum(limits[..k]) == limits[0] + Sum(limits[1..][..k - 1])
  {
    assert limits[..k][1..] == limits[1..][..k - 1];
  }

  /** What one page leaves to the rest of the walk. */
  lemma AfterOnePage(n: nat, offset: nat, limits: seq<nat>)
    requires limits != []
    ensures var next := offset + limits[0];
            && (Oversteps(n, offset, limits) <==> MAX_OFFSET < next < n || Oversteps(n, next, limits[1..]))
            && (Reaches(n, offset, limits) <==> n <= next || Reaches(n, next, limits[1..]))
  {
    var next, rest := offset + limits[0], limits[1..];
    SumOfMore(limits, 1);
    forall k | 0 < k <= |rest| ensures offset + Sum(limits[..k + 1]) == next + Sum(rest[..k]) {
      SumOfMore(limits, k + 1);
    }
    forall k | 1 < k <= |limits| ensures offset + Sum(limits[..k]) == next + Sum(rest[..k - 1]) {
      SumOfMore(limits, k);
    }
    if n <= next { assert n <= offset + Sum(limits[..1]); }
    if MAX_OFFSET < next < n { assert MAX_OFFSET < offset + Sum(limits[..1]) < n; }
    if Oversteps(n, next, rest) {
      var k :| 0 < k <= |rest| && MAX_OFFSET < next + Sum(rest[..k]) < n;
      assert MAX_OFFSET < offset + Sum(limits[..k + 1]) < n;
    }
    if Reaches(n, next, rest) {
      var k :| 0 < k <= |rest| && n <= next + Sum(rest[..k]);
      assert n <= offset + Sum(limits[..k + 1]);
    }
  }

  /** Nothing past the end is overstepped. */
  lemma NothingPastTheEnd(n: nat, offset: nat, limits: seq<nat>)
    requires n <= offset
    ensures !Oversteps(n, offset, limits)
  {
  }

  /** How a walk comes out, from the list's length and the limits alone: it is refused exactly
      when a page oversteps the largest offset, and it ends exactly when it is not refused and
      some page reaches the end. */
  lemma {:induction false} WalkOutcome(all: seq<Hit>, scope: Scope, cursor: Option<Cursor>, limits: seq<nat>)
    requires DecodeCursor(cursor, scope).Ok?
    ensures var offset, walk := DecodeCursor(cursor, scope).value, Walk(all, scope, cursor, limits);
            && (walk.Err? <==> Oversteps(|all|, offset, limits))
            && (walk.Ok? && walk.value.Some? <==> Reaches(|all|, offset, limits) && !Oversteps(|all|, offset, limits))
    decreases |limits|
  {
    if limits != [] {
      var offset := DecodeCursor(cursor, scope).value;
      var response := Answer(all, scope, offset, limits[0]);
      AfterOnePage(|all|, offset, limits);
      if response.nextCursor.None? {
        NothingPastTheEnd(|all|, offset + limits[0], limits[1..]);
      } else if offset + limits[0] <= MAX_OFFSET {
        WalkOutcome(all, scope, response.nextCursor, limits[1..]);
      }
    }
  }

  /** While the sources answer in one order, a walk from the start that reaches the end and
      oversteps nothing has shown every result exactly once and in order, whatever limits are
      used from page to page; any other walk is refused or stops short. */
  lemma WalkShowsEverything(indexed: seq<Hit>, blackbook: seq<Hit>, scope: Scope, limits: seq<nat>)
    requires Ordered(indexed) && Ordered(blackbook)
    ensures var n := |indexed| + |blackbook|;
            Walk(SortHits(indexed + blackbook), scope, None, limits) == Ok(Some(Merge(indexed, blackbook)))
            <==> Reaches(n, 0, limits) && !Oversteps(n, 0, limits)
    ensures multiset(Merge(indexed, blackbook)) == multiset(indexed) + multiset(blackbook)
        && Ordered(Merge(indexed, blackbook))
  {
    var all := SortHits(indexed + blackbook);
    SortIsMerge(indexed, blackbook);
    MergeHolds(indexed, blackbook);
    SortKeeps(indexed + blackbook);
    WalkOutcome(all, scope, None, limits);
    if Reaches(|all|, 0, limits) && !Oversteps(|all|, 0, limits) {
      WalkFrom(all, scope, None, limits);
    }
  }

  lemma {:induction false} SumAtLeast(limits: seq<nat>)
    requires forall limit <- limits :: 1 <= limit
    ensures |limits| <= Sum(limits)
  {
    if limits != [] {
      assert limits[0] in limits;
      forall limit <- limits[1..] ensures 1 <= limit { assert limit in limits; }
      SumAtLeast(limits[1..]);
    }
  }

  /** With a page for every result, a walk over at most 1,000,001 results always ends. */
  lemma EnoughPagesEnd(all: seq<Hit>, scope: Scope, limits: seq<nat>)
    requires |all| <= MAX_OFFSET + 1 && |all| <= |limits| && limits != [] && forall limit <- limits :: 1 <= limit
    ensures var walk := Walk(all, scope, None, limits); walk.Ok? && walk.value.Some?
  {
    SumAtLeast(limits);
    assert limits[..|limits|] == limits;
    assert |all| <= 0 + Sum(limits[..|limits|]);
    WalkOutcome(all, scope, None, limits);
  }

  // ----- How long a list can be walked -----

  const MAX_LIMIT := 50

  predicate PageLimits(limits: seq<nat>) { forall limit <- limits :: 1 <= limit <= MAX_LIMIT }

  function FullPages(n: nat): seq<nat> { seq(n, _ => MAX_LIMIT) }

  lemma {:induction false} SumOfFullPages(n: nat)
    ensures Sum(FullPages(n)) == n * MAX_LIMIT
  {
    if n != 0 {
      assert FullPages(n)[1..] == FullPages(n - 1);
      SumOfFullPages(n - 1);
    }
  }

  lemma {:induction false} SumAppend(xs: seq<nat>, ys: seq<nat>)
    ensures Sum(xs + ys) == Sum(xs) + Sum(ys)
  {
    if xs == [] {
      assert xs + ys == ys;
    } else {
      SumAppend(xs[1..], ys);
      assert (xs + ys)[1..] == xs[1..] + ys;
    }
  }

  /** Full pages land on the largest offset, and one more result is a page past it. */
  lemma LongWalkIsRefused(all: seq<Hit>, scope: Scope)
    requires |all| > MAX_OFFSET + 1
    ensures Walk(all, scope, None, FullPages(MAX_OFFSET / MAX_LIMIT) + [1]).Err?
  {
    var pages := FullPages(MAX_OFFSET / MAX_LIMIT);
    var limits := pages + [1];
    SumOfFullPages(MAX_OFFSET / MAX_LIMIT);
    SumAppend(pages, [1]);
    assert limits[..|limits|] == limits;
    assert MAX_OFFSET < 0 + Sum(limits[..|limits|]) < |all|;
    WalkOutcome(all, scope, None, limits);
  }

  /** A caller can run into a refused cursor exactly when there are more than 1,000,001 results. */
  lemma SomeWalkIsRefused(all: seq<Hit>, scope: Scope)
    ensures (exists limits :: PageLimits(limits) && Walk(all, scope, None, limits).Err?) <==> |all| > MAX_OFFSET + 1
  {
    if |all| > MAX_OFFSET + 1 {
      LongWalkIsRefused(all, scope);
    } else {
      forall limits | PageLimits(limits) ensures Walk(all, scope, None, limits).Ok? {
        WalkOutcome(all, scope, None, limits);
      }
    }
  }

  /** The page that reaches the end starts within the largest offset. */
  lemma {:induction false} LastPageStartsWithin(n: nat, offset: nat, limits: seq<nat>)
    requires PageLimits(limits) && offset <= MAX_OFFSET && Reaches(n, offset, limits) && !Oversteps(n, offset, limits)
    ensures n <= MAX_OFFSET + MAX_LIMIT
    decreases |limits|
  {
    AfterOnePage(n, offset, limits);
    assert limits[0] in limits;
    var next := offset + limits[0];
    if next < n {
      forall limit <- limits[1..] ensures 1 <= limit <= MAX_LIMIT { assert limit in limits; }
      LastPageStartsWithin(n, next, limits[1..]);
    }
  }

  lemma FullPagesEnd(all: seq<Hit>, scope: Scope)
    requires |all| <= MAX_OFFSET + MAX_LIMIT
    ensures var walk := Walk(all, scope, None, FullPages(MAX_OFFSET / MAX_LIMIT + 1)); walk.Ok? && walk.value.Some?
  {
    var n := MAX_OFFSET / MAX_LIMIT + 1;
    forall k | 0 < k <= n ensures Sum(FullPages(n)[..k]) == k * MAX_LIMIT {
      assert FullPages(n)[..k] == FullPages(k);
      SumOfFullPages(k);
    }
    assert |all| <= 0 + Sum(FullPages(n)[..n]);
    WalkOutcome(all, scope, None, FullPages(n));
  }

  /** Some choice of limits walks a list to its end exactly when it has at most 1,000,050 results. */
  lemma SomeWalkEnds(all: seq<Hit>, scope: Scope)
    ensures (exists limits ::
        PageLimits(limits) && Walk(all, scope, None, limits).Ok? && Walk(all, scope, None, limits).value.Some?)
            <==> |all| <= MAX_OFFSET + MAX_LIMIT
  {
    if |all| <= MAX_OFFSET + MAX_LIMIT {
      FullPagesEnd(all, scope);
    } else {
      forall limits | PageLimits(limits)
          && Walk(all, scope, None, limits).Ok? ensures Walk(all, scope, None, limits).value.None? {
        WalkOutcome(all, scope, None, limits);
        if Reaches(|all|, 0, limits) { LastPageStartsWithin(|all|, 0, limits); }
      }
    }
  }

  // ----- Ties -----

  function Swap(s: seq<Hit>, i: nat, j: nat): seq<Hit>
    requires i < |s| && j < |s|
  {
    s[i := s[j]][j := s[i]]
  }

  /** An ordered source has a single arrangement exactly when results with the same key are the
      same result. A contact's customer and supplier documents break this: they share score,
      title and id. */
  lemma ArrangementIsUnique(s: seq<Hit>)
    requires Ordered(s)
    ensures (forall t | multiset(t) == multiset(s) && Ordered(t) :: t == s) <==> KeysTell(s)
  {
    if KeysTell(s) {
      forall t | multiset(t) == multiset(s) && Ordered(t) ensures t == s {
        OneOrder(s, t);
      }
    } else {
      var i, j := TiedPair(s);
      SwapKeeps(s, i, j);
      assert Swap(s, i, j)[i] != s[i];
    }
  }

  lemma SwapKeeps(s: seq<Hit>, i: nat, j: nat)
    requires Ordered(s) && i < j < |s| && SameKey(s[i], s[j])
    ensures multiset(Swap(s, i, j)) == multiset(s) && Ordered(Swap(s, i, j))
  {
    var t := Swap(s, i, j);
    forall k | 0 <= k < |t| ensures SameKey(t[k], s[k]) {}
    forall k, l | 0 <= k < l < |t| ensures !Precedes(t[l], t[k]) {
      assert SameKey(t[k], s[k]) && SameKey(t[l], s[l]) && !Precedes(s[l], s[k]);
    }
    assert multiset(s[i := s[j]]) == multiset(s) - multiset{s[i]} + multiset{s[j]};
  }

  /** Two pages of the same query, cut at `k`, the second answered from another arrangement of the
      same results: together they show every result exactly once. */
  ghost predicate PagesAgree(s: seq<Hit>) {
    forall t: seq<Hit>, k: nat | multiset(t) == multiset(s) && Ordered(t) && k <= |s| && |t| == |s| ::
      multiset(s[..k] + t[k..]) == multiset(s)
  }

  /** Whatever arrangements answer two pages and wherever the cut, no result shows twice and none is
      lost exactly when results with the same key are the same result. */
  lemma PagesAgreeExactlyWhenKeysTell(s: seq<Hit>)
    requires Ordered(s)
    ensures PagesAgree(s) <==> KeysTell(s)
  {
    if KeysTell(s) {
      forall t: seq<Hit>, k: nat | multiset(t) == multiset(s) && Ordered(t) && k <= |s| && |t| == |s|
        ensures multiset(s[..k] + t[k..]) == multiset(s)
      {
        OneOrder(s, t);
        assert s[..k] + s[k..] == s;
      }
    } else {
      var i, j := TiedPair(s);
      SwapKeeps(s, i, j);
      SwapLoses(s, i, j);
    }
  }

  lemma TiedPair(s: seq<Hit>) returns (i: nat, j: nat)
    requires !KeysTell(s)
    ensures i < j < |s| && SameKey(s[i], s[j]) && s[i] != s[j]
  {
    var x, y :| x in s && y in s && SameKey(x, y) && x != y;
    var k :| 0 <= k < |s| && s[k] == x;
    var l :| 0 <= l < |s| && s[l] == y;
    i, j := if k < l then k else l, if k < l then l else k;
  }

  /** A page cut right after the first of a tied pair, followed by a page with the two exchanged,
      shows the first twice and the second not at its place. */
  lemma SwapLoses(s: seq<Hit>, i: nat, j: nat)
    requires i < j < |s| && s[i] != s[j]
    ensures multiset(s[..i + 1] + Swap(s, i, j)[i + 1..])
         == multiset(s) - multiset{s[j]} + multiset{s[i]} != multiset(s)
  {
    assert s[..i + 1] + Swap(s, i, j)[i + 1..] == s[j := s[i]];
    assert multiset(s)[s[j]] > 0;
    assert multiset(s[j := s[i]])[s[i]] == multiset(s)[s[i]] + 1;
  }

  /** With such a tie the database may answer two pages from two arrangements, so that one
      result shows twice and the other never. */
  lemma TiesRepeatAcrossPages()
    ensures var customer, supplier := Hit(100, 7, 1, CustomerType), Hit(100, 7, 1, SupplierType);
            var one, other := [customer, supplier], [supplier, customer];
            && Ordered(one) && Ordered(other) && multiset(one) == multiset(other)
            && Slice(one, 0, 1) == [customer] && Slice(other, 1, 1) == [customer]
  {
    var customer, supplier := Hit(100, 7, 1, CustomerType), Hit(100, 7, 1, SupplierType);
    assert multiset{customer, supplier} == multiset{supplier, customer};
  }
}
