/** How the lines of an invoice are spread over the pages of its document. All lengths are
    in points from the bottom of the page. */
module Pagination {
  /** The wrapped description of a line has one to five lines of text. */
  type TextLines = n: nat | 1 <= n <= 5 witness 1

  datatype Row = Row(line: nat, textLines: TextLines)

  function RowHeight(row: Row): nat {
    if row.textLines * 10 + 10 < 28 then 28 else row.textLines * 10 + 10
  }

  function Height(rows: seq<Row>): nat {
    if rows == [] then 0 else Height(rows[..|rows| - 1]) + RowHeight(rows[|rows| - 1])
  }

  const FOOTER_RULE := 43
  const HEADER_HEIGHT := 24

  function TableTop(page: nat): nat { if page == 0 then 535 else 750 }

  function NormalCapacity(page: nat): nat { TableTop(page) - 72 }

  /** What fits above the summary and payment boxes. */
  function FinalCapacity(page: nat): nat { TableTop(page) - 335 }

  const NEXT_FINAL_CAPACITY: nat := 750 - 335

  function Concat(pages: seq<seq<Row>>): seq<Row> {
    if pages == [] then [] else Concat(pages[..|pages| - 1]) + pages[|pages| - 1]
  }

  predicate Feasible(rows: seq<Row>, split: nat, page: nat)
    requires split <= |rows|
  {
    0 < split < |rows| && Height(rows[..split]) <= NormalCapacity(page)
        && Height(rows) - Height(rows[..split]) <= NEXT_FINAL_CAPACITY
  }

  function Imbalance(rows: seq<Row>, split: nat): nat
    requires split <= |rows|
  {
    var left, right := Height(rows[..split]), Height(rows) - Height(rows[..split]);
    if left < right then right - left else left - right
  }

  /** A feasible split as balanced as any other, and more balanced than any smaller one. */
  predicate FirstBest(rows: seq<Row>, split: nat, page: nat)
    requires split <= |rows|
  {
    && Feasible(rows, split, page)
    && forall s: nat :: s <= |rows| && Feasible(rows, s, page) ==>
         Imbalance(rows, split) <= Imbalance(rows, s) && (s < split ==> Imbalance(rows, split) < Imbalance(rows, s))
  }

  /** The rule for one page, given the rows on it and all rows after it: everything when it
      fits above the boxes; the first of the most balanced splits when two pages could do;
      as much as fits otherwise. */
  predicate PageOk(rows: seq<Row>, rest: seq<Row>, page: nat) {
    var all := rows + rest;
    if Height(all) <= FinalCapacity(page) then rest == []
    else if Height(all) <= NormalCapacity(page) + NEXT_FINAL_CAPACITY then
      if exists s: nat :: s <= |all| && Feasible(all, s, page) then FirstBest(all, |rows|, page)
      else |rows| == 1 && rest != []
    else
      && rows != [] && rest != [] && Height(rows) <= NormalCapacity(page)
      && (|rest| == 1 || Height(rows) + RowHeight(rest[0]) > NormalCapacity(page))
  }

  lemma {:induction false} HeightAppend(a: seq<Row>, b: seq<Row>)
    ensures Height(a + b) == Height(a) + Height(b)
  {
    if b == [] {
      assert a + b == a;
    } else {
      assert (a + b)[..|a + b| - 1] == a + b[..|b| - 1];
      HeightAppend(a, b[..|b| - 1]);
    }
  }

  lemma {:induction false} HeightAtLeast(rows: seq<Row>)
    ensures 28 * |rows| <= Height(rows) <= 60 * |rows|
  {
    if rows != [] {
      HeightAtLeast(rows[..|rows| - 1]);
    }
  }

  lemma ConcatOne(pages: seq<seq<Row>>, page: seq<Row>)
    ensures Concat(pages + [page]) == Concat(pages) + page
  {
    assert (pages + [page])[..|pages|] == pages;
  }

  /** Page i holds rows, and the right ones given what comes after it. */
  ghost predicate Placed(pages: seq<seq<Row>>, lines: seq<Row>, i: nat)
    requires i < |pages|
  {
    pages[i] != [] && |Concat(pages[..i + 1])| <= |lines| && PageOk(pages[i], lines[|Concat(pages[..i + 1])|..], i)
  }

  /** The pages made so far hold the first rows, in order, each by the rule. */
  ghost predicate SoFar(pages: seq<seq<Row>>, lines: seq<Row>, index: nat) {
    && index <= |lines| && Concat(pages) == lines[..index]
    && forall i :: 0 <= i < |pages| ==> Placed(pages, lines, i)
  }

  lemma StaysPlaced(pages: seq<seq<Row>>, page: seq<Row>, lines: seq<Row>, i: nat)
    requires i < |pages| && Placed(pages, lines, i)
    ensures Placed(pages + [page], lines, i)
  {
    assert (pages + [page])[..i + 1] == pages[..i + 1];
  }

  lemma OnePageMore(pages: seq<seq<Row>>, lines: seq<Row>, index: nat, count: nat)
    requires SoFar(pages, lines, index) && 0 < count && index + count <= |lines|
    requires PageOk(lines[index..index + count], lines[index + count..], |pages|)
    ensures SoFar(pages + [lines[index..index + count]], lines, index + count)
  {
    var page := lines[index..index + count];
    var more := pages + [page];
    ConcatOne(pages, page);
    assert lines[..index] + page == lines[..index + count];
    assert more[..|pages| + 1] == more;
    forall i | 0 <= i < |pages| ensures Placed(more, lines, i) { StaysPlaced(pages, page, lines, i); }
    assert Placed(more, lines, |pages|);
  }

  /** The first of the most balanced feasible splits, or 1 when none is feasible. */
  method BestSplit(remaining: seq<Row>, page: nat) returns (bestSplit: nat)
    requires 2 <= |remaining|
    ensures 0 < bestSplit < |remaining|
    ensures (exists s: nat :: s <= |remaining| && Feasible(remaining, s, page))
        ==> FirstBest(remaining, bestSplit, page)
    ensures (forall s: nat :: s <= |remaining| ==> !Feasible(remaining, s, page)) ==> bestSplit == 1
  {
    bestSplit := 1;
    var bestScore, found := 0, false;
    var remainingHeight := Height(remaining);
    for split := 1 to |remaining|
      invariant 0 < bestSplit < |remaining|
      invariant found ==>
          bestSplit < split && Feasible(remaining, bestSplit, page) && bestScore == Imbalance(remaining, bestSplit)
      invariant !found ==> bestSplit == 1
      invariant forall s: nat ::
          s < split && Feasible(remaining, s, page) ==> found && bestScore <= Imbalance(remaining, s)
      invariant found ==> forall s: nat ::
          s < bestSplit && Feasible(remaining, s, page) ==> bestScore < Imbalance(remaining, s)
    {
      HeightAppend(remaining[..split], remaining[split..]);
      assert remaining[..split] + remaining[split..] == remaining;
      var leftHeight := Height(remaining[..split]);
      var rightHeight := remainingHeight - leftHeight;
      if leftHeight > NormalCapacity(page) || rightHeight > NEXT_FINAL_CAPACITY { continue; }
      var score := if leftHeight < rightHeight then rightHeight - leftHeight else leftHeight - rightHeight;
      if !found || score < bestScore {
        bestSplit, bestScore, found := split, score, true;
      }
    }
  }

  /** As many of the remaining rows as fit, short of the last one. */
  method FillPage(lines: seq<Row>, start: nat, page: nat) returns (index: nat)
    requires start + 1 < |lines|
    ensures start < index < |lines| && Height(lines[start..index]) <= NormalCapacity(page)
    ensures index == |lines| - 1 || Height(lines[start..index]) + RowHeight(lines[index]) > NormalCapacity(page)
  {
    index := start;
    var available := NormalCapacity(page);
    while index < |lines| - 1 && RowHeight(lines[index]) <= available
      invariant start <= index < |lines| && 0 <= available == NormalCapacity(page) - Height(lines[start..index])
      invariant index == start ==> RowHeight(lines[index]) <= available
    {
      assert lines[start..index + 1][..index - start] == lines[start..index];
      available := available - RowHeight(lines[index]);
      index := index + 1;
    }
  }

  lemma FinalPageOk(remaining: seq<Row>, page: nat)
    requires Height(remaining) <= FinalCapacity(page)
    ensures PageOk(remaining, [], page)
  {
    assert remaining + [] == remaining;
  }

  lemma SplitPageOk(remaining: seq<Row>, count: nat, page: nat)
    requires 0 < count < |remaining|
        && FinalCapacity(page) < Height(remaining) <= NormalCapacity(page) + NEXT_FINAL_CAPACITY
    requires (exists s: nat :: s <= |remaining| && Feasible(remaining, s, page)) ==> FirstBest(remaining, count, page)
    requires (forall s: nat :: s <= |remaining| ==> !Feasible(remaining, s, page)) ==> count == 1
    ensures PageOk(remaining[..count], remaining[count..], page)
  {
    assert remaining[..count] + remaining[count..] == remaining;
  }

  /** How many rows a page takes when the remaining ones do not all fit above the boxes. */
  method PageCount(lines: seq<Row>, index: nat, page: nat) returns (count: nat)
    requires index <= |lines| && FinalCapacity(page) < Height(lines[index..])
    ensures 0 < count && index + count < |lines|
    ensures PageOk(lines[index..index + count], lines[index + count..], page)
  {
    var remaining := lines[index..];
    HeightAtLeast(remaining);
    if Height(remaining) <= NormalCapacity(page) + NEXT_FINAL_CAPACITY {
      count := BestSplit(remaining, page);
      SplitPageOk(remaining, count, page);
    } else {
      var end := FillPage(lines, index, page);
      count := end - index;
      assert lines[index..end] + lines[end..] == remaining;
    }
    assert lines[index..index + count] == remaining[..count] && lines[index + count..] == remaining[count..];
  }

  lemma LastPage(pages: seq<seq<Row>>, lines: seq<Row>, index: nat)
    requires SoFar(pages, lines, index) && index < |lines| && Height(lines[index..]) <= FinalCapacity(|pages|)
    ensures SoFar(pages + [lines[index..]], lines, |lines|)
  {
    var remaining := lines[index..];
    assert lines[index..index + |remaining|] == remaining && lines[index + |remaining|..] == [];
    FinalPageOk(remaining, |pages|);
    OnePageMore(pages, lines, index, |remaining|);
  }

  lemma NoPageEmpty(pages: seq<seq<Row>>, lines: seq<Row>)
    requires SoFar(pages, lines, |lines|)
    ensures Concat(pages) == lines && forall i :: 0 <= i < |pages| ==> pages[i] != []
  {
    assert lines[..|lines|] == lines;
    forall i | 0 <= i < |pages| ensures pages[i] != [] { assert Placed(pages, lines, i); }
  }

  method PartitionLines(lines: seq<Row>) returns (pages: seq<seq<Row>>)
    ensures Concat(pages) == lines && 0 < |pages|
    ensures lines == [] ==> pages == [[]]
    ensures lines != [] ==> SoFar(pages, lines, |lines|)
    ensures lines != [] ==> forall i :: 0 <= i < |pages| ==> pages[i] != []
  {
    pages := [];
    var index := 0;
    while index < |lines|
      invariant index <= |lines| && SoFar(pages, lines, index)
      invariant index == 0 <==> pages == []
    {
      var remaining := lines[index..];
      if Height(remaining) <= FinalCapacity(|pages|) {
        LastPage(pages, lines, index);
        pages := pages + [remaining];
        index := |lines|;
        break;
      }
      var count := PageCount(lines, index, |pages|);
      OnePageMore(pages, lines, index, count);
      pages := pages + [lines[index..index + count]];
      index := index + count;
    }
    if lines == [] {
      pages := [[]];
      assert pages[..0] == [];
    } else {
      NoPageEmpty(pages, lines);
    }
  }

  // ----- What is drawn -----

  /** The y coordinate the rows end at, each row drawn below the one before. */
  method DrawRows(rows: seq<Row>, top: int) returns (y: int)
    ensures y == TableBottom(rows, top)
  {
    y := top - HEADER_HEIGHT;
    for i := 0 to |rows|
      invariant y == TableBottom(rows[..i], top)
    {
      assert rows[..i + 1][..i] == rows[..i];
      y := y - RowHeight(rows[i]);
    }
    assert rows[..|rows|] == rows;
  }

  function TableBottom(rows: seq<Row>, top: int): int { top - HEADER_HEIGHT - Height(rows) }

  /** The summary box starts below the table but not above 315; the payment box is under it. */
  function PaymentBottom(tableBottom: int): int {
    var top := if tableBottom - 14 < 315 then tableBottom - 14 else 315;
    top - 82 - 12 - 88
  }

  /** No table reaches the footer rule, and the payment box under the last table stays clear of it. */
  lemma DrawnWithinThePage(pages: seq<seq<Row>>, lines: seq<Row>)
    requires lines != [] && SoFar(pages, lines, |lines|) && pages != []
    ensures forall i :: 0 <= i < |pages| ==> TableBottom(pages[i], TableTop(i)) >= FOOTER_RULE + 5
    ensures PaymentBottom(TableBottom(pages[|pages| - 1], TableTop(|pages| - 1))) >= FOOTER_RULE + 72
  {
    forall i | 0 <= i < |pages| ensures TableBottom(pages[i], TableTop(i)) >= FOOTER_RULE + 5 {
      OnePageFits(pages, lines, i);
    }
    LastPageFits(pages, lines);
  }

  lemma OnePageFits(pages: seq<seq<Row>>, lines: seq<Row>, i: nat)
    requires lines != [] && SoFar(pages, lines, |lines|) && i < |pages|
    ensures Height(pages[i]) <= NormalCapacity(i)
  {
    assert Placed(pages, lines, i);
    var rest := lines[|Concat(pages[..i + 1])|..];
    HeightAppend(pages[i], rest);
    assert (pages[i] + rest)[..|pages[i]|] == pages[i];
    if |pages[i]| == 1 { HeightAtLeast(pages[i]); }
  }

  lemma LastPageFits(pages: seq<seq<Row>>, lines: seq<Row>)
    requires lines != [] && SoFar(pages, lines, |lines|) && pages != []
    ensures Height(pages[|pages| - 1]) <= FinalCapacity(|pages| - 1)
  {
    var n := |pages| - 1;
    var last := pages[n];
    assert pages[..n + 1] == pages && lines[..|lines|] == lines && lines[|lines|..] == [] && last + [] == last;
    assert Placed(pages, lines, n);
  }

  /** A two-page remainder ends on the second page when a feasible split exists. */
  lemma SplitEndsOnNextPage(pages: seq<seq<Row>>, lines: seq<Row>, i: nat)
    requires lines != [] && SoFar(pages, lines, |lines|) && i < |pages|
    requires |Concat(pages[..i + 1])| <= |lines|
    requires var rest := lines[|Concat(pages[..i + 1])|..];
             && FinalCapacity(i) < Height(pages[i] + rest) <= NormalCapacity(i) + NEXT_FINAL_CAPACITY
             && exists s: nat :: s <= |pages[i] + rest| && Feasible(pages[i] + rest, s, i)
    ensures |pages| == i + 2
  {
    var end := |Concat(pages[..i + 1])|;
    var rest := lines[end..];
    assert Placed(pages, lines, i);
    var all := pages[i] + rest;
    assert all[..|pages[i]|] == pages[i];
    HeightAppend(pages[i], rest);
    assert Height(rest) <= NEXT_FINAL_CAPACITY && rest != [];
    ConcatPrefix(pages, i + 1);
    forall page <- pages ensures page != [] {
      var k :| 0 <= k < |pages| && pages[k] == page;
      assert Placed(pages, lines, k);
    }
    assert pages[..|pages|] == pages && lines[..|lines|] == lines;
    if i + 1 < |pages| {
      ConcatPrefix(pages, i + 2);
      NextIsRest(pages, lines, i);
      PagesLeft(pages, i + 2);
    }
  }

  lemma {:induction false} ConcatPrefix(pages: seq<seq<Row>>, k: nat)
    requires k <= |pages|
    ensures |Concat(pages[..k])| <= |Concat(pages)|
    ensures Concat(pages)[..|Concat(pages[..k])|] == Concat(pages[..k])
    decreases |pages| - k
  {
    if k < |pages| {
      assert pages[..k + 1][..k] == pages[..k];
      ConcatPrefix(pages, k + 1);
    } else {
      assert pages[..k] == pages;
    }
  }

  lemma NextIsRest(pages: seq<seq<Row>>, lines: seq<Row>, i: nat)
    requires lines != [] && SoFar(pages, lines, |lines|) && i + 1 < |pages|
    requires |Concat(pages[..i + 1])| <= |lines| && |Concat(pages[..i + 2])| <= |lines|
    requires Height(lines[|Concat(pages[..i + 1])|..]) <= NEXT_FINAL_CAPACITY
    ensures lines[|Concat(pages[..i + 2])|..] == []
  {
    var end, next := |Concat(pages[..i + 1])|, |Concat(pages[..i + 2])|;
    assert pages[..i + 2][..i + 1] == pages[..i + 1];
    ConcatPrefix(pages, i + 2);
    assert lines[..|lines|] == lines;
    assert lines[..next] == Concat(pages[..i + 2]) == Concat(pages[..i + 1]) + pages[i + 1];
    assert pages[i + 1] == lines[end..next];
    assert pages[i + 1] + lines[next..] == lines[end..];
    assert Placed(pages, lines, i + 1);
  }

  /** Every further page holds at least one row. */
  lemma {:induction false} PagesLeft(pages: seq<seq<Row>>, k: nat)
    requires k <= |pages| && forall page <- pages :: page != []
    ensures |Concat(pages[..k])| + (|pages| - k) <= |Concat(pages)|
    decreases |pages| - k
  {
    if k < |pages| {
      assert pages[..k + 1][..k] == pages[..k] && pages[k] in pages;
      PagesLeft(pages, k + 1);
    } else {
      assert pages[..k] == pages;
    }
  }
}
