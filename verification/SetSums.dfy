/** Sums over finite sets, in whatever order the elements are picked. */
module SetSums {
  import opened Money

  ghost function SumOver<T(!new)>(ids: set<T>, f: T -> int): int {
    if ids == {} then 0
    else
      var id :| id in ids;
      f(id) + SumOver(ids - {id}, f)
  }

  lemma {:induction false} SumTake<T(!new)>(ids: set<T>, f: T -> int, id: T)
    requires id in ids
    ensures SumOver(ids, f) == f(id) + SumOver(ids - {id}, f)
    decreases |ids|
  {
    var pick :| pick in ids && SumOver(ids, f) == f(pick) + SumOver(ids - {pick}, f);
    if pick != id {
      SumTake(ids - {pick}, f, id);
      SumTake(ids - {id}, f, pick);
      assert ids - {pick} - {id} == ids - {id} - {pick};
    }
  }

  lemma {:induction false} SumAdds<T(!new)>(ids: set<T>, f: T -> int, g: T -> int, h: T -> int)
    requires forall id <- ids :: h(id) == f(id) + g(id)
    ensures SumOver(ids, h) == SumOver(ids, f) + SumOver(ids, g)
    decreases |ids|
  {
    if ids != {} {
      var id :| id in ids;
      SumTake(ids, f, id);
      SumTake(ids, g, id);
      SumTake(ids, h, id);
      SumAdds(ids - {id}, f, g, h);
    }
  }

  /** All but at most one of the terms are zero. */
  lemma {:induction false} SumOfOne<T(!new)>(ids: set<T>, f: T -> int, only: T)
    requires forall id <- ids :: id != only ==> f(id) == 0
    ensures SumOver(ids, f) == if only in ids then f(only) else 0
    decreases |ids|
  {
    if ids != {} {
      var id :| id in ids;
      SumTake(ids, f, id);
      SumOfOne(ids - {id}, f, only);
    }
  }

  lemma {:induction false} SumOfZeros<T(!new)>(ids: set<T>, f: T -> int)
    requires forall id <- ids :: f(id) == 0
    ensures SumOver(ids, f) == 0
    decreases |ids|
  {
    if ids != {} {
      var id :| id in ids;
      SumTake(ids, f, id);
      SumOfZeros(ids - {id}, f);
    }
  }

  lemma {:induction false} SumParts<T(!new)>(part: set<T>, rest: set<T>, f: T -> int)
    requires part !! rest
    ensures SumOver(part + rest, f) == SumOver(part, f) + SumOver(rest, f)
    decreases |part|
  {
    if part == {} {
      assert part + rest == rest;
    } else {
      var id :| id in part;
      SumTake(part, f, id);
      SumTake(part + rest, f, id);
      SumParts(part - {id}, rest, f);
      assert part + rest - {id} == (part - {id}) + rest;
    }
  }

  lemma AddNear(x: int, y: int, x': int, y': int, scale: int, e: int, d: int)
    requires 2 * Abs(x * scale - x') <= e && 2 * Abs(y * scale - y') <= d
    ensures 2 * Abs((x + y) * scale - (x' + y')) <= e + d
  {
    assert (x + y) * scale == x * scale + y * scale;
  }

  /** Errors add up: a sum is as near to another as its terms are together. */
  lemma {:induction false} SumNear<T(!new)>(ids: set<T>, f: T -> int, g: T -> int, scale: int, bound: T -> int)
    requires forall id <- ids :: 2 * Abs(f(id) * scale - g(id)) <= bound(id)
    ensures 2 * Abs(SumOver(ids, f) * scale - SumOver(ids, g)) <= SumOver(ids, bound)
    decreases |ids|
  {
    if ids != {} {
      var id :| id in ids;
      SumTake(ids, f, id);
      SumTake(ids, g, id);
      SumTake(ids, bound, id);
      SumNear(ids - {id}, f, g, scale, bound);
      AddNear(f(id), SumOver(ids - {id}, f), g(id), SumOver(ids - {id}, g), scale, bound(id),
          SumOver(ids - {id}, bound));
    }
  }
}
