/** ORDER BY id LIMIT n: the smallest ids of a set, in order. */
module Paging {

  predicate IsPage(page: seq<int>, ids: set<int>, limit: nat) {
    && |page| == (if |ids| < limit then |ids| else limit)
    && (forall i, j :: 0 <= i < j < |page| ==> page[i] < page[j])
    && (forall i :: 0 <= i < |page| ==> page[i] in ids)
    && (forall i, id :: 0 <= i < |page| && id in ids && id !in page ==> page[i] < id)
  }

  function Elements(page: seq<int>): set<int> { set i | 0 <= i < |page| :: page[i] }

  predicate Least(s: int, ids: set<int>) { s in ids && forall id :: id in ids ==> s <= id }

  ghost function Any<T>(s: set<T>): (c: T)
    requires s != {}
    ensures c in s
  { var c :| c in s; c }

  predicate First<T(!new)>(x: T, s: set<T>, order: (T, T) -> bool) { x in s && forall y :: y in s ==> order(x, y) }

  /** A nonempty set has a first element under every total preorder. */
  lemma {:induction false} FirstExists<T(!new)>(s: set<T>, order: (T, T) -> bool)
    requires s != {} && (forall x, y :: order(x, y) || order(y, x))
             && forall x, y, z :: order(x, y) && order(y, z) ==> order(x, z)
    ensures exists x :: First(x, s, order)
    decreases |s|
  {
    var c := Any(s);
    if s == {c} {
      assert First(c, s, order);
    } else {
      var rest := s - {c};
      FirstExists(rest, order);
      var d :| First(d, rest, order);
      assert s == rest + {c};
      assert First(if order(c, d) then c else d, s, order);
    }
  }

  lemma LeastExists(ids: set<int>)
    requires ids != {}
    ensures exists s :: Least(s, ids)
  {
    var upwards := (x: int, y: int) => x <= y;
    FirstExists(ids, upwards);
    var s :| First(s, ids, upwards);
    assert forall id :: id in ids ==> upwards(s, id);
    assert Least(s, ids);
  }

  method SelectPage(ids: set<int>, limit: nat) returns (page: seq<int>)
    ensures IsPage(page, ids, limit)
  {
    page := [];
    var rest := ids;
    while |page| < limit && rest != {}
      invariant |page| <= limit && |rest| + |page| == |ids| && rest <= ids
      invariant forall i, j :: 0 <= i < j < |page| ==> page[i] < page[j]
      invariant forall i :: 0 <= i < |page| ==> page[i] in ids
      invariant forall i, id :: 0 <= i < |page| && id in rest ==> page[i] < id
      invariant forall id :: id in ids && id !in page ==> id in rest
      decreases |rest|
    {
      LeastExists(rest);
      var s :| s in rest && Least(s, rest);
      page, rest := page + [s], rest - {s};
    }
  }

  lemma {:induction false} PageSize(page: seq<int>)
    requires forall i, j :: 0 <= i < j < |page| ==> page[i] < page[j]
    ensures |Elements(page)| == |page|
  {
    if page != [] {
      var last := |page| - 1;
      PageSize(page[..last]);
      assert Elements(page) == Elements(page[..last]) + {page[last]};
    } else {
      assert Elements(page) == {};
    }
  }

  /** Taking the page out leaves the set smaller by the page's size. */
  lemma WithoutPage(page: seq<int>, ids: set<int>, limit: nat)
    requires IsPage(page, ids, limit)
    ensures Elements(page) <= ids && |ids - Elements(page)| == if |ids| < limit then 0 else |ids| - limit
  {
    PageSize(page);
    assert |ids| == |ids - Elements(page)| + |Elements(page)| by {
      assert ids == (ids - Elements(page)) + Elements(page);
    }
  }
}
