/**
 * What the list endpoints do with a query once the rows are selected:
 * count them, order them by the `ORDER BY` key and cut out the
 * `LIMIT`/`OFFSET` window.  Rows are visited in the order the database
 * returns them (a `scan` of the table's keys); ties in the key keep that
 * order.
 */
module Listing {
  /** A two-part `ORDER BY` key, compared lexicographically, smaller first. */
  datatype SortKey = SortKey(major: int, minor: int)

  predicate KeyLe(a: SortKey, b: SortKey) {
    a.major < b.major || (a.major == b.major && a.minor <= b.minor)
  }

  datatype Ranked<T> = Ranked(item: T, key: SortKey)

  predicate Ordered<T>(rs: seq<Ranked<T>>) {
    forall i, j :: 0 <= i < j < |rs| ==> KeyLe(rs[i].key, rs[j].key)
  }

  function Insert<T>(r: Ranked<T>, rs: seq<Ranked<T>>): seq<Ranked<T>> {
    if rs == [] then [r]
    else if KeyLe(r.key, rs[0].key) then [r] + rs
    else [rs[0]] + Insert(r, rs[1..])
  }

  lemma {:induction false} InsertMultiset<T>(r: Ranked<T>, rs: seq<Ranked<T>>)
    ensures multiset(Insert(r, rs)) == multiset(rs) + multiset{r}
    ensures |Insert(r, rs)| == |rs| + 1
  {
    if rs != [] && !KeyLe(r.key, rs[0].key) {
      InsertMultiset(r, rs[1..]);
      assert rs == [rs[0]] + rs[1..];
    }
  }

  lemma {:induction false} InsertFacts<T>(r: Ranked<T>, rs: seq<Ranked<T>>)
    requires Ordered(rs)
    ensures Ordered(Insert(r, rs))
    ensures multiset(Insert(r, rs)) == multiset(rs) + multiset{r}
    ensures |Insert(r, rs)| == |rs| + 1
  {
    InsertMultiset(r, rs);
    if rs != [] && !KeyLe(r.key, rs[0].key) {
      var tail := rs[1..];
      assert Ordered(tail) by {
        forall i, j | 0 <= i < j < |tail| ensures KeyLe(tail[i].key, tail[j].key) {
          assert tail[i] == rs[i + 1] && tail[j] == rs[j + 1];
        }
      }
      InsertFacts(r, tail);
      var ins := Insert(r, tail);
      HeadBelowInsert(r, rs);
      var out := [rs[0]] + ins;
      assert Insert(r, rs) == out;
      forall i, j | 0 <= i < j < |out| ensures KeyLe(out[i].key, out[j].key) {
        if i == 0 {
          assert out[j] == ins[j - 1];
        } else {
          assert out[i] == ins[i - 1] && out[j] == ins[j - 1];
        }
      }
    }
  }

  /** The head of an ordered list that `r` goes after stays below everything in the insertion into its tail. */
  lemma HeadBelowInsert<T>(r: Ranked<T>, rs: seq<Ranked<T>>)
    requires Ordered(rs) && rs != [] && !KeyLe(r.key, rs[0].key)
    ensures forall k :: 0 <= k < |Insert(r, rs[1..])| ==> KeyLe(rs[0].key, Insert(r, rs[1..])[k].key)
  {
    var tail := rs[1..];
    var ins := Insert(r, tail);
    InsertMultiset(r, tail);
    forall k | 0 <= k < |ins| ensures KeyLe(rs[0].key, ins[k].key) {
      var x := ins[k];
      assert x in multiset(ins);
      if x != r {
        assert x in multiset(tail);
        var m :| 0 <= m < |tail| && tail[m] == x;
        assert rs[m + 1] == x;
      }
    }
  }

  /** Insertion sort: stable, so rows with equal keys keep their scan order. */
  function Sort<T>(rs: seq<Ranked<T>>): seq<Ranked<T>> {
    if rs == [] then [] else Insert(rs[0], Sort(rs[1..]))
  }

  lemma {:induction false} SortFacts<T>(rs: seq<Ranked<T>>)
    ensures Ordered(Sort(rs))
    ensures multiset(Sort(rs)) == multiset(rs)
    ensures |Sort(rs)| == |rs|
  {
    if rs != [] {
      var tail := Sort(rs[1..]);
      SortFacts(rs[1..]);
      InsertFacts(rs[0], tail);
      assert Sort(rs) == Insert(rs[0], tail);
      assert rs == [rs[0]] + rs[1..];
      assert multiset(rs) == multiset{rs[0]} + multiset(rs[1..]);
    }
  }

  function Items<T>(rs: seq<Ranked<T>>): (r: seq<T>)
    ensures |r| == |rs| && forall i :: 0 <= i < |rs| ==> r[i] == rs[i].item
  {
    seq(|rs|, i requires 0 <= i < |rs| => rs[i].item)
  }

  function RankAll<T>(xs: seq<T>, key: T -> SortKey): (r: seq<Ranked<T>>)
    ensures |r| == |xs| && forall i :: 0 <= i < |xs| ==> r[i] == Ranked(xs[i], key(xs[i]))
  {
    seq(|xs|, i requires 0 <= i < |xs| => Ranked(xs[i], key(xs[i])))
  }

  /** The rows of `xs` ordered by `key`. */
  function OrderBy<T>(xs: seq<T>, key: T -> SortKey): seq<T> {
    Items(Sort(RankAll(xs, key)))
  }

  predicate Distinct<T(==)>(xs: seq<T>) {
    forall i, j :: 0 <= i < j < |xs| ==> xs[i] != xs[j]
  }

  lemma MultisetDistinct<T>(xs: seq<T>, ys: seq<T>)
    requires multiset(xs) == multiset(ys) && Distinct(xs)
    ensures Distinct(ys)
  {
    forall i, j | 0 <= i < j < |ys| ensures ys[i] != ys[j] {
      if ys[i] == ys[j] {
        var x := ys[i];
        assert multiset(ys)[x] >= 2 by {
          assert ys == ys[..i] + [x] + ys[i + 1..j] + [x] + ys[j + 1..];
        }
        MultiplicityOfDistinct(xs, x);
      }
    }
  }

  lemma {:induction false} MultiplicityOfDistinct<T>(xs: seq<T>, x: T)
    requires Distinct(xs)
    ensures multiset(xs)[x] <= 1
  {
    if xs != [] {
      var tail := xs[1..];
      assert Distinct(tail) by {
        forall i, j | 0 <= i < j < |tail| ensures tail[i] != tail[j] {
          assert tail[i] == xs[i + 1] && tail[j] == xs[j + 1];
        }
      }
      MultiplicityOfDistinct(tail, x);
      assert xs == [xs[0]] + tail;
    }
  }

  /**
   * `ORDER BY key`: the result lists the same rows, each as often as
   * before, with keys in ascending order.
   */
  lemma OrderByFacts<T>(xs: seq<T>, key: T -> SortKey)
    ensures multiset(OrderBy(xs, key)) == multiset(xs)
    ensures forall i, j :: 0 <= i < j < |OrderBy(xs, key)| ==>
      KeyLe(key(OrderBy(xs, key)[i]), key(OrderBy(xs, key)[j]))
  {
    var ranked := RankAll(xs, key);
    SortFacts(ranked);
    var sorted := Sort(ranked);
    assert forall r :: r in sorted ==> r.key == key(r.item) by {
      forall r | r in sorted ensures r.key == key(r.item) {
        assert r in multiset(sorted);
        assert r in multiset(ranked);
      }
    }
    ItemsSort(ranked);
    assert Items(ranked) == xs;
    forall i, j | 0 <= i < j < |OrderBy(xs, key)|
      ensures KeyLe(key(OrderBy(xs, key)[i]), key(OrderBy(xs, key)[j]))
    {
      assert sorted[i] in sorted && sorted[j] in sorted;
    }
  }

  lemma ItemsCons<T>(r: Ranked<T>, rs: seq<Ranked<T>>)
    ensures Items([r] + rs) == [r.item] + Items(rs)
  {
  }

  lemma {:induction false} ItemsInsert<T>(r: Ranked<T>, rs: seq<Ranked<T>>)
    ensures multiset(Items(Insert(r, rs))) == multiset(Items(rs)) + multiset{r.item}
  {
    if rs == [] {
    } else if KeyLe(r.key, rs[0].key) {
      ItemsCons(r, rs);
    } else {
      ItemsInsert(r, rs[1..]);
      ItemsCons(rs[0], Insert(r, rs[1..]));
      ItemsCons(rs[0], rs[1..]);
      assert rs == [rs[0]] + rs[1..];
    }
  }

  lemma {:induction false} ItemsSort<T>(rs: seq<Ranked<T>>)
    ensures multiset(Items(Sort(rs))) == multiset(Items(rs))
  {
    if rs != [] {
      ItemsSort(rs[1..]);
      ItemsInsert(rs[0], Sort(rs[1..]));
      ItemsCons(rs[0], rs[1..]);
      assert rs == [rs[0]] + rs[1..];
    }
  }

  /** The rows `keep` accepts, in scan order. */
  function Keep<T>(xs: seq<T>, keep: T -> bool): seq<T> {
    if xs == [] then []
    else (if keep(xs[0]) then [xs[0]] else []) + Keep(xs[1..], keep)
  }

  lemma {:induction false} KeepFacts<T>(xs: seq<T>, keep: T -> bool)
    ensures forall x :: x in Keep(xs, keep) ==> x in xs
    ensures forall x :: x in Keep(xs, keep) ==> keep(x)
    ensures forall x :: x in xs && keep(x) ==> x in Keep(xs, keep)
    ensures Distinct(xs) ==> Distinct(Keep(xs, keep))
    ensures |Keep(xs, keep)| <= |xs|
  {
    if xs != [] {
      KeepFacts(xs[1..], keep);
      assert forall x :: x in xs <==> x == xs[0] || x in xs[1..] by {
        assert xs == [xs[0]] + xs[1..];
      }
      if Distinct(xs) {
        var tail := xs[1..];
        assert Distinct(tail) by {
          forall i, j | 0 <= i < j < |tail| ensures tail[i] != tail[j] {
            assert tail[i] == xs[i + 1] && tail[j] == xs[j + 1];
          }
        }
        assert xs[0] !in tail;
        var out := Keep(xs, keep);
        var rest := Keep(tail, keep);
        forall i, j | 0 <= i < j < |out| ensures out[i] != out[j] {
          if keep(xs[0]) && i == 0 {
            assert out[j] == rest[j - 1] && out[j] in rest;
          } else if keep(xs[0]) {
            assert out[i] == rest[i - 1] && out[j] == rest[j - 1];
          } else {
            assert out == rest;
          }
        }
      }
    }
  }

  /** Filtering a sequence grown at the end grows the result at the end. */
  lemma {:induction false} KeepSnoc<T>(xs: seq<T>, x: T, keep: T -> bool)
    ensures Keep(xs + [x], keep) == Keep(xs, keep) + (if keep(x) then [x] else [])
  {
    if xs == [] {
      assert xs + [x] == [x];
      assert [x][1..] == [];
    } else {
      var head := if keep(xs[0]) then [xs[0]] else [];
      var last := if keep(x) then [x] else [];
      assert (xs + [x])[0] == xs[0];
      assert (xs + [x])[1..] == xs[1..] + [x];
      assert Keep(xs + [x], keep) == head + Keep(xs[1..] + [x], keep);
      KeepSnoc(xs[1..], x, keep);
      assert Keep(xs, keep) == head + Keep(xs[1..], keep);
      assert head + (Keep(xs[1..], keep) + last) == (head + Keep(xs[1..], keep)) + last;
    }
  }

  /** Nothing is kept when no element qualifies. */
  lemma KeepNone<T>(xs: seq<T>, keep: T -> bool)
    requires forall i :: 0 <= i < |xs| ==> !keep(xs[i])
    ensures Keep(xs, keep) == []
  {
    KeepFacts(xs, keep);
    assert forall y :: y in Keep(xs, keep) ==> y in xs && keep(y);
  }

  /** A sequence without repeats has as many elements as its set. */
  lemma {:induction false} DistinctCard<T>(xs: seq<T>)
    requires Distinct(xs)
    ensures |set x | x in xs| == |xs|
  {
    if xs != [] {
      var tail := xs[1..];
      assert Distinct(tail) by {
        forall i, j | 0 <= i < j < |tail| ensures tail[i] != tail[j] {
          assert tail[i] == xs[i + 1] && tail[j] == xs[j + 1];
        }
      }
      DistinctCard(tail);
      assert xs[0] !in tail;
      assert (set x | x in xs) == (set x | x in tail) + {xs[0]} by {
        assert xs == [xs[0]] + tail;
      }
    }
  }

  /** `query.limit(limit).offset(offset)` on the ordered rows. */
  function Window<T>(xs: seq<T>, offset: nat, limit: nat): (w: seq<T>)
    ensures |w| == if offset >= |xs| then 0 else if |xs| - offset < limit then |xs| - offset else limit
    ensures forall i :: 0 <= i < |w| ==> w[i] == xs[offset + i]
  {
    if offset >= |xs| then []
    else if |xs| - offset < limit then xs[offset..]
    else xs[offset..offset + limit]
  }

  /** One page of a list endpoint: the `X-Total-Count` header and the rows. */
  datatype Page<T> = Page(total: nat, rows: seq<T>)

  /**
   * The list endpoint's two queries over one scan: the count of the
   * filtered rows, then the ordered window.
   */
  method ListPage<T>(scan: seq<T>, keep: T -> bool, key: T -> SortKey, offset: nat, limit: nat)
    returns (p: Page<T>)
    ensures p.total == |Keep(scan, keep)|
    ensures p.rows == Window(OrderBy(Keep(scan, keep), key), offset, limit)
  {
    var kept: seq<T> := [];
    var i := 0;
    while i < |scan|
      invariant 0 <= i <= |scan|
      invariant Keep(scan, keep) == kept + Keep(scan[i..], keep)
    {
      assert scan[i..] == [scan[i]] + scan[i + 1..];
      assert scan[i..][1..] == scan[i + 1..];
      if keep(scan[i]) {
        kept := kept + [scan[i]];
      }
      i := i + 1;
    }
    assert scan[i..] == [];
    assert Keep(scan, keep) == kept + [] == kept;
    p := Page(|kept|, Window(OrderBy(kept, key), offset, limit));
  }

  /** The total counts the rows of the scan that match: the size of `matching`, the set of them. */
  lemma PageCount<T>(scan: seq<T>, keep: T -> bool, matching: set<T>)
    requires Distinct(scan)
    requires forall x :: x in matching ==> x in scan && keep(x)
    requires forall x :: x in scan && keep(x) ==> x in matching
    ensures |Keep(scan, keep)| == |matching|
  {
    KeepFacts(scan, keep);
    DistinctCard(Keep(scan, keep));
    assert (set x | x in Keep(scan, keep)) == matching;
  }

  /** A window of a sequence without repeats: its rows come from it, in its order, once each. */
  lemma WindowFacts<T>(xs: seq<T>, offset: nat, limit: nat)
    requires Distinct(xs)
    ensures forall x :: x in Window(xs, offset, limit) ==> x in xs
    ensures Distinct(Window(xs, offset, limit))
  {
    var w := Window(xs, offset, limit);
    forall x | x in w ensures x in xs {
      var k :| 0 <= k < |w| && w[k] == x;
      assert xs[offset + k] == x;
    }
  }

  /** The ordered rows: exactly the kept ones, once each, in key order. */
  lemma OrderedKept<T>(scan: seq<T>, keep: T -> bool, key: T -> SortKey)
    requires Distinct(scan)
    ensures var ordered := OrderBy(Keep(scan, keep), key);
      && Distinct(ordered)
      && |ordered| == |Keep(scan, keep)|
      && (forall x :: x in ordered ==> x in scan && keep(x))
      && (forall i, j :: 0 <= i < j < |ordered| ==> KeyLe(key(ordered[i]), key(ordered[j])))
  {
    var kept := Keep(scan, keep);
    KeepFacts(scan, keep);
    var ordered := OrderBy(kept, key);
    OrderByFacts(kept, key);
    MultisetDistinct(kept, ordered);
    assert |ordered| == |kept| by {
      assert |multiset(ordered)| == |multiset(kept)|;
    }
    forall x | x in ordered ensures x in scan && keep(x) {
      assert x in multiset(ordered);
      assert x in multiset(kept);
    }
  }

  /**
   * What a page promises, for a scan that lists every row once: every row
   * shown matches, rows come in key order, none twice, and the page holds
   * `limit` rows unless the matches run out.
   */
  lemma PageFacts<T>(scan: seq<T>, keep: T -> bool, key: T -> SortKey, offset: nat, limit: nat)
    requires Distinct(scan)
    ensures var w := Window(OrderBy(Keep(scan, keep), key), offset, limit);
      && (forall x :: x in w ==> x in scan && keep(x))
      && (forall i, j :: 0 <= i < j < |w| ==> KeyLe(key(w[i]), key(w[j])))
      && Distinct(w)
      && |w| == (var n := |Keep(scan, keep)|; if offset >= n then 0 else if n - offset < limit then n - offset else limit)
  {
    var ordered := OrderBy(Keep(scan, keep), key);
    OrderedKept(scan, keep, key);
    WindowFacts(ordered, offset, limit);
    var w := Window(ordered, offset, limit);
    forall i, j | 0 <= i < j < |w| ensures KeyLe(key(w[i]), key(w[j])) {
      assert w[i] == ordered[offset + i] && w[j] == ordered[offset + j];
    }
  }
}
