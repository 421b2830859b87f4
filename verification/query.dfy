/** The slice of the ORM's `findMany`/`count` the handlers rely on: a row filter,
    a descending order on one key, and the `skip`/`take` window. */
module Query {

  /** The rows of `s` satisfying `p`, in table order. */
  function Filter<T>(s: seq<T>, p: T -> bool): (r: seq<T>)
    ensures |r| <= |s|
    ensures forall x :: x in r ==> x in s && p(x)
    ensures forall x :: x in s && p(x) ==> x in r
  {
    if s == [] then []
    else if p(s[0]) then [s[0]] + Filter(s[1..], p)
    else Filter(s[1..], p)
  }

  predicate SortedDesc<T>(s: seq<T>, key: T -> int) {
    forall i, j :: 0 <= i < j < |s| ==> key(s[i]) >= key(s[j])
  }

  lemma SortedCons<T>(a: T, t: seq<T>, key: T -> int)
    requires SortedDesc(t, key)
    requires forall y :: y in t ==> key(a) >= key(y)
    ensures SortedDesc([a] + t, key)
  {
    var r := [a] + t;
    forall i, j | 0 <= i < j < |r| ensures key(r[i]) >= key(r[j]) {
      if i > 0 {
        assert r[i] == t[i - 1] && r[j] == t[j - 1];
      } else {
        assert r[j] == t[j - 1] && r[j] in t;
      }
    }
  }

  /** Inserts `x` before the first element whose key is not greater than its own. */
  function Insert<T>(x: T, s: seq<T>, key: T -> int): (r: seq<T>)
    requires SortedDesc(s, key)
    ensures |r| == |s| + 1
    ensures forall y :: y in r ==> y == x || y in s
    ensures SortedDesc(r, key)
    ensures multiset(r) == multiset(s) + multiset{x}
  {
    if s == [] then [x]
    else if key(x) >= key(s[0]) then
      SortedCons(x, s, key);
      [x] + s
    else
      var t := Insert(x, s[1..], key);
      assert s == [s[0]] + s[1..];
      SortedCons(s[0], t, key);
      [s[0]] + t
  }

  /** Insertion sort into descending key order: the `orderBy: { key: "desc" }`
      of a query. Rows with equal keys keep their table order. */
  function SortDesc<T>(s: seq<T>, key: T -> int): (r: seq<T>)
    ensures |r| == |s|
    ensures SortedDesc(r, key)
    ensures multiset(r) == multiset(s)
  {
    if s == [] then []
    else
      assert s == [s[0]] + s[1..];
      Insert(s[0], SortDesc(s[1..], key), key)
  }

  /** How many rows the window at `skip` of `take` rows holds out of `total`. */
  function PageLength(total: nat, skip: nat, take: nat): nat {
    if skip >= total then 0 else if total - skip < take then total - skip else take
  }

  /** `skip` rows are passed over and at most `take` rows are returned. */
  function Window<T>(s: seq<T>, skip: nat, take: nat): (r: seq<T>)
    ensures |r| == PageLength(|s|, skip, take)
    ensures forall i :: 0 <= i < |r| ==> r[i] == s[skip + i]
  {
    if skip >= |s| then []
    else if |s| - skip < take then s[skip..]
    else s[skip..skip + take]
  }

  /** `r` is the window at `skip` of `take` rows of some arrangement of the rows
      of `s` satisfying `p` in descending key order. Rows with equal keys may
      come in any order, as the database does not fix one. */
  ghost predicate IsPage<T(!new)>(r: seq<T>, s: seq<T>, p: T -> bool, key: T -> int, skip: nat, take: nat) {
    exists o :: SortedDesc(o, key) && multiset(o) == multiset(Filter(s, p)) && r == Window(o, skip, take)
  }

  /** One page of the rows satisfying `p`, newest first. */
  function FindMany<T(!new)>(s: seq<T>, p: T -> bool, key: T -> int, skip: nat, take: nat): (r: seq<T>)
    ensures |r| <= take
    ensures |r| == PageLength(|Filter(s, p)|, skip, take)
    ensures forall x :: x in r ==> x in s && p(x)
    ensures SortedDesc(r, key)
  {
    var ordered := SortDesc(Filter(s, p), key);
    var page := Window(ordered, skip, take);
    assert forall x :: x in page ==> x in ordered by {
      forall x | x in page ensures x in ordered {
        var i :| 0 <= i < |page| && page[i] == x;
        assert ordered[skip + i] == x;
      }
    }
    assert forall x :: x in ordered ==> x in Filter(s, p) by {
      forall x | x in ordered ensures x in Filter(s, p) {
        assert x in multiset(ordered);
      }
    }
    assert SortedDesc(page, key) by {
      forall i, j | 0 <= i < j < |page| ensures key(page[i]) >= key(page[j]) {
        assert page[i] == ordered[skip + i] && page[j] == ordered[skip + j];
      }
    }
    page
  }

  /** A result of `FindMany` is the requested window of the matching rows in
      descending key order. */
  lemma FindManyIsPage<T(!new)>(s: seq<T>, p: T -> bool, key: T -> int, skip: nat, take: nat)
    ensures IsPage(FindMany(s, p, key, skip, take), s, p, key, skip, take)
  {
    var o := SortDesc(Filter(s, p), key);
    assert SortedDesc(o, key) && multiset(o) == multiset(Filter(s, p)) && FindMany(s, p, key, skip, take) == Window(o, skip, take);
  }

  /** Adjacent windows of one sequence concatenate to the window spanning both. */
  lemma WindowsTile<T>(o: seq<T>, skip: nat, a: nat, b: nat)
    ensures Window(o, skip, a) + Window(o, skip + a, b) == Window(o, skip, a + b)
  {
    var x, y, z := Window(o, skip, a), Window(o, skip + a, b), Window(o, skip, a + b);
    assert |x + y| == |z|;
    forall i | 0 <= i < |z| ensures (x + y)[i] == z[i] {
      if i < |x| {
        assert (x + y)[i] == o[skip + i];
      } else {
        assert (x + y)[i] == y[i - |x|] == o[skip + a + (i - |x|)];
      }
    }
  }

  /** Consecutive pages tile: the page of `a` rows at `skip` followed by the
      page of `b` rows after it is the page of `a + b` rows at `skip`, so no
      row is shown twice and none is skipped between them. */
  lemma PagesTile<T(!new)>(s: seq<T>, p: T -> bool, key: T -> int, skip: nat, a: nat, b: nat)
    ensures FindMany(s, p, key, skip, a) + FindMany(s, p, key, skip + a, b) == FindMany(s, p, key, skip, a + b)
  {
    WindowsTile(SortDesc(Filter(s, p), key), skip, a, b);
  }

  /** The first position of page `k` (counting from 0) of `take` rows. */
  function PageStart(k: nat, take: nat): nat {
    k * take
  }

  /** The page of `take` rows holding position `i` is page `i / take`. */
  lemma PageOf(i: nat, take: nat)
    requires take > 0
    ensures PageStart(i / take, take) <= i < PageStart(i / take, take) + take
  {
    assert i == (i / take) * take + i % take;
  }

  /** Position `i` of a sequence lies in the window starting at its page. */
  lemma {:induction false} InWindow<T>(o: seq<T>, i: nat, take: nat)
    requires take > 0 && i < |o|
    ensures o[i] in Window(o, PageStart(i / take, take), take)
  {
    PageOf(i, take);
    var start := PageStart(i / take, take);
    var w := Window(o, start, take);
    assert |w| == PageLength(|o|, start, take);
    assert w[i - start] == o[i];
  }

  /** The row at position `i` of the ordering is on page `i / take`, so with a
      positive page size every matching row is shown on some page. */
  lemma {:induction false} OnItsPage<T(!new)>(s: seq<T>, p: T -> bool, key: T -> int, take: nat, i: nat)
    requires take > 0 && i < |Filter(s, p)|
    ensures SortDesc(Filter(s, p), key)[i] in FindMany(s, p, key, PageStart(i / take, take), take)
  {
    InWindow(SortDesc(Filter(s, p), key), i, take);
  }

  /** `count({ where })`. */
  function Count<T>(s: seq<T>, p: T -> bool): nat {
    |Filter(s, p)|
  }

  /** Rows satisfying one of two exclusive filters number at most the table. */
  lemma {:induction false} CountExclusive<T>(s: seq<T>, p: T -> bool, q: T -> bool)
    requires forall x :: x in s ==> !(p(x) && q(x))
    ensures Count(s, p) + Count(s, q) <= |s|
  {
    if s != [] {
      assert forall x :: x in s[1..] ==> x in s;
      CountExclusive(s[1..], p, q);
    }
  }
}
