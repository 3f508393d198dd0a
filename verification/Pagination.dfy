/**
 OFFSET and LIMIT over an ORDER BY that does not tell every two rows apart: each page is cut
 from an answer of its own, and two answers may arrange tied rows differently.
 */
module Pagination {
  import opened Sorting

  /** What ORDER BY may answer: any sorted arrangement of the rows. */
  predicate Ordered<T(==)>(le: (T, T) -> bool, rows: seq<T>, answer: seq<T>) {
    multiset(answer) == multiset(rows) && Sorted(le, answer)
  }

  function Min(a: nat, b: nat): nat {
    if a < b then a else b
  }

  function Page<T>(s: seq<T>, offset: nat, limit: nat): seq<T> {
    s[Min(offset, |s|)..Min(offset + limit, |s|)]
  }

  /** Where page `k` starts. */
  function Offset(k: nat, limit: nat): nat {
    k * limit
  }

  /** The pages at 0, L, 2L and so on, the k-th cut from the k-th answer. */
  function Pages<T>(answers: seq<seq<T>>, limit: nat): seq<T> {
    if answers == [] then []
    else Pages(answers[..|answers| - 1], limit) + Page(answers[|answers| - 1], Offset(|answers| - 1, limit), limit)
  }

  /** No row is there twice. */
  predicate Distinct<T(==)>(s: seq<T>) {
    forall i, j :: 0 <= i < j < |s| ==> s[i] != s[j]
  }

  lemma DistinctParts<T>(a: seq<T>, b: seq<T>)
    requires Distinct(a) && Distinct(b) && forall x :: x in a ==> x !in b
    ensures Distinct(a + b)
  {
    forall i, j | 0 <= i < |a| && 0 <= j < |b|
      ensures a[i] != b[j]
    {
      assert a[i] in a;
    }
  }

  /** One answer per page for all pages of the list. */
  ghost predicate Answers<T>(le: (T, T) -> bool, rows: seq<T>, limit: nat, answers: seq<seq<T>>) {
    && (forall k :: 0 <= k < |answers| ==> Ordered(le, rows, answers[k]))
    && Offset(|answers|, limit) >= |rows|
  }

  /** Two tied rows stand on either side of a page boundary. */
  predicate Straddles<T>(le: (T, T) -> bool, s: seq<T>, limit: nat) {
    exists k: nat :: k < |s| && Torn(le, s, Offset(k, limit))
  }

  predicate Torn<T>(le: (T, T) -> bool, s: seq<T>, b: nat) {
    0 < b < |s| && le(s[b], s[b - 1])
  }

  lemma NextOffset(k: nat, limit: nat)
    ensures Offset(k + 1, limit) == Offset(k, limit) + limit
  {
  }

  lemma OffsetsAreApart(j: nat, k: nat, limit: nat)
    requires j < k
    ensures Offset(j, limit) + limit <= Offset(k, limit)
  {
    assert k * limit == (k - j - 1) * limit + (j + 1) * limit;
    assert (k - j - 1) * limit >= 0;
  }

  // ---------------------------------------------------------------- no ties

  lemma {:induction false} PagesOfOneOrder<T>(answers: seq<seq<T>>, limit: nat, s: seq<T>)
    requires forall k :: 0 <= k < |answers| ==> answers[k] == s
    ensures Pages(answers, limit) == s[..Min(Offset(|answers|, limit), |s|)]
  {
    if answers != [] {
      var n := |answers| - 1;
      PagesOfOneOrder(answers[..n], limit, s);
      NextPage(s, Offset(n, limit), limit);
      NextOffset(n, limit);
    }
  }

  lemma NextPage<T>(s: seq<T>, offset: nat, limit: nat)
    ensures s[..Min(offset, |s|)] + Page(s, offset, limit) == s[..Min(offset + limit, |s|)]
  {
  }

  /** Without ties the pages together are the sorted list, whatever arranges the answers. */
  lemma {:induction false} PagesAreTheList<T(!new)>(le: (T, T) -> bool, rows: seq<T>, limit: nat, answers: seq<seq<T>>)
    requires TotalOrder(le) && Answers(le, rows, limit, answers)
    requires NoTies(le, rows)
    ensures Pages(answers, limit) == Sort(le, rows)
  {
    var s := Sort(le, rows);
    SortSorts(le, rows);
    forall k | 0 <= k < |answers|
      ensures answers[k] == s
    {
      forall x | x in answers[k] ensures x in rows { assert x in multiset(answers[k]); }
      SortedIsUnique(le, answers[k], s);
    }
    assert |s| == |multiset(s)| == |multiset(rows)| == |rows|;
    PagesOfOneOrder(answers, limit, s);
    assert s[..|s|] == s;
  }

  // ---------------------------------------------------------------- sets of rows

  function Elements<T>(s: seq<T>): set<T> {
    set x | x in s
  }

  lemma {:induction false} ElementsCount<T>(s: seq<T>)
    requires Distinct(s)
    ensures |Elements(s)| == |s|
  {
    if s != [] {
      var n := |s| - 1;
      ElementsCount(s[..n]);
      assert Elements(s) == Elements(s[..n]) + {s[n]};
      assert s[n] !in s[..n];
    }
  }

  lemma {:induction false} DistinctByCount<T>(s: seq<T>, t: seq<T>)
    requires Distinct(s) && multiset(s) == multiset(t)
    ensures Distinct(t) && |t| == |s|
  {
    assert |s| == |multiset(s)| == |multiset(t)| == |t|;
    forall i, j | 0 <= i < j < |t|
      ensures t[i] != t[j]
    {
      if t[i] == t[j] {
        assert t == t[..i] + [t[i]] + t[i + 1..j] + [t[j]] + t[j + 1..];
        assert multiset(t)[t[i]] >= 2;
        OnceEach(s, t[i]);
      }
    }
  }

  lemma {:induction false} OnceEach<T>(s: seq<T>, x: T)
    requires Distinct(s)
    ensures multiset(s)[x] <= 1
  {
    if s != [] {
      var n := |s| - 1;
      OnceEach(s[..n], x);
      assert s == s[..n] + [s[n]];
      if s[n] == x { assert x !in multiset(s[..n]) by { assert x !in s[..n]; } }
    }
  }

  // ---------------------------------------------------------------- every answer cuts alike at a clean boundary

  /** Two sorted arrangements have the same rows before a boundary that no tie straddles. */
  lemma SamePrefix<T(!new)>(le: (T, T) -> bool, s: seq<T>, a: seq<T>, b: nat, x: T)
    requires TotalOrder(le) && Sorted(le, s) && Sorted(le, a) && Distinct(s) && multiset(s) == multiset(a)
    requires b <= |s| && !Torn(le, s, b)
    ensures |a| == |s| && (x in a[..b] <==> x in s[..b])
  {
    DistinctByCount(s, a);
    var before, others := Elements(s[..b]), Elements(a[..b]);
    ElementsCount(s[..b]);
    ElementsCount(a[..b]);
    if before != others {
      SameSizeDiffer(before, others);
      var y :| y in before && y !in others;
      var z :| z in others && z !in before;
      OutOfOrder(le, s, a, b, y, z);
    }
    assert x in before <==> x in s[..b];
    assert x in others <==> x in a[..b];
  }

  lemma SameSizeDiffer<T>(a: set<T>, b: set<T>)
    requires |a| == |b| && a != b
    ensures (exists y :: y in a && y !in b) && (exists z :: z in b && z !in a)
  {
    if a <= b { SubsetOfSameSize(a, b); }
    if b <= a { SubsetOfSameSize(b, a); }
  }

  lemma SubsetOfSameSize<T>(a: set<T>, b: set<T>)
    requires a <= b && |a| == |b|
    ensures a == b
  {
    assert |b - a| == |b| - |a|;
  }

  lemma PrefixHas<T>(s: seq<T>, b: nat, j: nat)
    requires b <= |s| && j < |s|
    ensures j < b ==> s[j] in s[..b]
  {
    if j < b { assert s[..b][j] == s[j]; }
  }

  /** A row before the boundary in one order and behind it in the other has no partner the other way round. */
  lemma OutOfOrder<T(!new)>(le: (T, T) -> bool, s: seq<T>, a: seq<T>, b: nat, y: T, z: T)
    requires TotalOrder(le) && Sorted(le, s) && Sorted(le, a) && multiset(s) == multiset(a) && |s| == |a|
    requires b <= |s| && y in s[..b] && y !in a[..b] && z in a[..b] && z !in s[..b]
    ensures Torn(le, s, b)
  {
    assert y in multiset(a) && z in multiset(s);
    var i :| 0 <= i < b && s[i] == y;
    var p :| 0 <= p < |s| && s[p] == z;
    var j :| 0 <= j < |a| && a[j] == y;
    var q :| 0 <= q < b && a[q] == z;
    PrefixHas(s, b, p);
    PrefixHas(a, b, j);
    assert le(z, y);
    assert p == b || le(s[b], z);
    assert i == b - 1 || le(y, s[b - 1]);
    assert le(s[b], z) || s[b] == z;
    assert le(s[b], y);
  }

  // ---------------------------------------------------------------- what the pages show

  predicate Shows<T(==)>(answers: seq<seq<T>>, limit: nat, k: nat, x: T)
    requires k < |answers|
  {
    x in Page(answers[k], Offset(k, limit), limit)
  }

  lemma {:induction false} ShownAt<T>(answers: seq<seq<T>>, limit: nat, k: nat, x: T)
    requires k < |answers| && Shows(answers, limit, k, x)
    ensures x in Pages(answers, limit)
  {
    if k < |answers| - 1 { ShownAt(answers[..|answers| - 1], limit, k, x); }
  }

  lemma {:induction false} NeverShown<T>(answers: seq<seq<T>>, limit: nat, x: T)
    requires forall k :: 0 <= k < |answers| ==> !Shows(answers, limit, k, x)
    ensures x !in Pages(answers, limit)
  {
    if answers != [] {
      var n := |answers| - 1;
      forall k | 0 <= k < n
        ensures !Shows(answers[..n], limit, k, x)
      {
        assert !Shows(answers, limit, k, x);
      }
      NeverShown(answers[..n], limit, x);
      assert !Shows(answers, limit, n, x);
    }
  }

  /** Page `k` of any answer shows the row at position `i` of the list when `i` lies on page `k`. */
  lemma PageShows<T(!new)>(le: (T, T) -> bool, s: seq<T>, a: seq<T>, limit: nat, k: nat, i: nat)
    requires TotalOrder(le) && Sorted(le, s) && Sorted(le, a) && Distinct(s) && multiset(s) == multiset(a)
    requires limit > 0 && !Straddles(le, s, limit)
    requires Offset(k, limit) <= i < Offset(k + 1, limit) && i < |s|
    ensures s[i] in Page(a, Offset(k, limit), limit)
  {
    var from, to := Offset(k, limit), Min(Offset(k + 1, limit), |s|);
    NextOffset(k, limit);
    NotTorn(le, s, limit, k);
    NotTorn(le, s, limit, k + 1);
    SamePrefix(le, s, a, from, s[i]);
    SamePrefix(le, s, a, to, s[i]);
    PrefixHas(s, to, i);
    var j :| 0 <= j < to && a[..to][j] == s[i];
    PrefixHas(a, from, j);
    assert Page(a, from, limit)[j - from] == s[i];
  }

  lemma NotTorn<T>(le: (T, T) -> bool, s: seq<T>, limit: nat, k: nat)
    requires limit > 0 && !Straddles(le, s, limit)
    ensures !Torn(le, s, Min(Offset(k, limit), |s|))
  {
    if Offset(k, limit) < |s| { assert k <= Offset(k, limit); }
  }

  /** The exchanged pair: a tie across the boundary may be answered the other way round. */
  lemma SwapOrders<T(!new)>(le: (T, T) -> bool, s: seq<T>, b: nat)
    requires TotalOrder(le) && Sorted(le, s) && 0 < b < |s| && le(s[b], s[b - 1])
    ensures Ordered(le, s, s[b - 1 := s[b]][b := s[b - 1]])
  {
    var t := s[b - 1 := s[b]][b := s[b - 1]];
    assert multiset(t) == multiset(s);
    forall i, j | 0 <= i < j < |t|
      ensures le(t[i], t[j])
    {
      assert le(s[b - 1], s[b]);
      assert le(t[i], s[i]) && le(s[j], t[j]);
    }
  }

  /** Without a straddling tie every row is on some page, whatever the answers. */
  lemma {:induction false} NothingLost<T(!new)>(le: (T, T) -> bool, rows: seq<T>, limit: nat, answers: seq<seq<T>>,
          x: T)
    requires TotalOrder(le) && Distinct(rows) && limit > 0 && Answers(le, rows, limit, answers)
    requires !Straddles(le, Sort(le, rows), limit) && x in rows
    ensures x in Pages(answers, limit)
  {
    var s := Sort(le, rows);
    SortSorts(le, rows);
    DistinctByCount(rows, s);
    assert x in multiset(s);
    var i :| 0 <= i < |s| && s[i] == x;
    var k := PageOf(i, limit);
    if k >= |answers| {
      if k > |answers| { OffsetsAreApart(|answers|, k, limit); }
    } else {
      PageShows(le, s, answers[k], limit, k, i);
      ShownAt(answers, limit, k, x);
    }
  }

  lemma {:induction false} PageOf(i: nat, limit: nat) returns (k: nat)
    requires limit > 0
    ensures Offset(k, limit) <= i < Offset(k + 1, limit)
  {
    if i < limit {
      k := 0;
    } else {
      k := PageOf(i - limit, limit);
      NextOffset(k, limit);
      NextOffset(k + 1, limit);
      k := k + 1;
    }
  }

  /** Answers that agree but for page `m`, where the tied pair at the boundary is exchanged. */
  function OneSwap<T>(s: seq<T>, b: nat, m: nat): seq<seq<T>>
    requires 0 < b < |s|
  {
    seq(|s|, k => if k == m then s[b - 1 := s[b]][b := s[b - 1]] else s)
  }

  lemma {:induction false} SwapHides<T(!new)>(s: seq<T>, limit: nat, m: nat)
    requires Distinct(s) && limit > 0 && 0 < Offset(m, limit) < |s|
    ensures s[Offset(m, limit)] !in Pages(OneSwap(s, Offset(m, limit), m), limit)
  {
    var b := Offset(m, limit);
    var answers := OneSwap(s, b, m);
    forall k | 0 <= k < |answers|
      ensures !Shows(answers, limit, k, s[b])
    {
      if k < m { OffsetsAreApart(k, m, limit); }
      if k > m { OffsetsAreApart(m, k, limit); }
    }
    NeverShown(answers, limit, s[b]);
  }

  lemma SwappedAnswers<T(!new)>(le: (T, T) -> bool, rows: seq<T>, s: seq<T>, limit: nat, m: nat)
    requires TotalOrder(le) && limit > 0 && Ordered(le, rows, s) && |s| == |rows| && Torn(le, s, Offset(m, limit))
    ensures Answers(le, rows, limit, OneSwap(s, Offset(m, limit), m))
  {
    var b := Offset(m, limit);
    SwapOrders(le, s, b);
    EnoughPages(|s|, limit);
  }

  lemma EnoughPages(n: nat, limit: nat)
    requires limit > 0
    ensures Offset(n, limit) >= n
  {
  }

  lemma TieLosesARow<T(!new)>(le: (T, T) -> bool, rows: seq<T>, limit: nat) returns (answers: seq<seq<T>>, x: T)
    requires TotalOrder(le) && Distinct(rows) && limit > 0 && Straddles(le, Sort(le, rows), limit)
    ensures Answers(le, rows, limit, answers) && x in rows && x !in Pages(answers, limit)
  {
    var s := Sort(le, rows);
    SortSorts(le, rows);
    DistinctByCount(rows, s);
    var m: nat :| m < |s| && Torn(le, s, Offset(m, limit));
    SwappedAnswers(le, rows, s, limit, m);
    SwapHides(s, limit, m);
    answers, x := OneSwap(s, Offset(m, limit), m), s[Offset(m, limit)];
    assert x in multiset(s);
  }

  /**
   For every page size: some answers lose a row on their way through the pages exactly when,
   in sorted order, two tied rows stand on either side of a page boundary.
   */
  lemma {:induction false} LosesIff<T(!new)>(le: (T, T) -> bool, rows: seq<T>, limit: nat)
    requires TotalOrder(le) && Distinct(rows) && limit > 0
    ensures (exists answers, x :: Answers(le, rows, limit, answers) && x in rows && x !in Pages(answers, limit))
       <==> Straddles(le, Sort(le, rows), limit)
  {
    if Straddles(le, Sort(le, rows), limit) {
      var answers, x := TieLosesARow(le, rows, limit);
    } else {
      forall answers, x | Answers(le, rows, limit, answers) && x in rows
        ensures x in Pages(answers, limit)
      {
        NothingLost(le, rows, limit, answers, x);
      }
    }
  }
}
