/**
 * The array operations the screens compose: `filter`, `find`, `slice`,
 * counting and summing, pagination, and the two sorts in use (numeric keys in
 * descending order, and the default string order of `Array.prototype.sort`).
 */
module Lists {
  import opened Wrappers

  /** Concatenation regroups freely; stated once so that proofs can name the step. */
  lemma ConcatAssoc<T>(a: seq<T>, b: seq<T>, c: seq<T>)
    ensures (a + b) + c == a + (b + c)
  {
  }

  // ------------------------------------------------------------------ filter

  /** `s.filter(p)` */
  function Filter<T>(s: seq<T>, p: T -> bool): (r: seq<T>)
    ensures |r| <= |s|
    ensures forall i :: 0 <= i < |r| ==> p(r[i])
  {
    if s == [] then []
    else
      var t := Filter(s[1..], p);
      assert s == [s[0]] + s[1..];
      if p(s[0]) then [s[0]] + t else t
  }

  /** An item is kept exactly when it is in the list and passes the test. */
  lemma {:induction false} FilterMember<T>(s: seq<T>, p: T -> bool, x: T)
    ensures x in Filter(s, p) <==> x in s && p(x)
  {
    if s != [] {
      FilterMember(s[1..], p, x);
      assert s == [s[0]] + s[1..];
    }
    if x in Filter(s, p) {
      assert x in multiset(Filter(s, p));
    }
  }

  lemma {:induction false} FilterAppend<T>(a: seq<T>, b: seq<T>, p: T -> bool)
    ensures Filter(a + b, p) == Filter(a, p) + Filter(b, p)
  {
    if a != [] {
      assert (a + b)[0] == a[0];
      assert (a + b)[1..] == a[1..] + b;
      FilterAppend(a[1..], b, p);
      if p(a[0]) {
        ConcatAssoc([a[0]], Filter(a[1..], p), Filter(b, p));
      }
    } else {
      assert a + b == b;
    }
  }

  /** Splitting a list by a test and by its negation loses and invents nothing. */
  lemma {:induction false} FilterPartition<T>(s: seq<T>, p: T -> bool, q: T -> bool)
    requires forall x :: q(x) == !p(x)
    ensures multiset(Filter(s, p)) + multiset(Filter(s, q)) == multiset(s)
  {
    if s != [] {
      var t := s[1..];
      FilterPartition(t, p, q);
      assert s == [s[0]] + t;
      HeadToOneSide(s[0], t, Filter(t, p), Filter(t, q));
      FilterHead(s, p);
      FilterHead(s, q);
    }
  }

  /** A one-item list keeps its item exactly when it passes. */
  lemma FilterSingle<T>(x: T, p: T -> bool)
    ensures Filter([x], p) == if p(x) then [x] else []
  {
    assert [x][1..] == [];
  }

  /** `Filter` on a non-empty list, one step unfolded. */
  lemma FilterHead<T>(s: seq<T>, p: T -> bool)
    requires s != []
    ensures Filter(s, p) == if p(s[0]) then [s[0]] + Filter(s[1..], p) else Filter(s[1..], p)
  {
  }

  /** Adding the head to either side of a split of the tail gives a split of the whole list. */
  lemma HeadToOneSide<T>(x: T, t: seq<T>, a: seq<T>, b: seq<T>)
    requires multiset(a) + multiset(b) == multiset(t)
    ensures multiset([x] + a) + multiset(b) == multiset([x] + t)
    ensures multiset(a) + multiset([x] + b) == multiset([x] + t)
  {
  }

  /** Nothing is kept exactly when nothing passes the test. */
  lemma {:induction false} FilterEmpty<T>(s: seq<T>, p: T -> bool)
    ensures Filter(s, p) == [] <==> forall i :: 0 <= i < |s| ==> !p(s[i])
  {
    if s != [] {
      FilterEmpty(s[1..], p);
      assert forall i :: 1 <= i < |s| ==> s[i] == s[1..][i - 1];
    }
  }

  /** When everything passes the test, everything is kept, in order. */
  lemma {:induction false} FilterAll<T>(s: seq<T>, p: T -> bool)
    requires forall i :: 0 <= i < |s| ==> p(s[i])
    ensures Filter(s, p) == s
  {
    if s != [] {
      assert forall i :: 1 <= i < |s| ==> s[i] == s[1..][i - 1];
      FilterAll(s[1..], p);
      assert s == [s[0]] + s[1..];
    }
  }

  /** Two tests that agree on every item keep the same items. */
  lemma {:induction false} FilterCongruent<T>(s: seq<T>, p: T -> bool, q: T -> bool)
    requires forall i :: 0 <= i < |s| ==> p(s[i]) == q(s[i])
    ensures Filter(s, p) == Filter(s, q)
  {
    if s != [] {
      assert forall i :: 0 <= i < |s[1..]| ==> s[1..][i] == s[i + 1];
      FilterCongruent(s[1..], p, q);
    }
  }

  /** Filtering by one test and then another keeps what passes both. */
  lemma {:induction false} FilterFilter<T>(s: seq<T>, p: T -> bool, q: T -> bool, both: T -> bool)
    requires forall x :: both(x) == (p(x) && q(x))
    ensures Filter(Filter(s, p), q) == Filter(s, both)
  {
    if s != [] {
      FilterFilter(s[1..], p, q, both);
      var t := Filter(s[1..], p);
      if p(s[0]) {
        assert ([s[0]] + t)[0] == s[0] && ([s[0]] + t)[1..] == t;
      }
    }
  }

  /** `s.filter(p).length` */
  function Count<T>(s: seq<T>, p: T -> bool): nat {
    |Filter(s, p)|
  }

  lemma CountSnoc<T>(s: seq<T>, x: T, p: T -> bool)
    ensures Count(s + [x], p) == Count(s, p) + (if p(x) then 1 else 0)
  {
    FilterAppend(s, [x], p);
  }

  /** A weaker test keeps at least as many items. */
  lemma {:induction false} CountImplies<T>(s: seq<T>, p: T -> bool, q: T -> bool)
    requires forall i :: 0 <= i < |s| ==> p(s[i]) ==> q(s[i])
    ensures Count(s, p) <= Count(s, q)
  {
    if s != [] {
      assert forall i :: 0 <= i < |s[1..]| ==> s[1..][i] == s[i + 1];
      CountImplies(s[1..], p, q);
    }
  }

  /** Items passing one test or another, when no item passes both, add up. */
  lemma {:induction false} CountDisjoint<T>(s: seq<T>, p: T -> bool, q: T -> bool)
    requires forall i :: 0 <= i < |s| ==> !(p(s[i]) && q(s[i]))
    ensures Count(s, p) + Count(s, q) <= |s|
  {
    if s != [] {
      CountDisjoint(s[1..], p, q);
    }
  }

  /** `s.every(p)` */
  predicate Every<T>(s: seq<T>, p: T -> bool) {
    s == [] || (p(s[0]) && Every(s[1..], p))
  }

  lemma {:induction false} EveryExact<T>(s: seq<T>, p: T -> bool)
    ensures Every(s, p) <==> forall i :: 0 <= i < |s| ==> p(s[i])
  {
    if s != [] {
      EveryExact(s[1..], p);
      assert forall i :: 1 <= i < |s| ==> s[i] == s[1..][i - 1];
    }
  }

  // -------------------------------------------------------------------- find

  /** `s.find(p)`: the first element passing the test, if any. */
  function Find<T>(s: seq<T>, p: T -> bool): (r: Option<T>)
    ensures r.None? <==> forall i :: 0 <= i < |s| ==> !p(s[i])
    ensures r.Some? ==> exists i :: 0 <= i < |s| && s[i] == r.value && p(s[i])
                              && (forall j :: 0 <= j < i ==> !p(s[j]))
  {
    if s == [] then None
    else if p(s[0]) then Some(s[0])
    else
      var r := Find(s[1..], p);
      assert r.Some? ==> exists i :: 0 <= i < |s| && s[i] == r.value && p(s[i])
                                && (forall j :: 0 <= j < i ==> !p(s[j])) by {
        if r.Some? {
          var i :| 0 <= i < |s[1..]| && s[1..][i] == r.value && p(s[1..][i])
                   && (forall j :: 0 <= j < i ==> !p(s[1..][j]));
          assert s[i + 1] == r.value;
          forall j | 0 <= j < i + 1 ensures !p(s[j]) {
            if j > 0 { assert s[j] == s[1..][j - 1]; }
          }
        }
      }
      r
  }

  /** The first element passing the test is what `find` returns. */
  lemma FindFirst<T>(s: seq<T>, p: T -> bool, k: nat)
    requires k < |s| && p(s[k])
    requires forall j :: 0 <= j < k ==> !p(s[j])
    ensures Find(s, p) == Some(s[k])
  {
    var r := Find(s, p);
    var i :| 0 <= i < |s| && s[i] == r.value && p(s[i]) && (forall j :: 0 <= j < i ==> !p(s[j]));
    assert i == k;
  }

  // --------------------------------------------------------------- summing

  /** `s.reduce((acc, x) => acc + f(x), 0)` */
  function Sum<T>(s: seq<T>, f: T -> int): int {
    if s == [] then 0 else Sum(s[..|s| - 1], f) + f(s[|s| - 1])
  }

  lemma {:induction false} SumAppend<T>(a: seq<T>, b: seq<T>, f: T -> int)
    ensures Sum(a + b, f) == Sum(a, f) + Sum(b, f)
  {
    if b != [] {
      assert (a + b)[..|a + b| - 1] == a + b[..|b| - 1];
      assert (a + b)[|a + b| - 1] == b[|b| - 1];
      SumAppend(a, b[..|b| - 1], f);
    } else {
      assert a + b == a;
    }
  }

  /** Summing over a filter, one more item adds its term exactly when it passes the test. */
  lemma SumFilterSnoc<T>(s: seq<T>, x: T, p: T -> bool, f: T -> int)
    ensures Sum(Filter(s + [x], p), f) == Sum(Filter(s, p), f) + (if p(x) then f(x) else 0)
  {
    FilterAppend(s, [x], p);
    var last := Filter([x], p);
    assert [x][1..] == [];
    SumAppend(Filter(s, p), last, f);
    if p(x) {
      assert last == [x];
      assert last[..0] == [];
    } else {
      assert last == [];
    }
  }

  /** A sum of non-negative terms is at least each of its terms. */
  lemma {:induction false} SumNonNegative<T>(s: seq<T>, f: T -> int)
    requires forall i :: 0 <= i < |s| ==> f(s[i]) >= 0
    ensures Sum(s, f) >= 0
    ensures forall i :: 0 <= i < |s| ==> f(s[i]) <= Sum(s, f)
  {
    if s != [] {
      var t := s[..|s| - 1];
      SumNonNegative(t, f);
      forall i | 0 <= i < |s| ensures f(s[i]) <= Sum(s, f) {
        if i < |s| - 1 { assert s[i] == t[i]; }
      }
    }
  }

  // ------------------------------------------------------- slicing & pages

  /** An `Array.prototype.slice` bound: negative counts from the end, then clamped. */
  function SliceIndex(i: int, n: nat): (k: nat)
    ensures k <= n
    ensures 0 <= i <= n ==> k == i
  {
    if i < 0 then (if n + i < 0 then 0 else n + i) else if i > n then n else i
  }

  /** `s.slice(start, end)` */
  function Slice<T>(s: seq<T>, start: int, end: int): (r: seq<T>)
    ensures |r| <= |s|
  {
    var a := SliceIndex(start, |s|);
    var b := SliceIndex(end, |s|);
    if a < b then s[a..b] else []
  }

  /** `s.slice(0, k)`: the first k items, or all of them when there are fewer. */
  lemma TakeFirst<T>(s: seq<T>, k: nat)
    ensures Slice(s, 0, k) == if k <= |s| then s[..k] else s
  {
  }

  /** `Math.ceil(n / k)`: the number of pages for n items, k to a page. */
  function PageCount(n: nat, k: nat): (c: nat)
    requires k > 0
    ensures c * k >= n
    ensures n > 0 ==> (c - 1) * k < n
    ensures n == 0 <==> c == 0
  {
    (n + k - 1) / k
  }

  /** `s.slice((page - 1) * k, page * k)`: the items shown on one page. */
  function Page<T>(s: seq<T>, page: int, k: nat): seq<T>
    requires k > 0
  {
    Slice(s, (page - 1) * k, page * k)
  }

  /**
   * A page from 1 on holds at most k items, which are the list's items from
   * position (page - 1) * k on, in order; it is empty exactly when the page
   * number is past the last page.
   */
  lemma PageSpec<T>(s: seq<T>, page: int, k: nat)
    requires k > 0 && page >= 1
    ensures var r := Page(s, page, k);
      |r| <= k
      && (forall j :: 0 <= j < |r| ==> (page - 1) * k + j < |s| && r[j] == s[(page - 1) * k + j])
      && (r == [] <==> page > PageCount(|s|, k))
      && (page < PageCount(|s|, k) ==> |r| == k)
      && (r != [] ==> (page - 1) * k + |r| <= |s|)
  {
    var c := PageCount(|s|, k);
    assert (page - 1) * k >= 0;
    assert page * k == (page - 1) * k + k;
    if page > c {
      assert (page - 1) * k >= c * k by {
        assert page - 1 >= c;
        MulMonotone(c, page - 1, k);
      }
    }
    if page < c {
      assert page * k <= (c - 1) * k by { MulMonotone(page, c - 1, k); }
    }
    if page <= c {
      assert (page - 1) * k <= (c - 1) * k by { MulMonotone(page - 1, c - 1, k); }
    }
  }

  lemma MulMonotone(a: nat, b: nat, k: nat)
    requires a <= b
    ensures a * k <= b * k
  {
  }

  /** Every item is on exactly the page its position says, at the offset its position says. */
  lemma PageOfItem<T>(s: seq<T>, i: nat, k: nat)
    requires k > 0 && i < |s|
    ensures var p := i / k + 1;
      1 <= p <= PageCount(|s|, k) && i % k < |Page(s, p, k)| && Page(s, p, k)[i % k] == s[i]
  {
    var p := i / k + 1;
    assert i == (p - 1) * k + i % k;
    assert (p - 1) * k <= i < p * k;
    PageSpec(s, p, k);
  }

  /** Page 0 (what the UI never asks for) is empty. */
  lemma PageZero<T>(s: seq<T>, k: nat)
    requires k > 0
    ensures Page(s, 0, k) == []
  {
  }

  /** A searchable paged list's state: the term typed and the current page. */
  datatype SearchPager = SearchPager(searchTerm: string, currentPage: int)

  const InitialSearchPager := SearchPager("", 1)

  /** A new search term sends the list back to its first page. */
  function SearchChange(v: SearchPager, term: string): (r: SearchPager)
    ensures r.searchTerm == term && r.currentPage == 1
  {
    SearchPager(term, 1)
  }

  // ------------------------------------------------------------- sorting

  /** Each item's key is at least the keys of all items after it. */
  predicate SortedDesc<T>(s: seq<T>, key: T -> int) {
    forall i, j :: 0 <= i < j < |s| ==> key(s[i]) >= key(s[j])
  }

  lemma SortedDescTail<T>(s: seq<T>, key: T -> int)
    requires s != [] && SortedDesc(s, key)
    ensures SortedDesc(s[1..], key)
    ensures forall y :: y in multiset(s[1..]) ==> key(s[0]) >= key(y)
  {
    forall y | y in multiset(s[1..]) ensures key(s[0]) >= key(y) {
      assert y in s[1..];
      var i :| 0 <= i < |s[1..]| && s[1..][i] == y;
      assert y == s[i + 1];
    }
  }

  /** Insertion of one item into a list sorted by descending key, before the first item whose key is not larger. */
  function InsertDesc<T>(x: T, s: seq<T>, key: T -> int): (r: seq<T>)
    ensures multiset(r) == multiset(s) + multiset{x}
  {
    if s == [] || key(x) >= key(s[0]) then [x] + s
    else
      assert s == [s[0]] + s[1..];
      [s[0]] + InsertDesc(x, s[1..], key)
  }

  /** Putting an item in front of a sorted list keeps it sorted when its key is at least the head's. */
  lemma ConsSortedDesc<T>(x: T, s: seq<T>, key: T -> int)
    requires SortedDesc(s, key)
    requires s != [] ==> key(x) >= key(s[0])
    ensures SortedDesc([x] + s, key)
  {
    var r := [x] + s;
    forall i, j | 0 <= i < j < |r| ensures key(r[i]) >= key(r[j]) {
      if i == 0 {
        assert r[j] == s[j - 1];
        assert key(s[0]) >= key(s[j - 1]);
      } else {
        assert r[i] == s[i - 1] && r[j] == s[j - 1];
      }
    }
  }

  lemma {:induction false} InsertDescSorted<T>(x: T, s: seq<T>, key: T -> int)
    requires SortedDesc(s, key)
    ensures SortedDesc(InsertDesc(x, s, key), key)
  {
    if s == [] || key(x) >= key(s[0]) {
      ConsSortedDesc(x, s, key);
    } else {
      SortedDescTail(s, key);
      var t := InsertDesc(x, s[1..], key);
      InsertDescSorted(x, s[1..], key);
      assert key(s[0]) >= key(t[0]) by {
        assert t[0] in multiset(t);
      }
      ConsSortedDesc(s[0], t, key);
    }
  }

  /**
   * `s.sort((a, b) => key(b) - key(a))`: the same items, key descending; among
   * items with equal keys the earlier one stays first, as in a stable sort.
   */
  function SortDesc<T>(s: seq<T>, key: T -> int): (r: seq<T>)
    ensures SortedDesc(r, key)
    ensures multiset(r) == multiset(s)
    ensures |r| == |s|
  {
    if s == [] then []
    else
      var r := InsertDesc(s[0], SortDesc(s[1..], key), key);
      InsertDescSorted(s[0], SortDesc(s[1..], key), key);
      assert s == [s[0]] + s[1..];
      assert |r| == |multiset(r)| == |multiset(s)| == |s|;
      r
  }

  /** Filtering keeps a sorted list sorted. */
  lemma {:induction false} FilterSortedDesc<T>(s: seq<T>, p: T -> bool, key: T -> int)
    requires SortedDesc(s, key)
    ensures SortedDesc(Filter(s, p), key)
  {
    if s != [] {
      SortedDescTail(s, key);
      FilterSortedDesc(s[1..], p, key);
      var t := Filter(s[1..], p);
      forall j | 0 <= j < |t| ensures key(s[0]) >= key(t[j]) {
        FilterMember(s[1..], p, t[j]);
      }
    }
  }

  /** Taking a prefix keeps a sorted list sorted. */
  lemma SlicePrefixSortedDesc<T>(s: seq<T>, k: int, key: T -> int)
    requires SortedDesc(s, key)
    ensures SortedDesc(Slice(s, 0, k), key)
  {
  }

  // ---------------------------------------------------- string ordering

  /**
   * The order `Array.prototype.sort` uses without a comparator on strings:
   * character by character, a proper prefix first.
   */
  predicate LexLe(a: string, b: string) {
    a == [] || (b != [] && (a[0] < b[0] || (a[0] == b[0] && LexLe(a[1..], b[1..]))))
  }

  lemma {:induction false} LexLeTotal(a: string, b: string)
    ensures LexLe(a, b) || LexLe(b, a)
  {
    if a != [] && b != [] && a[0] == b[0] { LexLeTotal(a[1..], b[1..]); }
  }

  lemma {:induction false} LexLeAntisymmetric(a: string, b: string)
    requires LexLe(a, b) && LexLe(b, a)
    ensures a == b
  {
    if a != [] && b != [] {
      LexLeAntisymmetric(a[1..], b[1..]);
      assert a == [a[0]] + a[1..] && b == [b[0]] + b[1..];
    }
  }

  lemma {:induction false} LexLeTransitive(a: string, b: string, c: string)
    requires LexLe(a, b) && LexLe(b, c)
    ensures LexLe(a, c)
  {
    if a != [] && b != [] && c != [] && a[0] == b[0] && b[0] == c[0] {
      LexLeTransitive(a[1..], b[1..], c[1..]);
    }
  }

  predicate SortedStrings(s: seq<string>) {
    forall i, j :: 0 <= i < j < |s| ==> LexLe(s[i], s[j])
  }

  function InsertString(x: string, s: seq<string>): (r: seq<string>)
    requires SortedStrings(s)
    ensures SortedStrings(r)
    ensures multiset(r) == multiset(s) + multiset{x}
  {
    if s == [] || LexLe(x, s[0]) then
      InsertFirst(x, s);
      [x] + s
    else
      SortedStringsTail(s);
      var t := InsertString(x, s[1..]);
      InsertAfterHead(x, s, t);
      [s[0]] + t
  }

  /** A string no greater than the head of a sorted list can go in front of it. */
  lemma InsertFirst(x: string, s: seq<string>)
    requires SortedStrings(s) && (s == [] || LexLe(x, s[0]))
    ensures SortedStrings([x] + s)
  {
    var r := [x] + s;
    forall i, j | 0 <= i < j < |r| ensures LexLe(r[i], r[j]) {
      if i == 0 {
        assert r[j] == s[j - 1];
        if j > 1 { LexLeTransitive(x, s[0], s[j - 1]); } else { assert r[j] == s[0]; }
      } else {
        assert r[i] == s[i - 1] && r[j] == s[j - 1];
      }
    }
  }

  /** A string greater than the head goes after it, into the sorted tail. */
  lemma InsertAfterHead(x: string, s: seq<string>, t: seq<string>)
    requires SortedStrings(s) && s != [] && !LexLe(x, s[0])
    requires SortedStrings(t) && multiset(t) == multiset(s[1..]) + multiset{x}
    ensures SortedStrings([s[0]] + t)
    ensures multiset([s[0]] + t) == multiset(s) + multiset{x}
  {
    LexLeTotal(x, s[0]);
    assert s == [s[0]] + s[1..];
    var r := [s[0]] + t;
    forall i, j | 0 <= i < j < |r| ensures LexLe(r[i], r[j]) {
      assert r[j] == t[j - 1];
      if i == 0 {
        assert t[j - 1] in multiset(t);
        if t[j - 1] != x {
          assert t[j - 1] in multiset(s[1..]);
          var k :| 0 <= k < |s[1..]| && s[1..][k] == t[j - 1];
          assert s[k + 1] == t[j - 1];
        }
      } else {
        assert r[i] == t[i - 1];
      }
    }
  }

  /** `s.sort()` on strings. */
  function SortStrings(s: seq<string>): (r: seq<string>)
    ensures SortedStrings(r)
    ensures multiset(r) == multiset(s)
  {
    if s == [] then []
    else
      assert s == [s[0]] + s[1..];
      InsertString(s[0], SortStrings(s[1..]))
  }

  lemma {:induction false} LexLeReflexive(a: string)
    ensures LexLe(a, a)
  {
    if a != [] { LexLeReflexive(a[1..]); }
  }

  /** The head of a sorted list comes before every item of the list. */
  lemma SortedHeadLeast(a: seq<string>, x: string)
    requires SortedStrings(a) && x in a
    ensures LexLe(a[0], x)
  {
    var i :| 0 <= i < |a| && a[i] == x;
    if i == 0 { LexLeReflexive(x); }
  }

  lemma SortedStringsTail(a: seq<string>)
    requires SortedStrings(a) && a != []
    ensures SortedStrings(a[1..])
  {
    forall x, y | 0 <= x < y < |a[1..]| ensures LexLe(a[1..][x], a[1..][y]) {
      assert a[1..][x] == a[x + 1] && a[1..][y] == a[y + 1];
    }
  }

  lemma MultisetTail<T>(a: seq<T>)
    requires a != []
    ensures multiset(a[1..]) == multiset(a) - multiset{a[0]}
  {
    assert a == [a[0]] + a[1..];
  }

  /** Two sorted lists with the same items start with the same item. */
  lemma SortedSameHead(a: seq<string>, b: seq<string>)
    requires SortedStrings(a) && SortedStrings(b) && multiset(a) == multiset(b) && a != []
    ensures b != [] && a[0] == b[0]
  {
    assert |b| == |multiset(b)| == |a| > 0;
    assert a[0] in multiset(b) && b[0] in multiset(a);
    SortedHeadLeast(a, b[0]);
    SortedHeadLeast(b, a[0]);
    LexLeAntisymmetric(a[0], b[0]);
  }

  /** Two sorted lists with the same items are the same list. */
  lemma {:induction false} SortedUnique(a: seq<string>, b: seq<string>)
    requires SortedStrings(a) && SortedStrings(b) && multiset(a) == multiset(b)
    ensures a == b
  {
    if a == [] {
      assert |multiset(b)| == 0;
    } else {
      SortedSameHead(a, b);
      MultisetTail(a);
      MultisetTail(b);
      SortedStringsTail(a);
      SortedStringsTail(b);
      SortedUnique(a[1..], b[1..]);
      assert a == [a[0]] + a[1..] && b == [b[0]] + b[1..];
    }
  }

  /** Sorted copies of two string lists are equal exactly when the lists hold the same items. */
  lemma SortStringsEqualIff(a: seq<string>, b: seq<string>)
    ensures SortStrings(a) == SortStrings(b) <==> multiset(a) == multiset(b)
  {
    if multiset(a) == multiset(b) {
      SortedUnique(SortStrings(a), SortStrings(b));
    }
  }
}
