/**
 * The two sorts the stores use: a stable sort of records by a text key
 * (`a.date.localeCompare(b.date)`, taken here as code-point order), and
 * the ascending sort of a set of years.
 */
module Sorting {

  // ---------------------------------------------------------------------------
  // Text order
  // ---------------------------------------------------------------------------

  /** `a` sorts no later than `b`: a prefix comes first, otherwise the first differing character decides. */
  predicate LexLe(a: string, b: string) {
    a == [] || (b != [] && (a[0] < b[0] || (a[0] == b[0] && LexLe(a[1..], b[1..]))))
  }

  lemma {:induction false} LexLeTotal(a: string, b: string)
    ensures LexLe(a, b) || LexLe(b, a)
  {
    if a != [] && b != [] && a[0] == b[0] {
      LexLeTotal(a[1..], b[1..]);
    }
  }

  lemma {:induction false} LexLeTrans(a: string, b: string, c: string)
    requires LexLe(a, b) && LexLe(b, c)
    ensures LexLe(a, c)
  {
    if a != [] && b != [] && c != [] && a[0] == b[0] && b[0] == c[0] {
      LexLeTrans(a[1..], b[1..], c[1..]);
    }
  }

  /** Texts that sort no later than each other are equal. */
  lemma {:induction false} LexLeAntisymmetric(a: string, b: string)
    requires LexLe(a, b) && LexLe(b, a)
    ensures a == b
  {
    if a != [] && b != [] {
      LexLeAntisymmetric(a[1..], b[1..]);
      assert a == [a[0]] + a[1..] && b == [b[0]] + b[1..];
    }
  }

  // ---------------------------------------------------------------------------
  // Sorting records by a text key
  // ---------------------------------------------------------------------------

  /** The key of a text is the text itself. */
  function Itself(s: string): string { s }

  predicate SortedBy<T>(s: seq<T>, key: T -> string) {
    forall i, j | 0 <= i < j < |s| :: LexLe(key(s[i]), key(s[j]))
  }

  /** `x` goes after every entry whose key sorts no later than its own, which keeps the sort stable. */
  function InsertBy<T>(x: T, s: seq<T>, key: T -> string): (r: seq<T>)
    ensures |r| == |s| + 1
  {
    if s == [] then [x]
    else if LexLe(key(s[0]), key(x)) then [s[0]] + InsertBy(x, s[1..], key)
    else [x] + s
  }

  /** `xs.sort((a, b) => key(a).localeCompare(key(b)))`, as an insertion sort from the front. */
  function SortBy<T>(xs: seq<T>, key: T -> string): (r: seq<T>)
    ensures |r| == |xs|
  {
    if xs == [] then [] else InsertBy(xs[|xs| - 1], SortBy(xs[..|xs| - 1], key), key)
  }

  lemma {:induction false} InsertByPermutes<T>(x: T, s: seq<T>, key: T -> string)
    ensures multiset(InsertBy(x, s, key)) == multiset(s) + multiset{x}
  {
    if s != [] && LexLe(key(s[0]), key(x)) {
      InsertByPermutes(x, s[1..], key);
      assert s == [s[0]] + s[1..];
    }
  }

  lemma {:induction false} InsertBySorted<T>(x: T, s: seq<T>, key: T -> string)
    requires SortedBy(s, key)
    ensures SortedBy(InsertBy(x, s, key), key)
  {
    var r := InsertBy(x, s, key);
    if s == [] {
    } else if LexLe(key(s[0]), key(x)) {
      var t := s[1..];
      var rest := InsertBy(x, t, key);
      InsertBySorted(x, t, key);
      InsertByPermutes(x, t, key);
      forall j | 0 <= j < |rest| ensures LexLe(key(s[0]), key(rest[j])) {
        assert rest[j] in multiset(rest);
        if rest[j] != x {
          assert rest[j] in t;
          var i :| 0 <= i < |t| && t[i] == rest[j];
          assert t[i] == s[i + 1];
        }
      }
      assert r == [s[0]] + rest;
    } else {
      LexLeTotal(key(s[0]), key(x));
      forall j | 0 <= j < |s| ensures LexLe(key(x), key(s[j])) {
        if j > 0 { LexLeTrans(key(x), key(s[0]), key(s[j])); }
      }
      assert r == [x] + s;
    }
  }

  /** The sort orders by key and rearranges the entries without losing or adding any. */
  lemma {:induction false} SortBySpec<T>(xs: seq<T>, key: T -> string)
    ensures SortedBy(SortBy(xs, key), key)
    ensures multiset(SortBy(xs, key)) == multiset(xs)
  {
    if xs != [] {
      var init := xs[..|xs| - 1];
      SortBySpec(init, key);
      InsertBySorted(xs[|xs| - 1], SortBy(init, key), key);
      InsertByPermutes(xs[|xs| - 1], SortBy(init, key), key);
      assert xs == init + [xs[|xs| - 1]];
    }
  }

  /** Entries already in order keep their places: sorting is idempotent. */
  lemma {:induction false} SortByOfSorted<T>(xs: seq<T>, key: T -> string)
    requires SortedBy(xs, key)
    ensures SortBy(xs, key) == xs
  {
    if xs != [] {
      var init := xs[..|xs| - 1];
      var last := xs[|xs| - 1];
      SortByOfSorted(init, key);
      InsertLast(last, init, key);
      assert xs == init + [last];
    }
  }

  /** An entry whose key sorts no earlier than all others is inserted at the end. */
  lemma {:induction false} InsertLast<T>(x: T, s: seq<T>, key: T -> string)
    requires forall j | 0 <= j < |s| :: LexLe(key(s[j]), key(x))
    ensures InsertBy(x, s, key) == s + [x]
  {
    if s != [] {
      InsertLast(x, s[1..], key);
      assert s + [x] == [s[0]] + (s[1..] + [x]);
    }
  }

  // ---------------------------------------------------------------------------
  // Distinct years in ascending order
  // ---------------------------------------------------------------------------

  predicate StrictlyIncreasing(s: seq<int>) {
    forall i, j | 0 <= i < j < |s| :: s[i] < s[j]
  }

  /** `y` in its place, unless it is already there. */
  function InsertDistinct(y: int, s: seq<int>): seq<int> {
    if s == [] then [y]
    else if y < s[0] then [y] + s
    else if y == s[0] then s
    else [s[0]] + InsertDistinct(y, s[1..])
  }

  /** `Array.from(new Set(ys)).sort((a, b) => a - b)` */
  function SortedDistinct(ys: seq<int>): seq<int> {
    if ys == [] then [] else InsertDistinct(ys[|ys| - 1], SortedDistinct(ys[..|ys| - 1]))
  }

  lemma {:induction false} InsertDistinctSpec(y: int, s: seq<int>)
    requires StrictlyIncreasing(s)
    ensures StrictlyIncreasing(InsertDistinct(y, s))
    ensures forall x :: x in InsertDistinct(y, s) <==> x in s || x == y
  {
    if s != [] && y > s[0] {
      var t := s[1..];
      InsertDistinctSpec(y, t);
      var rest := InsertDistinct(y, t);
      assert s == [s[0]] + t;
      forall j | 0 <= j < |rest| ensures s[0] < rest[j] {
        assert rest[j] in rest;
      }
      assert InsertDistinct(y, s) == [s[0]] + rest;
    }
  }

  /** Every year once, lowest first. */
  lemma {:induction false} SortedDistinctSpec(ys: seq<int>)
    ensures StrictlyIncreasing(SortedDistinct(ys))
    ensures forall y :: y in SortedDistinct(ys) <==> y in ys
  {
    if ys != [] {
      var init := ys[..|ys| - 1];
      SortedDistinctSpec(init);
      InsertDistinctSpec(ys[|ys| - 1], SortedDistinct(init));
      assert ys == init + [ys[|ys| - 1]];
    }
  }
}
