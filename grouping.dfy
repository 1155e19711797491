/**
 * The group-and-total pattern the stores fill in `forEach` loops: each
 * entry with a key adds its value to that key's total and one to its count;
 * keys are kept in the order they first appear.
 */
module Grouping {
  import opened Wrappers
  import opened Money
  import opened Lists

  datatype Buckets = Buckets(keys: seq<string>, totals: map<string, real>, counts: map<string, nat>)

  const NoBuckets := Buckets([], map[], map[])

  /** `current = grouped[key] ?? { total: 0, count: 0 }; current.total += value; current.count += 1` */
  function AddTo(b: Buckets, key: string, value: real): Buckets {
    if key in b.totals && key in b.counts then
      Buckets(b.keys, b.totals[key := b.totals[key] + value], b.counts[key := b.counts[key] + 1])
    else
      Buckets(b.keys + [key], b.totals[key := 0.0 + value], b.counts[key := 0 + 1])
  }

  /** The buckets after every entry of `xs`; an entry whose key is `None` is skipped. */
  function GroupBy<T>(xs: seq<T>, keyOf: T -> Option<string>, valueOf: T -> real): Buckets {
    if xs == [] then NoBuckets
    else
      var b := GroupBy(xs[..|xs| - 1], keyOf, valueOf);
      var x := xs[|xs| - 1];
      if keyOf(x).Some? then AddTo(b, keyOf(x).value, valueOf(x)) else b
  }

  /** The entries that fall in bucket `k`. */
  function InBucket<T>(keyOf: T -> Option<string>, k: string): T -> bool {
    x => keyOf(x) == Some(k)
  }

  /**
   * Each key is listed once and has a total and a count; a key is listed
   * exactly when some entry has it; its total is the sum of the values of
   * its entries and its count is how many there are.
   */
  ghost predicate Summarises<T>(b: Buckets, xs: seq<T>, keyOf: T -> Option<string>, valueOf: T -> real) {
    (forall i, j | 0 <= i < j < |b.keys| :: b.keys[i] != b.keys[j])
    && (forall k :: k in b.keys <==> k in b.totals)
    && (forall k :: k in b.keys <==> k in b.counts)
    && (forall k :: k in b.totals <==> exists i | 0 <= i < |xs| :: keyOf(xs[i]) == Some(k))
    && (forall k | k in b.totals ::
          k in b.counts
          && b.totals[k] == SumOf(Keep(xs, InBucket(keyOf, k)), valueOf)
          && b.counts[k] == |Keep(xs, InBucket(keyOf, k))| && b.counts[k] >= 1)
  }

  lemma {:induction false} GroupBySpec<T>(xs: seq<T>, keyOf: T -> Option<string>, valueOf: T -> real)
    ensures Summarises(GroupBy(xs, keyOf, valueOf), xs, keyOf, valueOf)
  {
    if xs != [] {
      var init := xs[..|xs| - 1];
      GroupBySpec(init, keyOf, valueOf);
      GroupStep(GroupBy(init, keyOf, valueOf), init, xs[|xs| - 1], keyOf, valueOf);
      assert xs == init + [xs[|xs| - 1]];
    }
  }

  /** One more entry keeps the buckets summarising the entries seen. */
  lemma GroupStep<T>(b: Buckets, xs: seq<T>, x: T, keyOf: T -> Option<string>, valueOf: T -> real)
    requires Summarises(b, xs, keyOf, valueOf)
    ensures Summarises(if keyOf(x).Some? then AddTo(b, keyOf(x).value, valueOf(x)) else b, xs + [x], keyOf, valueOf)
  {
    if keyOf(x).None? {
      GroupSkip(b, xs, x, keyOf, valueOf);
    } else if keyOf(x).value in b.totals {
      GroupOld(b, xs, x, keyOf, valueOf);
    } else {
      GroupNew(b, xs, x, keyOf, valueOf);
    }
  }

  lemma KeepStep<T>(xs: seq<T>, x: T, keyOf: T -> Option<string>, k: string)
    ensures Keep(xs + [x], InBucket(keyOf, k)) == Keep(xs, InBucket(keyOf, k)) + (if keyOf(x) == Some(k) then [x] else [])
  {
    var ys := xs + [x];
    assert ys[..|ys| - 1] == xs;
    assert InBucket(keyOf, k)(x) == (keyOf(x) == Some(k));
  }

  /** Whether some entry of `xs + [x]` has key `k`. */
  lemma HasKeyStep<T>(xs: seq<T>, x: T, keyOf: T -> Option<string>, k: string)
    ensures (exists i | 0 <= i < |xs + [x]| :: keyOf((xs + [x])[i]) == Some(k))
        <==> (exists i | 0 <= i < |xs| :: keyOf(xs[i]) == Some(k)) || keyOf(x) == Some(k)
  {
    var ys := xs + [x];
    if exists i | 0 <= i < |ys| :: keyOf(ys[i]) == Some(k) {
      var i :| 0 <= i < |ys| && keyOf(ys[i]) == Some(k);
      if i < |xs| { assert ys[i] == xs[i]; }
    }
    if exists i | 0 <= i < |xs| :: keyOf(xs[i]) == Some(k) {
      var i :| 0 <= i < |xs| && keyOf(xs[i]) == Some(k);
      assert ys[i] == xs[i];
    }
    assert ys[|xs|] == x;
  }

  lemma GroupSkip<T>(b: Buckets, xs: seq<T>, x: T, keyOf: T -> Option<string>, valueOf: T -> real)
    requires Summarises(b, xs, keyOf, valueOf) && keyOf(x).None?
    ensures Summarises(b, xs + [x], keyOf, valueOf)
  {
    forall k ensures (k in b.totals <==> exists i | 0 <= i < |xs + [x]| :: keyOf((xs + [x])[i]) == Some(k))
                  && Keep(xs + [x], InBucket(keyOf, k)) == Keep(xs, InBucket(keyOf, k)) {
      HasKeyStep(xs, x, keyOf, k);
      KeepStep(xs, x, keyOf, k);
    }
  }

  lemma GroupOld<T>(b: Buckets, xs: seq<T>, x: T, keyOf: T -> Option<string>, valueOf: T -> real)
    requires Summarises(b, xs, keyOf, valueOf) && keyOf(x).Some? && keyOf(x).value in b.totals
    ensures Summarises(AddTo(b, keyOf(x).value, valueOf(x)), xs + [x], keyOf, valueOf)
  {
    var b' := AddTo(b, keyOf(x).value, valueOf(x));
    assert b'.keys == b.keys;
    forall k ensures (k in b'.totals <==> exists i | 0 <= i < |xs + [x]| :: keyOf((xs + [x])[i]) == Some(k)) {
      HasKeyStep(xs, x, keyOf, k);
    }
    forall k | k in b'.totals
      ensures k in b'.counts
           && b'.totals[k] == SumOf(Keep(xs + [x], InBucket(keyOf, k)), valueOf)
           && b'.counts[k] == |Keep(xs + [x], InBucket(keyOf, k))| && b'.counts[k] >= 1
    {
      AddToBucket(b, xs, x, keyOf, valueOf, k);
    }
  }

  lemma GroupNew<T>(b: Buckets, xs: seq<T>, x: T, keyOf: T -> Option<string>, valueOf: T -> real)
    requires Summarises(b, xs, keyOf, valueOf) && keyOf(x).Some? && keyOf(x).value !in b.totals
    ensures Summarises(AddTo(b, keyOf(x).value, valueOf(x)), xs + [x], keyOf, valueOf)
  {
    var kx := keyOf(x).value;
    var b' := AddTo(b, kx, valueOf(x));
    assert b'.keys == b.keys + [kx];
    AppendDistinct(b.keys, kx);
    forall k ensures (k in b'.totals <==> exists i | 0 <= i < |xs + [x]| :: keyOf((xs + [x])[i]) == Some(k)) {
      HasKeyStep(xs, x, keyOf, k);
    }
    forall k | k in b'.totals
      ensures k in b'.counts
           && b'.totals[k] == SumOf(Keep(xs + [x], InBucket(keyOf, k)), valueOf)
           && b'.counts[k] == |Keep(xs + [x], InBucket(keyOf, k))| && b'.counts[k] >= 1
    {
      AddToBucket(b, xs, x, keyOf, valueOf, k);
    }
  }

  /** A new key appended to distinct keys keeps them distinct. */
  lemma AppendDistinct(keys: seq<string>, k: string)
    requires (forall i, j | 0 <= i < j < |keys| :: keys[i] != keys[j]) && k !in keys
    ensures forall i, j | 0 <= i < j < |keys + [k]| :: (keys + [k])[i] != (keys + [k])[j]
  {
  }

  /** What `Summarises` says about the bucket of one key. */
  lemma BucketOfKey<T>(b: Buckets, xs: seq<T>, keyOf: T -> Option<string>, valueOf: T -> real, k: string)
    requires Summarises(b, xs, keyOf, valueOf)
    ensures k in b.totals ==> k in b.counts && b.totals[k] == SumOf(Keep(xs, InBucket(keyOf, k)), valueOf)
                              && b.counts[k] == |Keep(xs, InBucket(keyOf, k))| && b.counts[k] >= 1
    ensures k !in b.totals ==> k !in b.counts && Keep(xs, InBucket(keyOf, k)) == []
  {
    if k !in b.totals {
      forall i | 0 <= i < |xs| ensures !InBucket(keyOf, k)(xs[i]) {
      }
      KeepNone(xs, InBucket(keyOf, k));
    }
  }

  /** After adding `x`, each bucket holds the total and the count of its entries among `xs + [x]`. */
  lemma AddToBucket<T>(b: Buckets, xs: seq<T>, x: T, keyOf: T -> Option<string>, valueOf: T -> real, k: string)
    requires Summarises(b, xs, keyOf, valueOf) && keyOf(x).Some?
    requires k in AddTo(b, keyOf(x).value, valueOf(x)).totals
    ensures var b' := AddTo(b, keyOf(x).value, valueOf(x));
      k in b'.counts
      && b'.totals[k] == SumOf(Keep(xs + [x], InBucket(keyOf, k)), valueOf)
      && b'.counts[k] == |Keep(xs + [x], InBucket(keyOf, k))| && b'.counts[k] >= 1
  {
    BucketOfKey(b, xs, keyOf, valueOf, k);
    BucketAdd(b, Keep(xs, InBucket(keyOf, k)), x, keyOf(x).value, valueOf, k);
    KeepStep(xs, x, keyOf, k);
  }

  /** The arithmetic of one bucket when `AddTo` adds `x` under key `kx`. */
  lemma BucketAdd<T>(b: Buckets, seg: seq<T>, x: T, kx: string, valueOf: T -> real, k: string)
    requires k in b.totals ==> k in b.counts && b.totals[k] == SumOf(seg, valueOf) && b.counts[k] == |seg| && |seg| >= 1
    requires k !in b.totals ==> k !in b.counts && seg == []
    requires k in AddTo(b, kx, valueOf(x)).totals
    ensures var b' := AddTo(b, kx, valueOf(x));
      var seg' := seg + (if k == kx then [x] else []);
      k in b'.counts && b'.totals[k] == SumOf(seg', valueOf) && b'.counts[k] == |seg'| && b'.counts[k] >= 1
  {
    SumOfLast(seg, x, valueOf);
    if k != kx {
      assert seg + [] == seg;
    }
  }

  /** A key's total, 0 for a key without a bucket. */
  function TotalOf(b: Buckets, k: string): real {
    if k in b.totals then b.totals[k] else 0.0
  }

  /** A key's count, 0 for a key without a bucket. */
  function CountOf(b: Buckets, k: string): nat {
    if k in b.counts then b.counts[k] else 0
  }

  /** The keys of `GroupBy`, each once: exactly the keys some entry has. */
  lemma GroupKeys<T>(xs: seq<T>, keyOf: T -> Option<string>, valueOf: T -> real)
    ensures var keys := GroupBy(xs, keyOf, valueOf).keys;
      (forall i, j | 0 <= i < j < |keys| :: keys[i] != keys[j])
      && forall k :: k in keys <==> exists i | 0 <= i < |xs| :: keyOf(xs[i]) == Some(k)
  {
    GroupBySpec(xs, keyOf, valueOf);
  }

  /** Each listed key of `GroupBy` has a total and a count over its entries, and at least one entry. */
  lemma GroupTotals<T>(xs: seq<T>, keyOf: T -> Option<string>, valueOf: T -> real)
    ensures var b := GroupBy(xs, keyOf, valueOf);
      forall i | 0 <= i < |b.keys| ::
        TotalOf(b, b.keys[i]) == SumOf(Keep(xs, InBucket(keyOf, b.keys[i])), valueOf)
        && CountOf(b, b.keys[i]) == |Keep(xs, InBucket(keyOf, b.keys[i]))| && CountOf(b, b.keys[i]) >= 1
  {
    GroupBySpec(xs, keyOf, valueOf);
    var b := GroupBy(xs, keyOf, valueOf);
    forall i | 0 <= i < |b.keys| ensures b.keys[i] in b.totals {
    }
  }

  /** A bucket's total as a function of its key. */
  function BucketSum<T>(xs: seq<T>, keyOf: T -> Option<string>, valueOf: T -> real): string -> real {
    k => SumOf(Keep(xs, InBucket(keyOf, k)), valueOf)
  }

  /** Raising one key's term by `v` raises a sum over distinct keys by `v` when that key is listed. */
  lemma {:induction false} SumOfBump(ks: seq<string>, g: string -> real, h: string -> real, kx: string, v: real)
    requires forall i, j | 0 <= i < j < |ks| :: ks[i] != ks[j]
    requires forall i | 0 <= i < |ks| :: h(ks[i]) == g(ks[i]) + (if ks[i] == kx then v else 0.0)
    ensures SumOf(ks, h) == SumOf(ks, g) + (if kx in ks then v else 0.0)
  {
    if ks != [] {
      var init := ks[..|ks| - 1];
      var last := ks[|ks| - 1];
      SumOfBump(init, g, h, kx, v);
      assert ks == init + [last];
      if last == kx {
        assert kx !in init by {
          forall i | 0 <= i < |init| ensures init[i] != kx {
            assert init[i] == ks[i];
          }
        }
      }
    }
  }

  /**
   * When every entry has a key among the distinct keys `ks`, the bucket
   * totals over `ks` add up to the total of all entries.
   */
  lemma {:induction false} SumOfBuckets<T>(xs: seq<T>, keyOf: T -> Option<string>, valueOf: T -> real, ks: seq<string>)
    requires forall i, j | 0 <= i < j < |ks| :: ks[i] != ks[j]
    requires forall i | 0 <= i < |xs| :: keyOf(xs[i]).Some? && keyOf(xs[i]).value in ks
    ensures SumOf(ks, BucketSum(xs, keyOf, valueOf)) == SumOf(xs, valueOf)
  {
    if xs == [] {
      SumOfBounds(ks, BucketSum(xs, keyOf, valueOf), 0.0, 0.0);
    } else {
      var init := xs[..|xs| - 1];
      var x := xs[|xs| - 1];
      assert xs == init + [x];
      SumOfBuckets(init, keyOf, valueOf, ks);
      forall i | 0 <= i < |ks|
        ensures BucketSum(xs, keyOf, valueOf)(ks[i])
             == BucketSum(init, keyOf, valueOf)(ks[i]) + (if ks[i] == keyOf(x).value then valueOf(x) else 0.0)
      {
        BucketStep(init, x, keyOf, valueOf, ks[i]);
      }
      SumOfBump(ks, BucketSum(init, keyOf, valueOf), BucketSum(xs, keyOf, valueOf), keyOf(x).value, valueOf(x));
    }
  }

  /** One more keyed entry adds its value to its own bucket's total only. */
  lemma BucketStep<T>(xs: seq<T>, x: T, keyOf: T -> Option<string>, valueOf: T -> real, k: string)
    requires keyOf(x).Some?
    ensures BucketSum(xs + [x], keyOf, valueOf)(k)
         == BucketSum(xs, keyOf, valueOf)(k) + (if k == keyOf(x).value then valueOf(x) else 0.0)
  {
    var seg := Keep(xs, InBucket(keyOf, k));
    KeepStep(xs, x, keyOf, k);
    if keyOf(x) == Some(k) {
      assert Keep(xs + [x], InBucket(keyOf, k)) == seg + [x];
      SumOfLast(seg, x, valueOf);
    } else {
      assert Keep(xs + [x], InBucket(keyOf, k)) == seg;
    }
  }

  /** Entries without a key change nothing, so only keyed entries are counted. */
  lemma {:induction false} GroupByUnkeyed<T>(xs: seq<T>, keyOf: T -> Option<string>, valueOf: T -> real)
    requires forall i | 0 <= i < |xs| :: keyOf(xs[i]).None?
    ensures GroupBy(xs, keyOf, valueOf) == NoBuckets
  {
    if xs != [] {
      GroupByUnkeyed(xs[..|xs| - 1], keyOf, valueOf);
    }
  }
}
