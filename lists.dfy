/**
 * The array operations the stores are written with: `filter`, `some`,
 * `findIndex`/`find` and `map` applied only to the matching entries.
 */
module Lists {
  import opened Wrappers

  /** `xs.filter(p)` */
  function Keep<T>(xs: seq<T>, p: T -> bool): (r: seq<T>)
    ensures |r| <= |xs|
  {
    if xs == [] then []
    else Keep(xs[..|xs| - 1], p) + (if p(xs[|xs| - 1]) then [xs[|xs| - 1]] else [])
  }

  /** What `filter` keeps is exactly the entries that pass. */
  lemma {:induction false} KeepMembers<T>(xs: seq<T>, p: T -> bool)
    ensures forall x :: x in Keep(xs, p) <==> x in xs && p(x)
  {
    if xs != [] {
      var init := xs[..|xs| - 1];
      KeepMembers(init, p);
      assert xs == init + [xs[|xs| - 1]];
    }
  }

  /** `filter` works entry by entry, so the kept entries stay in their order. */
  lemma {:induction false} KeepAppend<T>(a: seq<T>, b: seq<T>, p: T -> bool)
    ensures Keep(a + b, p) == Keep(a, p) + Keep(b, p)
  {
    if b == [] {
      assert a + b == a;
    } else {
      var init := b[..|b| - 1];
      assert (a + b)[..|a + b| - 1] == a + init;
      KeepAppend(a, init, p);
    }
  }

  /** When every entry passes nothing is removed. */
  lemma {:induction false} KeepAll<T>(xs: seq<T>, p: T -> bool)
    requires forall k | 0 <= k < |xs| :: p(xs[k])
    ensures Keep(xs, p) == xs
  {
    if xs != [] {
      KeepAll(xs[..|xs| - 1], p);
    }
  }

  /** When no entry passes everything is removed. */
  lemma {:induction false} KeepNone<T>(xs: seq<T>, p: T -> bool)
    requires forall k | 0 <= k < |xs| :: !p(xs[k])
    ensures Keep(xs, p) == []
  {
    if xs != [] {
      KeepNone(xs[..|xs| - 1], p);
    }
  }

  /** `xs.some(p)` */
  predicate Any<T>(xs: seq<T>, p: T -> bool) {
    exists k | 0 <= k < |xs| :: p(xs[k])
  }

  /** `xs.map(x => p(x) ? f(x) : x)` */
  function MapWhere<T>(xs: seq<T>, p: T -> bool, f: T -> T): (r: seq<T>)
    ensures |r| == |xs|
  {
    seq(|xs|, k requires 0 <= k < |xs| => if p(xs[k]) then f(xs[k]) else xs[k])
  }

  /** `xs.findIndex(p)`, with `None` for -1. */
  function FirstIndex<T>(xs: seq<T>, p: T -> bool): (r: Option<nat>)
    ensures r.Some? ==> r.value < |xs|
  {
    if xs == [] then None
    else if p(xs[0]) then Some(0)
    else match FirstIndex(xs[1..], p)
      case Some(k) => Some(k + 1)
      case None => None
  }

  /** `findIndex` gives the first passing index, and -1 exactly when none passes. */
  lemma {:induction false} FirstIndexSpec<T>(xs: seq<T>, p: T -> bool)
    ensures var r := FirstIndex(xs, p);
      (r.None? <==> !Any(xs, p))
      && (r.Some? ==> p(xs[r.value]) && forall j | 0 <= j < r.value :: !p(xs[j]))
  {
    if xs != [] && !p(xs[0]) {
      FirstIndexSpec(xs[1..], p);
      var r := FirstIndex(xs[1..], p);
      if r.Some? {
        assert forall j | 0 <= j < r.value + 1 :: !p(xs[j]) by {
          forall j | 0 <= j < r.value + 1 ensures !p(xs[j]) {
            if j > 0 { assert xs[j] == xs[1..][j - 1]; }
          }
        }
      } else {
        assert !Any(xs, p) by {
          forall j | 0 <= j < |xs| ensures !p(xs[j]) {
            if j > 0 { assert xs[j] == xs[1..][j - 1]; }
          }
        }
      }
    }
  }

  /** `xs.find(p)` */
  function Find<T>(xs: seq<T>, p: T -> bool): Option<T> {
    match FirstIndex(xs, p)
    case Some(k) => Some(xs[k])
    case None => None
  }

  /** `find` gives the first passing entry, and `undefined` exactly when none passes. */
  lemma FindSpec<T>(xs: seq<T>, p: T -> bool)
    ensures Find(xs, p).None? <==> !Any(xs, p)
    ensures Find(xs, p).Some? ==> exists k | 0 <= k < |xs| :: xs[k] == Find(xs, p).value && p(xs[k])
                                       && forall j | 0 <= j < k :: !p(xs[j])
  {
    FirstIndexSpec(xs, p);
  }

  // ---------------------------------------------------------------------------
  // Records with an id
  // ---------------------------------------------------------------------------

  function IdIsNot<T>(idOf: T -> string, id: string): T -> bool {
    x => idOf(x) != id
  }

  /** `xs.filter(x => x.id !== id)` */
  function WithoutId<T>(xs: seq<T>, idOf: T -> string, id: string): seq<T> {
    Keep(xs, IdIsNot(idOf, id))
  }

  /**
   * Exactly the records with another id are kept, in their order; with no
   * record of that id nothing changes.
   */
  lemma WithoutIdSpec<T>(xs: seq<T>, idOf: T -> string, id: string)
    ensures forall x :: x in WithoutId(xs, idOf, id) <==> x in xs && idOf(x) != id
    ensures (forall k | 0 <= k < |xs| :: idOf(xs[k]) != id) ==> WithoutId(xs, idOf, id) == xs
  {
    KeepMembers(xs, IdIsNot(idOf, id));
    if forall k | 0 <= k < |xs| :: idOf(xs[k]) != id {
      KeepAll(xs, IdIsNot(idOf, id));
    }
  }

  /** `xs.map(x => x.id === id ? f(x) : x)` */
  function UpdateId<T>(xs: seq<T>, idOf: T -> string, id: string, f: T -> T): (r: seq<T>)
    ensures |r| == |xs|
  {
    seq(|xs|, k requires 0 <= k < |xs| => if idOf(xs[k]) == id then f(xs[k]) else xs[k])
  }

  /**
   * When `f` keeps ids, updating keeps the length, the order of ids and
   * every record of another id; updating twice with an idempotent `f` is
   * updating once.
   */
  lemma UpdateIdSpec<T>(xs: seq<T>, idOf: T -> string, id: string, f: T -> T)
    requires forall x :: idOf(f(x)) == idOf(x)
    ensures var r := UpdateId(xs, idOf, id, f);
      (forall k | 0 <= k < |xs| :: idOf(r[k]) == idOf(xs[k]))
      && (forall k | 0 <= k < |xs| :: idOf(xs[k]) != id ==> r[k] == xs[k])
      && (forall k | 0 <= k < |xs| :: idOf(xs[k]) == id ==> r[k] == f(xs[k]))
    ensures (forall x :: f(f(x)) == f(x)) ==> UpdateId(UpdateId(xs, idOf, id, f), idOf, id, f) == UpdateId(xs, idOf, id, f)
  {
  }
}
