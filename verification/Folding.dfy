/** Simple case folding and the key normal form built on it.

    The Unicode tables are not part of the model: a folding is any function
    that steps from a character to the next one of its orbit and gets back to
    where it started after finitely many steps. */
module Folding {
  function Iterate(f: char -> char, c: char, n: nat): char {
    if n == 0 then c else f(Iterate(f, c, n - 1))
  }

  ghost predicate Period(f: char -> char, c: char, n: nat) {
    n > 0 && Iterate(f, c, n) == c
  }

  ghost predicate Returns(f: char -> char, c: char) {
    exists n: nat :: Period(f, c, n)
  }

  ghost predicate Cyclic(f: char -> char) {
    forall c :: Returns(f, c)
  }

  lemma IdentityIsCyclic()
    ensures Cyclic((c: char) => c)
  {
    var f := (c: char) => c;
    forall c: char
      ensures Returns(f, c)
    {
      assert Iterate(f, c, 1) == f(Iterate(f, c, 0));
      assert Period(f, c, 1);
    }
  }

  type Fold = f: char -> char | Cyclic(f) witness (IdentityIsCyclic(); (c: char) => c)

  /** `b` is reached from `a` by folding steps. */
  ghost predicate SameOrbit(f: Fold, a: char, b: char) {
    exists n: nat :: Iterate(f, a, n) == b
  }

  /** Equality under simple folding: same length, same orbit at every place. */
  ghost predicate EqualFold(f: Fold, a: string, b: string) {
    |a| == |b| && forall i :: 0 <= i < |a| ==> SameOrbit(f, a[i], b[i])
  }

  ghost predicate LeastOfOrbit(f: Fold, r: char, low: char) {
    SameOrbit(f, r, low) && forall x :: SameOrbit(f, r, x) ==> low <= x
  }

  /** `low` is at most each of the first `k` members of the orbit of `r`. */
  ghost predicate AtMostFirst(f: Fold, r: char, k: nat, low: char) {
    forall j: nat :: j < k ==> low <= Iterate(f, r, j)
  }

  // ---- the orbit is an equivalence class ----

  lemma {:induction false} IterateAdd(f: char -> char, c: char, m: nat, n: nat)
    ensures Iterate(f, Iterate(f, c, m), n) == Iterate(f, c, m + n)
  {
    if n > 0 {
      IterateAdd(f, c, m, n - 1);
    }
  }

  lemma {:induction false} ManyPeriods(f: char -> char, c: char, p: nat, k: nat)
    requires Period(f, c, p)
    ensures Iterate(f, c, k * p) == c && k <= k * p
  {
    if k > 0 {
      ManyPeriods(f, c, p, k - 1);
      IterateAdd(f, c, (k - 1) * p, p);
      assert (k - 1) * p + p == k * p;
    }
  }

  lemma OrbitSymmetric(f: Fold, a: char, b: char)
    requires SameOrbit(f, a, b)
    ensures SameOrbit(f, b, a)
  {
    var n: nat :| Iterate(f, a, n) == b;
    assert Returns(f, a);
    var p: nat :| Period(f, a, p);
    ManyPeriods(f, a, p, n);
    IterateAdd(f, a, n, n * p - n);
  }

  lemma OrbitTransitive(f: Fold, a: char, b: char, c: char)
    requires SameOrbit(f, a, b) && SameOrbit(f, b, c)
    ensures SameOrbit(f, a, c)
  {
    var m: nat :| Iterate(f, a, m) == b;
    var n: nat :| Iterate(f, b, n) == c;
    IterateAdd(f, a, m, n);
  }

  lemma OrbitReflexive(f: Fold, a: char)
    ensures SameOrbit(f, a, a)
  {
    assert Iterate(f, a, 0) == a;
  }

  /** One period already shows the whole orbit. */
  lemma {:induction false} PeriodCovers(f: Fold, r: char, p: nat, n: nat) returns (j: nat)
    requires Period(f, r, p)
    ensures j < p && Iterate(f, r, j) == Iterate(f, r, n)
  {
    if n < p {
      j := n;
    } else {
      IterateAdd(f, r, p, n - p);
      j := PeriodCovers(f, r, p, n - p);
    }
  }

  lemma LeastOverPeriod(f: Fold, r: char, p: nat, low: char)
    requires Period(f, r, p)
    requires SameOrbit(f, r, low)
    requires AtMostFirst(f, r, p, low)
    ensures LeastOfOrbit(f, r, low)
  {
    forall x | SameOrbit(f, r, x)
      ensures low <= x
    {
      var n: nat :| Iterate(f, r, n) == x;
      var j := PeriodCovers(f, r, p, n);
    }
  }

  // ---- foldKey ----

  /** The inner loop of foldKey: walk the orbit from `cur` back to `r`. `left`
      is a number of steps that is known to get there. */
  function Lowest(f: Fold, r: char, cur: char, ghost left: nat, low: char): char
    requires Iterate(f, cur, left) == r
    decreases left
  {
    if cur == r then low
    else
      IterateAdd(f, cur, 1, left - 1);
      assert Iterate(f, cur, 1) == f(Iterate(f, cur, 0));
      Lowest(f, r, f(cur), left - 1, if cur < low then cur else low)
  }

  function FoldRune(f: Fold, r: char): char {
    assert Returns(f, r);
    ghost var p: nat :| Period(f, r, p);
    IterateAdd(f, r, 1, p - 1);
    assert Iterate(f, r, 1) == f(Iterate(f, r, 0));
    Lowest(f, r, f(r), p - 1, r)
  }

  function FoldKey(f: Fold, s: string): string {
    seq(|s|, i requires 0 <= i < |s| => FoldRune(f, s[i]))
  }

  lemma {:induction false} LowestIsLeast(f: Fold, r: char, k: nat, left: nat, low: char)
    requires k > 0 && Iterate(f, Iterate(f, r, k), left) == r
    requires SameOrbit(f, r, low)
    requires AtMostFirst(f, r, k, low)
    ensures LeastOfOrbit(f, r, Lowest(f, r, Iterate(f, r, k), left, low))
    decreases left
  {
    var cur := Iterate(f, r, k);
    if cur == r {
      LeastOverPeriod(f, r, k, low);
    } else {
      IterateAdd(f, cur, 1, left - 1);
      assert Iterate(f, cur, 1) == f(Iterate(f, cur, 0));
      assert f(cur) == Iterate(f, r, k + 1);
      LowestIsLeast(f, r, k + 1, left - 1, if cur < low then cur else low);
    }
  }

  lemma FoldRuneIsLeast(f: Fold, r: char)
    ensures LeastOfOrbit(f, r, FoldRune(f, r))
  {
    OrbitReflexive(f, r);
    assert Iterate(f, r, 1) == f(Iterate(f, r, 0));
    forall p: nat | Period(f, r, p)
      ensures Iterate(f, f(r), p - 1) == r
      ensures LeastOfOrbit(f, r, Lowest(f, r, f(r), p - 1, r))
    {
      IterateAdd(f, r, 1, p - 1);
      LowestIsLeast(f, r, 1, p - 1, r);
    }
  }

  lemma FoldRuneClass(f: Fold, a: char, b: char)
    ensures FoldRune(f, a) == FoldRune(f, b) <==> SameOrbit(f, a, b)
  {
    FoldRuneIsLeast(f, a);
    FoldRuneIsLeast(f, b);
    var x, y := FoldRune(f, a), FoldRune(f, b);
    OrbitSymmetric(f, b, y);
    if x == y {
      OrbitTransitive(f, a, x, b);
    }
    if SameOrbit(f, a, b) {
      OrbitSymmetric(f, a, b);
      OrbitTransitive(f, a, b, y);
      OrbitTransitive(f, b, a, x);
    }
  }

  /** Two keys have the same normal form exactly when they are equal under
      simple folding. */
  lemma FoldKeyClass(f: Fold, a: string, b: string)
    ensures FoldKey(f, a) == FoldKey(f, b) <==> EqualFold(f, a, b)
  {
    if |a| == |b| {
      forall i | 0 <= i < |a|
        ensures FoldKey(f, a)[i] == FoldKey(f, b)[i] <==> SameOrbit(f, a[i], b[i])
      {
        FoldRuneClass(f, a[i], b[i]);
      }
    }
  }

  lemma EqualFoldIsEquivalence(f: Fold, a: string, b: string, c: string)
    ensures EqualFold(f, a, a)
    ensures EqualFold(f, a, b) ==> EqualFold(f, b, a)
    ensures EqualFold(f, a, b) && EqualFold(f, b, c) ==> EqualFold(f, a, c)
  {
    FoldKeyClass(f, a, a);
    FoldKeyClass(f, a, b);
    FoldKeyClass(f, b, a);
    FoldKeyClass(f, b, c);
    FoldKeyClass(f, a, c);
  }

  /** foldKey as it runs: both loops, with the orbit walk shown to stop. */
  method FoldKeyLoop(f: Fold, s: string) returns (b: string)
    ensures b == FoldKey(f, s)
  {
    b := "";
    for i := 0 to |s|
      invariant b == FoldKey(f, s)[..i]
    {
      var r := s[i];
      var low := r;
      var c := f(r);
      ghost var k := 1;
      assert Iterate(f, r, 1) == f(Iterate(f, r, 0));
      assert Returns(f, r);
      ghost var p: nat :| Period(f, r, p);
      OrbitReflexive(f, r);
      while c != r
        invariant 0 < k <= p && c == Iterate(f, r, k)
        invariant SameOrbit(f, r, low)
        invariant AtMostFirst(f, r, k, low)
        decreases p - k
      {
        if c < low {
          low := c;
        }
        c := f(c);
        k := k + 1;
      }
      LeastOverPeriod(f, r, k, low);
      FoldRuneIsLeast(f, r);
      b := b + [low];
    }
  }
}
