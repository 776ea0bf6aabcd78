/** The chunk arithmetic of the customer bulk import: the number of laps
    computed with C++ int division and remainder, and the window
    [fromPos, toPos) each lap binds. The window is defined by the loop's own
    additions, so that code using it meets no multiplication; the lemmas
    below relate it to k * c. */
module Chunks {

  function Abs(x: int): nat
  {
    if x < 0 then -x else x
  }

  function Min(a: int, b: int): int
  {
    if a < b then a else b
  }

  /** How often y fits into x: the quotient of naturals, by repeated subtraction. */
  function Quot(x: nat, y: nat): nat
    requires y > 0
    decreases x
  {
    if x < y then 0 else 1 + Quot(x - y, y)
  }

  /** What is left of x after taking y away as often as it fits. */
  function Rest(x: nat, y: nat): nat
    requires y > 0
    decreases x
  {
    if x < y then x else Rest(x - y, y)
  }

  /** C++ `/` on int: the quotient of the magnitudes, negated when the signs differ. */
  function CDiv(a: int, b: int): int
    requires b != 0
  {
    if (a < 0) == (b < 0) then Quot(Abs(a), Abs(b)) else -(Quot(Abs(a), Abs(b)) as int)
  }

  /** C++ `%` on int: the remainder of the magnitudes, with the sign of the dividend. */
  function CRem(a: int, b: int): int
    requires b != 0
  {
    var m: int := Rest(Abs(a), Abs(b));
    if a < 0 then -m else m
  }

  /** Repeated subtraction divides: x == Quot * y + Rest with 0 <= Rest < y. */
  lemma {:induction false} QuotRest(x: nat, y: nat)
    requires y > 0
    ensures Quot(x, y) * y + Rest(x, y) == x && Rest(x, y) < y
    decreases x
  {
    if x >= y {
      QuotRest(x - y, y);
      OneMore(Quot(x - y, y), y);
    }
  }

  lemma OneMore(q: int, y: int)
    ensures (q + 1) * y == q * y + y
  {
  }

  /** The C++ guarantees: (a / b) * b + a % b == a, the quotient truncated
      toward zero (its magnitude is how often |b| fits into |a|), the
      remainder smaller than the divisor and signed like the dividend. */
  lemma TruncatedDivision(a: int, b: int)
    requires b != 0
    ensures CDiv(a, b) * b + CRem(a, b) == a
    ensures Abs(CDiv(a, b)) * Abs(b) <= Abs(a) < (Abs(CDiv(a, b)) + 1) * Abs(b)
    ensures Abs(CRem(a, b)) < Abs(b)
    ensures CRem(a, b) != 0 ==> (CRem(a, b) < 0 <==> a < 0)
    ensures CDiv(a, b) != 0 ==> (CDiv(a, b) < 0 <==> (a < 0) != (b < 0))
  {
    var x, y := Abs(a), Abs(b);
    var d: int := Quot(x, y);
    QuotRest(x, y);
    OneMore(d, y);
    SignedProduct(d, y);
  }

  /** Moving the signs out of a product. */
  lemma SignedProduct(d: int, y: int)
    ensures (-d) * y == -(d * y) && d * (-y) == -(d * y) && (-d) * (-y) == d * y
  {
  }

  /** laps = size / chunk, plus one when size % chunk is not zero. */
  function Laps(n: nat, c: int): int
    requires c != 0
  {
    CDiv(n, c) + (if CRem(n, c) != 0 then 1 else 0)
  }

  /** The lap count as the import computes it: the quotient, and one lap
      more for a remainder. */
  method ChunkLaps(n: nat, c: int) returns (laps: int)
    requires c != 0
    ensures laps == Laps(n, c)
  {
    laps := CDiv(n, c);
    if CRem(n, c) != 0 {
      laps := laps + 1;
    }
  }

  /** For a positive chunk size the number of laps is the ceiling of n / c. */
  lemma LapsIsCeiling(n: nat, c: int)
    requires c > 0
    ensures Laps(n, c) >= 0
    ensures n <= Laps(n, c) * c
    ensures Laps(n, c) > 0 ==> (Laps(n, c) - 1) * c < n
    ensures Laps(n, c) == 0 <==> n == 0
  {
    var q: int, r: int := Quot(n, c), Rest(n, c);
    QuotRest(n, c);
    assert CDiv(n, c) == q && CRem(n, c) == r;
    OneMore(q, c);
    OneMore(q - 1, c);
    if q > 0 {
      PositiveProduct(q, c);
    }
  }

  lemma PositiveProduct(q: int, c: int)
    requires q > 0 && c > 0
    ensures q * c >= c
  {
  }

  /** A negative chunk size gives at most one lap. */
  lemma LapsNegative(n: nat, c: int)
    requires c < 0
    ensures Laps(n, c) <= 1
  {
    assert CDiv(n, c) == -(Quot(n, -c) as int);
  }

  /** Where lap k starts: fromPos, 0 for the first lap and c further on
      for each next one; it has the sign of c. */
  function From(c: int, k: nat): (f: int)
    ensures c >= 0 ==> f >= 0
    ensures c <= 0 ==> f <= 0
  {
    if k == 0 then 0 else From(c, k - 1) + c
  }

  /** Where lap k stops: toPos, c past fromPos, capped at the size n. */
  function To(n: nat, c: int, k: nat): int
  {
    Min(From(c, k) + c, n)
  }

  /** fromPos of lap k is k * c. */
  lemma {:induction false} FromIsProduct(c: int, k: nat)
    ensures From(c, k) == k * c
  {
    if k > 0 {
      FromIsProduct(c, k - 1);
      assert k * c == (k - 1) * c + c;
    }
  }

  /** The loop's update of the window, fromPos += c and toPos += c capped
      at n, moves it from lap k to lap k + 1; lap 0 is [0, min(c, n)). */
  lemma WindowStep(n: nat, c: int, k: nat)
    ensures From(c, 0) == 0 && To(n, c, 0) == if c > n then n else c
    ensures From(c, k + 1) == From(c, k) + c
    ensures To(n, c, k + 1) == if To(n, c, k) + c > n then n else To(n, c, k) + c
  {
  }

  /** A window that binds anything lies inside the rows, and only a positive
      chunk size gives one. */
  lemma WindowInRange(n: nat, c: int, k: nat)
    ensures From(c, k) < To(n, c, k) ==> c > 0 && 0 <= From(c, k) && To(n, c, k) <= n
  {
  }

  /** The rows a window [from, to) binds: the inner loop runs from `from`
      while below `to`, so an inverted window binds nothing. */
  function Window<T>(rows: seq<T>, from: int, to: int): seq<T>
    requires from < to ==> 0 <= from && to <= |rows|
  {
    if from < to then rows[from..to] else []
  }

  /** The window lap k binds. The inner loop runs from fromPos while below
      toPos, so an inverted window binds nothing. */
  function Batch<T>(rows: seq<T>, c: int, k: nat): (b: seq<T>)
    ensures c > 0 && From(c, k) < |rows| ==> b == rows[From(c, k)..To(|rows|, c, k)]
    ensures c <= 0 ==> b == []
  {
    WindowInRange(|rows|, c, k);
    Window(rows, From(c, k), To(|rows|, c, k))
  }

  /** What the first k laps have bound, in order. */
  function Committed<T>(rows: seq<T>, c: int, k: nat): seq<T>
  {
    if k == 0 then [] else Committed(rows, c, k - 1) + Batch(rows, c, k - 1)
  }

  /** Lap k commits its window after what the earlier laps committed. */
  lemma CommitStep<T>(rows: seq<T>, c: int, k: nat)
    ensures Committed(rows, c, k + 1) == Committed(rows, c, k) + Window(rows, From(c, k), To(|rows|, c, k))
  {
    WindowInRange(|rows|, c, k);
    assert Committed(rows, c, k + 1) == Committed(rows, c, k) + Batch(rows, c, k);
  }

  /** The windows of the first k laps tile a prefix of the rows: every row
      before fromPos of lap k is bound exactly once, in order. */
  lemma {:induction false} CommittedPrefix<T>(rows: seq<T>, c: int, k: nat)
    requires c > 0
    ensures Committed(rows, c, k) == rows[..Min(From(c, k), |rows|)]
  {
    if k > 0 {
      CommittedPrefix(rows, c, k - 1);
      BatchTiles(rows, c, k - 1);
    }
  }

  /** With a positive chunk size lap k binds the rows from where the earlier
      laps stopped up to where the next lap starts. */
  lemma BatchTiles<T>(rows: seq<T>, c: int, k: nat)
    requires c > 0
    ensures rows[..Min(From(c, k), |rows|)] + Batch(rows, c, k) == rows[..Min(From(c, k + 1), |rows|)]
  {
    var lo, hi := Min(From(c, k), |rows|), Min(From(c, k + 1), |rows|);
    if From(c, k) < |rows| {
      assert Batch(rows, c, k) == rows[lo..hi];
      PrefixSplit(rows, lo, hi);
    } else {
      assert Batch(rows, c, k) == [] && lo == hi;
    }
  }

  lemma PrefixSplit<T>(s: seq<T>, lo: nat, hi: nat)
    requires lo <= hi <= |s|
    ensures s[..lo] + s[lo..hi] == s[..hi]
  {
  }

  /** When every lap completes, the laps bind all rows exactly once. */
  lemma AllLapsCommitAll<T>(rows: seq<T>, c: int)
    requires c > 0
    ensures Committed(rows, c, Laps(|rows|, c)) == rows
  {
    LapsIsCeiling(|rows|, c);
    FromIsProduct(c, Laps(|rows|, c));
    CommittedPrefix(rows, c, Laps(|rows|, c));
  }

  /** With a chunk size that is not positive no lap binds anything. */
  lemma {:induction false} NegativeCommitsNothing<T>(rows: seq<T>, c: int, k: nat)
    requires c <= 0
    ensures Committed(rows, c, k) == []
  {
    if k > 0 {
      NegativeCommitsNothing(rows, c, k - 1);
    }
  }
}
