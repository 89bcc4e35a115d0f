/** Weighted counting over a sequence of threads.

    A state machine keeps one local state per thread in a sequence. Statements such as "the number of
    consumers that hold a permit" are sums of a weight over that sequence, and a step of one thread
    changes such a sum by the difference of two weights. */
module Tally {

  datatype Option<+T> = None | Some(value: T)

  /** A number as its own weight. */
  function Each(n: nat): int { n }

  /** The sum of weight `w` over all elements of `s`. */
  function Sum<T>(s: seq<T>, w: T -> int): int {
    if s == [] then 0 else Sum(s[..|s| - 1], w) + w(s[|s| - 1])
  }

  /** Replacing one element changes the sum by the difference of the two weights. */
  lemma {:induction false} SumUpdate<T>(s: seq<T>, w: T -> int, i: nat, x: T)
    requires i < |s|
    ensures Sum(s[i := x], w) == Sum(s, w) - w(s[i]) + w(x)
  {
    var m := |s| - 1;
    if i < m {
      SumUpdate(s[..m], w, i, x);
      assert s[i := x][..m] == s[..m][i := x];
    } else {
      assert s[i := x][..m] == s[..m];
    }
  }

  /** Pointwise order of weights carries over to the sums. */
  lemma {:induction false} SumMonotone<T>(s: seq<T>, v: T -> int, w: T -> int)
    requires forall i | 0 <= i < |s| :: v(s[i]) <= w(s[i])
    ensures Sum(s, v) <= Sum(s, w)
  {
    if s != [] {
      var r := s[..|s| - 1];
      forall i | 0 <= i < |r| ensures v(r[i]) <= w(r[i]) {
        assert r[i] == s[i];
      }
      SumMonotone(r, v, w);
    }
  }

  /** A sum of non-negative weights is at least each of its terms. */
  lemma {:induction false} SumAtLeast<T>(s: seq<T>, w: T -> int, k: nat)
    requires k < |s|
    requires forall i | 0 <= i < |s| :: 0 <= w(s[i])
    ensures w(s[k]) <= Sum(s, w)
  {
    var r := s[..|s| - 1];
    forall i | 0 <= i < |r| ensures 0 <= w(r[i]) {
      assert r[i] == s[i];
    }
    if k < |r| {
      SumAtLeast(r, w, k);
    } else {
      SumConstant(r, _ => 0, 0);
      SumMonotone(r, _ => 0, w);
    }
  }

  /** When every term is `c`, the sum is `c` times the length. */
  lemma {:induction false} SumConstant<T>(s: seq<T>, w: T -> int, c: int)
    requires forall i | 0 <= i < |s| :: w(s[i]) == c
    ensures Sum(s, w) == c * |s|
  {
    if s != [] {
      var r := s[..|s| - 1];
      forall i | 0 <= i < |r| ensures w(r[i]) == c {
        assert r[i] == s[i];
      }
      SumConstant(r, w, c);
    }
  }

  lemma {:induction false} SumNonNegative<T>(s: seq<T>, w: T -> int)
    requires forall i | 0 <= i < |s| :: 0 <= w(s[i])
    ensures 0 <= Sum(s, w)
  {
    if s != [] {
      SumAtLeast(s, w, 0);
    }
  }

  /** A positive sum has a positive term. */
  lemma {:induction false} SumWitness<T>(s: seq<T>, w: T -> int) returns (k: nat)
    requires 0 < Sum(s, w)
    ensures k < |s| && 0 < w(s[k])
  {
    var m := |s| - 1;
    if 0 < w(s[m]) {
      k := m;
    } else {
      k := SumWitness(s[..m], w);
    }
  }

  /** If every term is at most `c` and the sum is `c` times the length, every term is `c`. */
  lemma {:induction false} SumTight<T>(s: seq<T>, w: T -> int, c: int)
    requires forall i | 0 <= i < |s| :: w(s[i]) <= c
    ensures Sum(s, w) <= c * |s|
    ensures Sum(s, w) == c * |s| ==> forall i | 0 <= i < |s| :: w(s[i]) == c
  {
    if s != [] {
      var r := s[..|s| - 1];
      forall i | 0 <= i < |r| ensures w(r[i]) <= c {
        assert r[i] == s[i];
      }
      SumTight(r, w, c);
      assert c * |s| == c * |r| + c;
      assert forall i | 0 <= i < |r| :: s[i] == r[i];
    }
  }

  /** The same where element `t` is about to become `x`. */
  lemma SumTightElsewhere<T>(s: seq<T>, w: T -> int, t: nat, x: T, c: int)
    requires t < |s| && w(x) <= c && forall i | 0 <= i < |s| && i != t :: w(s[i]) <= c
    requires Sum(s, w) - w(s[t]) + w(x) == c * |s|
    ensures forall i | 0 <= i < |s| && i != t :: w(s[i]) == c
  {
    var next := s[t := x];
    SumUpdate(s, w, t, x);
    SumTight(next, w, c);
    assert forall i | 0 <= i < |s| && i != t :: s[i] == next[i];
  }

  /** If the sum is less than `c` times the length, some term is less than `c`. */
  lemma {:induction false} SumBelow<T>(s: seq<T>, w: T -> int, c: int) returns (k: nat)
    requires Sum(s, w) < c * |s|
    ensures k < |s| && w(s[k]) < c
  {
    var m := |s| - 1;
    assert c * |s| == c * m + c;
    if w(s[m]) < c {
      k := m;
    } else {
      k := SumBelow(s[..m], w, c);
    }
  }

  lemma OneMore(k: int, n: int)
    ensures (k + 1) * n == k * n + n
  {}

  lemma {:induction false} SumLower<T>(s: seq<T>, w: T -> int, c: int)
    requires forall i | 0 <= i < |s| :: c <= w(s[i])
    ensures c * |s| <= Sum(s, w)
  {
    if s != [] {
      var r := s[..|s| - 1];
      forall i | 0 <= i < |r| ensures c <= w(r[i]) {
        assert r[i] == s[i];
      }
      SumLower(r, w, c);
      assert c * |s| == c * |r| + c;
    }
  }

  // ----- 64-bit counters -----

  const MODULUS: nat := 0x1_0000_0000_0000_0000

  lemma Wraps(a: int, k: int)
    ensures (a - k * MODULUS) % MODULUS == a % MODULUS
  {
    var q := a / MODULUS;
    assert a == q * MODULUS + a % MODULUS;
    assert a - k * MODULUS == (q - k) * MODULUS + a % MODULUS;
  }

  lemma Carry(x: int, c: nat)
    ensures (x % MODULUS + c) % MODULUS == (x + c) % MODULUS
  {
    var j := x / MODULUS;
    assert x % MODULUS == x - j * MODULUS;
    Wraps(x + c, j);
  }
}
