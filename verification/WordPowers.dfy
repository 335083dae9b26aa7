/** Powers of words, and the theorem that equal powers share a root. */
module WordPowers {
  function Power<T>(u: seq<T>, k: nat): seq<T>
  {
    if k == 0 then [] else u + Power(u, k - 1)
  }

  /** A word that is a power of no word but itself. */
  ghost predicate Primitive<T(!new)>(u: seq<T>)
  {
    u != [] && forall v: seq<T>, k: nat :: Power(v, k) == u ==> k == 1
  }

  lemma {:induction false} PowerLength<T>(u: seq<T>, k: nat)
    ensures |Power(u, k)| == k * |u|
  {
    if k > 0 {
      PowerLength(u, k - 1);
      assert k * |u| == |u| + (k - 1) * |u|;
    }
  }

  lemma {:induction false} PowerSnoc<T>(u: seq<T>, k: nat)
    ensures u + Power(u, k) == Power(u, k) + u
  {
    if k > 0 {
      PowerSnoc(u, k - 1);
      assert u + Power(u, k) == u + (Power(u, k - 1) + u) == (u + Power(u, k - 1)) + u;
    }
  }

  lemma {:induction false} PowerAdd<T>(u: seq<T>, j: nat, k: nat)
    ensures Power(u, j + k) == Power(u, j) + Power(u, k)
  {
    if j == 0 {
      assert Power(u, 0) + Power(u, k) == Power(u, k);
    } else {
      PowerAdd(u, j - 1, k);
      assert u + (Power(u, j - 1) + Power(u, k)) == (u + Power(u, j - 1)) + Power(u, k);
    }
  }

  lemma {:induction false} PowerPower<T>(u: seq<T>, j: nat, k: nat)
    ensures Power(Power(u, j), k) == Power(u, j * k)
  {
    if k == 0 {
      assert j * k == 0;
    } else {
      PowerPower(u, j, k - 1);
      assert j * k == j + j * (k - 1);
      PowerAdd(u, j, j * (k - 1));
    }
  }

  // ----- rotations -----

  function Wrap(x: nat, n: nat): nat
    requires x < 2 * n
  {
    if x >= n then x - n else x
  }

  /** Turning the word by `d` gives the same word. */
  predicate Turns<T(==)>(w: seq<T>, d: nat)
  {
    d <= |w| && forall i: nat :: i < |w| ==> Same(w, i, d)
  }

  predicate Same<T(==)>(w: seq<T>, i: nat, d: nat)
    requires i < |w| && d <= |w|
  {
    w[i] == w[Wrap(i + d, |w|)]
  }

  lemma PowerTurns<T>(u: seq<T>, k: nat)
    requires k >= 1 && u != []
    ensures Turns(Power(u, k), |u|)
  {
    var w, rest := Power(u, k), Power(u, k - 1);
    PowerSnoc(u, k - 1);
    assert w == u + rest == rest + u;
    forall i: nat | i < |w| ensures Same(w, i, |u|) {
      if i < |rest| {
        assert (rest + u)[i] == rest[i] == (u + rest)[i + |u|];
      } else {
        assert (rest + u)[i] == u[i - |rest|] == (u + rest)[i - |rest|];
      }
    }
  }

  lemma TurnsBack<T>(w: seq<T>, a: nat, b: nat)
    requires Turns(w, a) && Turns(w, b) && a <= b
    ensures Turns(w, b - a)
  {
    var d := b - a;
    forall i: nat | i < |w| ensures Same(w, i, d) {
      assert Same(w, i, b);
      assert Same(w, Wrap(i + d, |w|), a);
    }
  }

  /** The smallest turn, from `d` on. */
  function TurnFrom<T(==)>(w: seq<T>, d: nat): (r: nat)
    requires 1 <= d <= |w|
    ensures d <= r <= |w| && Turns(w, r)
    ensures forall e: nat :: d <= e < r ==> !Turns(w, e)
    decreases |w| - d
  {
    if d == |w| || Turns(w, d) then d else TurnFrom(w, d + 1)
  }

  /** The smallest turn divides every other. */
  lemma {:induction false} SmallestTurnDivides<T>(w: seq<T>, b: nat) returns (q: nat)
    requires w != [] && Turns(w, b)
    ensures b == q * TurnFrom(w, 1)
    decreases b
  {
    var a := TurnFrom(w, 1);
    if b >= a {
      TurnsBack(w, a, b);
      var p := SmallestTurnDivides(w, b - a);
      q := p + 1;
      assert q * a == p * a + a;
    } else {
      q := 0;
    }
  }

  /** A word that agrees with itself moved by `d` is a power of its first `d` letters. */
  lemma {:induction false} ShiftPower<T>(w: seq<T>, d: nat, k: nat)
    requires d >= 1 && |w| == k * d && forall i: nat :: i + d < |w| ==> w[i] == w[i + d]
    ensures k >= 1 ==> d <= |w| && w == Power(w[..d], k)
  {
    if k == 1 {
      assert w[..d] == w;
      assert Power(w, 1) == w + Power(w, 0) == w;
    } else if k > 1 {
      assert |w| == (k - 1) * d + d;
      assert (k - 1) * d >= d by { assert (k - 1) * d == (k - 2) * d + d; }
      var rest := w[d..];
      forall i: nat | i + d < |rest| ensures rest[i] == rest[i + d] { assert rest[i + d] == w[i + d + d]; }
      ShiftPower(rest, d, k - 1);
      assert rest[..d] == w[..d] by {
        forall i | 0 <= i < d ensures rest[..d][i] == w[..d][i] { assert w[i] == w[i + d]; }
      }
      assert w == w[..d] + rest;
    }
  }

  // ----- roots -----

  function Root<T(==)>(w: seq<T>): (u: seq<T>)
    requires w != []
    ensures 1 <= |u| <= |w|
  {
    w[..TurnFrom(w, 1)]
  }

  /** Every word is a power of its root. */
  lemma RootPower<T>(w: seq<T>) returns (k: nat)
    requires w != []
    ensures k >= 1 && w == Power(Root(w), k)
  {
    k := SmallestTurnDivides(w, |w|);
    forall i: nat | i + TurnFrom(w, 1) < |w| ensures w[i] == w[i + TurnFrom(w, 1)] { assert Same(w, i, TurnFrom(w, 1)); }
    ShiftPower(w, TurnFrom(w, 1), k);
  }

  /** Every unit of a word is a power of its root. */
  lemma UnitsArePowersOfRoot<T>(w: seq<T>, u: seq<T>, k: nat) returns (j: nat)
    requires u != [] && k >= 1 && w == Power(u, k)
    ensures w != [] && j >= 1 && u == Power(Root(w), j)
  {
    assert Power(u, k) == u + Power(u, k - 1);
    assert u == w[..|u|];
    PowerTurns(u, k);
    j := SmallestTurnDivides(w, |u|);
    var d := TurnFrom(w, 1);
    TurnsShift(w, u, d);
    ShiftPower(u, d, j);
    assert u[..d] == w[..d];
  }

  /** A beginning of a word that turns agrees with itself moved by the turn. */
  lemma TurnsShift<T>(w: seq<T>, u: seq<T>, d: nat)
    requires Turns(w, d) && |u| <= |w| && u == w[..|u|]
    ensures forall i: nat :: i + d < |u| ==> u[i] == u[i + d]
  {
    forall i: nat | i + d < |u| ensures u[i] == u[i + d] { assert Same(w, i, d); }
  }

  lemma RootIsPrimitive<T(!new)>(w: seq<T>)
    requires w != []
    ensures Primitive(Root(w))
  {
    var m := RootPower(w);
    var u := Root(w);
    forall v: seq<T>, k: nat | Power(v, k) == u ensures k == 1 {
      PowerLength(v, k);
      assert v != [] && k >= 1;
      PowerPower(v, k, m);
      var j := UnitsArePowersOfRoot(w, v, k * m);
      PowerLength(u, j);
      LongerProduct(j, |u|);
      assert k * |v| == |v| + (k - 1) * |v|;
      assert (k - 1) * |v| >= k - 1 by { LongerProduct(|v|, k - 1); }
    }
  }

  lemma LongerProduct(j: nat, n: nat)
    requires j >= 1
    ensures j * n >= n
  {
    assert j * n == (j - 1) * n + n;
  }

  lemma ProductMonotone(j: nat, k: nat, n: nat)
    requires j <= k
    ensures j * n <= k * n
  {
    assert k * n == j * n + (k - j) * n;
  }

  /** The primitive root of a word is unique. */
  lemma RootIsUnique<T(!new)>(w: seq<T>, u: seq<T>, k: nat)
    requires Primitive(u) && k >= 1 && w == Power(u, k)
    ensures w != [] && u == Root(w)
  {
    var j := UnitsArePowersOfRoot(w, u, k);
    assert j == 1;
    assert Power(Root(w), 1) == Root(w) + Power(Root(w), 0) == Root(w);
  }

  lemma RootOfPower<T(!new)>(u: seq<T>, j: nat)
    requires u != [] && j >= 1
    ensures Power(u, j) != [] && Root(Power(u, j)) == Root(u)
  {
    var m := RootPower(u);
    RootIsPrimitive(u);
    PowerPower(Root(u), m, j);
    LongerProduct(m, j);
    RootIsUnique(Power(u, j), Root(u), m * j);
  }

  /** Words with a power in common have the same root. */
  lemma EqualPowersShareRoot<T(!new)>(u: seq<T>, j: nat, v: seq<T>, k: nat)
    requires u != [] && v != [] && j >= 1 && k >= 1 && Power(u, j) == Power(v, k)
    ensures Root(u) == Root(v) == Root(Power(u, j))
  {
    RootOfPower(u, j);
    RootOfPower(v, k);
  }
}
