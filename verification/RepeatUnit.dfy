/** A word that is one unit repeated is cut down to fewer repeats of it. */
module RepeatUnit {
  import opened WordPowers

  /** Units longer than this are never looked for. */
  const MAX_UNIT: nat := 100

  function Max(a: int, b: int): int
  {
    if a < b then b else a
  }

  function Min(a: int, b: int): int
  {
    if a < b then a else b
  }

  lemma DivExact(k: nat, l: nat)
    requires l >= 1
    ensures (k * l) / l == k && (k * l) % l == 0
  {
    var q, r := (k * l) / l, (k * l) % l;
    assert k * l == q * l + r;
    assert (k - q) * l == r;
    if k > q { LongerProduct(k - q, l); }
    if k < q { assert (q - k) * l == -r; LongerProduct(q - k, l); }
  }

  /** How often the root of a word is repeated in it. */
  function Exponent<T(==)>(w: seq<T>): nat
    requires w != []
  {
    |w| / |Root(w)|
  }

  /** What the collapse does, told by the root of the word: a word whose root is short enough and
      repeats more than `detect` times keeps `keep` repeats of the root (at least one). */
  function Collapsed<T(==)>(w: seq<T>, detect: int, keep: int): (seq<T>, bool)
  {
    if |w| <= 1 || |Root(w)| > MAX_UNIT || Exponent(w) <= detect then (w, false)
    else (Power(Root(w), Max(1, keep)), true)
  }

  lemma RootExponent<T>(w: seq<T>)
    requires w != []
    ensures Exponent(w) >= 1 && w == Power(Root(w), Exponent(w)) && |w| == Exponent(w) * |Root(w)|
    ensures |w| % |Root(w)| == 0
  {
    var k := RootPower(w);
    PowerLength(Root(w), k);
    DivExact(k, |Root(w)|);
  }

  /** The source's test of one unit length. */
  predicate IsUnit<T(==)>(w: seq<T>, l: nat)
  {
    1 <= l <= |w| && |w| % l == 0 && Power(w[..l], |w| / l) == w
  }

  lemma RootIsUnit<T>(w: seq<T>)
    requires w != []
    ensures IsUnit(w, |Root(w)|)
  {
    RootExponent(w);
  }

  lemma UnitIsNoShorterThanRoot<T>(w: seq<T>, l: nat)
    requires IsUnit(w, l)
    ensures |Root(w)| <= l
  {
    var j := UnitsArePowersOfRoot(w, w[..l], |w| / l);
    PowerLength(Root(w), j);
    LongerProduct(j, |Root(w)|);
  }

  /** `l` letters fit `m` times into `n` exactly when `l` is at most the `m`-th part of `n`. */
  lemma FitsIff(n: nat, l: nat, m: nat)
    requires l >= 1 && m >= 1
    ensures l <= n / m <==> l * m <= n
  {
    assert n == (n / m) * m + n % m;
    if l <= n / m {
      assert (n / m - l) * m >= 0;
    } else {
      assert (l - n / m - 1) * m >= 0;
    }
  }

  lemma QuotientBound(n: nat, l: nat, m: nat)
    requires l >= 1 && m >= 1
    ensures l <= n / m <==> m <= n / l
  {
    FitsIff(n, l, m);
    FitsIff(n, m, l);
    assert l * m == m * l;
  }

  /** The longest unit the source looks at. */
  function Reach(n: nat, detect: int): nat
  {
    Min(n / (Max(0, detect) + 1), MAX_UNIT)
  }

  lemma RootWithinReach<T>(w: seq<T>, detect: int)
    requires w != []
    ensures |Root(w)| <= Reach(|w|, detect) <==> |Root(w)| <= MAX_UNIT && Exponent(w) > detect
  {
    RootExponent(w);
    QuotientBound(|w|, |Root(w)|, Max(0, detect) + 1);
  }

  /** `l` letters, tried from one on, are the first unit of the word that repeats more than `detect` times. */
  predicate IsFirstUnit<T(==)>(w: seq<T>, detect: int, l: nat)
  {
    IsUnit(w, l) && |w| / l > detect && forall m: nat :: m < l && IsUnit(w, m) ==> |w| / m <= detect
  }

  /** The word collapses exactly when some unit of at most `MAX_UNIT` letters repeats more than `detect` times
      in it, and then to as many of the shortest such unit as are kept. */
  lemma CollapsedIff<T(!new)>(w: seq<T>, detect: int, keep: int)
    ensures var (out, changed) := Collapsed(w, detect, keep);
      && (changed <==> |w| > 1 && exists l: nat :: l <= MAX_UNIT && IsUnit(w, l) && |w| / l > detect)
      && (changed ==> exists l: nat :: l <= MAX_UNIT && IsFirstUnit(w, detect, l) && out == Power(w[..l], Max(1, keep)))
      && (!changed ==> out == w)
  {
    if |w| > 1 {
      RootIsUnit(w);
      forall l: nat | IsUnit(w, l) ensures |Root(w)| <= l && |w| / l <= Exponent(w) {
        UnitIsNoShorterThanRoot(w, l);
        QuotientShrinks(|w|, |Root(w)|, l);
      }
      assert w[..|Root(w)|] == Root(w);
    }
  }

  lemma QuotientShrinks(n: nat, a: nat, b: nat)
    requires 1 <= a <= b
    ensures n / b <= n / a
  {
    var q := n / b;
    assert q * b <= n;
    if q > 0 {
      ProductMonotone(a, b, q);
      FitsIff(n, q, a);
    }
  }

  method CollapseExactRepeatingUnit<T(==)>(w: seq<T>, detect: int, keep: int) returns (out: seq<T>, changed: bool)
    ensures (out, changed) == Collapsed(w, detect, keep)
  {
    var n := |w|;
    if n <= 1 { return w, false; }
    RootWithinReach(w, detect);
    RootIsUnit(w);
    var minCount := Max(0, detect) + 1;
    var maxUnit := Min(n / minCount, MAX_UNIT);
    assert maxUnit == Reach(n, detect);
    var l := 1;
    while l <= maxUnit
      invariant 1 <= l && forall m: nat :: 1 <= m < l ==> !IsUnit(w, m)
      decreases maxUnit - l
    {
      var repeat := n / l;
      QuotientBound(n, l, minCount);
      if n % l == 0 && repeat > detect {
        var unit := w[..l];
        if Power(unit, repeat) == w {
          assert IsUnit(w, l);
          UnitIsNoShorterThanRoot(w, l);
          return Power(unit, Max(1, keep)), true;
        }
      }
      l := l + 1;
    }
    return w, false;
  }

  /** Collapsing twice gives the same word as collapsing once, whatever the two thresholds; the
      second time reports a change exactly when more repeats are kept than go unnoticed. */
  lemma CollapseIsIdempotent<T(!new)>(w: seq<T>, detect: int, keep: int)
    ensures var (once, changed) := Collapsed(w, detect, keep);
            var (twice, again) := Collapsed(once, detect, keep);
            twice == once && (again <==> changed && |once| > 1 && Max(1, keep) > detect)
  {
    var (once, changed) := Collapsed(w, detect, keep);
    if changed { PowersOfRoot(w, Max(1, keep)); }
  }

  /** A power of a root has that root and that exponent. */
  lemma PowersOfRoot<T(!new)>(w: seq<T>, k: nat)
    requires w != [] && k >= 1
    ensures var p := Power(Root(w), k); p != [] && Root(p) == Root(w) && Exponent(p) == k && |p| == k * |Root(w)|
  {
    RootIsPrimitive(w);
    RootIsUnique(Power(Root(w), k), Root(w), k);
    PowerLength(Root(w), k);
    DivExact(k, |Root(w)|);
  }

  /** What is kept has the root of the word it was cut from, and is never longer when no more is
      kept than would be noticed. */
  lemma CollapseKeepsRoot<T(!new)>(w: seq<T>, detect: int, keep: int)
    requires w != []
    ensures var once := Collapsed(w, detect, keep).0;
            once != [] && Root(once) == Root(w) && (Max(1, keep) <= Max(0, detect) + 1 ==> |once| <= |w|)
  {
    var (once, changed) := Collapsed(w, detect, keep);
    if changed {
      PowersOfRoot(w, Max(1, keep));
      RootExponent(w);
      if Max(1, keep) <= Exponent(w) { ProductMonotone(Max(1, keep), Exponent(w), |Root(w)|); }
    }
  }
}
