/** The repeat inside a text whose collapse removes most. */
module RepeatSpan {
  import opened Wrappers
  import opened WordPowers
  import opened RepeatUnit
  import opened TandemRepeats

  datatype Span = Span(start: nat, end: nat, motif: string, repeats: nat)

  /** At `start` a motif of `l` characters repeats more often than is tolerated and than is kept. */
  predicate Removable(text: string, start: nat, l: nat, detect: int, keep: int)
  {
    && 1 <= l <= MAX_UNIT && start + l <= |text|
    && Copies(text, start, l) > Max(0, detect) && Copies(text, start, l) > Max(1, keep)
  }

  /** How many characters a collapse takes out. */
  function Removed(text: string, start: nat, l: nat, keep: int): int
    requires l >= 1 && start + l <= |text|
  {
    Max(0, Copies(text, start, l) - Max(1, keep)) * l
  }

  /** The larger reduction, then the more repetitions, then the earlier, then the shorter motif. */
  predicate Beats(text: string, keep: int, a: nat, l: nat, b: nat, m: nat)
    requires l >= 1 && a + l <= |text| && m >= 1 && b + m <= |text|
  {
    var ra, rb := Removed(text, a, l, keep), Removed(text, b, m, keep);
    var ca, cb := Copies(text, a, l), Copies(text, b, m);
    ra > rb || (ra == rb && (ca > cb || (ca == cb && (a < b || (a == b && l < m)))))
  }

  /** No motif of at most `MAX_UNIT` characters repeats consecutively both more than `detect` and
      more than `keep` times anywhere in the text. */
  ghost predicate NoExcess(text: string, detect: int, keep: int)
  {
    forall start: nat, l: nat, k: nat :: 1 <= l <= MAX_UNIT && IsTandem(text, start, l, k) ==>
      k <= Max(0, detect) || k <= Max(1, keep)
  }

  lemma NoExcessIff(text: string, detect: int, keep: int)
    ensures NoExcess(text, detect, keep) <==> forall start: nat, l: nat :: !Removable(text, start, l, detect, keep)
  {
    if forall start: nat, l: nat :: !Removable(text, start, l, detect, keep) {
      forall start: nat, l: nat, k: nat | 1 <= l <= MAX_UNIT && IsTandem(text, start, l, k)
        ensures k <= Max(0, detect) || k <= Max(1, keep)
      {
        CopiesIsLargest(text, start, l, k);
        assert !Removable(text, start, l, detect, keep);
      }
    } else {
      var start: nat, l: nat :| Removable(text, start, l, detect, keep);
      CopiesIsLargest(text, start, l, Copies(text, start, l));
    }
  }

  /** `best` is what was found among the candidates before `(start, l)`. */
  ghost predicate BestSoFar(text: string, detect: int, keep: int, best: Option<Span>, start: nat, l: nat)
  {
    && (best.None? ==> forall b: nat, m: nat :: Earlier(b, m, start, l) ==> !Removable(text, b, m, detect, keep))
    && (best.Some? ==>
          && Describes(text, best.value) && Removable(text, best.value.start, |best.value.motif|, detect, keep)
          && forall b: nat, m: nat :: Earlier(b, m, start, l) && Removable(text, b, m, detect, keep) ==>
               Best(text, keep, best.value, b, m))
  }

  predicate Best(text: string, keep: int, best: Span, b: nat, m: nat)
    requires Describes(text, best) && m >= 1 && b + m <= |text|
  {
    (b == best.start && m == |best.motif|) || Beats(text, keep, best.start, |best.motif|, b, m)
  }

  predicate Earlier(b: nat, m: nat, start: nat, l: nat)
  {
    b < start || (b == start && m < l)
  }

  predicate Describes(text: string, span: Span)
  {
    && span.motif != [] && span.start + |span.motif| <= |text|
    && span.motif == text[span.start..span.start + |span.motif|]
    && span.repeats == Copies(text, span.start, |span.motif|)
    && span.end == span.start + span.repeats * |span.motif|
  }

  /** `best` is the candidate that beats all others. */
  ghost predicate Chosen(text: string, detect: int, keep: int, best: Span)
  {
    && Describes(text, best) && Removable(text, best.start, |best.motif|, detect, keep)
    && forall b: nat, m: nat :: Removable(text, b, m, detect, keep) ==> Best(text, keep, best, b, m)
  }

  /** There is only one such candidate. */
  lemma ChosenIsUnique(text: string, detect: int, keep: int, a: Span, b: Span)
    requires Chosen(text, detect, keep, a) && Chosen(text, detect, keep, b)
    ensures a == b
  {
    assert Best(text, keep, a, b.start, |b.motif|) && Best(text, keep, b, a.start, |a.motif|);
  }

  /** What is chosen takes out most; of several the one with most repeats, then the first, then the shortest. */
  lemma ChosenTakesMost(text: string, detect: int, keep: int, best: Span, b: nat, m: nat)
    requires Chosen(text, detect, keep, best) && Removable(text, b, m, detect, keep) && (b != best.start || m != |best.motif|)
    ensures var r, n, kept := best.repeats, Copies(text, b, m), Max(1, keep);
      && (r - kept) * |best.motif| >= (n - kept) * m
      && ((r - kept) * |best.motif| == (n - kept) * m ==>
            r > n || (r == n && (best.start < b || (best.start == b && |best.motif| < m))))
  {
    assert Best(text, keep, best, b, m);
  }

  /** Candidates too long for their place, or for any, are none. */
  lemma TooLong(text: string, detect: int, keep: int, start: nat, m: nat)
    requires start <= |text| && m > Min((|text| - start) / (Max(0, detect) + 1), MAX_UNIT)
    ensures !Removable(text, start, m, detect, keep)
  {
    if Removable(text, start, m, detect, keep) {
      FitsIff(|text| - start, m, Max(0, detect) + 1);
      ProductMonotone(Max(0, detect) + 1, Copies(text, start, m), m);
    }
  }

  lemma NextStart(text: string, detect: int, keep: int, best: Option<Span>, start: nat, l: nat)
    requires BestSoFar(text, detect, keep, best, start, l) && start <= |text|
    requires l > Min((|text| - start) / (Max(0, detect) + 1), MAX_UNIT)
    ensures BestSoFar(text, detect, keep, best, start + 1, 1)
  {
    forall b: nat, m: nat | Earlier(b, m, start + 1, 1) && Removable(text, b, m, detect, keep) ensures Earlier(b, m, start, l) {
      if b == start && m >= l { TooLong(text, detect, keep, start, m); }
    }
  }

  /** One more candidate. */
  lemma NextMotif(text: string, detect: int, keep: int, best: Option<Span>, best': Option<Span>, start: nat, l: nat)
    requires BestSoFar(text, detect, keep, best, start, l) && l >= 1 && start + l <= |text|
    requires Removable(text, start, l, detect, keep) ==>
               best' == (if best.None? || Beats(text, keep, start, l, best.value.start, |best.value.motif|)
                         then Some(Span(start, start + Copies(text, start, l) * l, text[start..start + l], Copies(text, start, l)))
                         else best)
    requires !Removable(text, start, l, detect, keep) ==> best' == best
    ensures BestSoFar(text, detect, keep, best', start, l + 1)
  {
    if Removable(text, start, l, detect, keep) {
      assert best'.Some? && Describes(text, best'.value);
      assert Removable(text, best'.value.start, |best'.value.motif|, detect, keep);
      forall b: nat, m: nat | Earlier(b, m, start, l + 1) && Removable(text, b, m, detect, keep)
        ensures Best(text, keep, best'.value, b, m)
      {
        assert Earlier(b, m, start, l) || (b == start && m == l);
        if best.Some? && Earlier(b, m, start, l) { assert Best(text, keep, best.value, b, m); }
      }
    }
  }

  method FindExactRepeatingTextSpan(text: string, detect: int, keep: int) returns (best: Option<Span>)
    ensures best.None? <==> NoExcess(text, detect, keep)
    ensures best.Some? ==> Chosen(text, detect, keep, best.value)
  {
    NoExcessIff(text, detect, keep);
    var minCount := Max(0, detect) + 1;
    var keepCount := Max(1, keep);
    best := None;
    if |text| < minCount {
      forall b: nat, m: nat ensures !Removable(text, b, m, detect, keep) {
        if Removable(text, b, m, detect, keep) { ProductMonotone(minCount, Copies(text, b, m), m); LongerProduct(m, minCount); }
      }
      return;
    }
    var start := 0;
    while start < |text|
      invariant start <= |text| && BestSoFar(text, detect, keep, best, start, 1)
    {
      var maxLen := Min((|text| - start) / minCount, MAX_UNIT);
      var l := 1;
      while l <= maxLen
        invariant 1 <= l && start < |text| && BestSoFar(text, detect, keep, best, start, l)
        decreases maxLen - l
      {
        FitsIff(|text| - start, l, minCount);
        LongerProduct(minCount, l);
        assert l * minCount == minCount * l;
        ghost var before := best;
        var repeats, cursor := CountCopies(text, start, l);
        var removed := Max(0, repeats - keepCount) * l;
        if repeats >= minCount && removed > 0 {
          assert repeats > keepCount;
          if best.None? || Beats(text, keep, start, l, best.value.start, |best.value.motif|) {
            best := Some(Span(start, cursor, text[start..start + l], repeats));
          }
        } else {
          if repeats > keepCount { LongerProduct(repeats - keepCount, l); }
        }
        NextMotif(text, detect, keep, before, best, start, l);
        l := l + 1;
      }
      NextStart(text, detect, keep, best, start, l);
      start := start + 1;
    }
    forall b: nat, m: nat | Removable(text, b, m, detect, keep) ensures Earlier(b, m, |text|, 1) {
    }
  }

  /** The motif found is a primitive word: a motif that is itself a repeat would remove less than
      its own root does. */
  lemma FoundMotifIsPrimitive(text: string, detect: int, keep: int, best: Span)
    requires Chosen(text, detect, keep, best)
    ensures Primitive(best.motif)
  {
    var z := Root(best.motif);
    var j := RootPower(best.motif);
    RootIsPrimitive(best.motif);
    if j == 1 {
      assert Power(z, 1) == z + Power(z, 0) == z;
    } else {
      ShorterRemovesMore(text, detect, keep, best, z, j);
    }
  }

  lemma ShorterRemovesMore(text: string, detect: int, keep: int, best: Span, z: string, j: nat)
    requires Describes(text, best) && Removable(text, best.start, |best.motif|, detect, keep)
    requires z != [] && j >= 2 && best.motif == Power(z, j)
    ensures Removable(text, best.start, |z|, detect, keep) && |z| < |best.motif|
    ensures Beats(text, keep, best.start, |z|, best.start, |best.motif|)
  {
    var a, l, r := best.start, |best.motif|, best.repeats;
    CopiesIsLargest(text, a, l, r);
    TandemOfTandem(text, a, l, r, z, j);
    ProductMonotone(2, j, r);
    CopiesIsLargest(text, a, |z|, j * r);
    MoreRemoved(Copies(text, a, |z|), r, j, Max(1, keep), |z|);
  }

  /** `r` copies of a word that is itself `j` copies of `z`. */
  lemma TandemOfTandem(text: string, a: nat, l: nat, r: nat, z: string, j: nat)
    requires IsTandem(text, a, l, r) && text[a..a + l] == Power(z, j) && j >= 2 && z != []
    ensures IsTandem(text, a, |z|, j * r) && text[a..a + |z|] == z && l == j * |z| && |z| < l
  {
    PowerLength(z, j);
    ProductMonotone(2, j, |z|);
    assert Power(z, j) == z + Power(z, j - 1);
    assert text[a..a + |z|] == z by { assert text[a..a + l][..|z|] == text[a..a + |z|]; }
    PowerPower(z, j, r);
    PowerLength(z, j * r);
    PowerLength(Power(z, j), r);
    LongerProduct(r, j);
    assert r * j == j * r;
  }

  lemma MoreRemoved(copies: nat, r: nat, j: nat, kept: nat, n: nat)
    requires copies >= j * r && r > kept >= 1 && j >= 2 && n >= 1
    ensures (r - kept) * (j * n) < (copies - kept) * n && copies > kept
  {
    ProductMonotone(2, j, kept);
    assert j * (r - kept) == j * r - j * kept;
    ProductMonotone(j * (r - kept) + 1, copies - kept, n);
    assert (j * (r - kept) + 1) * n == (r - kept) * (j * n) + n;
  }
}
