/** Detecting a group of symbols repeated over and over, in symbols and weights that are given. */
module GroupCycle {
  import opened Wrappers
  import opened WordPowers
  import opened RepeatUnit
  import opened TandemRepeats

  datatype Symbol = Symbol(text: string, units: real)

  /** What is reported: repeats, units of the motif and of the whole stretch, and the motif. */
  datatype Cycle = Cycle(count: nat, motifUnits: real, spanUnits: real, motif: seq<string>)

  /** No symbol is empty, and none has a negative weight. */
  predicate Sound(symbols: seq<Symbol>)
  {
    forall i :: 0 <= i < |symbols| ==> symbols[i].text != "" && symbols[i].units >= 0.0
  }

  function Texts(symbols: seq<Symbol>): (texts: seq<string>)
    ensures |texts| == |symbols| && forall i :: 0 <= i < |symbols| ==> texts[i] == symbols[i].text
  {
    seq(|symbols|, i requires 0 <= i < |symbols| => symbols[i].text)
  }

  function Units(symbols: seq<Symbol>, a: nat, b: nat): real
    requires a <= b <= |symbols|
  {
    if a == b then 0.0 else Units(symbols, a, b - 1) + symbols[b - 1].units
  }

  function Chars(symbols: seq<Symbol>, a: nat, b: nat): nat
    requires a <= b <= |symbols|
  {
    if a == b then 0 else Chars(symbols, a, b - 1) + |symbols[b - 1].text|
  }

  lemma {:induction false} Sums(symbols: seq<Symbol>, a: nat, b: nat, d: nat)
    requires a <= b <= d <= |symbols|
    ensures Units(symbols, a, d) == Units(symbols, a, b) + Units(symbols, b, d)
    ensures Chars(symbols, a, d) == Chars(symbols, a, b) + Chars(symbols, b, d)
    ensures Sound(symbols) ==> Units(symbols, b, d) >= 0.0 && Chars(symbols, b, d) >= d - b
    decreases d
  {
    if b < d { Sums(symbols, a, b, d - 1); }
  }

  /** The units and characters of symbols are those of the first and of the others. */
  lemma SumOfSymbols(symbols: seq<Symbol>, a: nat, b: nat)
    requires a < b <= |symbols|
    ensures Units(symbols, a, b) == symbols[a].units + Units(symbols, a + 1, b) && Units(symbols, b, b) == 0.0
    ensures Chars(symbols, a, b) == |symbols[a].text| + Chars(symbols, a + 1, b) && Chars(symbols, b, b) == 0
  {
    Sums(symbols, a, a + 1, b);
    assert Units(symbols, a, a + 1) == Units(symbols, a, a) + symbols[a].units;
  }

  /** From `start`, `k` copies of a motif of `l` symbols meet the thresholds. */
  predicate IsCycle(symbols: seq<Symbol>, required: nat, requiredUnits: real, start: nat, l: nat, k: nat)
  {
    && l >= 1 && IsTandem(Texts(symbols), start, l, k) && k >= required
    && Chars(symbols, start, start + l) <= MAX_UNIT
    && Units(symbols, start, start + k * l) >= requiredUnits
  }

  predicate Earlier(b: nat, m: nat, start: nat, l: nat)
  {
    m < l || (m == l && b < start)
  }

  ghost predicate NoneBefore(symbols: seq<Symbol>, required: nat, requiredUnits: real, start: nat, l: nat)
  {
    forall b: nat, m: nat, k: nat :: Earlier(b, m, start, l) ==> !IsCycle(symbols, required, requiredUnits, b, m, k)
  }

  /** If any number of repeats from `start` will do, the largest will. */
  lemma LargestWillDo(symbols: seq<Symbol>, required: nat, requiredUnits: real, start: nat, l: nat, k: nat)
    requires Sound(symbols) && IsCycle(symbols, required, requiredUnits, start, l, k)
    ensures IsCycle(symbols, required, requiredUnits, start, l, Copies(Texts(symbols), start, l))
  {
    var texts := Texts(symbols);
    CopiesIsLargest(texts, start, l, k);
    var n := Copies(texts, start, l);
    CopiesIsLargest(texts, start, l, n);
    ProductMonotone(k, n, l);
    Sums(symbols, start, start + k * l, start + n * l);
  }

  /** With its largest number of repeats it is no cycle: then it is none with any. */
  lemma NotHere(symbols: seq<Symbol>, required: nat, requiredUnits: real, start: nat, l: nat)
    requires Sound(symbols) && NoneBefore(symbols, required, requiredUnits, start, l) && l >= 1 && start + l <= |symbols|
    requires !IsCycle(symbols, required, requiredUnits, start, l, Copies(Texts(symbols), start, l))
    ensures NoneBefore(symbols, required, requiredUnits, start + 1, l)
  {
    forall b: nat, m: nat, k: nat | Earlier(b, m, start + 1, l) ensures !IsCycle(symbols, required, requiredUnits, b, m, k) {
      assert Earlier(b, m, start, l) || (b == start && m == l);
      if b == start && m == l && IsCycle(symbols, required, requiredUnits, start, l, k) {
        LargestWillDo(symbols, required, requiredUnits, start, l, k);
      }
    }
  }

  /** Past the last start there is no room for `required` motifs. */
  lemma NoRoom(symbols: seq<Symbol>, required: nat, requiredUnits: real, start: nat, l: nat, k: nat)
    requires start + required * l > |symbols|
    ensures !IsCycle(symbols, required, requiredUnits, start, l, k)
  {
    if IsCycle(symbols, required, requiredUnits, start, l, k) { ProductMonotone(required, k, l); }
  }

  lemma NextLength(symbols: seq<Symbol>, required: nat, requiredUnits: real, start: nat, l: nat)
    requires NoneBefore(symbols, required, requiredUnits, start, l) && start + required * l > |symbols|
    ensures NoneBefore(symbols, required, requiredUnits, 0, l + 1)
  {
    forall b: nat, m: nat, k: nat | Earlier(b, m, 0, l + 1) ensures !IsCycle(symbols, required, requiredUnits, b, m, k) {
      if !Earlier(b, m, start, l) {
        assert m == l && b >= start;
        NoRoom(symbols, required, requiredUnits, b, l, k);
      }
    }
  }

  /** Longer motifs than the source tries do not fit or have too many characters. */
  lemma NoLonger(symbols: seq<Symbol>, required: nat, requiredUnits: real, l: nat)
    requires Sound(symbols) && required >= 1 && NoneBefore(symbols, required, requiredUnits, 0, l)
    requires l > Min(|symbols| / required, MAX_UNIT)
    ensures forall b: nat, m: nat, k: nat :: !IsCycle(symbols, required, requiredUnits, b, m, k)
  {
    forall b: nat, m: nat, k: nat ensures !IsCycle(symbols, required, requiredUnits, b, m, k) {
      if m < l {
        assert Earlier(b, m, 0, l);
      } else if IsCycle(symbols, required, requiredUnits, b, m, k) {
        Sums(symbols, b, b, b + m);
        FitsIff(|symbols|, m, required);
        assert m * required == required * m;
        NoRoom(symbols, required, requiredUnits, b, m, k);
      }
    }
  }

  /** `cycle` is the one with the shortest motif and, among those, the earliest: the one at `start`. */
  ghost predicate IsFirst(symbols: seq<Symbol>, required: nat, requiredUnits: real, cycle: Cycle, start: nat)
  {
    var l := |cycle.motif|;
    && IsCycle(symbols, required, requiredUnits, start, l, cycle.count)
    && NoneBefore(symbols, required, requiredUnits, start, l)
    && cycle.motif == Texts(symbols)[start..start + l]
    && cycle.count == Copies(Texts(symbols), start, l)
    && cycle.motifUnits == Units(symbols, start, start + l)
    && cycle.spanUnits == Units(symbols, start, start + cycle.count * l)
  }

  ghost predicate NoCycle(symbols: seq<Symbol>, required: nat, requiredUnits: real)
  {
    forall b: nat, m: nat, k: nat :: !IsCycle(symbols, required, requiredUnits, b, m, k)
  }

  /** What is reported meets both thresholds: its motif, and its repeats, are there. */
  lemma FirstMeets(symbols: seq<Symbol>, required: nat, requiredUnits: real, cycle: Cycle, start: nat)
    requires IsFirst(symbols, required, requiredUnits, cycle, start)
    ensures cycle.motif != [] && cycle.count >= required && cycle.spanUnits >= requiredUnits
    ensures IsTandem(Texts(symbols), start, |cycle.motif|, cycle.count) && start + |cycle.motif| <= |symbols|
    ensures Chars(symbols, start, start + |cycle.motif|) <= MAX_UNIT
    ensures !IsTandem(Texts(symbols), start, |cycle.motif|, cycle.count + 1)
  {
    if IsTandem(Texts(symbols), start, |cycle.motif|, cycle.count + 1) {
      CopiesIsLargest(Texts(symbols), start, |cycle.motif|, cycle.count + 1);
    }
  }

  /** Without a cycle every short motif that repeats often enough weighs too little. */
  lemma NoCycleMeans(symbols: seq<Symbol>, required: nat, requiredUnits: real, start: nat, l: nat, k: nat)
    requires NoCycle(symbols, required, requiredUnits) && l >= 1 && k >= required && IsTandem(Texts(symbols), start, l, k)
    ensures start + l <= |symbols| && start + k * l <= |symbols|
    ensures Chars(symbols, start, start + l) <= MAX_UNIT ==> Units(symbols, start, start + k * l) < requiredUnits
  {
    assert !IsCycle(symbols, required, requiredUnits, start, l, k);
  }

  lemma TooFew(symbols: seq<Symbol>, required: nat, requiredUnits: real)
    requires |symbols| < required
    ensures NoCycle(symbols, required, requiredUnits)
  {
    forall b: nat, m: nat, k: nat ensures !IsCycle(symbols, required, requiredUnits, b, m, k) {
      if m >= 1 {
        LongerProduct(m, required);
        assert m * required == required * m;
        NoRoom(symbols, required, requiredUnits, b, m, k);
      }
    }
  }

  predicate ArePrefixes(symbols: seq<Symbol>, units: seq<real>, chars: seq<nat>)
  {
    && |units| == |chars| <= |symbols| + 1
    && forall j :: 0 <= j < |units| ==> units[j] == Units(symbols, 0, j) && chars[j] == Chars(symbols, 0, j)
  }

  method Prefixes(symbols: seq<Symbol>) returns (units: seq<real>, chars: seq<nat>)
    ensures |units| == |symbols| + 1 && ArePrefixes(symbols, units, chars)
  {
    units, chars := [0.0], [0];
    var i := 0;
    while i < |symbols|
      invariant i <= |symbols| && |units| == i + 1 && ArePrefixes(symbols, units, chars)
    {
      units := units + [units[i] + symbols[i].units];
      chars := chars + [chars[i] + |symbols[i].text|];
      i := i + 1;
    }
  }

  /** One motif at one place, with the repeats counted and the thresholds looked up. */
  method TryMotif(symbols: seq<Symbol>, required: nat, requiredUnits: real, units: seq<real>, chars: seq<nat>, start: nat, l: nat)
    returns (cycle: Option<Cycle>)
    requires Sound(symbols) && required >= 1 && l >= 1 && start + l <= |symbols|
    requires |units| == |symbols| + 1 && ArePrefixes(symbols, units, chars)
    requires NoneBefore(symbols, required, requiredUnits, start, l)
    ensures cycle.Some? ==> IsFirst(symbols, required, requiredUnits, cycle.value, start)
    ensures cycle.None? ==> NoneBefore(symbols, required, requiredUnits, start + 1, l)
  {
    var texts := Texts(symbols);
    var repeats, cursor := CountCopies(texts, start, l);
    PrefixesGive(symbols, units, chars, start, start + l);
    PrefixesGive(symbols, units, chars, start, cursor);
    var spanUnits := units[cursor] - units[start];
    Judged(symbols, required, requiredUnits, start, l);
    if chars[start + l] - chars[start] <= MAX_UNIT && repeats >= required && spanUnits >= requiredUnits {
      var motif := texts[start..start + l];
      var found := Cycle(repeats, units[start + l] - units[start], spanUnits, motif);
      FirstHere(symbols, required, requiredUnits, start, l, found);
      cycle := Some(found);
    } else {
      NotHere(symbols, required, requiredUnits, start, l);
      cycle := None;
    }
  }

  lemma FirstHere(symbols: seq<Symbol>, required: nat, requiredUnits: real, start: nat, l: nat, cycle: Cycle)
    requires l >= 1 && start + l <= |symbols| && cycle.motif == Texts(symbols)[start..start + l]
    requires NoneBefore(symbols, required, requiredUnits, start, l)
    requires cycle.count == Copies(Texts(symbols), start, l) && IsCycle(symbols, required, requiredUnits, start, l, cycle.count)
    requires cycle.motifUnits == Units(symbols, start, start + l)
    requires cycle.spanUnits == Units(symbols, start, start + cycle.count * l)
    ensures IsFirst(symbols, required, requiredUnits, cycle, start)
  {
    assert |cycle.motif| == l;
  }

  /** The thresholds decide. */
  lemma Judged(symbols: seq<Symbol>, required: nat, requiredUnits: real, start: nat, l: nat)
    requires l >= 1 && start + l <= |symbols|
    ensures var k := Copies(Texts(symbols), start, l);
            IsCycle(symbols, required, requiredUnits, start, l, k) <==>
              Chars(symbols, start, start + l) <= MAX_UNIT && k >= required && Units(symbols, start, start + k * l) >= requiredUnits
  {
    CopiesIsLargest(Texts(symbols), start, l, Copies(Texts(symbols), start, l));
  }

  /** Differences of prefix sums are sums. */
  lemma PrefixesGive(symbols: seq<Symbol>, units: seq<real>, chars: seq<nat>, a: nat, b: nat)
    requires a <= b <= |symbols| && |units| == |symbols| + 1 && ArePrefixes(symbols, units, chars)
    ensures units[b] == units[a] + Units(symbols, a, b) && chars[b] == chars[a] + Chars(symbols, a, b)
  {
    Sums(symbols, 0, a, b);
  }

  /** A cycle is reported exactly when there is one, and it is the one with the shortest motif
      and, among those, with the earliest start. */
  method DetectRepeatingGroupCycle(symbols: seq<Symbol>, minRepeats: int, minSpanUnits: real) returns (cycle: Option<Cycle>)
    requires Sound(symbols)
    ensures var required: nat := Max(2, minRepeats);
            var requiredUnits := if minSpanUnits > 0.0 then minSpanUnits else 0.0;
            && (cycle.None? <==> NoCycle(symbols, required, requiredUnits))
            && (cycle.Some? ==> exists start: nat :: IsFirst(symbols, required, requiredUnits, cycle.value, start))
  {
    var required: nat := Max(2, minRepeats);
    var requiredUnits := if minSpanUnits > 0.0 then minSpanUnits else 0.0;
    var n := |symbols|;
    if n < required {
      TooFew(symbols, required, requiredUnits);
      return None;
    }
    var units, chars := Prefixes(symbols);
    var maxLen := Min(n / required, MAX_UNIT);
    var l := 1;
    while l <= maxLen
      invariant l >= 1 && NoneBefore(symbols, required, requiredUnits, 0, l)
      decreases maxLen - l
    {
      FitsIff(n, l, required);
      assert l * required == required * l;
      LongerProduct(required, l);
      var maxStart := n - required * l;
      var start := 0;
      while start <= maxStart
        invariant start <= maxStart + 1 && NoneBefore(symbols, required, requiredUnits, start, l)
      {
        cycle := TryMotif(symbols, required, requiredUnits, units, chars, start, l);
        if cycle.Some? { return; }
        start := start + 1;
      }
      NextLength(symbols, required, requiredUnits, start, l);
      l := l + 1;
    }
    NoLonger(symbols, required, requiredUnits, l);
    return None;
  }
}
