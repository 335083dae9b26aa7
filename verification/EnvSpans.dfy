/** The offsets of the values in a right-hand side, and rewriting them in place, from right to left so
    that the offsets to come stay true. */
module EnvSpans {
  import opened PyText
  import opened EnvParts
  import opened EnvReveal

  type Span = (nat, nat)

  function Offsets(p: Parts, base: nat): (spans: seq<Span>)
    requires Proper(p)
    ensures |spans| == |p.vals|
    decreases |p.vals|
  {
    if p.vals == [] then []
    else
      var start := base + |p.lits[0]|;
      var end := start + |p.vals[0]|;
      [(start, end)] + Offsets(Parts(p.lits[1..], p.vals[1..]), end)
  }

  lemma {:induction false} OffsetsJoin(p: Parts, q: Parts, base: nat)
    requires Proper(p) && Proper(q)
    ensures Offsets(Chain(p, ",", q), base) == Offsets(p, base) + Offsets(q, base + |Weave(p)| + 1)
    decreases |p.vals|
  {
    if p.vals == [] {
      JoinHead(p, q);
    } else {
      JoinTail(p, q);
      var p1 := Parts(p.lits[1..], p.vals[1..]);
      OffsetsJoin(p1, q, base + |p.lits[0]| + |p.vals[0]|);
    }
  }

  lemma {:induction false} OffsetsAround(pre: string, p: Parts, post: string, base: nat)
    requires Proper(p)
    ensures Offsets(Around(pre, p, post), base) == Offsets(p, base + |pre|)
    decreases |p.vals|
  {
    if p.vals != [] {
      AroundTail(pre, p, post);
      OffsetsAround("", Parts(p.lits[1..], p.vals[1..]), post, base + |pre| + |p.lits[0]| + |p.vals[0]|);
    }
  }

  // ----- the source's loops -----

  /** `_trimmed`: white space off both ends of `rhs[from..to]`. */
  method TrimSpan(rhs: string, from: nat, to: nat) returns (start: nat, end: nat)
    requires from <= to <= |rhs|
    ensures from <= start <= end <= to && rhs[start..end] == Strip(rhs[from..to])
    ensures start < end ==> start == from + |LeadOf(rhs[from..to])|
  {
    start, end := from, to;
    while start < end && IsSpace(rhs[start])
      invariant from <= start <= end && Blank(rhs[from..start])
    {
      BlankGrows(rhs, from, start);
      start := start + 1;
    }
    while end > start && IsSpace(rhs[end - 1])
      invariant start <= end <= to && Blank(rhs[end..to])
      invariant start < end ==> !IsSpace(rhs[start])
    {
      BlankGrowsDown(rhs, end, to);
      end := end - 1;
    }
    TrimFound(rhs, from, start, end, to);
  }

  lemma BlankGrows(rhs: string, from: nat, k: nat)
    requires from <= k < |rhs| && Blank(rhs[from..k]) && IsSpace(rhs[k])
    ensures Blank(rhs[from..k + 1])
  {
    assert rhs[from..k + 1] == rhs[from..k] + [rhs[k]];
    BlankSnoc(rhs[from..k], rhs[k]);
  }

  lemma BlankGrowsDown(rhs: string, k: nat, to: nat)
    requires 0 < k <= to <= |rhs| && Blank(rhs[k..to]) && IsSpace(rhs[k - 1])
    ensures Blank(rhs[k - 1..to])
  {
    assert rhs[k - 1..to][1..] == rhs[k..to];
  }

  lemma TrimFound(rhs: string, from: nat, start: nat, end: nat, to: nat)
    requires from <= start <= end <= to <= |rhs| && Blank(rhs[from..start]) && Blank(rhs[end..to])
    requires start < end ==> !IsSpace(rhs[start]) && !IsSpace(rhs[end - 1])
    ensures rhs[start..end] == Strip(rhs[from..to]) && (start < end ==> start == from + |LeadOf(rhs[from..to])|)
  {
    var lead, core, tail := rhs[from..start], rhs[start..end], rhs[end..to];
    FourCuts(rhs, from, start, end, to);
    StripBlank(lead, core, tail);
    if core != "" { StripParts(lead, core, tail); }
  }

  lemma FourCuts(s: string, a: nat, b: nat, c: nat, d: nat)
    requires a <= b <= c <= d <= |s|
    ensures s[a..d] == s[a..b] + s[b..c] + s[c..d]
  {
  }

  lemma SliceSlice(s: string, a: nat, b: nat, i: nat, j: nat)
    requires a <= b <= |s| && i <= j <= b - a
    ensures s[a..b][i..j] == s[a + i..a + j]
  {
    forall k | 0 <= k < j - i ensures s[a..b][i..j][k] == s[a + i..a + j][k] {
      assert s[a..b][i + k] == s[a + i + k];
    }
  }

  /** `_strip_one_quote_layer` */
  function StripQuoteSpan(rhs: string, start: nat, end: nat): (span: Span)
    requires start <= end <= |rhs|
    ensures start <= span.0 <= span.1 <= end && rhs[span.0..span.1] == Unquoted(rhs[start..end])
    ensures span.0 == start + |QuoteOf(rhs[start..end])|
  {
    if end - start >= 2 && rhs[start] == rhs[end - 1] && (rhs[start] == '"' || rhs[start] == '\'') then
      SliceSlice(rhs, start, end, 1, end - start - 1);
      (start + 1, end - 1)
    else (start, end)
  }

  /** The span of the item `rhs[from..to]`, if its value is not empty. */
  function FirstSpan(rhs: string, from: nat, to: nat): seq<Span>
    requires from <= to <= |rhs|
  {
    Offsets(ItemParts(rhs[from..to]), from)
  }

  /** One item of a container. */
  method ItemSpan(rhs: string, from: nat, to: nat) returns (span: Span)
    requires from <= to <= |rhs|
    ensures FirstSpan(rhs, from, to) == if span.0 < span.1 then [span] else []
  {
    var t := rhs[from..to];
    var valueStart := from;
    var colon := from + Find(t, ':');
    if colon < to { valueStart := colon + 1; }
    assert valueStart == from + ValueStart(t) && rhs[valueStart..to] == t[ValueStart(t)..];
    var start, end := TrimSpan(rhs, valueStart, to);
    span := StripQuoteSpan(rhs, start, end);
    ItemSpanFound(t, from, rhs[start..end], start, span);
  }

  /** The trimmed and unquoted core of the item is its value. */
  lemma ItemSpanFound(t: string, from: nat, core: string, start: nat, span: Span)
    requires core == Strip(t[ValueStart(t)..])
    requires core != "" ==> start == from + ValueStart(t) + |LeadOf(t[ValueStart(t)..])|
    requires span.0 <= span.1 && span.1 - span.0 == |Unquoted(core)| && span.0 == start + |QuoteOf(core)|
    ensures span.0 < span.1 <==> ItemParts(t).vals != []
    ensures span.0 < span.1 ==> Offsets(ItemParts(t), from) == [span]
  {
    ItemOffsets(t, from);
  }

  lemma ItemOffsets(t: string, base: nat)
    ensures var c := ItemCut(t);
            Unquoted(c.core) != "" ==>
              var start := base + |c.head| + |c.lead| + |QuoteOf(c.core)|;
              Offsets(ItemParts(t), base) == [(start, start + |Unquoted(c.core)|)]
  {
    var p := ItemParts(t);
    if p.vals != [] {
      assert Offsets(Parts(p.lits[1..], p.vals[1..]), base + |p.lits[0]| + |p.vals[0]|) == [];
    }
  }

  /** `spansFrom(a)` are the spans of the items in `rhs[a..to]`. */
  ghost predicate AreSpansFrom(rhs: string, to: nat, spansFrom: nat -> seq<Span>)
    requires to <= |rhs|
  {
    forall a: nat {:trigger Items(rhs[a..to])} :: a <= to ==> spansFrom(a) == Offsets(Items(rhs[a..to]), a)
  }

  /** The span of the item at `itemStart`, if it has one, and the comma behind it. */
  method NextItem(rhs: string, itemStart: nat, to: nat, ghost spansFrom: nat -> seq<Span>)
    returns (found: seq<Span>, comma: nat)
    requires itemStart <= to <= |rhs| && AreSpansFrom(rhs, to, spansFrom)
    ensures itemStart <= comma <= to
    ensures spansFrom(itemStart) == found + if comma == to then [] else spansFrom(comma + 1)
  {
    comma := itemStart + Find(rhs[itemStart..to], ',');
    SpansStep(rhs, itemStart, to, comma);
    var span := ItemSpan(rhs, itemStart, comma);
    found := if span.0 < span.1 then [span] else [];
  }

  /** The loop over the items of a container. */
  method ItemSpans(rhs: string, from: nat, to: nat, ghost spansFrom: nat -> seq<Span>) returns (spans: seq<Span>)
    requires from <= to <= |rhs| && AreSpansFrom(rhs, to, spansFrom)
    ensures spans == spansFrom(from)
  {
    spans := [];
    var itemStart := from;
    while true
      invariant from <= itemStart <= to && spansFrom(from) == spans + spansFrom(itemStart)
      decreases |rhs| - itemStart
    {
      var found, comma := NextItem(rhs, itemStart, to, spansFrom);
      spans := spans + found;
      if comma == to { return; }
      itemStart := comma + 1;
    }
  }

  /** The spans of items are those of the first item and those behind the first comma. */
  lemma SpansStep(rhs: string, from: nat, to: nat, comma: nat)
    requires from <= to <= |rhs| && comma == from + Find(rhs[from..to], ',')
    ensures Offsets(Items(rhs[from..to]), from)
            == FirstSpan(rhs, from, comma) + if comma == to then [] else Offsets(Items(rhs[comma + 1..to]), comma + 1)
  {
    var inner, k := rhs[from..to], comma - from;
    assert inner[..k] == rhs[from..comma];
    if comma == to {
      assert inner[..k] == inner;
      LastItem(inner, from);
    } else {
      assert inner[k + 1..] == rhs[comma + 1..to];
      ItemsStep(inner);
      ItemWeave(inner[..k]);
      OffsetsOfJoined(Items(inner), ItemParts(inner[..k]), Items(inner[k + 1..]), from, k);
    }
  }

  lemma LastItem(inner: string, base: nat)
    requires Find(inner, ',') == |inner|
    ensures Offsets(Items(inner), base) == Offsets(ItemParts(inner), base) + []
  {
  }

  lemma OffsetsOfJoined(r: Parts, p: Parts, q: Parts, base: nat, k: nat)
    requires Proper(p) && Proper(q) && r == Chain(p, ",", q) && |Weave(p)| == k
    ensures Offsets(r, base) == Offsets(p, base) + Offsets(q, base + k + 1)
  {
    OffsetsJoin(p, q, base);
  }

  /** The span of a value that is no container. */
  method ScalarSpan(rhs: string, start: nat, end: nat) returns (spans: seq<Span>)
    requires start < end <= |rhs| && rhs[start..end] == Strip(rhs) && start == |LeadOf(rhs)|
    requires !(rhs[start] == '{' && rhs[end - 1] == '}')
    ensures spans == Offsets(RhsParts(rhs), 0)
  {
    RhsIsScalar(rhs, rhs[start..end], start);
    var span := StripQuoteSpan(rhs, start, end);
    spans := if span.0 < span.1 then [span] else [];
  }

  /** The spans of the items of a container; an empty one has one empty span. */
  method ContainerSpans(rhs: string, start: nat, end: nat, ghost spansFrom: nat -> seq<Span>) returns (spans: seq<Span>)
    requires start + 1 <= end - 1 < |rhs| && AreSpansFrom(rhs, end - 1, spansFrom)
    ensures spans == if start + 1 == end - 1 then [(start + 1, start + 1)] else spansFrom(start + 1)
  {
    if start + 1 == end - 1 { return [(start + 1, end - 1)]; }
    spans := ItemSpans(rhs, start + 1, end - 1, spansFrom);
  }

  ghost function ItemOffsetsFrom(rhs: string, to: nat): (spansFrom: nat -> seq<Span>)
    requires to <= |rhs|
    ensures AreSpansFrom(rhs, to, spansFrom)
  {
    (a: nat) => if a <= to then Offsets(Items(rhs[a..to]), a) else []
  }

  lemma ContainerIs(rhs: string, start: nat, end: nat, spansFrom: nat -> seq<Span>)
    requires start < end <= |rhs| && rhs[start..end] == Strip(rhs) && start == |LeadOf(rhs)|
    requires rhs[start] == '{' && rhs[end - 1] == '}' && AreSpansFrom(rhs, end - 1, spansFrom)
    ensures start + 1 <= end - 1
    ensures Offsets(RhsParts(rhs), 0) == if start + 1 == end - 1 then [(start + 1, start + 1)] else spansFrom(start + 1)
  {
    InnerAt(rhs, start, end);
    RhsIsContainer(rhs, rhs[start + 1..end - 1], start);
  }

  lemma InnerAt(rhs: string, start: nat, end: nat)
    requires start < end <= |rhs| && rhs[start] == '{' && rhs[end - 1] == '}'
    ensures start + 1 <= end - 1 && rhs[start..end] == "{" + rhs[start + 1..end - 1] + "}"
  {
  }

  /** `_value_spans`: the offsets found are those of the values. */
  method ValueSpans(rhs: string) returns (spans: seq<Span>)
    ensures spans == Offsets(RhsParts(rhs), 0)
  {
    assert rhs[0..|rhs|] == rhs;
    var start, end := TrimSpan(rhs, 0, |rhs|);
    if start >= end {
      RhsOffsets(rhs);
      spans := [];
    } else if !(rhs[start] == '{' && rhs[end - 1] == '}') {
      spans := ScalarSpan(rhs, start, end);
    } else {
      ghost var spansFrom := ItemOffsetsFrom(rhs, end - 1);
      ContainerIs(rhs, start, end, spansFrom);
      spans := ContainerSpans(rhs, start, end, spansFrom);
    }
  }

  lemma RhsIsScalar(rhs: string, core: string, start: nat)
    requires core == Strip(rhs) && core != "" && start == |LeadOf(rhs)| && !IsContainer(core)
    ensures var from := start + |QuoteOf(core)|;
            Offsets(RhsParts(rhs), 0) == if Unquoted(core) == "" then [] else [(from, from + |Unquoted(core)|)]
  {
    RhsOffsets(rhs);
    ScalarOffsets(core, start);
  }

  lemma RhsIsContainer(rhs: string, inner: string, start: nat)
    requires Strip(rhs) == "{" + inner + "}" && start == |LeadOf(rhs)|
    ensures Offsets(RhsParts(rhs), 0) == if inner == "" then [(start + 1, start + 1)] else Offsets(Items(inner), start + 1)
  {
    RhsOffsets(rhs);
    InnerOf(inner);
    ContainerOffsets(Strip(rhs), start);
  }

  lemma RhsOffsets(rhs: string)
    ensures Offsets(RhsParts(rhs), 0) == if Strip(rhs) == "" then [] else Offsets(CoreParts(Strip(rhs)), |LeadOf(rhs)|)
  {
    if Strip(rhs) != "" { OffsetsAround(LeadOf(rhs), CoreParts(Strip(rhs)), TailOf(rhs), 0); }
  }

  lemma ContainerOffsets(core: string, base: nat)
    requires IsContainer(core)
    ensures var inner := core[1..|core| - 1];
            Offsets(CoreParts(core), base) == if inner == "" then [(base + 1, base + 1)] else Offsets(Items(inner), base + 1)
  {
    var inner := core[1..|core| - 1];
    if inner == "" { EmptyContainerOffsets(base); } else { OffsetsAround("{", Items(inner), "}", base); }
  }

  lemma ScalarOffsets(core: string, base: nat)
    requires core != "" && !IsContainer(core)
    ensures var start := base + |QuoteOf(core)|;
            Offsets(CoreParts(core), base) == if Unquoted(core) == "" then [] else [(start, start + |Unquoted(core)|)]
  {
    var p := CoreParts(core);
    if p.vals != [] {
      assert Offsets(Parts(p.lits[1..], p.vals[1..]), base + |p.lits[0]| + |p.vals[0]|) == [];
    }
  }

  lemma EmptyContainerOffsets(base: nat)
    ensures Offsets(Parts(["{", "}"], [""]), base) == [(base + 1, base + 1)]
  {
    assert Offsets(Parts(["}"], []), base + 1) == [];
  }

  // ----- what the offsets are -----

  /** From `low` on, the spans enclose the values one after the other, a gap between any two. */
  predicate Enclose(w: string, vals: seq<string>, spans: seq<Span>, low: nat)
    requires |spans| == |vals|
  {
    vals == [] ||
    (low <= spans[0].0 <= spans[0].1 <= |w| && w[spans[0].0..spans[0].1] == vals[0]
     && Enclose(w, vals[1..], spans[1..], spans[0].1 + 1))
  }

  /** A gap: no literal between two values is empty. */
  predicate Spaced(p: Parts)
    requires Proper(p)
    decreases |p.vals|
  {
    p.vals == [] ||
    (var p1 := Parts(p.lits[1..], p.vals[1..]); (p1.vals == [] || p1.lits[0] != "") && Spaced(p1))
  }

  lemma {:induction false} AfterSpaced(p: Parts)
    requires Proper(p) && After(p)
    ensures Spaced(p)
    decreases |p.vals|
  {
    if p.vals != [] { AfterSpaced(Parts(p.lits[1..], p.vals[1..])); }
  }

  lemma {:induction false} OffsetsEnclose(p: Parts, base: nat, w: string, low: nat)
    requires Proper(p) && Spaced(p) && base <= |w| && w[base..] == Weave(p) && low <= base + |p.lits[0]|
    ensures Enclose(w, p.vals, Offsets(p, base), low)
    decreases |p.vals|
  {
    if p.vals != [] {
      var p1 := Parts(p.lits[1..], p.vals[1..]);
      var end := base + |p.lits[0]| + |p.vals[0]|;
      CutThree(w, base, p.lits[0], p.vals[0], Weave(p1));
      if p1.vals != [] { OffsetsEnclose(p1, end, w, end + 1); }
    }
  }

  lemma CutThree(w: string, base: nat, a: string, v: string, rest: string)
    requires base <= |w| && w[base..] == a + v + rest
    ensures var start := base + |a|;
            var end := start + |v|;
            end + |rest| == |w| && w[start..end] == v && w[end..] == rest
  {
    var x := w[base..];
    assert x[|a|..|a| + |v|] == v && x[|a| + |v|..] == rest;
  }

  /** The spans lie in order, apart from each other and within the text, and enclose the values. */
  predicate InOrder(w: string, vals: seq<string>, spans: seq<Span>)
  {
    && |spans| == |vals|
    && (forall i :: 0 <= i < |spans| ==> spans[i].0 <= spans[i].1 <= |w| && w[spans[i].0..spans[i].1] == vals[i])
    && (forall i, j :: 0 <= i < j < |spans| ==> spans[i].1 < spans[j].0)
  }

  lemma {:induction false} EncloseInOrder(w: string, vals: seq<string>, spans: seq<Span>, low: nat)
    requires |spans| == |vals| && Enclose(w, vals, spans, low)
    ensures InOrder(w, vals, spans) && forall i :: 0 <= i < |spans| ==> low <= spans[i].0
  {
    if vals != [] {
      EncloseInOrder(w, vals[1..], spans[1..], spans[0].1 + 1);
      assert spans == [spans[0]] + spans[1..] && vals == [vals[0]] + vals[1..];
    }
  }

  /** The spans of a right-hand side are sorted, disjoint and in bounds, and enclose its values. */
  lemma SpansInOrder(rhs: string)
    ensures InOrder(rhs, RhsParts(rhs).vals, Offsets(RhsParts(rhs), 0))
  {
    var p := RhsParts(rhs);
    RhsSeparated(rhs);
    RhsWeave(rhs);
    SeparatedSpaced(p);
    assert rhs[0..] == rhs;
    OffsetsEnclose(p, 0, rhs, 0);
    EncloseInOrder(rhs, p.vals, Offsets(p, 0), 0);
  }

  lemma SeparatedSpaced(p: Parts)
    requires Proper(p) && Separated(p)
    ensures Spaced(p)
  {
    if p.vals != [] { AfterSpaced(Parts(p.lits[1..], p.vals[1..])); }
  }

  // ----- replacing one value -----

  /** Replacing one value replaces its span. */
  lemma {:induction false} ReplaceOne(p: Parts, k: nat, v: string, base: nat)
    requires Proper(p) && k < |p.vals|
    ensures var w, (start, end) := Weave(p), Offsets(p, base)[k];
      && base <= start <= end <= base + |w|
      && Weave(WithVals(p, p.vals[k := v])) == w[..start - base] + v + w[end - base..]
    decreases k
  {
    ReplacedTail(p, k, v);
    if k == 0 {
      ReplaceHead(p.lits[0], p.vals[0], Weave(Parts(p.lits[1..], p.vals[1..])), v);
    } else {
      ReplaceOne(Parts(p.lits[1..], p.vals[1..]), k - 1, v, base + |p.lits[0]| + |p.vals[0]|);
      ReplaceLater(p, k, v, base);
    }
  }

  lemma ReplaceLater(p: Parts, k: nat, v: string, base: nat)
    requires Proper(p) && 0 < k < |p.vals|
    requires var p1, rest := Parts(p.lits[1..], p.vals[1..]), base + |p.lits[0]| + |p.vals[0]|;
             var w1, (start, end) := Weave(p1), Offsets(p1, rest)[k - 1];
             && rest <= start <= end <= rest + |w1|
             && Weave(WithVals(p1, p1.vals[k - 1 := v])) == w1[..start - rest] + v + w1[end - rest..]
    ensures var w, (start, end) := Weave(p), Offsets(p, base)[k];
      && base <= start <= end <= base + |w|
      && Weave(WithVals(p, p.vals[k := v])) == w[..start - base] + v + w[end - base..]
  {
    var p1, rest := Parts(p.lits[1..], p.vals[1..]), base + |p.lits[0]| + |p.vals[0]|;
    var (start, end) := Offsets(p1, rest)[k - 1];
    ReplacedTail(p, k, v);
    SpliceBehind(p.lits[0] + p.vals[0], Weave(p1), start - rest, end - rest, v);
  }

  lemma ReplacedTail(p: Parts, k: nat, v: string)
    requires Proper(p) && k < |p.vals|
    ensures var p', p1 := WithVals(p, p.vals[k := v]), Parts(p.lits[1..], p.vals[1..]);
            var tail' := if k == 0 then p1 else WithVals(p1, p1.vals[k - 1 := v]);
      && p'.lits == p.lits && p'.vals[0] == (if k == 0 then v else p.vals[0])
      && Parts(p'.lits[1..], p'.vals[1..]) == tail'
      && Weave(p') == p'.lits[0] + p'.vals[0] + Weave(tail')
  {
    if k == 0 {
      assert p.vals[k := v][1..] == p.vals[1..];
    } else {
      assert p.vals[k := v][1..] == p.vals[1..][k - 1 := v];
    }
  }

  /** It moves only the spans behind it. */
  lemma {:induction false} ReplaceMoves(p: Parts, k: nat, v: string, base: nat)
    requires Proper(p) && k < |p.vals|
    ensures Offsets(WithVals(p, p.vals[k := v]), base)[..k] == Offsets(p, base)[..k]
    decreases k
  {
    if k > 0 {
      var p1, rest := Parts(p.lits[1..], p.vals[1..]), base + |p.lits[0]| + |p.vals[0]|;
      ReplacedTail(p, k, v);
      ReplaceMoves(p1, k - 1, v, rest);
      SameHeads((base + |p.lits[0]|, rest), Offsets(WithVals(p1, p1.vals[k - 1 := v]), rest), Offsets(p1, rest), k);
    }
  }

  lemma SameHeads(first: Span, a: seq<Span>, b: seq<Span>, k: nat)
    requires 1 <= k <= |a| + 1 && k <= |b| + 1 && a[..k - 1] == b[..k - 1]
    ensures ([first] + a)[..k] == ([first] + b)[..k]
  {
    assert ([first] + a)[..k] == [first] + a[..k - 1] && ([first] + b)[..k] == [first] + b[..k - 1];
  }

  lemma ReplaceHead(a: string, was: string, rest: string, v: string)
    ensures var w := a + was + rest; a + v + rest == w[..|a|] + v + w[|a| + |was|..]
  {
    var w := a + was + rest;
    assert w[..|a|] == a && w[|a| + |was|..] == rest;
  }

  lemma SpliceBehind(x: string, w: string, a: nat, b: nat, v: string)
    requires a <= b <= |w|
    ensures x + (w[..a] + v + w[b..]) == (x + w)[..|x| + a] + v + (x + w)[|x| + b..]
  {
    assert (x + w)[..|x| + a] == x + w[..a] && (x + w)[|x| + b..] == w[b..];
  }
}
