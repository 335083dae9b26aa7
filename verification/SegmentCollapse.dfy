/** Collapsing the repeats of a segment of timed words, one repeat in each pass. */
module SegmentCollapse {
  import opened Wrappers
  import opened WordPowers
  import opened RepeatUnit
  import opened TandemRepeats
  import opened RepeatSpan
  import opened PyText
  import opened SegmentText

  // ----- one rewriting -----

  /** What becomes of the words `a..b`: one word with their time and the given text. */
  function Merged(words: seq<Word>, a: nat, b: nat, text: string): Word
    requires a < b <= |words|
  {
    Word(words[a].start, words[b - 1].end, text, words[a].spaceBefore, MinConfidence(Confidences(words[a..b])))
  }

  function Rewritten(words: seq<Word>, a: nat, b: nat, text: string): seq<Word>
    requires a < b <= |words|
  {
    words[..a] + [Merged(words, a, b, text)] + words[b..]
  }

  /** The text the words `a..b` add. */
  function Middle(words: seq<Word>, a: nat, b: nat): string
    requires a <= b <= |words|
  {
    TextFrom(words[a..b], TextOf(words[..a]) != "")
  }

  lemma TextInThree(words: seq<Word>, a: nat, b: nat)
    requires a <= b <= |words|
    ensures TextOf(words[..b]) == TextOf(words[..a]) + Middle(words, a, b)
    ensures TextOf(words) == TextOf(words[..b]) + TextFrom(words[b..], TextOf(words[..b]) != "")
  {
    assert words[..b] == words[..a] + words[a..b];
    TextConcat(words[..a], words[a..b], false);
    assert words == words[..b] + words[b..];
    TextConcat(words[..b], words[b..], false);
    HasTextIff(words[..a], false);
    HasTextIff(words[..b], false);
  }

  /** Without text before it, a text is a subsequence of what it is with text before it. */
  lemma {:induction false} LessWithoutText(words: seq<Word>, before: bool)
    ensures Sub(TextFrom(words, before), TextFrom(words, true))
  {
    if words != [] {
      LessWithoutText(words[1..], before || words[0].text != "");
      SubDropFront(" ", words[0].text);
      SubSelf(words[0].text);
      SubSelf(Piece(words[0], true));
      assert "" + words[0].text == words[0].text;
      SubConcat(Piece(words[0], before), Piece(words[0], true),
                TextFrom(words[1..], before || words[0].text != ""), TextFrom(words[1..], true));
    }
  }

  /** The new text is what stood before, the new word, and the rest, and it is a subsequence. */
  lemma RewrittenText(words: seq<Word>, a: nat, b: nat, text: string, piece: string)
    requires a < b <= |words| && Middle(words, a, b) != ""
    requires piece == Piece(Merged(words, a, b, text), TextOf(words[..a]) != "")
    requires Sub(piece, Middle(words, a, b))
    ensures Sub(TextOf(Rewritten(words, a, b, text)), TextOf(words))
    ensures |TextOf(Rewritten(words, a, b, text))| <= |TextOf(words)| - |Middle(words, a, b)| + |piece|
  {
    var before, out := TextOf(words[..a]), Merged(words, a, b, text);
    var rest, rest' := TextFrom(words[b..], true), TextFrom(words[b..], HasText(words[..a] + [out], false));
    TextInThree(words, a, b);
    TextConcat(words[..a] + [out], words[b..], false);
    TextConcat(words[..a], [out], false);
    HasTextIff(words[..a], false);
    assert TextFrom([out], before != "") == piece;
    assert TextOf(words[..a] + [out]) == before + piece;
    LessWithoutText(words[b..], HasText(words[..a] + [out], false));
    SubSelf(before);
    SubConcat(before, before, piece, Middle(words, a, b));
    SubConcat(before + piece, before + Middle(words, a, b), rest', rest);
    SubLength(rest', rest);
  }

  // ----- which words a repeat touches -----

  predicate Touches(span: (nat, nat), start: nat, end: nat)
  {
    span.0 < end && span.1 > start
  }

  function Affected(spans: seq<(nat, nat)>, start: nat, end: nat): seq<nat>
  {
    if spans == [] then []
    else
      var i := |spans| - 1;
      Affected(spans[..i], start, end) + if Touches(spans[i], start, end) then [i] else []
  }

  /** No position before `f` is touched. */
  predicate NoneBefore(spans: seq<(nat, nat)>, start: nat, end: nat, f: nat)
    requires f <= |spans|
  {
    forall i :: 0 <= i < f ==> !Touches(spans[i], start, end)
  }

  predicate NoneAfter(spans: seq<(nat, nat)>, start: nat, end: nat, l: nat)
  {
    forall i :: l < i < |spans| ==> !Touches(spans[i], start, end)
  }

  /** The positions listed run from the first that is touched to the last. */
  lemma {:induction false} AffectedEnds(spans: seq<(nat, nat)>, start: nat, end: nat)
    ensures var r := Affected(spans, start, end);
      if r == [] then NoneBefore(spans, start, end, |spans|)
      else
        && r[0] <= r[|r| - 1] < |spans| && Touches(spans[r[0]], start, end) && Touches(spans[r[|r| - 1]], start, end)
        && NoneBefore(spans, start, end, r[0]) && NoneAfter(spans, start, end, r[|r| - 1])
  {
    if spans != [] {
      var i := |spans| - 1;
      var short := Affected(spans[..i], start, end);
      AffectedEnds(spans[..i], start, end);
      var r := Affected(spans, start, end);
      assert short != [] ==> r[0] == short[0];
      assert Touches(spans[i], start, end) ==> r[|r| - 1] == i;
      assert !Touches(spans[i], start, end) ==> r == short;
    }
  }

  /** The spans of a segment join without gaps and cover its text. */
  predicate Joined(spans: seq<(nat, nat)>, total: nat)
  {
    && (forall i :: 0 <= i < |spans| ==> spans[i].0 <= spans[i].1)
    && (forall i :: 0 < i < |spans| ==> spans[i].0 == spans[i - 1].1)
    && (if spans == [] then total == 0 else spans[0].0 == 0 && spans[|spans| - 1].1 == total)
  }

  lemma SpansJoin(words: seq<Word>, spans: seq<(nat, nat)>)
    requires AreSpans(words, spans)
    ensures Joined(spans, |TextOf(words)|)
    ensures forall i :: 0 <= i < |words| ==> (spans[i].0 < spans[i].1 <==> words[i].text != "")
  {
    forall i | 0 <= i < |words| ensures spans[i].0 <= spans[i].1 && (spans[i].0 < spans[i].1 <==> words[i].text != "") {
      TextSnoc(words, i);
    }
    assert words[..|words|] == words;
    if words != [] { assert words[..0] == []; }
  }

  /** Some span covers each character of the text. */
  lemma {:induction false} Covering(spans: seq<(nat, nat)>, total: nat, at: nat) returns (i: nat)
    requires Joined(spans, total) && at < total
    ensures i < |spans| && spans[i].0 <= at < spans[i].1
  {
    i := |spans| - 1;
    if spans[i].0 > at { i := Covering(spans[..i], spans[i].0, at); }
  }

  /** The words touched lie around the repeat, and the first of them has text. */
  lemma AffectedSurround(spans: seq<(nat, nat)>, total: nat, start: nat, end: nat)
    requires Joined(spans, total) && start < end <= total
    ensures var r := Affected(spans, start, end);
      && r != [] && r[0] <= r[|r| - 1] < |spans|
      && spans[r[0]].0 <= start < spans[r[0]].1 && end <= spans[r[|r| - 1]].1
  {
    var c := Covering(spans, total, start);
    assert Touches(spans[c], start, end);
    AffectedEnds(spans, start, end);
    var r := Affected(spans, start, end);
    FirstTouched(spans, total, start, end, r[0]);
    LastTouched(spans, total, start, end, r[|r| - 1]);
  }

  lemma FirstTouched(spans: seq<(nat, nat)>, total: nat, start: nat, end: nat, f: nat)
    requires Joined(spans, total) && start < end && f < |spans| && Touches(spans[f], start, end)
    requires NoneBefore(spans, start, end, f)
    ensures spans[f].0 <= start < spans[f].1
  {
    if f > 0 { assert !Touches(spans[f - 1], start, end); }
  }

  lemma LastTouched(spans: seq<(nat, nat)>, total: nat, start: nat, end: nat, l: nat)
    requires Joined(spans, total) && start < end <= total && l < |spans| && Touches(spans[l], start, end)
    requires NoneAfter(spans, start, end, l)
    ensures end <= spans[l].1
  {
    if l + 1 < |spans| { assert !Touches(spans[l + 1], start, end); }
  }

  // ----- the text of the merged word -----

  /** With fewer copies of its motif, the middle is a shorter subsequence of itself. */
  lemma FewerCopies(m: string, s: nat, e: nat, motif: string, repeats: nat, keep: nat)
    requires s <= e <= |m| && m[s..e] == Power(motif, repeats) && motif != [] && keep < repeats
    ensures var raw := m[..s] + Power(motif, keep) + m[e..]; Sub(raw, m) && |raw| < |m|
  {
    var kept, gone := Power(motif, keep), Power(motif, repeats - keep);
    PowerAdd(motif, keep, repeats - keep);
    assert m == m[..s] + (kept + gone) + m[e..];
    PowerLength(motif, repeats - keep);
    LongerProduct(repeats - keep, |motif|);
    SubDropFront(kept, gone);
    SubSelf(m[..s]);
    SubSelf(m[e..]);
    SubConcat(m[..s], m[..s], kept, kept + gone);
    SubConcat(m[..s] + kept, m[..s] + (kept + gone), m[e..], m[e..]);
  }

  /** Stripping takes a leading separator off; putting it back gives a subsequence again. */
  lemma SeparatorBack(raw: string)
    requires raw != "" && raw[0] == ' '
    ensures Sub(" " + Strip(raw), raw)
  {
    StripLeadingSpace(raw);
    SubSelf(" ");
    SubConcat(" ", " ", Strip(raw), raw[1..]);
    assert raw == " " + raw[1..];
  }

  /** Cutting copies of the motif leaves the first character where it is. */
  lemma SameHead(m: string, s: nat, e: nat, motif: string, repeats: nat, keep: nat)
    requires s < e <= |m| && m[s..e] == Power(motif, repeats) && motif != [] && 1 <= keep && 1 <= repeats
    ensures var raw := m[..s] + Power(motif, keep) + m[e..]; raw != "" && raw[0] == m[0]
  {
    assert Power(motif, keep) == motif + Power(motif, keep - 1);
    if s == 0 {
      assert Power(motif, repeats) == motif + Power(motif, repeats - 1);
      assert m[s..e][0] == motif[0];
    }
  }

  /** The merged word adds a shorter subsequence of what its words added, even when stripping takes
      a separator off that is put back. */
  lemma MergedPiece(w: Word, hasText: bool, m: string, s: nat, e: nat, motif: string, repeats: nat, keep: nat)
    requires s < e <= |m| && m[s..e] == Power(motif, repeats) && motif != [] && 1 <= keep < repeats
    requires hasText && w.spaceBefore ==> m[0] == ' '
    requires w.text == Strip(m[..s] + Power(motif, keep) + m[e..])
    ensures Sub(Piece(w, hasText), m) && |Piece(w, hasText)| < |m|
  {
    var raw := m[..s] + Power(motif, keep) + m[e..];
    FewerCopies(m, s, e, motif, repeats, keep);
    SameHead(m, s, e, motif, repeats, keep);
    PieceOfRaw(w, hasText, raw);
    SubTrans(Piece(w, hasText), raw, m);
    SubLength(Piece(w, hasText), raw);
  }

  lemma PieceOfRaw(w: Word, hasText: bool, raw: string)
    requires raw != "" && (hasText && w.spaceBefore ==> raw[0] == ' ') && w.text == Strip(raw)
    ensures Sub(Piece(w, hasText), raw)
  {
    StripSub(raw);
    assert "" + w.text == w.text;
    if hasText && w.spaceBefore { SeparatorBack(raw); }
  }

  /** The repeat, as it lies inside what the touched words add. */
  predicate Inside(words: seq<Word>, a: nat, b: nat, best: Span)
    requires a < b <= |words|
  {
    var m, at := Middle(words, a, b), |TextOf(words[..a])|;
    && at <= best.start < best.end <= at + |m| && best.motif != []
    && m[best.start - at..best.end - at] == Power(best.motif, best.repeats)
    && (TextOf(words[..a]) != "" && words[a].spaceBefore ==> m[0] == ' ')
  }

  lemma MiddleIsSlice(words: seq<Word>, a: nat, b: nat)
    requires a < b <= |words|
    ensures var m, at := Middle(words, a, b), |TextOf(words[..a])|;
            at + |m| == |TextOf(words[..b])| <= |TextOf(words)| && TextOf(words)[at..at + |m|] == m
  {
    TextInThree(words, a, b);
  }

  lemma MiddleHead(words: seq<Word>, a: nat, b: nat)
    requires a < b <= |words| && words[a].text != "" && TextOf(words[..a]) != "" && words[a].spaceBefore
    ensures var m := Middle(words, a, b); m != "" && m[0] == ' '
  {
    assert words[a..b][0] == words[a];
  }

  /** The repeat lies inside what the touched words add. */
  lemma MiddleHolds(words: seq<Word>, a: nat, b: nat, best: Span)
    requires a < b <= |words| && words[a].text != "" && Describes(TextOf(words), best)
    requires |TextOf(words[..a])| <= best.start && best.end <= |TextOf(words[..b])| && best.repeats >= 1
    ensures Inside(words, a, b, best)
  {
    MiddleIsSlice(words, a, b);
    DescribedInText(TextOf(words), best);
    RepeatInSlice(TextOf(words), Middle(words, a, b), |TextOf(words[..a])|, best);
    if TextOf(words[..a]) != "" && words[a].spaceBefore { MiddleHead(words, a, b); }
  }

  lemma DescribedInText(text: string, best: Span)
    requires Describes(text, best) && best.repeats >= 1
    ensures best.start < best.end <= |text| && text[best.start..best.end] == Power(best.motif, best.repeats)
  {
    CopiesIsLargest(text, best.start, |best.motif|, best.repeats);
    LongerProduct(best.repeats, |best.motif|);
  }

  lemma RepeatInSlice(text: string, m: string, at: nat, best: Span)
    requires at + |m| <= |text| && text[at..at + |m|] == m && at <= best.start < best.end <= at + |m|
    requires text[best.start..best.end] == Power(best.motif, best.repeats)
    ensures m[best.start - at..best.end - at] == Power(best.motif, best.repeats)
  {
    assert m[best.start - at..best.end - at] == text[best.start..best.end];
  }

  // ----- the timeline -----

  /** `w` stands for the words of the block: their time, their spacing and their least confidence. */
  predicate StandsFor(w: Word, block: seq<Word>)
  {
    && block != []
    && w.start == block[0].start && w.end == block[|block| - 1].end && w.spaceBefore == block[0].spaceBefore
    && w.confidence == MinConfidence(Confidences(block))
  }

  /** The words of `out` stand for consecutive blocks of `words` that start at the cuts. */
  ghost predicate Partition(words: seq<Word>, out: seq<Word>, cuts: seq<nat>)
  {
    && |cuts| == |out| + 1 && cuts[0] == 0 && cuts[|out|] == |words|
    && (forall j, k :: 0 <= j < k <= |out| ==> cuts[j] < cuts[k] <= |words|)
    && (forall k :: 0 <= k < |out| ==> IsBlock(words, out, cuts, k))
  }

  predicate IsBlock(words: seq<Word>, out: seq<Word>, cuts: seq<nat>, k: nat)
    requires k < |out| && |cuts| == |out| + 1
  {
    cuts[k] < cuts[k + 1] <= |words| && StandsFor(out[k], words[cuts[k]..cuts[k + 1]])
  }

  lemma PartitionSelf(words: seq<Word>) returns (cuts: seq<nat>)
    ensures Partition(words, words, cuts)
  {
    cuts := seq(|words| + 1, i => i);
    forall k | 0 <= k < |words| ensures IsBlock(words, words, cuts, k) {
      assert words[k..k + 1] == [words[k]];
      assert Confidences([words[k]]) == [words[k].confidence];
      assert MinConfidence([words[k].confidence]) == Least(words[k].confidence, MinConfidence([]));
    }
  }

  /** The least confidence of the words `x..y`. */
  function LeastOf(words: seq<Word>, x: nat, y: nat): Option<real>
    requires x <= y <= |words|
  {
    MinConfidence(Confidences(words[x..y]))
  }

  lemma BlockSnoc(words: seq<Word>, x: nat, y: nat, z: nat)
    requires x <= y <= z <= |words|
    ensures LeastOf(words, x, z) == Least(LeastOf(words, x, y), LeastOf(words, y, z))
  {
    assert Confidences(words[x..z]) == Confidences(words[x..y]) + Confidences(words[y..z]);
    MinConfidenceConcat(Confidences(words[x..y]), Confidences(words[y..z]));
  }

  lemma OneConfidence(words: seq<Word>, k: nat)
    requires k < |words|
    ensures LeastOf(words, k, k + 1) == words[k].confidence
  {
    assert Confidences(words[k..k + 1]) == [words[k].confidence];
    assert MinConfidence([words[k].confidence]) == Least(words[k].confidence, MinConfidence([]));
  }

  lemma BlockOfPartition(words: seq<Word>, out: seq<Word>, cuts: seq<nat>, k: nat)
    requires Partition(words, out, cuts) && k < |out|
    ensures cuts[k] <= cuts[k + 1] <= |words| && out[k].confidence == LeastOf(words, cuts[k], cuts[k + 1])
  {
    assert IsBlock(words, out, cuts, k);
  }

  /** The least confidence of merged words is that of all the words they stand for. */
  lemma {:induction false} BlockConfidence(words: seq<Word>, out: seq<Word>, cuts: seq<nat>, a: nat, b: nat)
    requires Partition(words, out, cuts) && a <= b <= |out|
    ensures cuts[a] <= cuts[b] <= |words|
    ensures LeastOf(out, a, b) == LeastOf(words, cuts[a], cuts[b])
    decreases b
  {
    if a == b {
      assert out[a..b] == [] && words[cuts[a]..cuts[b]] == [];
    } else {
      BlockConfidence(words, out, cuts, a, b - 1);
      BlockOfPartition(words, out, cuts, b - 1);
      BlockSnoc(out, a, b - 1, b);
      OneConfidence(out, b - 1);
      BlockSnoc(words, cuts[a], cuts[b - 1], cuts[b]);
    }
  }

  /** Taking the cuts between `a` and `b` out leaves an increasing sequence. */
  lemma FewerCuts(cuts: seq<nat>, a: nat, b: nat, n: nat)
    requires a < b < |cuts| && forall j, k :: 0 <= j < k < |cuts| ==> cuts[j] < cuts[k] <= n
    ensures var cuts' := cuts[..a + 1] + cuts[b..];
            forall j, k :: 0 <= j < k < |cuts'| ==> cuts'[j] < cuts'[k] <= n
  {
    var cuts' := cuts[..a + 1] + cuts[b..];
    forall j, k | 0 <= j < k < |cuts'| ensures cuts'[j] < cuts'[k] <= n {
      var j', k' := if j <= a then j else j - a - 1 + b, if k <= a then k else k - a - 1 + b;
      assert cuts'[j] == cuts[j'] && cuts'[k] == cuts[k'];
    }
  }

  lemma MergedStandsFor(words: seq<Word>, out: seq<Word>, cuts: seq<nat>, a: nat, b: nat, text: string)
    requires Partition(words, out, cuts) && a < b <= |out|
    ensures cuts[a] < cuts[b] <= |words| && StandsFor(Merged(out, a, b, text), words[cuts[a]..cuts[b]])
  {
    BlockConfidence(words, out, cuts, a, b);
    assert IsBlock(words, out, cuts, a) && IsBlock(words, out, cuts, b - 1);
  }

  lemma PartitionMerged(words: seq<Word>, out: seq<Word>, cuts: seq<nat>, a: nat, b: nat, text: string)
    requires Partition(words, out, cuts) && a < b <= |out|
    ensures Partition(words, Rewritten(out, a, b, text), cuts[..a + 1] + cuts[b..])
  {
    var out', cuts' := Rewritten(out, a, b, text), cuts[..a + 1] + cuts[b..];
    MergedStandsFor(words, out, cuts, a, b, text);
    FewerCuts(cuts, a, b, |words|);
    forall k | 0 <= k < |out'| ensures IsBlock(words, out', cuts', k) {
      if k < a {
        assert out'[k] == out[k] && IsBlock(words, out, cuts, k);
      } else if k > a {
        var j := k - a - 1 + b;
        assert out'[k] == out[j] && IsBlock(words, out, cuts, j);
      }
    }
  }

  // ----- what a pass leaves -----

  /** White space aside, the new text is the old one with `keep` copies of the motif for the repeat. */
  ghost predicate LeavesCopies(words: seq<Word>, out: seq<Word>, best: Span, keep: nat)
  {
    && best.start <= best.end <= |TextOf(words)|
    && Inked(TextOf(out)) == Inked(TextOf(words)[..best.start] + Power(best.motif, keep) + TextOf(words)[best.end..])
  }

  /** The words `first..last` that the repeat touches, the ones outside it does not. */
  ghost predicate TouchedRange(words: seq<Word>, first: nat, last: nat, best: Span)
  {
    && first <= last < |words| && Touches(SpanOf(words, first), best.start, best.end) && Touches(SpanOf(words, last), best.start, best.end)
    && forall i :: 0 <= i < |words| && Touches(SpanOf(words, i), best.start, best.end) ==> first <= i <= last
  }

  /** The touched words become one, which is trimmed and has what is left of their text. */
  ghost predicate LeavesOneWord(words: seq<Word>, out: seq<Word>, best: Span, keep: nat)
  {
    && LeavesCopies(words, out, best, keep)
    && exists first: nat, last: nat, merged :: TouchedRange(words, first, last, best) && Trimmed(merged) && out == Rewritten(words, first, last + 1, merged)
  }

  lemma InkedParts(words: seq<Word>, a: nat, b: nat)
    requires a <= b <= |words|
    ensures Inked(TextOf(words)) == Inked(TextOf(words[..a])) + Inked(Middle(words, a, b)) + Inked(TextFrom(words[b..], true))
  {
    TextInThree(words, a, b);
    InkedConcat(TextOf(words[..b]), TextFrom(words[b..], TextOf(words[..b]) != ""));
    InkedConcat(TextOf(words[..a]), Middle(words, a, b));
    InkedFrom(words[b..], TextOf(words[..b]) != "", true);
  }

  lemma InkedRewritten(words: seq<Word>, a: nat, b: nat, text: string)
    requires a < b <= |words|
    ensures Inked(TextOf(Rewritten(words, a, b, text)))
         == Inked(TextOf(words[..a])) + Inked(text) + Inked(TextFrom(words[b..], true))
  {
    var w, out := Merged(words, a, b, text), Rewritten(words, a, b, text);
    assert out[..a] == words[..a] && out[a..a + 1] == [w] && out[a + 1..] == words[b..];
    InkedParts(out, a, a + 1);
    OneWord(w, TextOf(words[..a]) != "");
  }

  lemma OneWord(w: Word, hasText: bool)
    ensures Inked(TextFrom([w], hasText)) == Inked(w.text)
  {
    assert TextFrom([w], hasText) == Piece(w, hasText) + TextFrom([w][1..], hasText || w.text != "");
    InkedConcat(Piece(w, hasText), TextFrom([w][1..], hasText || w.text != ""));
    InkedPiece(w, hasText);
  }

  lemma TextAround(words: seq<Word>, a: nat, b: nat, start: nat, end: nat)
    requires a < b <= |words| && |TextOf(words[..a])| <= start <= end <= |TextOf(words[..b])|
    ensures |TextOf(words[..b])| <= |TextOf(words)|
    ensures TextOf(words)[..start] == TextOf(words[..a]) + TextOf(words)[|TextOf(words[..a])|..start]
    ensures TextOf(words)[end..] == TextOf(words)[end..|TextOf(words[..b])|] + TextFrom(words[b..], TextOf(words[..b]) != "")
  {
    TextInThree(words, a, b);
  }

  lemma InkedFive(a: string, b: string, c: string, d: string, e: string)
    ensures Inked((a + b) + c + (d + e)) == Inked(a) + Inked(b + c + d) + Inked(e)
  {
    assert (a + b) + c + (d + e) == a + (b + c + d) + e;
    InkedConcat(a + (b + c + d), e);
    InkedConcat(a, b + c + d);
  }

  lemma CopiesLeft(words: seq<Word>, a: nat, b: nat, best: Span, keep: nat, merged: string)
    requires a < b <= |words| && |TextOf(words[..a])| <= best.start <= best.end <= |TextOf(words[..b])| <= |TextOf(words)|
    requires merged == Strip(TextOf(words)[|TextOf(words[..a])|..best.start] + Power(best.motif, keep)
                             + TextOf(words)[best.end..|TextOf(words[..b])|])
    ensures LeavesCopies(words, Rewritten(words, a, b, merged), best, keep) && Trimmed(merged)
  {
    var text, from, to := TextOf(words), |TextOf(words[..a])|, |TextOf(words[..b])|;
    var x, y := text[from..best.start], text[best.end..to];
    TextAround(words, a, b, best.start, best.end);
    InkedRewritten(words, a, b, merged);
    StripSplit(x + Power(best.motif, keep) + y);
    InkedStrip(x + Power(best.motif, keep) + y);
    InkedFrom(words[b..], TextOf(words[..b]) != "", true);
    InkedFive(TextOf(words[..a]), x, Power(best.motif, keep), y, TextFrom(words[b..], TextOf(words[..b]) != ""));
  }

  // ----- the passes -----

  /** What one pass makes of the segment. */
  lemma PassShrinks(words: seq<Word>, a: nat, b: nat, best: Span, text: string, keep: nat)
    requires a < b <= |words| && Inside(words, a, b, best) && 1 <= keep < best.repeats
    requires var m, at := Middle(words, a, b), |TextOf(words[..a])|;
             text == Strip(m[..best.start - at] + Power(best.motif, keep) + m[best.end - at..])
    ensures Sub(TextOf(Rewritten(words, a, b, text)), TextOf(words))
    ensures |TextOf(Rewritten(words, a, b, text))| < |TextOf(words)|
  {
    var m, at := Middle(words, a, b), |TextOf(words[..a])|;
    var w := Merged(words, a, b, text);
    MergedPiece(w, TextOf(words[..a]) != "", m, best.start - at, best.end - at, best.motif, best.repeats, keep);
    RewrittenText(words, a, b, text, Piece(w, TextOf(words[..a]) != ""));
  }

  /** Where a repeat touches the words. */
  lemma Located(words: seq<Word>, spans: seq<(nat, nat)>, best: Span)
    requires AreSpans(words, spans)
    requires Describes(TextOf(words), best) && best.repeats >= 1
    ensures var r := Affected(spans, best.start, best.end);
      && r != [] && r[0] <= r[|r| - 1] < |words| && Inside(words, r[0], r[|r| - 1] + 1, best)
  {
    SpansJoin(words, spans);
    DescribedInText(TextOf(words), best);
    AffectedSurround(spans, |TextOf(words)|, best.start, best.end);
    var r := Affected(spans, best.start, best.end);
    LocatedBetween(words, spans, best, r[0], r[|r| - 1]);
  }

  lemma LocatedBetween(words: seq<Word>, spans: seq<(nat, nat)>, best: Span, first: nat, last: nat)
    requires AreSpans(words, spans) && Describes(TextOf(words), best) && best.repeats >= 1
    requires first <= last < |words| && words[first].text != ""
    requires spans[first].0 <= best.start && best.end <= spans[last].1
    ensures Inside(words, first, last + 1, best)
  {
    SpanIs(words, spans, first);
    SpanIs(words, spans, last);
    MiddleHolds(words, first, last + 1, best);
  }

  /** The spans of the words, as a value. */
  function Spans(words: seq<Word>): (spans: seq<(nat, nat)>)
    ensures AreSpans(words, spans)
  {
    seq(|words|, i requires 0 <= i < |words| => SpanOf(words, i))
  }

  /** The text of the merged word: `keep` copies of the motif in the place of the repeat. */
  function MergedText(text: string, from: nat, to: nat, best: Span, keep: nat): string
    requires from <= best.start <= best.end <= to <= |text|
  {
    Strip(text[from..best.start] + Power(best.motif, keep) + text[best.end..to])
  }

  /** What one pass makes of the words: those the repeat touches become one word. */
  ghost predicate IsMerge(words: seq<Word>, out: seq<Word>, best: Span, keep: nat)
  {
    var r := Affected(Spans(words), best.start, best.end);
    r != [] && r[0] <= r[|r| - 1] < |words| && MergesRange(words, out, r[0], r[|r| - 1], best, keep)
  }

  predicate MergesRange(words: seq<Word>, out: seq<Word>, first: nat, last: nat, best: Span, keep: nat)
    requires first <= last < |words|
  {
    var from, to := SpanOf(words, first).0, SpanOf(words, last).1;
    && from <= best.start <= best.end <= to <= |TextOf(words)|
    && out == Rewritten(words, first, last + 1, MergedText(TextOf(words), from, to, best, keep))
  }

  /** `out` is `words` with its best repeat merged. */
  ghost predicate IsPass(words: seq<Word>, out: seq<Word>, detect: int, keep: int)
  {
    exists best ::
      && Chosen(TextOf(words), detect, keep, best) && IsMerge(words, out, best, Max(1, keep))
      && LeavesOneWord(words, out, best, Max(1, keep))
  }

  /** One pass: the words touched by the repeat become one word. That none is touched does not
      happen. */
  method MergeRepeat(words: seq<Word>, text: string, spans: seq<(nat, nat)>, best: Span, keepCount: nat)
    returns (out: seq<Word>, first: nat, last: nat, merged: string)
    requires text == TextOf(words) && AreSpans(words, spans)
    requires Describes(text, best) && 1 <= keepCount < best.repeats
    ensures first <= last < |words| && out == Rewritten(words, first, last + 1, merged)
    ensures IsMerge(words, out, best, keepCount) && LeavesOneWord(words, out, best, keepCount)
    ensures TouchedRange(words, first, last, best) && Trimmed(merged)
    ensures Sub(TextOf(out), text) && |TextOf(out)| < |text|
  {
    Located(words, spans, best);
    var affected := Affected(spans, best.start, best.end);
    first, last := affected[0], affected[|affected| - 1];
    SlicesOfMiddle(words, spans, first, last, best);
    merged := MergedText(text, spans[first].0, spans[last].1, best, keepCount);
    out := Rewritten(words, first, last + 1, merged);
    MergeShrinks(words, spans, first, last, best, merged, keepCount);
    IsTheMerge(words, spans, out, first, last, best, keepCount);
    MergeLeaves(words, spans, best, first, last, merged, keepCount);
  }

  lemma {:induction false} MergeLeaves(words: seq<Word>, spans: seq<(nat, nat)>, best: Span, first: nat, last: nat, merged: string, keep: nat)
    requires AreSpans(words, spans) && first <= last < |words|
    requires var r := Affected(spans, best.start, best.end); r != [] && first == r[0] && last == r[|r| - 1]
    requires spans[first].0 <= best.start <= best.end <= spans[last].1 <= |TextOf(words)|
    requires merged == MergedText(TextOf(words), spans[first].0, spans[last].1, best, keep)
    ensures LeavesOneWord(words, Rewritten(words, first, last + 1, merged), best, keep)
    ensures TouchedRange(words, first, last, best) && Trimmed(merged)
  {
    RangeIs(words, spans, best, first, last);
    SpanIs(words, spans, first);
    SpanIs(words, spans, last);
    CopiesLeft(words, first, last + 1, best, keep, merged);
  }

  lemma RangeIs(words: seq<Word>, spans: seq<(nat, nat)>, best: Span, first: nat, last: nat)
    requires AreSpans(words, spans)
    requires var r := Affected(spans, best.start, best.end); r != [] && first == r[0] && last == r[|r| - 1]
    ensures TouchedRange(words, first, last, best)
  {
    AffectedEnds(spans, best.start, best.end);
    SpanIs(words, spans, first);
    SpanIs(words, spans, last);
    forall i | 0 <= i < |words| && Touches(SpanOf(words, i), best.start, best.end) ensures first <= i <= last {
      SpanIs(words, spans, i);
    }
  }

  lemma MergeShrinks(words: seq<Word>, spans: seq<(nat, nat)>, first: nat, last: nat, best: Span, merged: string, keep: nat)
    requires AreSpans(words, spans) && first <= last < |words| && Inside(words, first, last + 1, best) && 1 <= keep < best.repeats
    requires spans[first].0 <= best.start <= best.end <= spans[last].1 <= |TextOf(words)|
    requires merged == MergedText(TextOf(words), spans[first].0, spans[last].1, best, keep)
    ensures var out := Rewritten(words, first, last + 1, merged);
            Sub(TextOf(out), TextOf(words)) && |TextOf(out)| < |TextOf(words)|
  {
    SlicesOfMiddle(words, spans, first, last, best);
    PassShrinks(words, first, last + 1, best, merged, keep);
  }

  lemma {:induction false} IsTheMerge(words: seq<Word>, spans: seq<(nat, nat)>, out: seq<Word>, first: nat, last: nat, best: Span, keep: nat)
    requires AreSpans(words, spans) && first <= last < |words|
    requires var r := Affected(spans, best.start, best.end); r != [] && first == r[0] && last == r[|r| - 1]
    requires spans[first].0 <= best.start <= best.end <= spans[last].1 <= |TextOf(words)|
    requires out == Rewritten(words, first, last + 1, MergedText(TextOf(words), spans[first].0, spans[last].1, best, keep))
    ensures IsMerge(words, out, best, keep)
  {
    SpansAreUnique(words, spans, Spans(words));
    TheRange(words, spans, out, first, last, best, keep);
  }

  lemma {:induction false} TheRange(words: seq<Word>, spans: seq<(nat, nat)>, out: seq<Word>, first: nat, last: nat, best: Span, keep: nat)
    requires AreSpans(words, spans) && first <= last < |words|
    requires spans[first].0 <= best.start <= best.end <= spans[last].1 <= |TextOf(words)|
    requires out == Rewritten(words, first, last + 1, MergedText(TextOf(words), spans[first].0, spans[last].1, best, keep))
    ensures MergesRange(words, out, first, last, best, keep)
  {
    SpanIs(words, spans, first);
    SpanIs(words, spans, last);
  }

  lemma SpansAreUnique(words: seq<Word>, a: seq<(nat, nat)>, b: seq<(nat, nat)>)
    requires AreSpans(words, a) && AreSpans(words, b)
    ensures a == b
  {
  }

  lemma SlicesOfMiddle(words: seq<Word>, spans: seq<(nat, nat)>, first: nat, last: nat, best: Span)
    requires AreSpans(words, spans) && first <= last < |words| && Inside(words, first, last + 1, best)
    ensures var text, m, at := TextOf(words), Middle(words, first, last + 1), |TextOf(words[..first])|;
      && spans[first] == SpanOf(words, first) && spans[last] == SpanOf(words, last)
      && spans[first].0 == at && at <= best.start <= best.end <= spans[last].1 <= |text|
      && text[at..best.start] == m[..best.start - at] && text[best.end..spans[last].1] == m[best.end - at..]
  {
    SpanIs(words, spans, first);
    SpanIs(words, spans, last);
    SlicesBetween(words, first, last + 1, best.start, best.end);
  }

  lemma SlicesBetween(words: seq<Word>, a: nat, b: nat, start: nat, end: nat)
    requires a < b <= |words| && |TextOf(words[..a])| <= start <= end <= |TextOf(words[..a])| + |Middle(words, a, b)|
    ensures var text, m, at, to := TextOf(words), Middle(words, a, b), |TextOf(words[..a])|, |TextOf(words[..b])|;
      && end <= to <= |text| && text[at..start] == m[..start - at] && text[end..to] == m[end - at..]
  {
    MiddleIsSlice(words, a, b);
    InnerSlicesOf(TextOf(words), Middle(words, a, b), |TextOf(words[..a])|, |TextOf(words[..b])|, start, end);
  }

  lemma InnerSlicesOf(text: string, m: string, a: nat, d: nat, b: nat, c: nat)
    requires a <= b <= c <= d <= |text| && text[a..d] == m
    ensures text[a..b] == m[..b - a] && text[c..d] == m[c - a..]
  {
    InnerSlices(text, a, d, b, c);
  }

  lemma InnerSlices(text: string, a: nat, d: nat, b: nat, c: nat)
    requires a <= b <= c <= d <= |text|
    ensures var m := text[a..d]; text[a..b] == m[..b - a] && text[c..d] == m[c - a..]
  {
  }

  /** The segments a collapse passes through. */
  ghost predicate ArePasses(trace: seq<seq<Word>>, detect: int, keep: int)
  {
    trace != [] && forall k :: 0 <= k < |trace| - 1 ==> IsPass(trace[k], trace[k + 1], detect, keep)
  }

  lemma OnePassMore(trace: seq<seq<Word>>, out: seq<Word>, best: Span, detect: int, keep: int)
    requires ArePasses(trace, detect, keep)
    requires Chosen(TextOf(trace[|trace| - 1]), detect, Max(1, keep), best)
    requires IsMerge(trace[|trace| - 1], out, best, Max(1, keep)) && LeavesOneWord(trace[|trace| - 1], out, best, Max(1, keep))
    ensures ArePasses(trace + [out], detect, keep)
  {
    var trace' := trace + [out];
    SameChoice(TextOf(trace[|trace| - 1]), detect, keep, best);
    forall k | 0 <= k < |trace'| - 1 ensures IsPass(trace'[k], trace'[k + 1], detect, keep) {
      if k < |trace| - 1 { assert IsPass(trace[k], trace[k + 1], detect, keep); }
    }
  }

  /** The loop ends, leaves no excess repeat and only ever leaves characters out; its words
      stand for consecutive blocks of the given ones, it merges the best repeat in every pass and
      it changes nothing when there is nothing to collapse. */
  method CollapseRepeatingSegmentWords(words: seq<Word>, detect: int, keep: int)
    returns (out: seq<Word>, ghost cuts: seq<nat>, ghost trace: seq<seq<Word>>)
    ensures NoExcess(TextOf(out), detect, keep)
    ensures Sub(TextOf(out), TextOf(words))
    ensures Partition(words, out, cuts)
    ensures ArePasses(trace, detect, keep) && trace[0] == words && trace[|trace| - 1] == out
    ensures out == words <==> NoExcess(TextOf(words), detect, keep)
    ensures out != words ==> |TextOf(out)| < |TextOf(words)|
  {
    out := words;
    trace := [words];
    cuts := PartitionSelf(words);
    SubSelf(TextOf(words));
    var keepCount: nat := Max(1, keep);
    while out != []
      invariant Sub(TextOf(out), TextOf(words)) && Partition(words, out, cuts)
      invariant trace != [] && ArePasses(trace, detect, keep) && trace[0] == words && trace[|trace| - 1] == out
      invariant out == words || (|TextOf(out)| < |TextOf(words)| && !NoExcess(TextOf(words), detect, keep))
      decreases |TextOf(out)|
    {
      var text, spans := SegmentTextAndWordSpans(out);
      var repeat := FindExactRepeatingTextSpan(text, detect, keepCount);
      SameThreshold(text, detect, keep);
      if repeat.None? { return; }
      var before := out;
      var first, last, merged;
      out, first, last, merged := MergeRepeat(before, text, spans, repeat.value, keepCount);
      OnePassMore(trace, out, repeat.value, detect, keep);
      PartitionMerged(words, before, cuts, first, last + 1, merged);
      SubTrans(TextOf(out), text, TextOf(words));
      cuts := cuts[..first + 1] + cuts[last + 1..];
      trace := trace + [out];
    }
  }

  lemma SameChoice(text: string, detect: int, keep: int, best: Span)
    requires Chosen(text, detect, Max(1, keep), best)
    ensures Chosen(text, detect, keep, best)
  {
    assert Max(1, Max(1, keep)) == Max(1, keep);
    forall b: nat, m: nat | Removable(text, b, m, detect, keep) ensures Best(text, keep, best, b, m) {
      assert Removable(text, b, m, detect, Max(1, keep));
    }
  }

  lemma SameThreshold(text: string, detect: int, keep: int)
    ensures NoExcess(text, detect, keep) <==> NoExcess(text, detect, Max(1, keep))
  {
    assert Max(1, Max(1, keep)) == Max(1, keep);
  }
}
