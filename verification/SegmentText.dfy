/** The text of a segment of timed words, its subsequences, and the least confidence of words. */
module SegmentText {
  import opened Wrappers
  import opened PyText

  datatype Word = Word(start: real, end: real, text: string, spaceBefore: bool, confidence: Option<real>)

  // ----- the text of a segment -----

  /** What a word adds to the text when some text stands before it, or none. */
  function Piece(w: Word, hasText: bool): string
  {
    (if w.text != "" && hasText && w.spaceBefore then " " else "") + w.text
  }

  function TextFrom(words: seq<Word>, hasText: bool): string
  {
    if words == [] then ""
    else Piece(words[0], hasText) + TextFrom(words[1..], hasText || words[0].text != "")
  }

  function TextOf(words: seq<Word>): string
  {
    TextFrom(words, false)
  }

  predicate HasText(words: seq<Word>, before: bool)
  {
    if words == [] then before else HasText(words[1..], before || words[0].text != "")
  }

  lemma {:induction false} HasTextIff(a: seq<Word>, hasText: bool)
    ensures HasText(a, hasText) <==> hasText || TextFrom(a, hasText) != ""
  {
    if a != [] {
      HasTextIff(a[1..], hasText || a[0].text != "");
      assert Piece(a[0], hasText) == "" <==> a[0].text == "";
    }
  }

  lemma {:induction false} TextConcat(a: seq<Word>, b: seq<Word>, hasText: bool)
    ensures TextFrom(a + b, hasText) == TextFrom(a, hasText) + TextFrom(b, HasText(a, hasText))
  {
    if a == [] {
      assert a + b == b;
    } else {
      TextConcat(a[1..], b, hasText || a[0].text != "");
      TextCons(a, b, hasText);
    }
  }

  lemma TextCons(a: seq<Word>, b: seq<Word>, hasText: bool)
    requires a != []
    requires var next := hasText || a[0].text != "";
             TextFrom(a[1..] + b, next) == TextFrom(a[1..], next) + TextFrom(b, HasText(a[1..], next))
    ensures TextFrom(a + b, hasText) == TextFrom(a, hasText) + TextFrom(b, HasText(a, hasText))
  {
    var next := hasText || a[0].text != "";
    assert (a + b)[1..] == a[1..] + b;
    TextHead(a + b, hasText, a[0], a[1..] + b);
    TextHead(a, hasText, a[0], a[1..]);
    Regroup(Piece(a[0], hasText), TextFrom(a[1..], next), TextFrom(b, HasText(a[1..], next)));
  }

  lemma TextHead(words: seq<Word>, hasText: bool, head: Word, tail: seq<Word>)
    requires words != [] && words[0] == head && words[1..] == tail
    ensures TextFrom(words, hasText) == Piece(head, hasText) + TextFrom(tail, hasText || head.text != "")
    ensures HasText(words, hasText) == HasText(tail, hasText || head.text != "")
  {
  }

  lemma Regroup(x: string, y: string, z: string)
    ensures x + (y + z) == (x + y) + z
  {
  }

  /** The place of word `i` in the text. */
  function SpanOf(words: seq<Word>, i: nat): (nat, nat)
    requires i < |words|
  {
    (|TextOf(words[..i])|, |TextOf(words[..i + 1])|)
  }

  lemma TextSnoc(words: seq<Word>, i: nat)
    requires i < |words|
    ensures TextOf(words[..i + 1]) == TextOf(words[..i]) + Piece(words[i], TextOf(words[..i]) != "")
  {
    assert words[..i + 1] == words[..i] + [words[i]];
    TextConcat(words[..i], [words[i]], false);
    HasTextIff(words[..i], false);
    assert TextFrom([words[i]], HasText(words[..i], false)) == Piece(words[i], TextOf(words[..i]) != "");
  }

  predicate AreSpans(words: seq<Word>, spans: seq<(nat, nat)>)
  {
    |spans| == |words| && forall i :: 0 <= i < |words| ==> spans[i] == SpanOf(words, i)
  }

  lemma SpanIs(words: seq<Word>, spans: seq<(nat, nat)>, i: nat)
    requires AreSpans(words, spans) && i < |words|
    ensures spans[i].0 == |TextOf(words[..i])| && spans[i].1 == |TextOf(words[..i + 1])| && spans[i] == SpanOf(words, i)
  {
  }

  /** The words lie in the text one behind the other, each with a space before it if it wants one, has text and
      does not come first. */
  predicate Laid(words: seq<Word>, text: string, spans: seq<(nat, nat)>)
  {
    && |spans| == |words| && (if words == [] then text == "" else spans[0].0 == 0 && spans[|words| - 1].1 == |text|)
    && (forall i :: 0 < i < |words| ==> spans[i].0 == spans[i - 1].1)
    && forall i :: 0 <= i < |words| ==> LaidAt(words[i], text, spans[i])
  }

  predicate LaidAt(w: Word, text: string, span: (nat, nat))
  {
    && span.0 <= span.1 <= |text|
    && text[span.0..span.1] == (if w.text != "" && w.spaceBefore && span.0 > 0 then " " else "") + w.text
  }

  lemma LaidStays(w: Word, before: string, text: string, span: (nat, nat))
    requires LaidAt(w, before, span) && before <= text
    ensures LaidAt(w, text, span)
  {
    assert text[span.0..span.1] == before[span.0..span.1];
  }

  lemma LaidBehind(w: Word, before: string, text: string)
    requires text == before + Piece(w, before != "")
    ensures LaidAt(w, text, (|before|, |text|))
  {
    assert text[|before|..|text|] == Piece(w, before != "");
  }

  /** One more word. */
  lemma LaidOn(words: seq<Word>, i: nat, text: string, spans: seq<(nat, nat)>, before: string)
    requires i < |words| && Laid(words[..i], before, spans) && text == before + Piece(words[i], before != "")
    ensures Laid(words[..i + 1], text, spans + [(|before|, |text|)])
  {
    var spans' := spans + [(|before|, |text|)];
    assert before <= text;
    forall j | 0 <= j < i + 1 ensures LaidAt(words[..i + 1][j], text, spans'[j]) {
      if j < i {
        assert LaidAt(words[..i][j], before, spans[j]);
        LaidStays(words[j], before, text, spans[j]);
      } else {
        LaidBehind(words[i], before, text);
      }
    }
  }

  lemma {:induction false} SpansLaid(words: seq<Word>, spans: seq<(nat, nat)>, n: nat)
    requires AreSpans(words, spans) && n <= |words|
    ensures Laid(words[..n], TextOf(words[..n]), spans[..n])
    decreases n
  {
    if n > 0 {
      SpansLaid(words, spans, n - 1);
      TextSnoc(words, n - 1);
      SpanIs(words, spans, n - 1);
      LaidOn(words, n - 1, TextOf(words[..n]), spans[..n - 1], TextOf(words[..n - 1]));
      assert spans[..n] == spans[..n - 1] + [spans[n - 1]];
    }
  }

  method SegmentTextAndWordSpans(words: seq<Word>) returns (text: string, spans: seq<(nat, nat)>)
    ensures text == TextOf(words)
    ensures AreSpans(words, spans)
    ensures Laid(words, text, spans)
  {
    text, spans := "", [];
    var cursor, hasText := 0, false;
    var i := 0;
    while i < |words|
      invariant i <= |words| == |words| && |spans| == i && text == TextOf(words[..i])
      invariant cursor == |text| && (hasText <==> text != "")
      invariant forall j :: 0 <= j < i ==> spans[j] == SpanOf(words, j)
    {
      TextSnoc(words, i);
      var token := words[i].text;
      var spanStart := cursor;
      if token != "" && hasText && words[i].spaceBefore {
        text := text + " ";
        cursor := cursor + 1;
      }
      text := text + token;
      cursor := cursor + |token|;
      spans := spans + [(spanStart, cursor)];
      hasText := hasText || token != "";
      i := i + 1;
    }
    assert words[..|words|] == words && spans[..|words|] == spans;
    SpansLaid(words, spans, |words|);
  }

  // ----- a text without its white space -----

  function Inked(s: string): string
  {
    if s == "" then "" else (if IsSpace(s[0]) then "" else s[..1]) + Inked(s[1..])
  }

  lemma {:induction false} InkedConcat(a: string, b: string)
    ensures Inked(a + b) == Inked(a) + Inked(b)
  {
    if a == "" {
      assert a + b == b;
    } else {
      InkedConcat(a[1..], b);
      InkedHead(a + b, a[0], a[1..] + b);
      InkedHead(a, a[0], a[1..]);
      Regroup(if IsSpace(a[0]) then "" else [a[0]], Inked(a[1..]), Inked(b));
    }
  }

  lemma InkedHead(s: string, head: char, tail: string)
    requires s != "" && s[0] == head && s[1..] == tail
    ensures Inked(s) == (if IsSpace(head) then "" else [head]) + Inked(tail)
  {
    assert s[..1] == [head];
  }

  lemma {:induction false} InkedBlank(s: string)
    requires Blank(s)
    ensures Inked(s) == ""
  {
    if s != "" { InkedBlank(s[1..]); }
  }

  lemma InkedStrip(s: string)
    ensures Inked(Strip(s)) == Inked(s)
  {
    StripSplit(s);
    InkedConcat(LeadOf(s) + Strip(s), TailOf(s));
    InkedConcat(LeadOf(s), Strip(s));
    InkedBlank(LeadOf(s));
    InkedBlank(TailOf(s));
  }

  /** The separators of a segment are white space. */
  lemma InkedPiece(w: Word, hasText: bool)
    ensures Inked(Piece(w, hasText)) == Inked(w.text)
  {
    InkedConcat(" ", w.text);
    assert "" + w.text == w.text;
  }

  lemma {:induction false} InkedFrom(words: seq<Word>, a: bool, b: bool)
    ensures Inked(TextFrom(words, a)) == Inked(TextFrom(words, b))
  {
    if words != [] {
      var a', b' := a || words[0].text != "", b || words[0].text != "";
      InkedPiece(words[0], a);
      InkedPiece(words[0], b);
      InkedConcat(Piece(words[0], a), TextFrom(words[1..], a'));
      InkedConcat(Piece(words[0], b), TextFrom(words[1..], b'));
      InkedFrom(words[1..], a', b');
    }
  }

  // ----- subsequences -----

  /** `a` can be had from `b` by leaving characters out. */
  predicate Sub(a: string, b: string)
  {
    if a == "" then true
    else if b == "" then false
    else (a[0] == b[0] && Sub(a[1..], b[1..])) || Sub(a, b[1..])
  }

  lemma {:induction false} SubSelf(a: string)
    ensures Sub(a, a)
  {
    if a != "" { SubSelf(a[1..]); }
  }

  lemma {:induction false} SubLength(a: string, b: string)
    requires Sub(a, b)
    ensures |a| <= |b|
  {
    if a != "" {
      if a[0] == b[0] && Sub(a[1..], b[1..]) { SubLength(a[1..], b[1..]); } else { SubLength(a, b[1..]); }
    }
  }

  lemma {:induction false} SubTrans(a: string, b: string, c: string)
    requires Sub(a, b) && Sub(b, c)
    ensures Sub(a, c)
    decreases |b| + |c|
  {
    if a != "" {
      if b[0] == c[0] && Sub(b[1..], c[1..]) {
        if a[0] == b[0] && Sub(a[1..], b[1..]) {
          SubTrans(a[1..], b[1..], c[1..]);
        } else {
          SubTrans(a, b[1..], c[1..]);
        }
      } else {
        SubTrans(a, b, c[1..]);
      }
    }
  }

  lemma {:induction false} SubConcat(a: string, b: string, c: string, d: string)
    requires Sub(a, b) && Sub(c, d)
    ensures Sub(a + c, b + d)
  {
    if b == "" {
      assert a + c == c && b + d == d;
    } else if a != "" && a[0] == b[0] && Sub(a[1..], b[1..]) {
      SubConcat(a[1..], b[1..], c, d);
      assert (a + c)[1..] == a[1..] + c && (b + d)[1..] == b[1..] + d;
    } else {
      assert Sub(a, b[1..]);
      SubConcat(a, b[1..], c, d);
      assert (b + d)[1..] == b[1..] + d;
    }
  }

  lemma SubDropFront(a: string, b: string)
    ensures Sub(b, a + b) && Sub(a, a + b)
  {
    SubSelf(a);
    SubSelf(b);
    SubConcat("", a, b, b);
    assert "" + b == b;
    SubConcat(a, a, "", b);
    assert a + "" == a;
  }

  // ----- what stripping leaves -----

  lemma {:induction false} StripLeftSub(s: string)
    ensures Sub(StripLeft(s), s)
  {
    if s != "" && IsSpace(s[0]) { StripLeftSub(s[1..]); } else { SubSelf(s); }
  }

  lemma {:induction false} StripRightSub(s: string)
    ensures Sub(StripRight(s), s)
  {
    if s != "" && IsSpace(s[|s| - 1]) {
      StripRightSub(s[..|s| - 1]);
      SubDropFront(s[..|s| - 1], s[|s| - 1..]);
      assert s[..|s| - 1] + s[|s| - 1..] == s;
      SubTrans(StripRight(s), s[..|s| - 1], s);
    } else {
      SubSelf(s);
    }
  }

  lemma StripSub(s: string)
    ensures Sub(Strip(s), s)
  {
    StripLeftSub(s);
    StripRightSub(StripLeft(s));
    SubTrans(Strip(s), StripLeft(s), s);
  }

  /** A stripped text has lost a leading space. */
  lemma StripLeadingSpace(s: string)
    requires s != "" && s[0] == ' '
    ensures Sub(Strip(s), s[1..])
  {
    assert Strip(s) == Strip(s[1..]);
    StripSub(s[1..]);
  }

  // ----- confidence -----

  function MinConfidence(cs: seq<Option<real>>): Option<real>
  {
    if cs == [] then None else Least(cs[0], MinConfidence(cs[1..]))
  }

  function Least(a: Option<real>, b: Option<real>): Option<real>
  {
    if a.None? then b else if b.None? || a.value <= b.value then a else b
  }

  lemma {:induction false} MinConfidenceConcat(a: seq<Option<real>>, b: seq<Option<real>>)
    ensures MinConfidence(a + b) == Least(MinConfidence(a), MinConfidence(b))
  {
    if a == [] {
      assert a + b == b;
    } else {
      MinConfidenceConcat(a[1..], b);
      assert (a + b)[1..] == a[1..] + b;
    }
  }

  /** The least confidence is one of those present, and none is below it; it is missing only when
      all are. */
  lemma {:induction false} MinConfidenceIsLeast(cs: seq<Option<real>>)
    ensures var m := MinConfidence(cs);
      && (m.None? <==> forall i :: 0 <= i < |cs| ==> cs[i].None?)
      && (m.Some? ==> m in cs && forall i :: 0 <= i < |cs| && cs[i].Some? ==> m.value <= cs[i].value)
  {
    if cs != [] {
      MinConfidenceIsLeast(cs[1..]);
      var m := MinConfidence(cs[1..]);
      assert forall i :: 0 <= i < |cs| - 1 ==> cs[i + 1] == cs[1..][i];
      assert forall i :: 0 < i < |cs| ==> cs[i] == cs[1..][i - 1];
    }
  }

  function Confidences(words: seq<Word>): (cs: seq<Option<real>>)
    ensures |cs| == |words| && forall i :: 0 <= i < |words| ==> cs[i] == words[i].confidence
  {
    seq(|words|, i requires 0 <= i < |words| => words[i].confidence)
  }
}
