/** The lines of a `.env` file: cutting a text into them and putting them together again. */
module EnvLines {
  import opened Wrappers
  import opened PyText

  /** A line: text, terminator, the variable it sets if any, and where its right-hand side begins. */
  datatype EnvLine = EnvLine(body: string, ending: string, name: Option<string>, rhsStart: nat)

  function Raw(l: EnvLine): string
  {
    l.body + l.ending
  }

  function Rhs(l: EnvLine): string
    requires l.rhsStart <= |l.body|
  {
    l.body[l.rhsStart..]
  }

  /** `raw.rstrip("\r\n")` */
  function Body(raw: string): (b: string)
    ensures |b| <= |raw| && raw[..|b|] == b
  {
    if raw != "" && (raw[|raw| - 1] == '\n' || raw[|raw| - 1] == '\r') then Body(raw[..|raw| - 1]) else raw
  }

  function ParseBody(body: string, ending: string): (l: EnvLine)
    ensures l.body == body && l.ending == ending && l.rhsStart <= |body|
  {
    var stripped := Strip(body);
    var eq := Find(body, '=');
    if stripped == "" || stripped[0] == '#' || eq == |body| then EnvLine(body, ending, None, 0)
    else
      var name := Strip(body[..eq]);
      EnvLine(body, ending, if name == "" then None else Some(name), eq + 1)
  }

  function ParseLine(raw: string): (l: EnvLine)
    ensures l.rhsStart <= |l.body| && Raw(l) == raw
  {
    ParseBody(Body(raw), raw[|Body(raw)|..])
  }

  function Parsed(text: string): (lines: seq<EnvLine>)
    ensures |lines| == |SplitLines(text)|
  {
    ParseAll(SplitLines(text))
  }

  function ParseAll(raws: seq<string>): (lines: seq<EnvLine>)
    ensures |lines| == |raws| && forall i :: 0 <= i < |raws| ==> lines[i] == ParseLine(raws[i])
  {
    seq(|raws|, i requires 0 <= i < |raws| => ParseLine(raws[i]))
  }

  method ParseLines(text: string) returns (lines: seq<EnvLine>)
    ensures lines == Parsed(text)
  {
    lines := [];
    var raws := SplitLines(text);
    for i := 0 to |raws|
      invariant |lines| == i && forall k :: 0 <= k < i ==> lines[k] == ParseLine(raws[k])
    {
      var raw := raws[i];
      var body := Body(raw);
      var ending := raw[|body|..];
      var stripped := Strip(body);
      if stripped == "" || stripped[0] == '#' || Find(body, '=') == |body| {
        lines := lines + [EnvLine(body, ending, None, 0)];
      } else {
        var eq := Find(body, '=');
        var name := Strip(body[..eq]);
        lines := lines + [EnvLine(body, ending, if name == "" then None else Some(name), eq + 1)];
      }
    }
  }

  function Concat(raws: seq<string>): string
  {
    if raws == [] then "" else raws[0] + Concat(raws[1..])
  }

  function Join(lines: seq<EnvLine>): string
  {
    if lines == [] then "" else Raw(lines[0]) + Join(lines[1..])
  }

  lemma {:induction false} JoinIsConcat(lines: seq<EnvLine>, raws: seq<string>)
    requires |raws| == |lines| && forall i :: 0 <= i < |lines| ==> Raw(lines[i]) == raws[i]
    ensures Join(lines) == Concat(raws)
  {
    if lines != [] {
      assert Raw(lines[0]) == raws[0];
      JoinIsConcat(lines[1..], raws[1..]);
    }
  }

  lemma {:induction false} ConcatSplit(text: string)
    ensures Concat(SplitLines(text)) == text
    decreases |text|
  {
    if text != "" { ConcatSplit(text[FirstLine(text)..]); }
  }

  /** Parsing and joining is the identity on every text. */
  lemma ParseJoin(text: string)
    ensures Join(Parsed(text)) == text
  {
    JoinIsConcat(Parsed(text), SplitLines(text));
    ConcatSplit(text);
  }

  // ----- joining and parsing -----

  /** One line: no line break but at the end. */
  predicate OneLine(raw: string)
  {
    raw != "" && forall i :: 0 <= i < |raw| - 1 && IsBreak(raw[i]) ==> i == |raw| - 2 && raw[i] == '\r' && raw[|raw| - 1] == '\n'
  }

  /** `raw` ends where it does whatever follows. */
  predicate Closed(raw: string, next: string)
  {
    raw != "" && IsBreak(raw[|raw| - 1]) && !(raw[|raw| - 1] == '\r' && next != "" && next[0] == '\n')
  }

  lemma {:induction false} FirstLineOf(raw: string, next: string)
    requires OneLine(raw) && (next == "" || Closed(raw, next))
    ensures FirstLine(raw + next) == |raw|
  {
    var s := raw + next;
    if |raw| > 1 {
      if IsBreak(raw[0]) {
        assert |raw| == 2;
      } else {
        assert s[1..] == raw[1..] + next;
        assert OneLine(raw[1..]);
        FirstLineOf(raw[1..], next);
      }
    }
  }

  lemma {:induction false} FirstLineIsOne(text: string)
    requires text != ""
    ensures var n := FirstLine(text); OneLine(text[..n]) && (n < |text| ==> Closed(text[..n], text[n..]))
  {
    var n := FirstLine(text);
    if !(text[0] == '\r' && |text| > 1 && text[1] == '\n') && !IsBreak(text[0]) && |text| > 1 {
      FirstLineIsOne(text[1..]);
      assert text[..n] == [text[0]] + text[1..][..n - 1];
      assert text[n..] == text[1..][n - 1..];
    }
  }

  /** Raw lines that stay apart when they are joined. */
  predicate Apart(raws: seq<string>)
  {
    forall i: nat :: i < |raws| ==> ApartAt(raws, i)
  }

  predicate ApartAt(raws: seq<string>, i: nat)
    requires i < |raws|
  {
    OneLine(raws[i]) && (i + 1 < |raws| ==> Closed(raws[i], raws[i + 1]))
  }

  lemma {:induction false} SplitConcat(raws: seq<string>)
    requires Apart(raws)
    ensures SplitLines(Concat(raws)) == raws
  {
    if raws != [] {
      assert ApartAt(raws, 0);
      forall i: nat | i < |raws| - 1 ensures ApartAt(raws[1..], i) { assert ApartAt(raws, i + 1); }
      SplitConcat(raws[1..]);
      var next := Concat(raws[1..]);
      if |raws| > 1 {
        assert ApartAt(raws, 1);
        assert next[0] == raws[1][0];
      }
      FirstLineOf(raws[0], next);
      assert Concat(raws)[|raws[0]|..] == next && Concat(raws)[..|raws[0]|] == raws[0];
    }
  }

  lemma {:induction false} SplitApart(text: string)
    ensures Apart(SplitLines(text))
    decreases |text|
  {
    if text != "" {
      var n, raws := FirstLine(text), SplitLines(text);
      FirstLineIsOne(text);
      SplitApart(text[n..]);
      forall i: nat | i < |raws| ensures ApartAt(raws, i) {
        if i > 0 {
          assert ApartAt(raws[1..], i - 1);
        } else if |raws| > 1 {
          assert raws[1] == text[n..][..FirstLine(text[n..])];
        }
      }
    }
  }

  function Raws(lines: seq<EnvLine>): (raws: seq<string>)
    ensures |raws| == |lines| && forall i :: 0 <= i < |lines| ==> raws[i] == Raw(lines[i])
  {
    seq(|lines|, i requires 0 <= i < |lines| => Raw(lines[i]))
  }

  /** Lines that parsing leaves as they are. */
  predicate Settled(lines: seq<EnvLine>)
  {
    Apart(Raws(lines)) && forall i {:trigger ParseLine(Raw(lines[i]))} :: 0 <= i < |lines| ==> ParseLine(Raw(lines[i])) == lines[i]
  }

  /** Settled lines come back from their text. */
  lemma JoinParse(lines: seq<EnvLine>)
    requires Settled(lines)
    ensures Parsed(Join(lines)) == lines
  {
    JoinIsConcat(lines, Raws(lines));
    SplitConcat(Raws(lines));
  }

  lemma ParsedSettled(text: string)
    ensures Settled(Parsed(text))
  {
    SplitApart(text);
    assert Raws(Parsed(text)) == SplitLines(text);
  }
}
