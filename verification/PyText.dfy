/** The parts of Python's `str` that the sources rely on. */
module PyText {
  /** The characters Python's `str.strip` takes off. */
  predicate IsSpace(ch: char)
  {
    || '\U{0009}' <= ch <= '\U{000D}' || '\U{001C}' <= ch <= '\U{0020}' || ch == '\U{0085}' || ch == '\U{00A0}'
    || ch == '\U{1680}' || '\U{2000}' <= ch <= '\U{200A}' || ch == '\U{2028}' || ch == '\U{2029}'
    || ch == '\U{202F}' || ch == '\U{205F}' || ch == '\U{3000}'
  }

  function StripLeft(s: string): (r: string)
    ensures |r| <= |s|
  {
    if s != "" && IsSpace(s[0]) then StripLeft(s[1..]) else s
  }

  function StripRight(s: string): (r: string)
    ensures |r| <= |s|
  {
    if s != "" && IsSpace(s[|s| - 1]) then StripRight(s[..|s| - 1]) else s
  }

  function Strip(s: string): string
  {
    StripRight(StripLeft(s))
  }

  /** The text is trimmed: empty, or without white space at either end. */
  predicate Trimmed(s: string)
  {
    s != "" ==> !IsSpace(s[0]) && !IsSpace(s[|s| - 1])
  }

  predicate Blank(s: string)
  {
    s == "" || (IsSpace(s[0]) && Blank(s[1..]))
  }

  lemma {:induction false} BlankSnoc(s: string, ch: char)
    ensures Blank(s + [ch]) <==> Blank(s) && IsSpace(ch)
  {
    if s == "" {
      assert s + [ch] == [ch];
    } else {
      assert (s + [ch])[1..] == s[1..] + [ch];
      BlankSnoc(s[1..], ch);
    }
  }

  /** The white space that stripping takes off in front, and behind. */
  function LeadOf(s: string): string
  {
    s[..|s| - |StripLeft(s)|]
  }

  function TailOf(s: string): string
  {
    StripLeft(s)[|Strip(s)|..]
  }

  lemma {:induction false} StripLeftSplit(s: string)
    ensures s == LeadOf(s) + StripLeft(s) && Blank(LeadOf(s))
    ensures StripLeft(s) != "" ==> !IsSpace(StripLeft(s)[0])
  {
    if s != "" && IsSpace(s[0]) {
      StripLeftSplit(s[1..]);
      assert LeadOf(s) == [s[0]] + LeadOf(s[1..]);
    }
  }

  lemma {:induction false} StripRightSplit(s: string)
    ensures var r := StripRight(s);
      && s == r + s[|r|..] && Blank(s[|r|..])
      && (r != "" ==> !IsSpace(r[|r| - 1]) && r[0] == s[0])
  {
    if s != "" && IsSpace(s[|s| - 1]) {
      var short := s[..|s| - 1];
      StripRightSplit(short);
      var r := StripRight(s);
      assert s[|r|..] == short[|r|..] + [s[|s| - 1]];
      BlankSnoc(short[|r|..], s[|s| - 1]);
    }
  }

  /** A text is its stripped middle between white space. */
  lemma StripSplit(s: string)
    ensures s == LeadOf(s) + Strip(s) + TailOf(s) && Blank(LeadOf(s)) && Blank(TailOf(s)) && Trimmed(Strip(s))
  {
    StripLeftSplit(s);
    StripRightSplit(StripLeft(s));
  }

  lemma {:induction false} StripLeftBlank(lead: string, s: string)
    requires Blank(lead) && (s != "" ==> !IsSpace(s[0]))
    ensures StripLeft(lead + s) == s
  {
    if lead == "" {
      assert lead + s == s;
    } else {
      assert (lead + s)[1..] == lead[1..] + s;
      StripLeftBlank(lead[1..], s);
    }
  }

  lemma {:induction false} StripRightBlank(s: string, tail: string)
    requires Blank(tail) && (s != "" ==> !IsSpace(s[|s| - 1]))
    ensures StripRight(s + tail) == s
  {
    if tail == "" {
      assert s + tail == s;
    } else {
      assert (s + tail)[..|s + tail| - 1] == s + tail[..|tail| - 1];
      assert tail == tail[..|tail| - 1] + [tail[|tail| - 1]];
      BlankSnoc(tail[..|tail| - 1], tail[|tail| - 1]);
      StripRightBlank(s, tail[..|tail| - 1]);
    }
  }

  lemma {:induction false} BlankConcat(a: string, b: string)
    ensures Blank(a + b) <==> Blank(a) && Blank(b)
  {
    if a == "" {
      assert a + b == b;
    } else {
      assert (a + b)[1..] == a[1..] + b;
      BlankConcat(a[1..], b);
    }
  }

  /** And that middle is the only one. */
  lemma StripBlank(lead: string, s: string, tail: string)
    requires Blank(lead) && Blank(tail) && Trimmed(s)
    ensures Strip(lead + s + tail) == s
  {
    assert lead + s + tail == lead + (s + tail);
    if s == "" {
      assert s + tail == tail;
      BlankConcat(lead, tail);
      BlankStripsToNothing(lead + tail);
    } else {
      StripLeftBlank(lead, s + tail);
      StripRightBlank(s, tail);
    }
  }

  /** So the three parts can be read off. */
  lemma StripParts(lead: string, s: string, tail: string)
    requires Blank(lead) && Blank(tail) && Trimmed(s) && s != ""
    ensures Strip(lead + s + tail) == s && LeadOf(lead + s + tail) == lead && TailOf(lead + s + tail) == tail
  {
    var w := lead + s + tail;
    Regrouped(lead, s, tail);
    StripBlank(lead, s, tail);
    StripLeftOf(w, lead, s + tail);
    TailAfter(w, s, tail);
  }

  lemma Regrouped(a: string, b: string, c: string)
    ensures a + b + c == a + (b + c)
  {
  }

  lemma StripLeftOf(w: string, lead: string, rest: string)
    requires Blank(lead) && rest != "" && !IsSpace(rest[0]) && w == lead + rest
    ensures StripLeft(w) == rest && LeadOf(w) == lead
  {
    StripLeftBlank(lead, rest);
  }

  lemma TailAfter(w: string, s: string, tail: string)
    requires Strip(w) == s && StripLeft(w) == s + tail
    ensures TailOf(w) == tail
  {
  }

  lemma {:induction false} BlankStripsToNothing(s: string)
    requires Blank(s)
    ensures StripLeft(s) == "" && Strip(s) == ""
  {
    if s != "" { BlankStripsToNothing(s[1..]); }
  }

  predicate StartsWith(s: string, prefix: string)
  {
    |prefix| <= |s| && s[..|prefix|] == prefix
  }

  /** The position of the first `ch`, or the length if there is none. */
  function Find(s: string, ch: char): (k: nat)
    ensures k <= |s|
  {
    if s == "" || s[0] == ch then 0 else 1 + Find(s[1..], ch)
  }

  predicate Absent(s: string, ch: char)
  {
    Find(s, ch) == |s|
  }

  lemma {:induction false} FindConcat(a: string, b: string, ch: char)
    ensures Find(a + b, ch) == if Absent(a, ch) then |a| + Find(b, ch) else Find(a, ch)
  {
    if a == "" {
      assert a + b == b;
    } else {
      assert (a + b)[1..] == a[1..] + b;
      FindConcat(a[1..], b, ch);
    }
  }

  /** The character is found where it stands first. */
  lemma {:induction false} FindFirst(s: string, ch: char)
    ensures var k := Find(s, ch); Absent(s[..k], ch) && (k < |s| ==> s[k] == ch && Find(s[..k + 1], ch) == k)
  {
    var k := Find(s, ch);
    if k > 0 {
      FindFirst(s[1..], ch);
      assert s[..k][1..] == s[1..][..k - 1];
      if k < |s| { assert s[..k + 1][1..] == s[1..][..k]; }
    }
  }

  lemma {:induction false} AbsentIff(s: string, ch: char)
    ensures Absent(s, ch) <==> ch !in s
  {
    if s != "" {
      AbsentIff(s[1..], ch);
      assert ch in s <==> s[0] == ch || ch in s[1..];
    }
  }

  /** What `str.splitlines` takes for the end of a line. */
  predicate IsBreak(ch: char)
  {
    || '\U{000A}' <= ch <= '\U{000D}' || '\U{001C}' <= ch <= '\U{001E}' || ch == '\U{0085}'
    || ch == '\U{2028}' || ch == '\U{2029}'
  }

  /** The length of the first line with its end. */
  function FirstLine(text: string): (n: nat)
    requires text != ""
    ensures 1 <= n <= |text|
  {
    if text[0] == '\r' && |text| > 1 && text[1] == '\n' then 2
    else if IsBreak(text[0]) || |text| == 1 then 1
    else 1 + FirstLine(text[1..])
  }

  function SplitLines(text: string): seq<string>
  {
    if text == "" then [] else [text[..FirstLine(text)]] + SplitLines(text[FirstLine(text)..])
  }
}
