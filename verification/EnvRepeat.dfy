/** Protecting twice is protecting once, when the keyring opens or there is none.

    Sealed lines are the lines of their own text, so parsing the protected text gives back what was
    joined; nothing in it stands in the clear; and the keyring that was found or added is found
    again. A keyring from elsewhere is another matter. */
module EnvRepeat {
  import opened Wrappers
  import opened PyText
  import opened Base64Url
  import opened Envelope
  import opened EnvLines
  import opened EnvSeal
  import opened EnvReparse
  import opened EnvProtect

  // ----- sealed lines -----

  /** Sealed lines of a text are the lines of their text. */
  lemma SealedSettled(m: Machine, master: Bytes, from: seq<EnvLine>, to: seq<EnvLine>)
    requires Settled(from) && SealedLines(m, master, from, to)
    ensures Settled(to)
  {
    forall i: nat | i < |from| ensures Replaces(from[i], to[i]) {
      assert ApartAt(Raws(from), i);
      assert SealedLine(m, master, from[i], to[i]);
      SealedReplaces(m, master, from[i], to[i]);
    }
    ReplacedSettled(from, to);
  }

  lemma ReplacedSettled(from: seq<EnvLine>, to: seq<EnvLine>)
    requires Settled(from) && |to| == |from| && forall i: nat :: i < |from| ==> Replaces(from[i], to[i])
    ensures Settled(to)
  {
    forall i: nat | i < |to| ensures ApartAt(Raws(to), i) {
      assert ApartAt(Raws(from), i) && Replaces(from[i], to[i]);
      if i + 1 < |to| {
        assert ApartAt(Raws(from), i + 1) && Replaces(from[i + 1], to[i + 1]);
      }
    }
  }

  lemma {:induction false} SealedKeyring(m: Machine, master: Bytes, from: seq<EnvLine>, to: seq<EnvLine>)
    requires SealedLines(m, master, from, to)
    ensures KeyringIndex(to) == KeyringIndex(from)
    ensures KeyringIndex(from) < |from| ==> to[KeyringIndex(from)] == from[KeyringIndex(from)]
  {
    if from != [] {
      SealedKind(m, master, from[0], to[0]);
      forall i | 0 <= i < |from| - 1 ensures SealedLine(m, master, from[1..][i], to[1..][i]) {
        assert SealedLine(m, master, from[i + 1], to[i + 1]);
      }
      SealedKeyring(m, master, from[1..], to[1..]);
    }
  }

  lemma SealedKind(m: Machine, master: Bytes, l: EnvLine, l': EnvLine)
    requires SealedLine(m, master, l, l')
    ensures IsKeyringLine(l') == IsKeyringLine(l) && IsSecret(l') == IsSecret(l) && l'.name == l.name
    ensures IsKeyringLine(l) ==> l' == l
  {
    if IsSecret(l) {
      var vals' :| SealedWith(m, master, l, l', vals');
    }
  }

  lemma SealedNotExposed(m: Machine, master: Bytes, from: seq<EnvLine>, to: seq<EnvLine>)
    requires SealedLines(m, master, from, to)
    ensures !AnyExposed(to)
  {
    forall i | 0 <= i < |to| ensures !Exposed(to[i]) { SealedIsNotExposed(m, master, from[i], to[i]); }
  }

  // ----- the lines protection writes itself -----

  predicate IsNewline(e: string)
  {
    e == "\n" || e == "\r\n"
  }

  /** A line that can stand before any other. */
  predicate Ready(l: EnvLine)
  {
    ParseLine(Raw(l)) == l && OneLine(Raw(l)) && Raw(l)[|Raw(l)| - 1] == '\n' && Raw(l)[0] != '\n'
  }

  lemma ReadyLine(body: string, ending: string, l: EnvLine)
    requires IsNewline(ending) && body != "" && NoBreaks(body) && EndsOpen(body) && l == ParseBody(body, ending)
    ensures Ready(l)
  {
    assert Newlines(ending) by { assert ending[..|ending| - 1] == "" || ending[..|ending| - 1] == "\r"; }
    BodyOf(body, ending);
    OneLineJoin(body, ending);
    assert Raw(l)[|Raw(l)| - 1] == '\n';
    assert body[0] == Raw(l)[0] && !IsBreak(body[0]);
  }

  lemma CommentReady(text: string, ending: string)
    requires IsNewline(ending) && text != "" && text[0] == '#' && NoBreaks(text) && EndsOpen(text)
    ensures Ready(Comment(text, ending))
  {
    StripRightKeepsHead(text);
    ReadyLine(text, ending, Comment(text, ending));
  }

  lemma {:induction false} TokenCharsPlain(s: string)
    requires AllTokenChars(s)
    ensures NoBreaks(s) && (s != "" ==> EndsOpen(s) && Trimmed(s))
  {
    if s != "" {
      assert IsTokenChar(s[0]) && IsTokenChar(s[|s| - 1]);
      TokenCharsPlain(s[1..]);
    }
  }

  lemma KeyringPlain(token: string)
    requires IsKeyring(token)
    ensures NoBreaks(token) && EndsOpen(token) && Trimmed(token) && token != ""
  {
    if StartsWith(token, KEK_PREFIX) && AllTokenChars(token[|KEK_PREFIX|..]) {
      PlainAfter(token, KEK_PREFIX);
    } else {
      PlainAfter(token, OBF_PREFIX);
    }
  }

  lemma PlainAfter(token: string, prefix: string)
    requires prefix == KEK_PREFIX || prefix == OBF_PREFIX
    requires StartsWith(token, prefix) && AllTokenChars(token[|prefix|..])
    ensures NoBreaks(token) && EndsOpen(token) && Trimmed(token) && token != ""
  {
    var body := token[|prefix|..];
    assert token == prefix + body;
    TokenCharsPlain(body);
    PrefixPlain(prefix);
    NoBreaksConcat(prefix, body);
    assert token[0] == prefix[0];
    assert token[|token| - 1] == if body != "" then body[|body| - 1] else prefix[|prefix| - 1];
  }

  /** Printable ASCII. */
  predicate Printable(s: string)
  {
    forall i :: 0 <= i < |s| ==> '!' <= s[i] <= '~'
  }

  lemma {:induction false} PrintablePlain(s: string)
    requires Printable(s)
    ensures NoBreaks(s) && EndsOpen(s) && Trimmed(s)
  {
    if s != "" {
      assert '!' <= s[0] <= '~' && '!' <= s[|s| - 1] <= '~';
      PrintablePlain(s[1..]);
    }
  }

  lemma PrefixPlain(prefix: string)
    requires prefix == KEK_PREFIX || prefix == OBF_PREFIX
    ensures NoBreaks(prefix) && prefix != "" && Trimmed(prefix) && EndsOpen(prefix)
  {
    assert Printable(KEK_PREFIX) && Printable(OBF_PREFIX);
    PrintablePlain(prefix);
  }

  lemma PlainNames(name: string)
    requires Printable(name) && name != "" && Absent(name, '=') && name[0] != '#'
    ensures var pre := name + "="; Names(pre) && Strip(pre[..|pre| - 1]) == name && NoBreaks(pre)
  {
    var pre := name + "=";
    assert pre[..|pre| - 1] == name;
    PrintablePlain(name);
    FindConcat(name, "=", '=');
    NoBreaksConcat(name, "=");
    StripBlank("", name, "");
    assert "" + name + "" == name;
    StripLeftKeeps(name, "=");
  }

  lemma KeyringNames()
    ensures var pre := KEYRING_NAME + "="; Names(pre) && Strip(pre[..|pre| - 1]) == KEYRING_NAME && NoBreaks(pre)
  {
    var name := KEYRING_NAME;
    assert Printable(name) && forall i :: 0 <= i < |name| ==> name[i] != '=';
    AbsentIff(name, '=');
    PlainNames(name);
  }

  lemma KeyringReady(token: string, ending: string)
    requires IsNewline(ending) && IsKeyring(token)
    ensures Ready(KeyringLine(token, ending)) && IsKeyringLine(KeyringLine(token, ending))
    ensures Strip(Rhs(KeyringLine(token, ending))) == token
  {
    KeyringPlain(token);
    KeyringNames();
    var pre := KEYRING_NAME + "=";
    ParseNamed(pre, token, ending);
    NoBreaksConcat(pre, token);
    assert (pre + token)[|pre|..] == token;
    ReadyLine(pre + token, ending, KeyringLine(token, ending));
    StripBlank("", token, "");
    assert "" + token + "" == token;
  }

  lemma NoteReady(m: Machine, bound: bool, ending: string)
    requires IsNewline(ending) && Worded(m)
    ensures Ready(Comment(NoteText(m, bound), ending)) && Ready(Comment(HintText(m), ending))
  {
    CommentReady(NoteText(m, bound), ending);
    CommentReady(HintText(m), ending);
  }

  /** The comments are comments: one line each, beginning with `#`. */
  predicate Worded(m: Machine)
  {
    IsComment(NoteText(m, true)) && IsComment(NoteText(m, false)) && IsComment(HintText(m))
  }

  predicate IsComment(text: string)
  {
    text != "" && text[0] == '#' && NoBreaks(text) && EndsOpen(text)
  }

  // ----- a text without a keyring gets a header -----

  /** A line put before settled lines. */
  lemma ReadyBefore(l: EnvLine, lines: seq<EnvLine>)
    requires Ready(l) && Settled(lines)
    ensures Settled([l] + lines)
  {
    var all := [l] + lines;
    forall i: nat | i < |all| ensures ApartAt(Raws(all), i) && ParseLine(Raw(all[i])) == all[i] {
      if i > 0 {
        assert ApartAt(Raws(lines), i - 1);
        assert all[i] == lines[i - 1];
      }
    }
  }

  lemma HeaderSettled(m: Machine, token: string, ending: string, lines: seq<EnvLine>)
    requires IsNewline(ending) && Worded(m) && IsKeyring(token) && Settled(lines)
    ensures Settled(Header(m, token, ending) + lines)
  {
    var h := Header(m, token, ending);
    NoteReady(m, AccountBound(token), ending);
    KeyringReady(token, ending);
    ThreeBefore(h[0], h[1], h[2], lines);
  }

  lemma ThreeBefore(a: EnvLine, b: EnvLine, c: EnvLine, lines: seq<EnvLine>)
    requires Ready(a) && Ready(b) && Ready(c) && Settled(lines)
    ensures Settled([a, b, c] + lines)
  {
    ReadyBefore(c, lines);
    ReadyBefore(b, [c] + lines);
    ReadyBefore(a, [b] + ([c] + lines));
    OneByOne(a, b, c, lines);
  }

  lemma OneByOne(a: EnvLine, b: EnvLine, c: EnvLine, lines: seq<EnvLine>)
    ensures [a, b, c] + lines == [a] + ([b] + ([c] + lines))
  {
  }

  lemma HeaderKeyring(m: Machine, token: string, ending: string, lines: seq<EnvLine>)
    requires IsNewline(ending) && IsKeyring(token)
    ensures KeyringIndex(Header(m, token, ending) + lines) == 2
  {
    KeyringReady(token, ending);
    ThirdIsKeyring(Comment(NoteText(m, AccountBound(token)), ending), Comment(HintText(m), ending), KeyringLine(token, ending), lines);
  }

  lemma ThirdIsKeyring(a: EnvLine, b: EnvLine, c: EnvLine, lines: seq<EnvLine>)
    requires a.name.None? && b.name.None? && IsKeyringLine(c)
    ensures KeyringIndex([a, b, c] + lines) == 2
  {
    var all := [a, b, c] + lines;
    assert all[1..][0] == b && all[1..][1..] == all[2..] && all[2..][0] == c;
    assert KeyringIndex(all[2..]) == 0;
  }

  lemma EndingIsNewline(text: string)
    ensures IsNewline(Ending(text))
  {
  }

  // ----- doing it again -----

  /** A text whose keyring opens and in which nothing stands in the clear stays as it is. */
  lemma StaysProtected(m: Machine, text: string, lines: seq<EnvLine>, r: Outcome)
    requires lines == Parsed(text) && KeyState(m, lines).Some? && KeyState(m, lines).value.Opened? && !AnyExposed(lines)
    requires Protects(m, text, r)
    ensures r == Protected(text, true)
  {
  }

  /** Sealed lines, joined, are protected again to the same text. */
  lemma SealedAgain(m: Machine, master: Bytes, from: seq<EnvLine>, to: seq<EnvLine>, r: Outcome)
    requires Settled(from) && SealedLines(m, master, from, to)
    requires KeyState(m, from).Some? && KeyState(m, from).value.Opened?
    requires Protects(m, Join(to), r)
    ensures r == Protected(Join(to), true)
  {
    SealedSettled(m, master, from, to);
    JoinParse(to);
    SealedKeyring(m, master, from, to);
    SealedNotExposed(m, master, from, to);
    StaysProtected(m, Join(to), to, r);
  }

  /** Protecting a protected text changes nothing: for a text that has a keyring that opens, or none. */
  lemma ProtectTwice(m: Machine, text: string, r: Outcome, r2: Outcome)
    requires Lawful(m) && Worded(m) && Protects(m, text, r) && r.Protected? && r.ok && Protects(m, r.text, r2)
    requires KeyState(m, Parsed(text)) != Some(Unreadable)
    ensures r2 == r
  {
    var lines := Parsed(text);
    ParsedSettled(text);
    match KeyState(m, lines)
    case Some(Opened(master)) =>
      if AnyExposed(lines) {
        var to :| SealedLines(m, master, lines, to) && r == Protected(Join(to), true);
        SealedAgain(m, master, lines, to, r2);
      }
    case Some(_) =>
    case None =>
      if AnyExposed(lines) {
        var master, salt :| Rekeys(m, text, lines, r, master, salt);
        RekeyedAgain(m, text, lines, r, master, salt, r2);
      }
  }

  lemma RekeyedAgain(m: Machine, text: string, lines: seq<EnvLine>, r: Outcome, master: Bytes, salt: Bytes, r2: Outcome)
    requires Lawful(m) && Worded(m) && lines == Parsed(text) && Settled(lines) && KeyState(m, lines) == None
    requires Rekeys(m, text, lines, r, master, salt) && r.Protected? && Protects(m, r.text, r2)
    ensures r2 == r
  {
    var token := WrapMaster(m, master, salt).value;
    var from := Header(m, token, Ending(text)) + lines;
    EndingIsNewline(text);
    WrappedShape(m, master, salt);
    HeaderSettled(m, token, Ending(text), lines);
    HeaderOpens(m, token, Ending(text), lines, master, salt);
    var to :| SealedLines(m, master, from, to) && r == Protected(Join(to), true);
    SealedAgain(m, master, from, to, r2);
  }

  lemma HeaderOpens(m: Machine, token: string, ending: string, lines: seq<EnvLine>, master: Bytes, salt: Bytes)
    requires Lawful(m) && IsNewline(ending) && IsKeyring(token)
    requires |master| == MASTER_LENGTH && |salt| == KEK_SALT_LENGTH && WrapMaster(m, master, salt) == Some(token)
    ensures KeyState(m, Header(m, token, ending) + lines) == Some(Opened(master))
  {
    HeaderKeyring(m, token, ending, lines);
    KeyringReady(token, ending);
    UnwrapWrapped(m, m, master, salt);
  }

  // ----- where the keyring is -----

  lemma {:induction false} KeyringIndexIs(lines: seq<EnvLine>, k: nat)
    requires k <= |lines| && (k < |lines| ==> IsKeyringLine(lines[k]))
    requires forall i :: 0 <= i < k ==> !IsKeyringLine(lines[i])
    ensures KeyringIndex(lines) == k
  {
    if k > 0 { KeyringIndexIs(lines[1..], k - 1); }
  }

  lemma {:induction false} KeyringIndexFirst(lines: seq<EnvLine>)
    ensures forall i :: 0 <= i < KeyringIndex(lines) ==> !IsKeyringLine(lines[i])
  {
    if lines != [] && !IsKeyringLine(lines[0]) {
      KeyringIndexFirst(lines[1..]);
      assert forall i :: 0 < i < |lines| ==> lines[i] == lines[1..][i - 1];
    }
  }
}
