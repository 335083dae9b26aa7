/** Protecting a whole `.env` text: which keyring it gets and which lines are sealed. */
module EnvProtect {
  import opened Wrappers
  import opened PyText
  import opened Base64Url
  import opened Envelope
  import opened EnvParts
  import opened EnvReveal
  import opened EnvLines
  import opened EnvSeal

  /** `ok` is false when the text is returned as it was because it could not be protected;
      `CannotWrap` is the exception that says the machine has no way to wrap a key. */
  datatype Outcome = CannotWrap | Protected(text: string, ok: bool)

  // ----- the keyring -----

  predicate IsKeyringLine(l: EnvLine)
  {
    l.name == Some(KEYRING_NAME) && l.rhsStart <= |l.body|
  }

  /** The first keyring line, or the number of lines. */
  function KeyringIndex(lines: seq<EnvLine>): (k: nat)
    ensures k <= |lines| && (k < |lines| ==> IsKeyringLine(lines[k]))
  {
    if lines == [] || IsKeyringLine(lines[0]) then 0 else 1 + KeyringIndex(lines[1..])
  }

  function KeyState(m: Machine, lines: seq<EnvLine>): Option<Opened>
  {
    var k := KeyringIndex(lines);
    if k == |lines| then None else Some(UnwrapMaster(m, Strip(Rhs(lines[k]))))
  }

  predicate IsCiphertext(l: EnvLine)
  {
    IsSecret(l) && !NoMatch(Rhs(l))
  }

  // The wording of the comments is the machine's.

  function NoteText(m: Machine, bound: bool): string
  {
    m.notePrefix + m.noteTail(bound)
  }

  function HintText(m: Machine): string
  {
    m.hint
  }

  function Comment(text: string, ending: string): EnvLine
  {
    EnvLine(text, ending, None, 0)
  }

  function KeyringLine(token: string, ending: string): EnvLine
  {
    EnvLine(KEYRING_NAME + "=" + token, ending, Some(KEYRING_NAME), |KEYRING_NAME| + 1)
  }

  function AccountBound(token: string): bool
  {
    !StartsWith(token, OBF_PREFIX)
  }

  function NoteIndex(m: Machine, lines: seq<EnvLine>): (k: nat)
    ensures k <= |lines| && (k < |lines| ==> lines[k].name.None? && StartsWith(lines[k].body, m.notePrefix))
    ensures forall i :: 0 <= i < k ==> !(lines[i].name.None? && StartsWith(lines[i].body, m.notePrefix))
  {
    if lines == [] || (lines[0].name.None? && StartsWith(lines[0].body, m.notePrefix)) then 0 else 1 + NoteIndex(m, lines[1..])
  }

  /** An old note is rewritten in place; without one there is none. */
  function RefreshNote(m: Machine, lines: seq<EnvLine>, bound: bool): seq<EnvLine>
  {
    var k := NoteIndex(m, lines);
    if k == |lines| then lines else lines[k := Comment(NoteText(m, bound), lines[k].ending)]
  }

  function Ending(text: string): string
  {
    if HasCrLf(text) then "\r\n" else "\n"
  }

  /** The line end of what is added is that of the text. */
  lemma {:induction false} HasCrLfIff(text: string)
    ensures HasCrLf(text) <==> exists i :: 0 <= i < |text| - 1 && text[i] == '\r' && text[i + 1] == '\n'
  {
    if |text| >= 2 {
      HasCrLfIff(text[1..]);
      if HasCrLf(text[1..]) {
        var i :| 0 <= i < |text[1..]| - 1 && text[1..][i] == '\r' && text[1..][i + 1] == '\n';
        assert text[i + 1] == '\r' && text[i + 1 + 1] == '\n';
      }
      if i :| 0 <= i < |text| - 1 && text[i] == '\r' && text[i + 1] == '\n' {
        if i > 0 { assert text[1..][i - 1] == '\r' && text[1..][i - 1 + 1] == '\n'; }
      }
    }
  }

  predicate HasCrLf(text: string)
  {
    |text| >= 2 && ((text[0] == '\r' && text[1] == '\n') || HasCrLf(text[1..]))
  }

  /** The lines with a keyring for a new master key: the stale line replaced, or a header put first. */
  function Rekeyed(m: Machine, lines: seq<EnvLine>, token: string, ending: string): seq<EnvLine>
  {
    var k := KeyringIndex(lines);
    if k < |lines| then
      RefreshNote(m, lines[k := KeyringLine(token, if lines[k].ending == "" then ending else lines[k].ending)], AccountBound(token))
    else Header(m, token, ending) + lines
  }

  function Header(m: Machine, token: string, ending: string): seq<EnvLine>
  {
    [Comment(NoteText(m, AccountBound(token)), ending), Comment(HintText(m), ending), KeyringLine(token, ending)]
  }

  // ----- what protection does -----

  predicate AnyExposed(lines: seq<EnvLine>)
  {
    exists i {:trigger Exposed(lines[i])} :: 0 <= i < |lines| && Exposed(lines[i])
  }

  predicate AnyCiphertext(lines: seq<EnvLine>)
  {
    exists i {:trigger IsCiphertext(lines[i])} :: 0 <= i < |lines| && IsCiphertext(lines[i])
  }

  /** Every line is sealed under `master`. */
  ghost predicate SealedLines(m: Machine, master: Bytes, from: seq<EnvLine>, to: seq<EnvLine>)
  {
    |to| == |from| && forall i {:trigger SealedLine(m, master, from[i], to[i])} :: 0 <= i < |from| ==> SealedLine(m, master, from[i], to[i])
  }

  function Without(lines: seq<EnvLine>, k: nat): seq<EnvLine>
    requires k < |lines|
  {
    lines[..k] + lines[k + 1..]
  }

  /** The text of `from` with all its values sealed; or the text as it was, when a value would not
      open again. */
  ghost predicate SealsLines(m: Machine, master: Bytes, text: string, from: seq<EnvLine>, r: Outcome)
  {
    || (r == Protected(text, false) && !Lawful(m))
    || (exists to :: SealedLines(m, master, from, to) && r == Protected(Join(to), true))
  }

  /** A new master key: the machine cannot wrap it, or the lines are sealed under it. */
  ghost predicate Rekeys(m: Machine, text: string, lines: seq<EnvLine>, r: Outcome, master: Bytes, salt: Bytes)
  {
    && |master| == MASTER_LENGTH && |salt| == KEK_SALT_LENGTH
    && match WrapMaster(m, master, salt)
       case None => r == CannotWrap
       case Some(token) => SealsLines(m, master, text, Rekeyed(m, lines, token, Ending(text)), r)
  }

  ghost predicate Protects(m: Machine, text: string, r: Outcome)
  {
    var lines := Parsed(text);
    match KeyState(m, lines)
    case Some(Unavailable) => r == CannotWrap
    case Some(Opened(master)) =>
      if AnyExposed(lines) then SealsLines(m, master, text, lines, r) else r == Protected(text, true)
    case Some(Unreadable) =>
      if AnyCiphertext(lines) then r == Protected(text, false)
      else if !AnyExposed(lines) then r == Protected(Join(Without(lines, KeyringIndex(lines))), true)
      else exists master, salt :: Rekeys(m, text, lines, r, master, salt)
    case None =>
      if !AnyExposed(lines) then r == Protected(text, true)
      else exists master, salt :: Rekeys(m, text, lines, r, master, salt)
  }

  method FindExposed(lines: seq<EnvLine>) returns (any: bool)
    ensures any == AnyExposed(lines)
  {
    for i := 0 to |lines|
      invariant forall j :: 0 <= j < i ==> !Exposed(lines[j])
    {
      any := IsExposed(lines[i]);
      if any { return; }
    }
    any := false;
  }

  /** A line with nothing in the clear counts as sealed. */
  lemma UnexposedIsSealed(m: Machine, master: Bytes, l: EnvLine)
    requires !Exposed(l)
    ensures SealedLine(m, master, l, l)
  {
    if IsSecret(l) {
      var p := RhsParts(Rhs(l));
      RhsWeave(Rhs(l));
      assert WithVals(p, p.vals) == p;
      assert l.body == l.body[..l.rhsStart] + Rhs(l);
      forall i | 0 <= i < |p.vals| ensures Sealed(m, master, p.vals[i], p.vals[i]) { assert p.vals[i] in p.vals; }
      assert SealedWith(m, master, l, l, p.vals);
    }
  }

  /** The loop over the lines that have values in the clear. */
  method SealAll(m: Machine, master: Bytes, from: seq<EnvLine>) returns (to: seq<EnvLine>, ok: bool)
    ensures ok ==> SealedLines(m, master, from, to)
    ensures Lawful(m) ==> ok
  {
    to, ok := [], true;
    for i := 0 to |from|
      invariant SealedLines(m, master, from[..i], to)
    {
      var l := from[i];
      var exposed := IsExposed(l);
      if exposed {
        l, ok := SealLine(m, master, l);
        if !ok { return; }
      } else {
        UnexposedIsSealed(m, master, l);
      }
      SealedSnoc(m, master, from, i, to, l);
      to := to + [l];
    }
    assert from[..|from|] == from;
  }

  lemma SealedSnoc(m: Machine, master: Bytes, from: seq<EnvLine>, i: nat, to: seq<EnvLine>, l': EnvLine)
    requires i < |from| && SealedLines(m, master, from[..i], to) && SealedLine(m, master, from[i], l')
    ensures SealedLines(m, master, from[..i + 1], to + [l'])
  {
    forall j | 0 <= j < i + 1 ensures SealedLine(m, master, from[..i + 1][j], (to + [l'])[j]) {
      if j < i { assert SealedLine(m, master, from[..i][j], to[j]); }
    }
  }

  method FindKeyring(lines: seq<EnvLine>) returns (k: nat)
    ensures k == KeyringIndex(lines)
  {
    k := 0;
    while k < |lines| && !IsKeyringLine(lines[k])
      invariant k <= |lines| && KeyringIndex(lines) == k + KeyringIndex(lines[k..])
    {
      assert lines[k..][1..] == lines[k + 1..];
      k := k + 1;
    }
    if k < |lines| { assert lines[k..][0] == lines[k]; }
  }

  method SealText(m: Machine, master: Bytes, text: string, from: seq<EnvLine>) returns (r: Outcome)
    ensures SealsLines(m, master, text, from, r)
  {
    var to, ok := SealAll(m, master, from);
    r := if ok then Protected(Join(to), true) else Protected(text, false);
  }

  method RekeyText(m: Machine, text: string, lines: seq<EnvLine>) returns (r: Outcome)
    ensures exists master, salt :: Rekeys(m, text, lines, r, master, salt)
  {
    var master := RandomBytes(MASTER_LENGTH);
    var salt := RandomBytes(KEK_SALT_LENGTH);
    var token := WrapMaster(m, master, salt);
    if token.None? {
      r := CannotWrap;
    } else {
      r := SealText(m, master, text, Rekeyed(m, lines, token.value, Ending(text)));
    }
    assert Rekeys(m, text, lines, r, master, salt);
  }

  method ProtectText(m: Machine, text: string) returns (r: Outcome)
    ensures Protects(m, text, r)
  {
    var lines := ParseLines(text);
    var k := FindKeyring(lines);
    var hasCiphertext := exists i :: 0 <= i < |lines| && IsCiphertext(lines[i]);
    var todo := FindExposed(lines);
    var stale := false;
    if k < |lines| {
      match UnwrapMaster(m, Strip(Rhs(lines[k])))
      case Unavailable => return CannotWrap;
      case Opened(master) =>
        if todo { r := SealText(m, master, text, lines); } else { r := Protected(text, true); }
        return;
      case Unreadable =>
        if hasCiphertext { return Protected(text, false); }
        stale := true;
    }
    if !todo {
      return if stale then Protected(Join(Without(lines, k)), true) else Protected(text, true);
    }
    r := RekeyText(m, text, lines);
  }
}
