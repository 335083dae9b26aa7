/** Reading a `.env` text, and why protection does not change what is read. */
module EnvRead {
  import opened Wrappers
  import opened PyText
  import opened Base64Url
  import opened Envelope
  import opened EnvParts
  import opened EnvReveal
  import opened EnvLines
  import opened EnvSeal
  import opened EnvReparse
  import opened EnvProtect
  import opened EnvRepeat

  /** The value of the last keyring line from `token` on. */
  function LastKeyring(lines: seq<EnvLine>, token: Option<string>): Option<string>
  {
    if lines == [] then token
    else LastKeyring(lines[1..], if IsKeyringLine(lines[0]) then Some(Strip(Rhs(lines[0]))) else token)
  }

  /** None when the value has a token that does not open here. */
  function Opens(m: Machine, token: Option<string>, value: string): Option<string>
  {
    if NoMatch(value) then Some(value)
    else if token.None? then None
    else
      match UnwrapMaster(m, token.value)
      case Opened(master) => Reveal(m, master, value)
      case _ => None
  }

  /** The lines that set variables. */
  function Pending(lines: seq<EnvLine>): (p: seq<EnvLine>)
    ensures forall i :: 0 <= i < |p| ==> IsSecret(p[i])
  {
    if lines == [] then [] else (if IsSecret(lines[0]) then [lines[0]] else []) + Pending(lines[1..])
  }

  /** The variables, the last setting of a name that can be read winning. */
  function Values(m: Machine, token: Option<string>, pending: seq<EnvLine>, sofar: map<string, string>): map<string, string>
    requires forall i :: 0 <= i < |pending| ==> IsSecret(pending[i])
  {
    if pending == [] then sofar else Values(m, token, pending[1..], OneMore(m, token, pending[0], sofar))
  }

  function OneMore(m: Machine, token: Option<string>, l: EnvLine, sofar: map<string, string>): map<string, string>
    requires IsSecret(l)
  {
    match Opens(m, token, Strip(Rhs(l)))
    case Some(v) => sofar[l.name.value := v]
    case None => sofar
  }

  function ReadLines(m: Machine, lines: seq<EnvLine>): map<string, string>
  {
    Values(m, LastKeyring(lines, None), Pending(lines), map[])
  }

  // ----- what a reading contains -----

  /** The text of the last keyring line; None when there is no keyring line. */
  ghost predicate IsKeyringText(lines: seq<EnvLine>, token: Option<string>)
  {
    match token
    case None => forall i :: 0 <= i < |lines| ==> !IsKeyringLine(lines[i])
    case Some(t) =>
      exists i :: 0 <= i < |lines| && IsKeyringLine(lines[i]) && t == Strip(Rhs(lines[i]))
                  && forall j :: i < j < |lines| ==> !IsKeyringLine(lines[j])
  }

  /** The line sets `name`, and its value opens. */
  predicate Sets(m: Machine, token: Option<string>, l: EnvLine, name: string)
  {
    IsSecret(l) && l.name == Some(name) && Opens(m, token, Strip(Rhs(l))).Some?
  }

  /** Line `i` is the last that sets `name`, and `v` is what its value opens to. */
  predicate SetsLast(m: Machine, token: Option<string>, lines: seq<EnvLine>, i: nat, name: string, v: string)
  {
    && i < |lines| && Sets(m, token, lines[i], name) && Opens(m, token, Strip(Rhs(lines[i]))) == Some(v)
    && forall j :: i < j < |lines| ==> !Sets(m, token, lines[j], name)
  }

  /** Of each name some line sets there is a value, and it is what the last such line opens to. */
  ghost predicate IsReading(m: Machine, token: Option<string>, lines: seq<EnvLine>, values: map<string, string>)
  {
    && (forall i, name :: 0 <= i < |lines| && Sets(m, token, lines[i], name) ==> name in values)
    && (forall name :: name in values ==> exists i: nat :: SetsLast(m, token, lines, i, name, values[name]))
  }

  lemma {:induction false} LastKeyringIs(lines: seq<EnvLine>, token: Option<string>)
    ensures IsKeyringText(lines, LastKeyring(lines, token)) || (IsKeyringText(lines, None) && LastKeyring(lines, token) == token)
    ensures token.None? ==> IsKeyringText(lines, LastKeyring(lines, token))
    ensures token.Some? ==> LastKeyring(lines, token).Some?
  {
    if lines != [] {
      var next := if IsKeyringLine(lines[0]) then Some(Strip(Rhs(lines[0]))) else token;
      LastKeyringIs(lines[1..], next);
      KeyringTextBehind(lines, LastKeyring(lines, token));
    }
  }

  lemma KeyringTextBehind(lines: seq<EnvLine>, token: Option<string>)
    requires lines != []
    ensures IsKeyringText(lines[1..], token) && token.Some? ==> IsKeyringText(lines, token)
    ensures IsKeyringText(lines[1..], None) && IsKeyringLine(lines[0]) ==> IsKeyringText(lines, Some(Strip(Rhs(lines[0]))))
    ensures IsKeyringText(lines[1..], None) && !IsKeyringLine(lines[0]) ==> IsKeyringText(lines, None)
  {
    var rest := lines[1..];
    assert forall i :: 0 < i < |lines| ==> lines[i] == rest[i - 1];
    if IsKeyringText(rest, token) && token.Some? {
      var i :| 0 <= i < |rest| && IsKeyringLine(rest[i]) && token.value == Strip(Rhs(rest[i]))
               && forall j :: i < j < |rest| ==> !IsKeyringLine(rest[j]);
      assert IsKeyringLine(lines[i + 1]) && lines[i + 1] == rest[i];
    }
  }

  /** The reading of some lines on top of what was read before. */
  ghost predicate ReadsOn(m: Machine, token: Option<string>, lines: seq<EnvLine>, sofar: map<string, string>, values: map<string, string>)
  {
    && (forall i, name :: 0 <= i < |lines| && Sets(m, token, lines[i], name) ==> name in values)
    && (forall name :: name in sofar ==> name in values)
    && (forall name :: name in values ==>
          || (exists i: nat :: SetsLast(m, token, lines, i, name, values[name]))
          || (name in sofar && values[name] == sofar[name] && forall i :: 0 <= i < |lines| ==> !Sets(m, token, lines[i], name)))
  }

  lemma {:induction false} ValuesAre(m: Machine, token: Option<string>, lines: seq<EnvLine>, sofar: map<string, string>)
    ensures ReadsOn(m, token, lines, sofar, Values(m, token, Pending(lines), sofar))
    decreases |lines|
  {
    if lines != [] {
      var next := if IsSecret(lines[0]) then OneMore(m, token, lines[0], sofar) else sofar;
      ValuesAre(m, token, lines[1..], next);
      PendingFirst(m, token, lines, sofar);
      ReadsBehind(m, token, lines, sofar, next, Values(m, token, Pending(lines), sofar));
    }
  }

  lemma PendingFirst(m: Machine, token: Option<string>, lines: seq<EnvLine>, sofar: map<string, string>)
    requires lines != []
    ensures Values(m, token, Pending(lines), sofar)
         == Values(m, token, Pending(lines[1..]), if IsSecret(lines[0]) then OneMore(m, token, lines[0], sofar) else sofar)
  {
    if IsSecret(lines[0]) {
      assert Pending(lines)[0] == lines[0] && Pending(lines)[1..] == Pending(lines[1..]);
    } else {
      assert Pending(lines) == Pending(lines[1..]);
    }
  }

  lemma ReadsBehind(m: Machine, token: Option<string>, lines: seq<EnvLine>, sofar: map<string, string>, next: map<string, string>, values: map<string, string>)
    requires lines != [] && ReadsOn(m, token, lines[1..], next, values)
    requires next == if IsSecret(lines[0]) then OneMore(m, token, lines[0], sofar) else sofar
    ensures ReadsOn(m, token, lines, sofar, values)
  {
    var rest := lines[1..];
    assert forall i :: 0 < i < |lines| ==> lines[i] == rest[i - 1];
    forall i, name | 0 <= i < |lines| && Sets(m, token, lines[i], name) ensures name in values {
      if i > 0 { assert Sets(m, token, rest[i - 1], name); } else { assert name in next; }
    }
    forall name | name in values
      ensures (exists i: nat :: SetsLast(m, token, lines, i, name, values[name]))
           || (name in sofar && values[name] == sofar[name] && forall i :: 0 <= i < |lines| ==> !Sets(m, token, lines[i], name))
    {
      if i: nat :| SetsLast(m, token, rest, i, name, values[name]) {
        assert SetsLast(m, token, lines, i + 1, name, values[name]);
      } else if Sets(m, token, lines[0], name) {
        assert SetsLast(m, token, lines, 0, name, values[name]);
      }
    }
  }

  /** The lines as the source reads them. */
  lemma ReadingIs(m: Machine, lines: seq<EnvLine>)
    ensures exists token :: IsKeyringText(lines, token) && IsReading(m, token, lines, ReadLines(m, lines))
  {
    var token := LastKeyring(lines, None);
    LastKeyringIs(lines, None);
    ValuesAre(m, token, lines, map[]);
    assert IsReading(m, token, lines, ReadLines(m, lines));
  }

  lemma CollectOne(lines: seq<EnvLine>, i: nat, token: Option<string>)
    requires i < |lines|
    ensures LastKeyring(lines[i..], token)
         == LastKeyring(lines[i + 1..], if IsKeyringLine(lines[i]) then Some(Strip(Rhs(lines[i]))) else token)
    ensures Pending(lines[i..]) == (if IsSecret(lines[i]) then [lines[i]] else []) + Pending(lines[i + 1..])
  {
    assert lines[i..][0] == lines[i] && lines[i..][1..] == lines[i + 1..];
  }

  method CollectPending(lines: seq<EnvLine>) returns (token: Option<string>, pending: seq<EnvLine>)
    ensures token == LastKeyring(lines, None) && pending == Pending(lines)
  {
    token, pending := None, [];
    for i := 0 to |lines|
      invariant LastKeyring(lines, None) == LastKeyring(lines[i..], token)
      invariant Pending(lines) == pending + Pending(lines[i..])
    {
      var l := lines[i];
      CollectOne(lines, i, token);
      if IsKeyringLine(l) {
        token := Some(Strip(Rhs(l)));
      } else if IsSecret(l) {
        pending := pending + [l];
      }
    }
  }

  lemma ValuesOne(m: Machine, token: Option<string>, pending: seq<EnvLine>, i: nat, sofar: map<string, string>)
    requires i < |pending| && forall j :: 0 <= j < |pending| ==> IsSecret(pending[j])
    ensures Values(m, token, pending[i..], sofar) == Values(m, token, pending[i + 1..], OneMore(m, token, pending[i], sofar))
  {
    assert pending[i..][0] == pending[i] && pending[i..][1..] == pending[i + 1..];
  }

  method ReadEnvFile(m: Machine, text: string) returns (values: map<string, string>)
    ensures values == ReadLines(m, Parsed(text))
    ensures exists token :: IsKeyringText(Parsed(text), token) && IsReading(m, token, Parsed(text), values)
  {
    var lines := ParseLines(text);
    var token, pending := CollectPending(lines);
    values := ReadValues(m, token, pending);
    ReadingIs(m, lines);
  }

  method ReadValues(m: Machine, token: Option<string>, pending: seq<EnvLine>) returns (values: map<string, string>)
    requires forall i :: 0 <= i < |pending| ==> IsSecret(pending[i])
    ensures values == Values(m, token, pending, map[])
  {
    values := map[];
    for i := 0 to |pending|
      invariant Values(m, token, pending, map[]) == Values(m, token, pending[i..], values)
    {
      var l := pending[i];
      ValuesOne(m, token, pending, i, values);
      var plain := Opens(m, token, Strip(Rhs(l)));
      if plain.Some? { values := values[l.name.value := plain.value]; }
    }
  }

  // ----- reading what was protected -----

  /** A sealed value reads as the value that was sealed. */
  lemma SealedReads(m: Machine, master: Bytes, token: string, l: EnvLine, l': EnvLine)
    requires IsSecret(l) && SealedLine(m, master, l, l') && NoMatch(Rhs(l)) && UnwrapMaster(m, token) == Opened(master)
    ensures IsSecret(l') && l'.name == l.name
    ensures Opens(m, Some(token), Strip(Rhs(l'))) == Some(Strip(Rhs(l)))
  {
    var rhs := Rhs(l);
    var vals' :| SealedWith(m, master, l, l', vals');
    SealedFits(m, master, RhsParts(rhs).vals, vals');
    assert Rhs(l') == Weave(WithVals(RhsParts(rhs), vals'));
    StripSplit(rhs);
    NoMatchConcat(LeadOf(rhs) + Strip(rhs), TailOf(rhs));
    NoMatchConcat(LeadOf(rhs), Strip(rhs));
    if Strip(rhs) == "" {
      BlankRhs(rhs, vals');
    } else {
      SealedCoreReads(m, master, rhs, vals');
      OpensRevealed(m, master, token, Strip(Rhs(l')), Strip(rhs));
    }
  }

  lemma OpensRevealed(m: Machine, master: Bytes, token: string, value: string, plain: string)
    requires Reveal(m, master, value) == Some(plain) && UnwrapMaster(m, token) == Opened(master)
    ensures Opens(m, Some(token), value) == Some(plain)
  {
    if NoMatch(value) { RevealPlain(m, master, value); }
  }

  lemma SealedCoreReads(m: Machine, master: Bytes, rhs: string, vals': seq<string>)
    requires Strip(rhs) != "" && NoMatch(Strip(rhs))
    requires AllFit(RhsParts(rhs).vals, vals') && AllSealed(m, master, RhsParts(rhs).vals, vals')
    ensures Reveal(m, master, Strip(Weave(WithVals(RhsParts(rhs), vals')))) == Some(Strip(rhs))
  {
    var core := Strip(rhs);
    SealedRhs(rhs, vals');
    StripSplit(rhs);
    StripBlank(LeadOf(rhs), Weave(WithVals(CoreParts(core), vals')), TailOf(rhs));
    CoreSeparated(core);
    CoreWeave(core);
    RevealFrom(m, master, CoreParts(core), vals');
  }

  /** Lines without a keyring and without anything that looks like a token. */
  predicate Untouched(lines: seq<EnvLine>)
  {
    forall i :: 0 <= i < |lines| ==> !IsKeyringLine(lines[i]) && (IsSecret(lines[i]) ==> NoMatch(Rhs(lines[i])))
  }

  lemma PlainOpens(m: Machine, token: Option<string>, l: EnvLine)
    requires IsSecret(l) && NoMatch(Rhs(l))
    ensures Opens(m, token, Strip(Rhs(l))) == Some(Strip(Rhs(l)))
  {
    StripSplit(Rhs(l));
    NoMatchConcat(LeadOf(Rhs(l)) + Strip(Rhs(l)), TailOf(Rhs(l)));
    NoMatchConcat(LeadOf(Rhs(l)), Strip(Rhs(l)));
  }

  /** What is read does not depend on whether the lines are sealed. */
  lemma {:induction false} SealedValues(m: Machine, master: Bytes, token: string, from: seq<EnvLine>, to: seq<EnvLine>, sofar: map<string, string>)
    requires Untouched(from) && SealedLines(m, master, from, to) && UnwrapMaster(m, token) == Opened(master)
    ensures Values(m, Some(token), Pending(to), sofar) == Values(m, None, Pending(from), sofar)
    ensures LastKeyring(to, Some(token)) == Some(token) && LastKeyring(from, None) == None
  {
    if from != [] {
      var l, l' := from[0], to[0];
      assert SealedLine(m, master, l, l');
      SealedKind(m, master, l, l');
      forall i | 0 <= i < |from| - 1 ensures SealedLine(m, master, from[1..][i], to[1..][i]) {
        assert SealedLine(m, master, from[i + 1], to[i + 1]);
      }
      if IsSecret(l) {
        SealedReads(m, master, token, l, l');
        PlainOpens(m, None, l);
        SealedValues(m, master, token, from[1..], to[1..], OneMore(m, None, l, sofar));
        assert Pending(to)[1..] == Pending(to[1..]) && Pending(from)[1..] == Pending(from[1..]);
      } else {
        SealedValues(m, master, token, from[1..], to[1..], sofar);
        assert Pending(to) == Pending(to[1..]) && Pending(from) == Pending(from[1..]);
      }
    }
  }

  /** The header adds the keyring and no variable. */
  lemma HeaderReads(a: EnvLine, b: EnvLine, c: EnvLine, rest: seq<EnvLine>)
    requires a.name.None? && b.name.None? && IsKeyringLine(c)
    ensures LastKeyring([a, b, c] + rest, None) == LastKeyring(rest, Some(Strip(Rhs(c))))
    ensures Pending([a, b, c] + rest) == Pending(rest)
  {
    NoVariable(c, rest, None);
    NoVariable(b, [c] + rest, None);
    NoVariable(a, [b] + ([c] + rest), None);
    OneByOne(a, b, c, rest);
  }

  lemma NoVariable(l: EnvLine, rest: seq<EnvLine>, token: Option<string>)
    requires !IsSecret(l)
    ensures Pending([l] + rest) == Pending(rest)
    ensures LastKeyring([l] + rest, token) == LastKeyring(rest, if IsKeyringLine(l) then Some(Strip(Rhs(l))) else token)
  {
    assert ([l] + rest)[1..] == rest;
  }

  /** Protection does not change what is read: for every text without a keyring line in which no value
      looks like a token, the protected text reads exactly as the text did. */
  lemma ProtectedReadsTheSame(m: Machine, text: string, r: Outcome)
    requires Lawful(m) && Worded(m) && Untouched(Parsed(text)) && Protects(m, text, r) && r.Protected?
    ensures r.ok && ReadLines(m, Parsed(r.text)) == ReadLines(m, Parsed(text))
  {
    var lines := Parsed(text);
    KeyringIndexIs(lines, |lines|);
    if AnyExposed(lines) {
      ParsedSettled(text);
      var master, salt :| Rekeys(m, text, lines, r, master, salt);
      RekeyedReadsTheSame(m, text, lines, r, master, salt);
    }
  }

  lemma RekeyedReadsTheSame(m: Machine, text: string, lines: seq<EnvLine>, r: Outcome, master: Bytes, salt: Bytes)
    requires Lawful(m) && Worded(m) && Untouched(lines) && Settled(lines) && KeyringIndex(lines) == |lines|
    requires Rekeys(m, text, lines, r, master, salt) && r.Protected?
    ensures r.ok && ReadLines(m, Parsed(r.text)) == ReadLines(m, lines)
  {
    var token, ending := WrapMaster(m, master, salt).value, Ending(text);
    EndingIsNewline(text);
    WrappedShape(m, master, salt);
    HeaderSettled(m, token, ending, lines);
    UnwrapWrapped(m, m, master, salt);
    var from := Header(m, token, ending) + lines;
    var to :| SealedLines(m, master, from, to) && r == Protected(Join(to), true);
    SealedSettled(m, master, from, to);
    JoinParse(to);
    SealedReadsTheSame(m, master, token, ending, lines, from, to);
  }

  lemma SealedReadsTheSame(m: Machine, master: Bytes, token: string, ending: string, lines: seq<EnvLine>, from: seq<EnvLine>, to: seq<EnvLine>)
    requires Untouched(lines) && from == Header(m, token, ending) + lines && SealedLines(m, master, from, to)
    requires UnwrapMaster(m, token) == Opened(master) && IsKeyring(token) && IsNewline(ending)
    ensures ReadLines(m, to) == ReadLines(m, lines)
  {
    KeyringReady(token, ending);
    HeaderKept(m, master, token, ending, lines, from, to);
    ReadsBehindHeader(m, master, token, to[0], to[1], to[2], lines, to[3..]);
    ThreeAndRest(to);
  }

  lemma ThreeAndRest(to: seq<EnvLine>)
    requires |to| >= 3
    ensures to == [to[0], to[1], to[2]] + to[3..]
  {
  }

  lemma ReadsBehindHeader(m: Machine, master: Bytes, token: string, a: EnvLine, b: EnvLine, c: EnvLine, lines: seq<EnvLine>, rest: seq<EnvLine>)
    requires a.name.None? && b.name.None? && IsKeyringLine(c) && Strip(Rhs(c)) == token
    requires Untouched(lines) && SealedLines(m, master, lines, rest) && UnwrapMaster(m, token) == Opened(master)
    ensures ReadLines(m, [a, b, c] + rest) == ReadLines(m, lines)
  {
    SealedValues(m, master, token, lines, rest, map[]);
    HeaderReads(a, b, c, rest);
  }

  /** Sealing leaves the header as it is. */
  lemma HeaderKept(m: Machine, master: Bytes, token: string, ending: string, lines: seq<EnvLine>, from: seq<EnvLine>, to: seq<EnvLine>)
    requires from == Header(m, token, ending) + lines && SealedLines(m, master, from, to)
    ensures SealedLines(m, master, lines, to[3..])
    ensures to[0].name.None? && to[1].name.None? && to[2] == KeyringLine(token, ending)
  {
    forall i | 0 <= i < |lines| ensures SealedLine(m, master, lines[i], to[3..][i]) {
      assert SealedLine(m, master, from[i + 3], to[i + 3]);
    }
    assert SealedLine(m, master, from[0], to[0]) && SealedLine(m, master, from[1], to[1]) && SealedLine(m, master, from[2], to[2]);
  }
}
