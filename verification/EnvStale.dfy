/** Protecting a text a second time after a keyring from elsewhere was replaced or dropped. The text stays
    as it is unless the note in front of the keyring has swallowed it, or a stale line comes after it. */
module EnvStale {
  import opened Wrappers
  import opened PyText
  import opened Base64Url
  import opened Envelope
  import opened EnvLines
  import opened EnvSeal
  import opened EnvReparse
  import opened EnvProtect
  import opened EnvRepeat

  // ----- lines that do not stay apart -----

  /** Line `p` and the one behind it as one. */
  function Merged(lines: seq<EnvLine>, p: nat): seq<EnvLine>
    requires p + 1 < |lines|
  {
    lines[..p] + [ParseLine(Raw(lines[p]) + Raw(lines[p + 1]))] + lines[p + 2..]
  }

  lemma {:induction false} JoinConcat(a: seq<EnvLine>, b: seq<EnvLine>)
    ensures Join(a + b) == Join(a) + Join(b)
  {
    if a == [] {
      assert a + b == b;
    } else {
      assert (a + b)[1..] == a[1..] + b;
      JoinConcat(a[1..], b);
    }
  }

  lemma JoinOne(l: EnvLine)
    ensures Join([l]) == Raw(l)
  {
    assert [l][1..] == [];
  }

  lemma JoinPair(a: EnvLine, b: EnvLine)
    ensures Join([a, b]) == Raw(a) + Raw(b)
  {
    assert [a, b][1..] == [b];
    JoinOne(b);
  }

  lemma Respliced(front: seq<EnvLine>, a: seq<EnvLine>, b: seq<EnvLine>, back: seq<EnvLine>)
    requires Join(a) == Join(b)
    ensures Join(front + a + back) == Join(front + b + back)
  {
    JoinConcat(front + a, back);
    JoinConcat(front, a);
    JoinConcat(front + b, back);
    JoinConcat(front, b);
  }

  lemma PairInside(lines: seq<EnvLine>, p: nat)
    requires p + 1 < |lines|
    ensures lines == lines[..p] + [lines[p], lines[p + 1]] + lines[p + 2..]
  {
  }

  lemma MergedJoin(lines: seq<EnvLine>, p: nat)
    requires p + 1 < |lines|
    ensures Join(Merged(lines, p)) == Join(lines)
  {
    var l := ParseLine(Raw(lines[p]) + Raw(lines[p + 1]));
    JoinOne(l);
    JoinPair(lines[p], lines[p + 1]);
    PairInside(lines, p);
    Respliced(lines[..p], [l], [lines[p], lines[p + 1]], lines[p + 2..]);
  }

  /** A line that parsing, by itself, leaves as it is. */
  predicate Whole(l: EnvLine)
  {
    OneLine(Raw(l)) && ParseLine(Raw(l)) == l
  }

  predicate AllWhole(lines: seq<EnvLine>)
  {
    forall i: nat {:trigger Whole(lines[i])} :: i < |lines| ==> Whole(lines[i])
  }

  /** Line `i` ends where it does though the next one follows. */
  predicate Ends(lines: seq<EnvLine>, i: nat)
  {
    i + 1 < |lines| ==> Closed(Raw(lines[i]), Raw(lines[i + 1]))
  }

  lemma SettledIff(lines: seq<EnvLine>)
    ensures Settled(lines) <==> AllWhole(lines) && forall i: nat :: i < |lines| ==> Ends(lines, i)
  {
    if Settled(lines) {
      forall i: nat | i < |lines| ensures Whole(lines[i]) && Ends(lines, i) { assert ApartAt(Raws(lines), i); }
    }
    if AllWhole(lines) && forall i: nat :: i < |lines| ==> Ends(lines, i) {
      forall i: nat | i < |lines| ensures ApartAt(Raws(lines), i) { assert Whole(lines[i]) && Ends(lines, i); }
      forall i | 0 <= i < |lines| ensures ParseLine(Raw(lines[i])) == lines[i] { assert Whole(lines[i]); }
    }
  }

  /** Lines that stay apart but for the one at `p` and the one behind it. */
  predicate ApartBut(lines: seq<EnvLine>, p: nat)
  {
    && p + 1 < |lines| && AllWhole(lines) && (forall i: nat :: i < |lines| && i != p ==> Ends(lines, i))
    && OneLine(Raw(lines[p]) + Raw(lines[p + 1]))
  }

  lemma MergedAt(lines: seq<EnvLine>, p: nat)
    requires p + 1 < |lines|
    ensures var all := Merged(lines, p);
      && |all| == |lines| - 1 && Raw(all[p]) == Raw(lines[p]) + Raw(lines[p + 1])
      && ParseLine(Raw(all[p])) == all[p]
      && (forall i :: 0 <= i < p ==> all[i] == lines[i]) && (forall i :: p < i < |all| ==> all[i] == lines[i + 1])
  {
  }

  lemma MergedEnds(lines: seq<EnvLine>, p: nat, i: nat)
    requires ApartBut(lines, p) && i < |lines| - 1
    ensures Whole(Merged(lines, p)[i]) && Ends(Merged(lines, p), i)
  {
    var all := Merged(lines, p);
    MergedAt(lines, p);
    assert Whole(lines[p]) && Whole(lines[p + 1]);
    if i < p {
      assert Whole(lines[i]) && Ends(lines, i);
    } else if i == p {
      MergedEnd(lines, p);
    } else {
      assert Whole(lines[i + 1]) && Ends(lines, i + 1);
    }
  }

  lemma MergedEnd(lines: seq<EnvLine>, p: nat)
    requires ApartBut(lines, p)
    ensures Whole(Merged(lines, p)[p]) && Ends(Merged(lines, p), p)
  {
    var all := Merged(lines, p);
    MergedAt(lines, p);
    assert Ends(lines, p + 1) && Whole(lines[p + 1]);
    if p + 2 < |lines| {
      assert Whole(lines[p + 2]);
      ClosedAgain(Raw(lines[p + 1]), Raw(lines[p + 2]), Raw(all[p]), Raw(all[p + 1]));
    }
  }

  lemma ClosedAgain(a: string, b: string, a': string, b': string)
    requires Closed(a, b) && a' != "" && a'[|a'| - 1] == a[|a| - 1]
    requires b' != "" && ((b != "" && b'[0] == b[0]) || !IsBreak(b'[0]))
    ensures Closed(a', b')
  {
  }

  /** Then the text of the lines has those two as one. */
  lemma MergedParse(lines: seq<EnvLine>, p: nat)
    requires ApartBut(lines, p)
    ensures Parsed(Join(lines)) == Merged(lines, p)
  {
    var all := Merged(lines, p);
    forall i: nat | i < |all| ensures Whole(all[i]) && Ends(all, i) { MergedEnds(lines, p, i); }
    SettledIff(all);
    JoinParse(all);
    MergedJoin(lines, p);
  }

  // ----- the second pass -----

  /** The first keyring line opens, or there is none. */
  predicate Readable(m: Machine, lines: seq<EnvLine>)
  {
    KeyState(m, lines).None? || KeyState(m, lines).value.Opened?
  }

  /** The line that counts as the keyring. */
  function FirstKeyring(lines: seq<EnvLine>): Option<EnvLine>
  {
    if KeyringIndex(lines) == |lines| then None else Some(lines[KeyringIndex(lines)])
  }

  predicate NoKeyring(lines: seq<EnvLine>)
  {
    forall i {:trigger IsKeyringLine(lines[i])} :: 0 <= i < |lines| ==> !IsKeyringLine(lines[i])
  }

  lemma FirstRest(lines: seq<EnvLine>)
    requires lines != [] && !IsKeyringLine(lines[0])
    ensures FirstKeyring(lines) == FirstKeyring(lines[1..])
  {
  }

  lemma {:induction false} FirstBehind(front: seq<EnvLine>, back: seq<EnvLine>)
    requires NoKeyring(front)
    ensures FirstKeyring(front + back) == FirstKeyring(back)
    decreases |front|
  {
    if front == [] {
      assert front + back == back;
    } else {
      forall i | 0 <= i < |front| - 1 ensures !IsKeyringLine(front[1..][i]) { assert front[1..][i] == front[i + 1]; }
      FirstBehind(front[1..], back);
      assert (front + back)[0] == front[0] && (front + back)[1..] == front[1..] + back;
      FirstRest(front + back);
    }
  }

  lemma FirstHere(front: seq<EnvLine>, l: EnvLine, back: seq<EnvLine>)
    requires NoKeyring(front) && IsKeyringLine(l)
    ensures FirstKeyring(front + ([l] + back)) == Some(l)
  {
    FirstBehind(front, [l] + back);
    assert KeyringIndex([l] + back) == 0;
  }

  lemma SameState(m: Machine, a: seq<EnvLine>, b: seq<EnvLine>)
    requires FirstKeyring(a) == FirstKeyring(b)
    ensures KeyState(m, a) == KeyState(m, b)
  {
  }

  lemma NoneBefore(lines: seq<EnvLine>)
    ensures NoKeyring(lines[..KeyringIndex(lines)])
  {
    KeyringIndexFirst(lines);
  }

  /** Lines with no keyring up to where they go on alike have the same one. */
  lemma FirstSame(a: seq<EnvLine>, p: nat, b: seq<EnvLine>, q: nat)
    requires p <= |a| && q <= |b| && NoKeyring(a[..p]) && NoKeyring(b[..q]) && a[p..] == b[q..]
    ensures FirstKeyring(a) == FirstKeyring(b)
  {
    assert a == a[..p] + a[p..] && b == b[..q] + b[q..];
    FirstBehind(a[..p], a[p..]);
    FirstBehind(b[..q], b[q..]);
  }

  lemma JoinWithout(lines: seq<EnvLine>, k: nat)
    requires k < |lines|
    ensures |Join(lines)| == |Join(Without(lines, k))| + |Raw(lines[k])|
  {
    assert lines == lines[..k] + ([lines[k]] + lines[k + 1..]);
    JoinConcat(lines[..k], [lines[k]] + lines[k + 1..]);
    JoinConcat([lines[k]], lines[k + 1..]);
    JoinOne(lines[k]);
    JoinConcat(lines[..k], lines[k + 1..]);
  }

  /** Of a text in which nothing stands in the clear: protection leaves it alone exactly when its keyring is
      readable or it has none. */
  lemma SecondPass(m: Machine, text: string, lines: seq<EnvLine>, r: Outcome)
    requires lines == Parsed(text) && !AnyExposed(lines) && Protects(m, text, r)
    ensures r == Protected(text, true) <==> Readable(m, lines)
  {
    if KeyState(m, lines) == Some(Unreadable) && !AnyCiphertext(lines) {
      var k := KeyringIndex(lines);
      JoinWithout(lines, k);
      ParseJoin(text);
      assert Raw(lines[k]) != "";
    }
  }

  // ----- a stale keyring is dropped -----

  lemma SameBody(body: string, e: string, e': string)
    ensures ParseBody(body, e).name == ParseBody(body, e').name && ParseBody(body, e).rhsStart == ParseBody(body, e').rhsStart
  {
  }

  /** What comes of a blank line behind one that ends in a carriage return alone. */
  lemma SwallowedBreak(l: EnvLine, raw: string)
    requires Whole(l) && raw == Raw(l) + "\n" && Raw(l)[|Raw(l)| - 1] == '\r'
    ensures OneLine(raw)
    ensures var both := ParseLine(raw); both.body == l.body && both.name == l.name && both.rhsStart == l.rhsStart
  {
    assert raw[..|raw| - 1] == Raw(l);
    assert Body(raw) == Body(Raw(l));
    SameBody(l.body, l.ending, raw[|l.body|..]);
    assert forall i :: 0 <= i < |raw| - 1 ==> raw[i] == Raw(l)[i];
  }

  lemma BlankLine(l: EnvLine)
    requires Whole(l) && Raw(l)[0] == '\n'
    ensures Raw(l) == "\n" && l.name.None?
  {
    assert IsBreak(Raw(l)[0]);
    assert |Raw(l)| == 1 && Raw(l)[..0] == "";
    assert Body(Raw(l)) == "" && Strip("") == "";
  }

  /** The line before the one left out runs into the one behind it. */
  predicate RunsOn(lines: seq<EnvLine>, k: nat)
    requires k < |lines|
  {
    k > 0 && k + 1 < |lines| && !Closed(Raw(lines[k - 1]), Raw(lines[k + 1]))
  }

  lemma RunOnBreak(lines: seq<EnvLine>, k: nat)
    requires Settled(lines) && k < |lines| && RunsOn(lines, k)
    ensures Whole(lines[k - 1]) && Raw(lines[k - 1])[|Raw(lines[k - 1])| - 1] == '\r'
    ensures Raw(lines[k + 1]) == "\n" && lines[k + 1].name.None?
  {
    SettledIff(lines);
    assert Ends(lines, k - 1) && Whole(lines[k - 1]) && Whole(lines[k + 1]);
    BlankLine(lines[k + 1]);
  }

  /** What is left of settled lines without one is settled, or but for the place where it was. */
  lemma RestIs(lines: seq<EnvLine>, k: nat)
    requires k < |lines|
    ensures var rest := Without(lines, k);
      && |rest| == |lines| - 1
      && (forall i :: 0 <= i < k ==> rest[i] == lines[i]) && (forall i :: k <= i < |rest| ==> rest[i] == lines[i + 1])
  {
  }

  lemma RestEnds(lines: seq<EnvLine>, k: nat, i: nat)
    requires Settled(lines) && k < |lines| && i < |lines| - 1
    ensures Whole(Without(lines, k)[i]) && ((i + 1 == k && RunsOn(lines, k)) || Ends(Without(lines, k), i))
  {
    RestIs(lines, k);
    SettledIff(lines);
    if i < k {
      assert Whole(lines[i]) && Ends(lines, i);
    } else {
      assert Whole(lines[i + 1]) && Ends(lines, i + 1);
    }
  }

  lemma RestApart(lines: seq<EnvLine>, k: nat)
    requires Settled(lines) && k < |lines|
    ensures if RunsOn(lines, k) then ApartBut(Without(lines, k), k - 1) else Settled(Without(lines, k))
  {
    var rest := Without(lines, k);
    forall i: nat | i < |rest| ensures Whole(rest[i]) && ((i + 1 == k && RunsOn(lines, k)) || Ends(rest, i)) { RestEnds(lines, k, i); }
    if RunsOn(lines, k) {
      RunOnBreak(lines, k);
      SwallowedBreak(lines[k - 1], Raw(lines[k - 1]) + Raw(lines[k + 1]));
      RestIs(lines, k);
      assert Raw(rest[k - 1]) + Raw(rest[k]) == Raw(lines[k - 1]) + Raw(lines[k + 1]);
    } else {
      SettledIff(rest);
    }
  }

  lemma RestHidden(lines: seq<EnvLine>, k: nat)
    requires k < |lines| && !AnyExposed(lines)
    ensures !AnyExposed(Without(lines, k))
  {
    forall i | 0 <= i < |lines| - 1 ensures !Exposed(Without(lines, k)[i]) {
      assert !Exposed(lines[if i < k then i else i + 1]);
    }
  }

  /** Nothing stands in the clear when the keyring is dropped, and the next one counts. */
  lemma DroppedFinds(lines: seq<EnvLine>, k: nat)
    requires Settled(lines) && k == KeyringIndex(lines) < |lines| && !AnyExposed(lines)
    ensures var to := Parsed(Join(Without(lines, k)));
            !AnyExposed(to) && FirstKeyring(to) == FirstKeyring(lines[k + 1..])
  {
    RestApart(lines, k);
    if RunsOn(lines, k) {
      MergedParse(Without(lines, k), k - 1);
      MergedRest(lines, k);
    } else {
      JoinParse(Without(lines, k));
      RestHidden(lines, k);
      RestKeyring(lines);
    }
  }

  lemma RestKeyring(lines: seq<EnvLine>)
    requires KeyringIndex(lines) < |lines|
    ensures FirstKeyring(Without(lines, KeyringIndex(lines))) == FirstKeyring(lines[KeyringIndex(lines) + 1..])
  {
    NoneBefore(lines);
    FirstBehind(lines[..KeyringIndex(lines)], lines[KeyringIndex(lines) + 1..]);
  }

  lemma MergedRest(lines: seq<EnvLine>, k: nat)
    requires Settled(lines) && k == KeyringIndex(lines) < |lines| && RunsOn(lines, k) && !AnyExposed(lines)
    ensures var merged := Merged(Without(lines, k), k - 1);
            !AnyExposed(merged) && FirstKeyring(merged) == FirstKeyring(lines[k + 1..])
  {
    var both := ParseLine(Raw(lines[k - 1]) + Raw(lines[k + 1]));
    RunOnBreak(lines, k);
    SwallowedBreak(lines[k - 1], Raw(lines[k - 1]) + Raw(lines[k + 1]));
    MergedIs(lines, k);
    LikeIt(lines[k - 1], both);
    MergedHidden(lines, k, both);
    MergedState(lines, k, both);
  }

  lemma MergedHidden(lines: seq<EnvLine>, k: nat, both: EnvLine)
    requires 0 < k < |lines| - 1 && !AnyExposed(lines) && Exposed(both) == Exposed(lines[k - 1])
    ensures !AnyExposed((lines[..k - 1] + [both]) + lines[k + 2..])
  {
    var all := (lines[..k - 1] + [both]) + lines[k + 2..];
    forall i | 0 <= i < |all| ensures !Exposed(all[i]) {
      assert !Exposed(lines[if i < k then i else i + 2]);
    }
  }

  lemma MergedSlices(lines: seq<EnvLine>, k: nat, both: EnvLine)
    requires 0 < k < |lines| - 1
    ensures var all, back := (lines[..k - 1] + [both]) + lines[k + 2..], lines[k + 1..];
      && all[..k] == lines[..k - 1] + [both] && all[k..] == lines[k + 2..] == back[1..] && back[..1] == [lines[k + 1]]
  {
  }

  lemma MergedState(lines: seq<EnvLine>, k: nat, both: EnvLine)
    requires k == KeyringIndex(lines) && 0 < k < |lines| - 1 && lines[k + 1].name.None?
    requires IsKeyringLine(both) == IsKeyringLine(lines[k - 1])
    ensures FirstKeyring((lines[..k - 1] + [both]) + lines[k + 2..]) == FirstKeyring(lines[k + 1..])
  {
    MergedFront(lines, k, both);
    MergedSlices(lines, k, both);
    FirstSame((lines[..k - 1] + [both]) + lines[k + 2..], k, lines[k + 1..], 1);
  }

  lemma MergedFront(lines: seq<EnvLine>, k: nat, both: EnvLine)
    requires k == KeyringIndex(lines) && 0 < k < |lines| && IsKeyringLine(both) == IsKeyringLine(lines[k - 1])
    ensures NoKeyring(lines[..k - 1] + [both])
  {
    var front := lines[..k - 1] + [both];
    KeyringIndexFirst(lines);
    forall i | 0 <= i < k ensures !IsKeyringLine(front[i]) { assert !IsKeyringLine(lines[i]); }
  }

  lemma MergedIs(lines: seq<EnvLine>, k: nat)
    requires 0 < k < |lines| - 1
    ensures Merged(Without(lines, k), k - 1) == (lines[..k - 1] + [ParseLine(Raw(lines[k - 1]) + Raw(lines[k + 1]))]) + lines[k + 2..]
  {
    RestIs(lines, k);
  }

  lemma LikeIt(l: EnvLine, l': EnvLine)
    requires l'.body == l.body && l'.name == l.name && l'.rhsStart == l.rhsStart
    ensures Exposed(l') == Exposed(l) && IsKeyringLine(l') == IsKeyringLine(l)
  {
  }

  // ----- a stale keyring is replaced -----

  predicate IsEnd(e: string)
  {
    e == "" || e == "\n" || e == "\r\n" || e == "\r"
  }

  lemma {:induction false} NewlinesAt(e: string, i: nat)
    requires Newlines(e) && i < |e|
    ensures e[i] == '\n' || e[i] == '\r'
  {
    if i < |e| - 1 { NewlinesAt(e[..|e| - 1], i); }
  }

  lemma EndOfLine(b: string, e: string)
    requires OneLine(b + e) && Newlines(e)
    ensures IsEnd(e)
  {
    var raw := b + e;
    if e != "" {
      NewlinesAt(e, 0);
      assert raw[|b|] == e[0] && raw[|raw| - 1] == e[|e| - 1];
    }
  }

  lemma EndingIs(l: EnvLine)
    requires Whole(l)
    ensures IsEnd(l.ending)
  {
    BodySplit(Raw(l));
    EndOfLine(l.body, l.ending);
  }

  /** The line is whole, begins with no break and ends as `ending` does. */
  predicate Fresh(l: EnvLine, ending: string)
  {
    Whole(l) && !IsBreak(Raw(l)[0]) && (ending != "" ==> Raw(l)[|Raw(l)| - 1] == ending[|ending| - 1])
  }

  lemma EndIsNewlines(e: string)
    requires IsEnd(e)
    ensures Newlines(e) && (e == "" || OneLine(e))
  {
    if e == "\r\n" { assert e[..|e| - 1] == "\r"; }
    if e != "" { assert e[..|e| - 1] == "" || e[..|e| - 1] == "\r"; }
  }

  lemma FreshLine(body: string, ending: string, l: EnvLine)
    requires IsEnd(ending) && body != "" && NoBreaks(body) && EndsOpen(body) && l == ParseBody(body, ending)
    ensures Fresh(l, ending)
  {
    EndIsNewlines(ending);
    BodyOf(body, ending);
    OneLineJoin(body, ending);
    FreshEnds(body, ending);
  }

  lemma FreshEnds(body: string, ending: string)
    requires body != "" && NoBreaks(body)
    ensures !IsBreak((body + ending)[0]) && (ending != "" ==> (body + ending)[|body + ending| - 1] == ending[|ending| - 1])
  {
  }

  lemma FreshComment(text: string, ending: string)
    requires IsEnd(ending) && IsComment(text)
    ensures Fresh(Comment(text, ending), ending)
  {
    StripRightKeepsHead(text);
    FreshLine(text, ending, Comment(text, ending));
  }

  lemma KeyringParts(token: string, ending: string)
    requires IsKeyring(token)
    ensures var body, l := KEYRING_NAME + "=" + token, KeyringLine(token, ending);
      && body != "" && NoBreaks(body) && EndsOpen(body) && l == ParseBody(body, ending) && IsKeyringLine(l) && Rhs(l) == token
  {
    var pre := KEYRING_NAME + "=";
    KeyringPlain(token);
    KeyringNames();
    ParseNamed(pre, token, ending);
    NoBreaksConcat(pre, token);
    assert (pre + token)[|pre|..] == token;
  }

  lemma FreshKeyring(token: string, ending: string)
    requires IsEnd(ending) && IsKeyring(token)
    ensures Fresh(KeyringLine(token, ending), ending) && IsKeyringLine(KeyringLine(token, ending))
    ensures Strip(Rhs(KeyringLine(token, ending))) == token
  {
    KeyringParts(token, ending);
    FreshLine(KEYRING_NAME + "=" + token, ending, KeyringLine(token, ending));
    StripTrimmed(token);
  }

  lemma StripTrimmed(token: string)
    requires IsKeyring(token)
    ensures Strip(token) == token
  {
    KeyringPlain(token);
    StripBlank("", token, "");
    assert "" + token + "" == token;
  }

  lemma NoteIndexSame(m: Machine, lines: seq<EnvLine>, k: nat, l: EnvLine)
    requires k < |lines| && lines[k].name.Some? && l.name.Some?
    ensures NoteIndex(m, lines[k := l]) == NoteIndex(m, lines)
    ensures NoteIndex(m, lines) < |lines| ==> lines[NoteIndex(m, lines)].name.None?
    decreases |lines|
  {
    var lines' := lines[k := l];
    if !(lines[0].name.None? && StartsWith(lines[0].body, m.notePrefix)) {
      if k > 0 {
        assert lines'[1..] == lines[1..][k - 1 := l];
        NoteIndexSame(m, lines[1..], k - 1, l);
      } else {
        assert lines'[1..] == lines[1..];
        NoteIsUnnamed(m, lines[1..]);
      }
    }
  }

  lemma {:induction false} NoteIsUnnamed(m: Machine, lines: seq<EnvLine>)
    ensures NoteIndex(m, lines) < |lines| ==> lines[NoteIndex(m, lines)].name.None?
  {
    if lines != [] && !(lines[0].name.None? && StartsWith(lines[0].body, m.notePrefix)) { NoteIsUnnamed(m, lines[1..]); }
  }

  /** The ending of the new keyring line. */
  function NewEnding(lines: seq<EnvLine>, k: nat, ending: string): string
    requires k < |lines|
  {
    if lines[k].ending == "" then ending else lines[k].ending
  }

  /** `from` is `lines` with the keyring at `k` replaced and the note at `j`, if there is one, rewritten. */
  ghost predicate Rebuilt(m: Machine, lines: seq<EnvLine>, from: seq<EnvLine>, k: nat, j: nat, token: string, ending: string)
  {
    && |from| == |lines| && k < |lines| && k != j && IsKeyring(token) && IsNewline(ending) && Worded(m)
    && from[k] == KeyringLine(token, NewEnding(lines, k, ending))
    && (j < |lines| ==> from[j] == Comment(NoteText(m, AccountBound(token)), lines[j].ending))
    && forall i :: 0 <= i < |lines| && i != k && i != j ==> from[i] == lines[i]
  }

  lemma RekeyedIs(m: Machine, lines: seq<EnvLine>, token: string, ending: string)
    requires KeyringIndex(lines) < |lines| && IsKeyring(token) && IsNewline(ending) && Worded(m)
    ensures Rebuilt(m, lines, Rekeyed(m, lines, token, ending), KeyringIndex(lines), NoteIndex(m, lines), token, ending)
  {
    var k := KeyringIndex(lines);
    NoteIndexSame(m, lines, k, KeyringLine(token, NewEnding(lines, k, ending)));
  }

  lemma SettledLine(lines: seq<EnvLine>, i: nat)
    requires Settled(lines) && i < |lines|
    ensures Whole(lines[i]) && IsEnd(lines[i].ending) && Ends(lines, i)
  {
    SettledIff(lines);
    EndingIs(lines[i]);
  }

  /** How a line of `from` begins and ends. */
  predicate Like(l: EnvLine, l': EnvLine)
  {
    && Raw(l) != "" && Raw(l') != "" && (Raw(l')[0] == Raw(l)[0] || !IsBreak(Raw(l')[0]))
    && (l.ending != "" || l' == l ==> Raw(l')[|Raw(l')| - 1] == Raw(l)[|Raw(l)| - 1])
  }

  lemma FreshIsLike(l: EnvLine, l': EnvLine, ending: string)
    requires Whole(l) && Fresh(l', ending) && (l.ending != "" ==> ending == l.ending)
    ensures Like(l, l')
  {
    if l.ending != "" { assert Raw(l)[|Raw(l)| - 1] == l.ending[|l.ending| - 1]; }
  }

  lemma RebuiltLike(m: Machine, lines: seq<EnvLine>, from: seq<EnvLine>, k: nat, j: nat, token: string, ending: string, i: nat)
    requires Settled(lines) && Rebuilt(m, lines, from, k, j, token, ending) && i < |from|
    ensures Whole(from[i]) && Like(lines[i], from[i])
    ensures i == k && lines[k].ending == "" ==> EndsInNewline(from[k])
  {
    SettledLine(lines, i);
    if i == k {
      FreshKeyring(token, NewEnding(lines, k, ending));
      FreshIsLike(lines[k], from[k], NewEnding(lines, k, ending));
    } else if i == j {
      FreshComment(NoteText(m, AccountBound(token)), lines[j].ending);
      FreshIsLike(lines[j], from[j], lines[j].ending);
    }
  }

  /** Line `i` is whole and ends where it does, but for a note whose line has no newline of its own. */
  lemma RebuiltLine(m: Machine, lines: seq<EnvLine>, from: seq<EnvLine>, k: nat, j: nat, token: string, ending: string, i: nat)
    requires Settled(lines) && Rebuilt(m, lines, from, k, j, token, ending) && i < |from|
    ensures Whole(from[i]) && ((i == j && lines[j].ending == "") || Ends(from, i))
  {
    RebuiltLike(m, lines, from, k, j, token, ending, i);
    if i + 1 < |from| {
      SettledLine(lines, i);
      RebuiltLike(m, lines, from, k, j, token, ending, i + 1);
      LikeEnds(lines[i], lines[i + 1], from[i], from[i + 1]);
      RebuiltEnds(m, lines, from, k, j, token, ending, i);
    }
  }

  lemma RebuiltEnds(m: Machine, lines: seq<EnvLine>, from: seq<EnvLine>, k: nat, j: nat, token: string, ending: string, i: nat)
    requires Rebuilt(m, lines, from, k, j, token, ending) && i + 1 < |from|
    requires lines[i].ending != "" || from[i] == lines[i] || EndsInNewline(from[i]) ==> Closed(Raw(from[i]), Raw(from[i + 1]))
    requires i == k && lines[k].ending == "" ==> EndsInNewline(from[k])
    ensures (i == j && lines[j].ending == "") || Ends(from, i)
  {
  }

  predicate EndsInNewline(l: EnvLine)
  {
    Raw(l) != "" && Raw(l)[|Raw(l)| - 1] == '\n'
  }

  lemma LikeEnds(l: EnvLine, next: EnvLine, l': EnvLine, next': EnvLine)
    requires Closed(Raw(l), Raw(next)) && Like(l, l') && Like(next, next')
    ensures l.ending != "" || l' == l || EndsInNewline(l') ==> Closed(Raw(l'), Raw(next'))
  {
  }

  /** The sealed lines end where the lines did. */
  lemma SealedEnds(m: Machine, master: Bytes, from: seq<EnvLine>, to: seq<EnvLine>, i: nat)
    requires SealedLines(m, master, from, to) && AllWhole(from) && i < |from|
    ensures Whole(to[i]) && (Ends(from, i) ==> Ends(to, i))
  {
    SealedLike(m, master, from, to, i);
    if i + 1 < |from| && Ends(from, i) {
      SealedLike(m, master, from, to, i + 1);
      ReplacesEnds(from[i], from[i + 1], to[i], to[i + 1]);
    }
  }

  lemma SealedLike(m: Machine, master: Bytes, from: seq<EnvLine>, to: seq<EnvLine>, i: nat)
    requires SealedLines(m, master, from, to) && AllWhole(from) && i < |from|
    ensures Whole(to[i]) && Replaces(from[i], to[i])
  {
    assert Whole(from[i]);
    SealedReplaces(m, master, from[i], to[i]);
  }

  lemma ReplacesEnds(l: EnvLine, next: EnvLine, l': EnvLine, next': EnvLine)
    requires Closed(Raw(l), Raw(next)) && Replaces(l, l') && Replaces(next, next')
    ensures Closed(Raw(l'), Raw(next'))
  {
  }

  lemma HashLine(raw: string)
    requires raw != "" && raw[0] == '#'
    ensures ParseLine(raw).name.None?
  {
    BodyKeepsHead(raw);
    StripRightKeepsHead(Body(raw));
  }

  lemma {:induction false} BodyKeepsHead(raw: string)
    requires raw != "" && raw[0] == '#'
    ensures Body(raw) != "" && Body(raw)[0] == '#'
  {
    if raw[|raw| - 1] == '\n' || raw[|raw| - 1] == '\r' { BodyKeepsHead(raw[..|raw| - 1]); }
  }

  // ----- what becomes of the keyring -----

  /** The note stands right before the keyring, on a line that has no newline of its own (it ends in another
      of the characters that `str.splitlines` takes for an end): rewritten, it runs into the keyring. */
  predicate Swallowed(m: Machine, lines: seq<EnvLine>)
  {
    var k := KeyringIndex(lines);
    0 < k < |lines| && NoteIndex(m, lines) == k - 1 && lines[k - 1].ending == ""
  }

  lemma SealedBehind(m: Machine, master: Bytes, from: seq<EnvLine>, to: seq<EnvLine>, p: nat)
    requires SealedLines(m, master, from, to) && p <= |from|
    ensures FirstKeyring(to[p..]) == FirstKeyring(from[p..])
  {
    forall i | 0 <= i < |from| - p ensures SealedLine(m, master, from[p..][i], to[p..][i]) {
      assert SealedLine(m, master, from[p + i], to[p + i]);
    }
    SealedKeyring(m, master, from[p..], to[p..]);
  }

  /** No line before the keyring is one. */
  lemma SealedFront(m: Machine, master: Bytes, lines: seq<EnvLine>, from: seq<EnvLine>, to: seq<EnvLine>, k: nat, j: nat, token: string, ending: string)
    requires Rebuilt(m, lines, from, k, j, token, ending) && k == KeyringIndex(lines) && SealedLines(m, master, from, to)
    ensures NoKeyring(to[..k]) && IsKeyringLine(to[k])
    ensures to[k] == from[k] && (j < |lines| ==> to[j] == from[j])
  {
    KeyringParts(token, NewEnding(lines, k, ending));
    SealedAt(m, master, from, to, k);
    if j < |lines| { SealedAt(m, master, from, to, j); }
    RebuiltFront(m, lines, from, k, j, token, ending);
    NoneSealed(m, master, from, to, k);
  }

  lemma NoneSealed(m: Machine, master: Bytes, from: seq<EnvLine>, to: seq<EnvLine>, k: nat)
    requires SealedLines(m, master, from, to) && k <= |from| && forall i :: 0 <= i < k ==> !IsKeyringLine(from[i])
    ensures NoKeyring(to[..k])
  {
    forall i | 0 <= i < k ensures !IsKeyringLine(to[..k][i]) { SealedAt(m, master, from, to, i); }
  }

  lemma RebuiltFront(m: Machine, lines: seq<EnvLine>, from: seq<EnvLine>, k: nat, j: nat, token: string, ending: string)
    requires Rebuilt(m, lines, from, k, j, token, ending) && k == KeyringIndex(lines)
    ensures forall i :: 0 <= i < k ==> !IsKeyringLine(from[i])
  {
    KeyringIndexFirst(lines);
    forall i | 0 <= i < k ensures !IsKeyringLine(from[i]) { assert i == j ==> from[i].name.None?; }
  }

  lemma SealedAt(m: Machine, master: Bytes, from: seq<EnvLine>, to: seq<EnvLine>, i: nat)
    requires SealedLines(m, master, from, to) && i < |from|
    ensures IsKeyringLine(to[i]) == IsKeyringLine(from[i])
    ensures IsKeyringLine(from[i]) || from[i].name.None? ==> to[i] == from[i]
  {
    SealedKind(m, master, from[i], to[i]);
    assert SealedLine(m, master, from[i], to[i]);
  }

  // ----- doing it again -----

  /** The lines that stand before the keyring, the keyring, and what stands behind it. */
  lemma FirstAt(lines: seq<EnvLine>, k: nat)
    requires k < |lines| && IsKeyringLine(lines[k]) && forall i :: 0 <= i < k ==> !IsKeyringLine(lines[i])
    ensures FirstKeyring(lines) == Some(lines[k])
  {
    KeyringIndexIs(lines, k);
  }

  /** The note and the line behind it as one are a comment. */
  lemma MergedNote(to: seq<EnvLine>, j: nat, note: string, k: nat)
    requires j + 1 < |to| && IsComment(note) && to[j] == Comment(note, "") && !AnyExposed(to)
    requires k < |to| && k != j && IsKeyringLine(to[k]) && NoKeyring(to[..k])
    ensures var all := Merged(to, j);
            !AnyExposed(all) && FirstKeyring(all) == if k == j + 1 then FirstKeyring(to[k + 1..]) else Some(to[k])
  {
    var all := Merged(to, j);
    MergedAt(to, j);
    HashLine(Raw(to[j]) + Raw(to[j + 1]));
    forall i | 0 <= i < |all| ensures !Exposed(all[i]) {
      if i < j { assert all[i] == to[i]; } else if i > j { assert all[i] == to[i + 1]; }
    }
    assert forall i :: 0 <= i < k ==> !IsKeyringLine(to[..k][i]);
    if k == j + 1 {
      assert all == all[..j + 1] + to[k + 1..];
      FirstBehind(all[..j + 1], to[k + 1..]);
    } else {
      FirstAt(all, if k < j then k else k - 1);
    }
  }

  lemma NoteRunsOn(to: seq<EnvLine>, j: nat, note: string)
    requires j + 1 < |to| && IsComment(note) && to[j] == Comment(note, "")
    requires AllWhole(to) && forall i: nat :: i < |to| && i != j ==> Ends(to, i)
    ensures Parsed(Join(to)) == Merged(to, j)
  {
    assert Whole(to[j + 1]) && Raw(to[j]) == note;
    OneLineJoin(note, Raw(to[j + 1]));
    MergedParse(to, j);
  }

  lemma ParsesAgain(to: seq<EnvLine>)
    requires AllWhole(to) && (forall i: nat :: i < |to| ==> Ends(to, i))
    ensures Parsed(Join(to)) == to
  {
    SettledIff(to);
    JoinParse(to);
  }

  lemma KeyringStays(to: seq<EnvLine>, k: nat)
    requires k < |to| && IsKeyringLine(to[k]) && NoKeyring(to[..k])
    ensures FirstKeyring(to) == Some(to[k])
  {
    assert to == to[..k] + ([to[k]] + to[k + 1..]);
    FirstHere(to[..k], to[k], to[k + 1..]);
  }

  /** What a second pass finds in the text of lines with a keyring at `k`, when the comment at `j` may have no
      newline of its own. */
  lemma PassFinds(to: seq<EnvLine>, k: nat, j: nat, note: string, open: bool)
    requires AllWhole(to) && (forall i: nat :: i < |to| && !(i == j && open) ==> Ends(to, i)) && !AnyExposed(to)
    requires k < |to| && k != j && IsKeyringLine(to[k]) && NoKeyring(to[..k])
    requires open && j < |to| ==> IsComment(note) && to[j] == Comment(note, "")
    ensures !AnyExposed(Parsed(Join(to)))
    ensures FirstKeyring(Parsed(Join(to))) == if k == j + 1 && open then FirstKeyring(to[k + 1..]) else Some(to[k])
  {
    if j + 1 < |to| && open {
      NoteRunsOn(to, j, note);
      MergedNote(to, j, note, k);
    } else {
      assert forall i: nat :: i < |to| ==> Ends(to, i);
      ParsesAgain(to);
      KeyringStays(to, k);
    }
  }

  /** What a second pass finds in the text of sealed lines whose keyring was replaced. */
  lemma SealedFinds(m: Machine, master: Bytes, lines: seq<EnvLine>, from: seq<EnvLine>, to: seq<EnvLine>, k: nat, j: nat, token: string, ending: string)
    requires Settled(lines) && Rebuilt(m, lines, from, k, j, token, ending) && k == KeyringIndex(lines)
    requires SealedLines(m, master, from, to)
    ensures var found := Parsed(Join(to));
            !AnyExposed(found)
            && FirstKeyring(found) == if k == j + 1 && lines[j].ending == "" then FirstKeyring(lines[k + 1..]) else Some(from[k])
  {
    var open := j < |lines| && lines[j].ending == "";
    SealedNotExposed(m, master, from, to);
    SealedFront(m, master, lines, from, to, k, j, token, ending);
    EndsAgain(m, master, lines, from, to, k, j, token, ending);
    PassFinds(to, k, j, NoteText(m, AccountBound(token)), open);
    if k == j + 1 {
      RebuiltTail(m, lines, from, k, j, token, ending);
      SealedTail(m, master, lines, from, to, k + 1);
    }
  }

  lemma SealedTail(m: Machine, master: Bytes, lines: seq<EnvLine>, from: seq<EnvLine>, to: seq<EnvLine>, p: nat)
    requires SealedLines(m, master, from, to) && p <= |from| == |lines| && from[p..] == lines[p..]
    ensures FirstKeyring(to[p..]) == FirstKeyring(lines[p..])
  {
    SealedBehind(m, master, from, to, p);
  }

  lemma RebuiltTail(m: Machine, lines: seq<EnvLine>, from: seq<EnvLine>, k: nat, j: nat, token: string, ending: string)
    requires Rebuilt(m, lines, from, k, j, token, ending) && k == j + 1
    ensures from[k + 1..] == lines[k + 1..]
  {
  }

  lemma EndsAgain(m: Machine, master: Bytes, lines: seq<EnvLine>, from: seq<EnvLine>, to: seq<EnvLine>, k: nat, j: nat, token: string, ending: string)
    requires Settled(lines) && Rebuilt(m, lines, from, k, j, token, ending) && SealedLines(m, master, from, to)
    ensures AllWhole(to)
    ensures forall i: nat :: i < |to| && !(i == j && lines[j].ending == "") ==> Ends(to, i)
  {
    forall i: nat | i < |from| ensures Whole(from[i]) { RebuiltLine(m, lines, from, k, j, token, ending, i); }
    forall i: nat | i < |to| ensures Whole(to[i]) && ((i == j && lines[j].ending == "") || Ends(to, i)) {
      RebuiltLine(m, lines, from, k, j, token, ending, i);
      SealedEnds(m, master, from, to, i);
    }
  }

  /** A second protection changes nothing: values stood in the clear and the new keyring was not swallowed; or
      behind the stale keyring there is none, or first one that opens. */
  predicate StaysAsItIs(m: Machine, lines: seq<EnvLine>)
    requires KeyringIndex(lines) < |lines|
  {
    Readable(m, lines[KeyringIndex(lines) + 1..]) || (AnyExposed(lines) && !Swallowed(m, lines))
  }

  /** Protecting a protected text whose keyring came from elsewhere, whatever its lines and line ends. */
  lemma ProtectTwiceStale(m: Machine, text: string, r: Outcome, r2: Outcome)
    requires Lawful(m) && Worded(m) && Protects(m, text, r) && r.Protected? && r.ok && Protects(m, r.text, r2)
    requires KeyState(m, Parsed(text)) == Some(Unreadable)
    ensures r2 == r <==> StaysAsItIs(m, Parsed(text))
  {
    ParsedSettled(text);
    var master, salt := StalePass(m, text, Parsed(text), r);
    StaleFinds(m, text, Parsed(text), r, master, salt);
    SecondPass(m, r.text, Parsed(r.text), r2);
  }

  /** What a second pass finds after a stale keyring was replaced or dropped. */
  lemma StaleFinds(m: Machine, text: string, lines: seq<EnvLine>, r: Outcome, master: Bytes, salt: Bytes)
    requires Lawful(m) && Worded(m) && Settled(lines) && KeyringIndex(lines) < |lines| && r.Protected?
    requires if AnyExposed(lines) then Rekeys(m, text, lines, r, master, salt)
             else r == Protected(Join(Without(lines, KeyringIndex(lines))), true)
    ensures !AnyExposed(Parsed(r.text)) && (Readable(m, Parsed(r.text)) <==> StaysAsItIs(m, lines))
  {
    if AnyExposed(lines) {
      RebuiltAgain(m, text, lines, r, master, salt);
    } else {
      DroppedFinds(lines, KeyringIndex(lines));
      SameReadable(m, Parsed(r.text), lines[KeyringIndex(lines) + 1..]);
    }
  }

  lemma SameReadable(m: Machine, a: seq<EnvLine>, b: seq<EnvLine>)
    requires FirstKeyring(a) == FirstKeyring(b)
    ensures Readable(m, a) <==> Readable(m, b)
  {
    SameState(m, a, b);
  }

  lemma StalePass(m: Machine, text: string, lines: seq<EnvLine>, r: Outcome) returns (master: Bytes, salt: Bytes)
    requires lines == Parsed(text) && KeyState(m, lines) == Some(Unreadable) && Protects(m, text, r) && r.Protected? && r.ok
    ensures KeyringIndex(lines) < |lines|
    ensures if AnyExposed(lines) then Rekeys(m, text, lines, r, master, salt)
            else r == Protected(Join(Without(lines, KeyringIndex(lines))), true)
  {
    master, salt := [], [];
    if AnyExposed(lines) { master, salt :| Rekeys(m, text, lines, r, master, salt); }
  }

  /** What a second pass finds when a keyring was replaced. */
  lemma RebuiltFinds(m: Machine, text: string, lines: seq<EnvLine>, r: Outcome, master: Bytes, salt: Bytes, token: string)
    requires Lawful(m) && Worded(m) && Settled(lines) && KeyringIndex(lines) < |lines| && WrapMaster(m, master, salt) == Some(token)
    requires Rekeys(m, text, lines, r, master, salt) && r.Protected? && IsKeyring(token)
    ensures var found, k := Parsed(r.text), KeyringIndex(lines);
            !AnyExposed(found) && r.ok
            && FirstKeyring(found) ==
               if Swallowed(m, lines) then FirstKeyring(lines[k + 1..]) else Some(KeyringLine(token, NewEnding(lines, k, Ending(text))))
  {
    var ending := Ending(text);
    EndingIsNewline(text);
    RekeyedIs(m, lines, token, ending);
    var from := Rekeyed(m, lines, token, ending);
    var to :| SealedLines(m, master, from, to) && r == Protected(Join(to), true);
    SealedFinds(m, master, lines, from, to, KeyringIndex(lines), NoteIndex(m, lines), token, ending);
  }

  lemma RebuiltAgain(m: Machine, text: string, lines: seq<EnvLine>, r: Outcome, master: Bytes, salt: Bytes)
    requires Lawful(m) && Worded(m) && Settled(lines) && KeyringIndex(lines) < |lines|
    requires Rekeys(m, text, lines, r, master, salt) && r.Protected?
    ensures !AnyExposed(Parsed(r.text))
    ensures Readable(m, Parsed(r.text)) <==> !Swallowed(m, lines) || Readable(m, lines[KeyringIndex(lines) + 1..])
  {
    var k, token, ending := KeyringIndex(lines), WrapMaster(m, master, salt).value, Ending(text);
    EndingIsNewline(text);
    WrappedShape(m, master, salt);
    RebuiltFinds(m, text, lines, r, master, salt, token);
    NewKeyringOpens(m, lines, k, token, ending, master, salt);
    StateFound(m, Parsed(r.text), lines[k + 1..], KeyringLine(token, NewEnding(lines, k, ending)), Swallowed(m, lines));
  }

  lemma NewKeyringOpens(m: Machine, lines: seq<EnvLine>, k: nat, token: string, ending: string, master: Bytes, salt: Bytes)
    requires Lawful(m) && Settled(lines) && k < |lines| && IsKeyring(token) && IsNewline(ending)
    requires |master| == MASTER_LENGTH && |salt| == KEK_SALT_LENGTH && WrapMaster(m, master, salt) == Some(token)
    ensures var l := KeyringLine(token, NewEnding(lines, k, ending)); IsKeyringLine(l) && UnwrapMaster(m, Strip(Rhs(l))).Opened?
  {
    SettledLine(lines, k);
    FreshKeyring(token, NewEnding(lines, k, ending));
    UnwrapWrapped(m, m, master, salt);
  }

  lemma StateFound(m: Machine, found: seq<EnvLine>, back: seq<EnvLine>, l: EnvLine, swallowed: bool)
    requires FirstKeyring(found) == if swallowed then FirstKeyring(back) else Some(l)
    requires IsKeyringLine(l) && UnwrapMaster(m, Strip(Rhs(l))).Opened?
    ensures Readable(m, found) <==> !swallowed || Readable(m, back)
  {
    if swallowed { SameState(m, found, back); }
  }
}
