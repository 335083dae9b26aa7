/** A sealed line is parsed as what it was built to be, and looked at again it has the same shape, with
    tokens in the place of values. */
module EnvReparse {
  import opened Wrappers
  import opened PyText
  import opened Base64Url
  import opened Envelope
  import opened EnvParts
  import opened EnvReveal
  import opened EnvLines
  import opened EnvSeal

  // ----- line breaks -----

  predicate NoBreaks(s: string)
  {
    s == "" || (!IsBreak(s[0]) && NoBreaks(s[1..]))
  }

  lemma {:induction false} NoBreaksConcat(a: string, b: string)
    ensures NoBreaks(a + b) <==> NoBreaks(a) && NoBreaks(b)
  {
    if a == "" {
      assert a + b == b;
    } else {
      assert (a + b)[1..] == a[1..] + b;
      NoBreaksConcat(a[1..], b);
    }
  }

  lemma {:induction false} TokenHasNoBreaks(tok: string, k: nat)
    requires IsToken(tok) && k <= |tok|
    ensures NoBreaks(tok[k..])
    decreases |tok| - k
  {
    if k < |tok| {
      TokenIsPlain(tok, k);
      assert tok[k..][1..] == tok[k + 1..];
      TokenHasNoBreaks(tok, k + 1);
    }
  }

  lemma {:induction false} WeaveNoBreaks(p: Parts, vals': seq<string>)
    requires Proper(p) && NoBreaks(Weave(p)) && AllFit(p.vals, vals')
    ensures NoBreaks(Weave(WithVals(p, vals')))
    decreases |p.vals|
  {
    if p.vals != [] {
      var p1 := Parts(p.lits[1..], p.vals[1..]);
      assert Fits(p.vals[0], vals'[0]);
      assert AllFit(p1.vals, vals'[1..]) by {
        forall i | 0 <= i < |p1.vals| ensures Fits(p1.vals[i], vals'[1..][i]) { assert Fits(p.vals[i + 1], vals'[i + 1]); }
      }
      NoBreaksConcat(p.lits[0] + p.vals[0], Weave(p1));
      NoBreaksConcat(p.lits[0], p.vals[0]);
      WeaveNoBreaks(p1, vals'[1..]);
      if IsToken(vals'[0]) {
        TokenHasNoBreaks(vals'[0], 0);
        assert vals'[0][0..] == vals'[0];
      }
      NoBreaksConcat(p.lits[0], vals'[0]);
      NoBreaksConcat(p.lits[0] + vals'[0], Weave(WithVals(p1, vals'[1..])));
      assert WithVals(p1, vals'[1..]) == Parts(p.lits[1..], vals'[1..]);
    }
  }

  lemma OneLineTail(s: string)
    requires |s| > 1 && OneLine(s)
    ensures OneLine(s[1..]) && (IsBreak(s[0]) ==> s == "\r\n")
  {
    if IsBreak(s[0]) { assert |s| == 2; }
  }

  lemma OneLineCons(ch: char, s: string)
    requires !IsBreak(ch) && (s == "" || OneLine(s))
    ensures OneLine([ch] + s)
  {
  }

  /** A line that goes on to a character that is no break has no break up to there. */
  lemma {:induction false} OneLineSplit(x: string, q: string)
    requires OneLine(x + q) && x != "" && !IsBreak(x[|x| - 1])
    ensures NoBreaks(x) && (q == "" || OneLine(q))
  {
    var s := x + q;
    assert s[1..] == x[1..] + q;
    if |s| > 1 { OneLineTail(s); }
    assert s == "\r\n" && |x| > 1 ==> x == s;
    if |x| > 1 {
      assert x[1..][|x| - 2] == x[|x| - 1];
      OneLineSplit(x[1..], q);
    } else {
      assert s[1..] == q;
    }
  }

  lemma {:induction false} OneLineJoin(x: string, q: string)
    requires NoBreaks(x) && (x + q == "" || q == "" || OneLine(q)) && x != ""
    ensures OneLine(x + q)
  {
    assert x + q == [x[0]] + (x[1..] + q);
    if x[1..] == "" {
      assert x[1..] + q == q;
    } else {
      OneLineJoin(x[1..], q);
    }
    OneLineCons(x[0], x[1..] + q);
  }

  // ----- the body of a line -----

  predicate Newlines(e: string)
  {
    e == "" || ((e[|e| - 1] == '\n' || e[|e| - 1] == '\r') && Newlines(e[..|e| - 1]))
  }

  predicate EndsOpen(b: string)
  {
    b == "" || (b[|b| - 1] != '\n' && b[|b| - 1] != '\r')
  }

  lemma {:induction false} BodySplit(raw: string)
    ensures EndsOpen(Body(raw)) && Newlines(raw[|Body(raw)|..])
  {
    if raw != "" && (raw[|raw| - 1] == '\n' || raw[|raw| - 1] == '\r') {
      var short := raw[..|raw| - 1];
      BodySplit(short);
      assert raw[|Body(raw)|..] == short[|Body(raw)|..] + [raw[|raw| - 1]];
    }
  }

  lemma {:induction false} BodyOf(b: string, e: string)
    requires EndsOpen(b) && Newlines(e)
    ensures Body(b + e) == b && (b + e)[|b|..] == e
    decreases |e|
  {
    if e == "" {
      assert b + e == b;
    } else {
      assert (b + e)[..|b + e| - 1] == b + e[..|e| - 1];
      BodyOf(b, e[..|e| - 1]);
    }
  }

  // ----- name and right-hand side -----

  lemma {:induction false} StripLeftKeeps(a: string, x: string)
    requires StripLeft(a) != ""
    ensures StripLeft(a + x) == StripLeft(a) + x
  {
    if a != "" && IsSpace(a[0]) {
      assert (a + x)[1..] == a[1..] + x;
      StripLeftKeeps(a[1..], x);
    }
  }

  lemma {:induction false} StripRightKeepsHead(s: string)
    requires s != "" && !IsSpace(s[0])
    ensures StripRight(s) != "" && StripRight(s)[0] == s[0]
  {
    if IsSpace(s[|s| - 1]) { StripRightKeepsHead(s[..|s| - 1]); }
  }

  /** The first character of the stripped text is decided by its beginning. */
  lemma StripHead(a: string, x: string)
    requires StripLeft(a) != ""
    ensures Strip(a + x) != "" && Strip(a + x)[0] == StripLeft(a)[0]
  {
    StripLeftKeeps(a, x);
    StripLeftSplit(a);
    StripRightKeepsHead(StripLeft(a) + x);
  }

  lemma {:induction false} StripLeftShrinks(a: string)
    requires Strip(a) != ""
    ensures StripLeft(a) != ""
  {
    assert StripRight("") == "";
  }

  /** A line that sets a variable, told by what stands up to its `=`. */
  predicate Names(pre: string)
  {
    Find(pre, '=') == |pre| - 1 && Strip(pre[..|pre| - 1]) != "" && StripLeft(pre) != "" && StripLeft(pre)[0] != '#'
  }

  lemma ParseNamed(pre: string, x: string, ending: string)
    requires Names(pre)
    ensures ParseBody(pre + x, ending) == EnvLine(pre + x, ending, Some(Strip(pre[..|pre| - 1])), |pre|)
  {
    FindConcat(pre, x, '=');
    StripHead(pre, x);
    assert (pre + x)[..|pre| - 1] == pre[..|pre| - 1];
  }

  lemma NamedBody(body: string, ending: string)
    requires ParseBody(body, ending).name.Some?
    ensures var eq := Find(body, '=');
      && Strip(body) != "" && Strip(body)[0] != '#' && Strip(body[..eq]) != "" && ParseBody(body, ending).rhsStart == eq + 1
  {
  }

  lemma NamedNames(pre: string, x: string, ending: string)
    requires Find(pre, '=') == |pre| - 1 && ParseBody(pre + x, ending).name.Some?
    ensures Names(pre) && ParseBody(pre + x, ending).rhsStart == |pre|
  {
    FindConcat(pre, x, '=');
    NamedBody(pre + x, ending);
    NamesFrom(pre, x, pre[..|pre| - 1]);
  }

  lemma NamesFrom(pre: string, x: string, name: string)
    requires Find(pre, '=') == |pre| - 1 && name == pre[..|pre| - 1] && Strip((pre + x)[..|pre| - 1]) != ""
    requires Strip(pre + x) != "" && Strip(pre + x)[0] != '#'
    ensures Names(pre)
  {
    assert (pre + x)[..|pre| - 1] == name;
    NameLeads(pre, name);
    StripHead(pre, x);
  }

  /** A name that is not blank begins the line up to its `=`. */
  lemma NameLeads(pre: string, name: string)
    requires pre != "" && name == pre[..|pre| - 1] && Strip(name) != ""
    ensures StripLeft(pre) != ""
  {
    StripLeftShrinks(name);
    assert pre == name + pre[|name|..];
    StripLeftKeeps(name, pre[|name|..]);
  }

  /** What the parser makes of a line is decided up to its `=`. */
  lemma SamePrefix(pre: string, x: string, x': string, ending: string)
    requires Find(pre, '=') == |pre| - 1
    requires ParseBody(pre + x, ending).name.Some?
    ensures ParseBody(pre + x, ending).rhsStart == |pre|
    ensures ParseBody(pre + x', ending) == ParseBody(pre + x, ending).(body := pre + x')
  {
    NamedNames(pre, x, ending);
    ParseNamed(pre, x, ending);
    ParseNamed(pre, x', ending);
  }

  /** The line up to and with its `=`. */
  lemma PrefixOfNamed(body: string, ending: string)
    requires ParseBody(body, ending).name.Some?
    ensures var l := ParseBody(body, ending);
            var pre := l.body[..l.rhsStart];
            l.rhsStart >= 1 && Find(pre, '=') == |pre| - 1 && body == pre + Rhs(l)
  {
    FindFirst(body, '=');
  }

  // ----- a sealed line -----

  /** A sealed right-hand side: the same white space around a new core. */
  lemma SealedRhs(rhs: string, vals': seq<string>)
    requires Strip(rhs) != "" && AllFit(RhsParts(rhs).vals, vals')
    ensures var core' := Weave(WithVals(CoreParts(Strip(rhs)), vals'));
      && Weave(WithVals(RhsParts(rhs), vals')) == LeadOf(rhs) + core' + TailOf(rhs)
      && core' != "" && Trimmed(core') && CoreParts(core') == WithVals(CoreParts(Strip(rhs)), vals')
  {
    var core := Strip(rhs);
    StripSplit(rhs);
    CoreRescan(core, vals');
    AroundWithVals(LeadOf(rhs), CoreParts(core), TailOf(rhs), vals');
    WeaveAround(LeadOf(rhs), WithVals(CoreParts(core), vals'), TailOf(rhs));
  }

  lemma BlankRhs(rhs: string, vals': seq<string>)
    requires Strip(rhs) == "" && AllFit(RhsParts(rhs).vals, vals')
    ensures Weave(WithVals(RhsParts(rhs), vals')) == rhs
  {
  }

  lemma SealedFits(m: Machine, master: Bytes, vals: seq<string>, vals': seq<string>)
    requires AllSealed(m, master, vals, vals')
    ensures AllFit(vals, vals') && forall i :: 0 <= i < |vals'| ==> !IsPlain(vals'[i])
  {
    forall i | 0 <= i < |vals| ensures Fits(vals[i], vals'[i]) && !IsPlain(vals'[i]) {
      assert Sealed(m, master, vals[i], vals'[i]);
    }
  }

  /** `l'` can stand in the place of `l`. */
  predicate Replaces(l: EnvLine, l': EnvLine)
  {
    && ParseLine(Raw(l')) == l' && OneLine(Raw(l')) && l'.ending == l.ending && l'.name == l.name
    && Raw(l) != "" && Raw(l')[0] == Raw(l)[0]
    && (IsBreak(Raw(l)[|Raw(l)| - 1]) ==> Raw(l')[|Raw(l')| - 1] == Raw(l)[|Raw(l)| - 1])
  }

  /** The same beginning, another core without breaks, the same end. */
  lemma NewCore(l: EnvLine, pre: string, lead: string, core: string, core': string, tail: string)
    requires ParseLine(Raw(l)) == l && OneLine(Raw(l)) && l.name.Some?
    requires pre == l.body[..l.rhsStart] && l.body == pre + (lead + core + tail)
    requires core != "" && Trimmed(core) && core' != "" && Trimmed(core')
    requires NoBreaks(core) ==> NoBreaks(core')
    requires pre != ""
    ensures Replaces(l, l.(body := pre + (lead + core' + tail)))
  {
    NewCoreParses(l, pre, lead, core, core', tail);
    NewCoreIsOneLine(pre, lead, core, core', tail, l.ending);
    NewCoreEnds(pre, lead, core, core', tail, l.ending);
  }

  lemma NewCoreParses(l: EnvLine, pre: string, lead: string, core: string, core': string, tail: string)
    requires ParseLine(Raw(l)) == l && l.name.Some?
    requires pre == l.body[..l.rhsStart] && l.body == pre + (lead + core + tail)
    requires core != "" && core' != "" && Trimmed(core')
    ensures var l' := l.(body := pre + (lead + core' + tail)); ParseLine(Raw(l')) == l'
  {
    PrefixOfNamed(l.body, l.ending);
    SamePrefix(pre, lead + core + tail, lead + core' + tail, l.ending);
    BodySplit(Raw(l));
    EndsOpenAgain(pre, lead, core, core', tail);
    BodyOf(pre + (lead + core' + tail), l.ending);
  }

  lemma RawOf(pre: string, lead: string, core: string, tail: string, ending: string)
    ensures pre + (lead + core + tail) + ending == (pre + lead + core) + (tail + ending)
  {
  }

  lemma NewCoreIsOneLine(pre: string, lead: string, core: string, core': string, tail: string, ending: string)
    requires OneLine(pre + (lead + core + tail) + ending) && core != "" && Trimmed(core) && core' != ""
    requires NoBreaks(core) ==> NoBreaks(core')
    ensures OneLine(pre + (lead + core' + tail) + ending)
  {
    RawOf(pre, lead, core, tail, ending);
    RawOf(pre, lead, core', tail, ending);
    var x := pre + lead + core;
    assert x[|x| - 1] == core[|core| - 1];
    OneLineSplit(x, tail + ending);
    NoBreaksConcat(pre + lead, core);
    NoBreaksConcat(pre + lead, core');
    OneLineJoin(pre + lead + core', tail + ending);
  }

  lemma NewCoreEnds(pre: string, lead: string, core: string, core': string, tail: string, ending: string)
    requires pre != "" && core != "" && core' != "" && Trimmed(core)
    ensures var s, s' := pre + (lead + core + tail) + ending, pre + (lead + core' + tail) + ending;
      && s != "" && s' != "" && s'[0] == s[0] && (IsBreak(s[|s| - 1]) ==> s'[|s'| - 1] == s[|s| - 1])
  {
    RawOf(pre, lead, core, tail, ending);
    RawOf(pre, lead, core', tail, ending);
    SameEnds(pre + lead, core, core', tail + ending);
  }

  lemma SameEnds(p: string, core: string, core': string, q: string)
    requires p != "" && core != "" && core' != "" && Trimmed(core)
    ensures var s, s' := (p + core) + q, (p + core') + q;
      && s'[0] == s[0] && (IsBreak(s[|s| - 1]) ==> s'[|s'| - 1] == s[|s| - 1])
  {
    var s, s' := (p + core) + q, (p + core') + q;
    assert s[0] == p[0] == s'[0];
    if q != "" {
      assert s'[|s'| - 1] == q[|q| - 1] == s[|s| - 1];
    } else {
      assert s[|s| - 1] == core[|core| - 1];
    }
  }

  lemma EndsOpenAgain(pre: string, lead: string, core: string, core': string, tail: string)
    requires EndsOpen(pre + (lead + core + tail)) && core != "" && core' != "" && Trimmed(core')
    ensures EndsOpen(pre + (lead + core' + tail))
  {
    var s, s' := pre + (lead + core + tail), pre + (lead + core' + tail);
    if tail != "" {
      assert s[|s| - 1] == tail[|tail| - 1] == s'[|s'| - 1];
    } else {
      assert s'[|s'| - 1] == core'[|core'| - 1];
    }
  }

  /** A sealed line parses as what it is, between the same neighbours. */
  lemma SealedReplaces(m: Machine, master: Bytes, l: EnvLine, l': EnvLine)
    requires SealedLine(m, master, l, l') && ParseLine(Raw(l)) == l && OneLine(Raw(l))
    ensures Replaces(l, l')
  {
    if IsSecret(l) {
      var vals' :| SealedWith(m, master, l, l', vals');
      var rhs := Rhs(l);
      SealedFits(m, master, RhsParts(rhs).vals, vals');
      PrefixOfNamed(l.body, l.ending);
      if Strip(rhs) == "" {
        BlankRhs(rhs, vals');
        assert l' == l;
      } else {
        SealedRhs(rhs, vals');
        StripSplit(rhs);
        var core := Strip(rhs);
        if NoBreaks(core) {
          CoreWeave(core);
          WeaveNoBreaks(CoreParts(core), vals');
        }
        NewCore(l, l.body[..l.rhsStart], LeadOf(rhs), core, Weave(WithVals(CoreParts(core), vals')), TailOf(rhs));
      }
    }
  }

  /** Nothing in a sealed line stands in the clear any more: all its values are, or begin like, tokens. */
  lemma SealedIsNotExposed(m: Machine, master: Bytes, l: EnvLine, l': EnvLine)
    requires SealedLine(m, master, l, l')
    ensures !Exposed(l')
    ensures IsSecret(l') && IsSecret(l) ==> forall v :: v in RhsParts(Rhs(l')).vals ==> StartsWith(v, VALUE_PREFIX)
  {
    if IsSecret(l) {
      var vals' :| SealedWith(m, master, l, l', vals');
      var p := RhsParts(Rhs(l));
      SealedFits(m, master, p.vals, vals');
      RhsRescan(Rhs(l), vals');
      assert Rhs(l') == Weave(WithVals(p, vals'));
    }
  }
}
