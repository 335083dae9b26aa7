/** Finding the tokens in a value again, and opening them: nothing beside a sealed value could be taken
    for a part of its token. */
module EnvReveal {
  import opened Wrappers
  import opened PyText
  import opened Base64Url
  import opened Envelope
  import opened EnvParts

  /** The reader's pattern matches at the beginning. */
  predicate Matches(s: string)
  {
    |s| > 3 && s[..3] == VALUE_PREFIX && IsTokenChar(s[3])
  }

  /** `_TOKEN_RE.search` finds nothing. */
  predicate NoMatch(s: string)
  {
    s == "" || (!Matches(s) && NoMatch(s[1..]))
  }

  function Run(s: string): (n: nat)
    ensures n <= |s| && AllTokenChars(s[..n]) && (n < |s| ==> !IsTokenChar(s[n]))
  {
    if s == "" || !IsTokenChar(s[0]) then 0
    else
      var n := Run(s[1..]);
      assert s[..n + 1] == [s[0]] + s[1..][..n];
      n + 1
  }

  /** Every match is replaced by what it opens to; None when one of them does not open. */
  function Reveal(m: Machine, master: Bytes, s: string): Option<string>
  {
    if s == "" then Some("")
    else if Matches(s) then
      var n := 3 + Run(s[3..]);
      Prepend(Open(m, s[..n], master), Reveal(m, master, s[n..]))
    else Prepend(Some(s[..1]), Reveal(m, master, s[1..]))
  }

  function Prepend(a: Option<string>, b: Option<string>): Option<string>
  {
    if a.None? || b.None? then None else Some(a.value + b.value)
  }

  /** A character that neither continues a token nor begins one. */
  predicate IsSep(ch: char)
  {
    !IsTokenChar(ch) && ch != '$'
  }

  /** No match begins in `l` when `x` follows. */
  predicate NoMatchIn(l: string, x: string)
  {
    l == "" || (!Matches(l + x) && NoMatchIn(l[1..], x))
  }

  /** Where no match begins, the text stays. */
  lemma {:induction false} RevealSkip(m: Machine, master: Bytes, l: string, x: string)
    requires NoMatchIn(l, x)
    ensures Reveal(m, master, l + x) == Prepend(Some(l), Reveal(m, master, x))
  {
    if l == "" {
      assert l + x == x;
      PrependNone(Reveal(m, master, x));
    } else {
      RevealStep(m, master, l, x);
      RevealSkip(m, master, l[1..], x);
      PrependTwice(l[..1], l[1..], Reveal(m, master, x));
      assert l[..1] + l[1..] == l;
    }
  }

  lemma RevealStep(m: Machine, master: Bytes, l: string, x: string)
    requires l != "" && !Matches(l + x)
    ensures Reveal(m, master, l + x) == Prepend(Some(l[..1]), Reveal(m, master, l[1..] + x))
  {
    assert (l + x)[1..] == l[1..] + x && (l + x)[..1] == l[..1];
  }

  lemma PrependNone(y: Option<string>)
    ensures Prepend(Some(""), y) == y
  {
    if y.Some? { assert "" + y.value == y.value; }
  }

  lemma PrependTwice(a: string, b: string, y: Option<string>)
    ensures Prepend(Some(a), Prepend(Some(b), y)) == Prepend(Some(a + b), y)
  {
    if y.Some? { Regrouped(a, b, y.value); }
  }

  lemma {:induction false} NoMatchAlone(l: string)
    requires NoMatch(l)
    ensures NoMatchIn(l, "")
  {
    if l != "" {
      assert l + "" == l;
      NoMatchAlone(l[1..]);
    }
  }

  /** A text without matches reads as it stands. */
  lemma RevealPlain(m: Machine, master: Bytes, s: string)
    requires NoMatch(s)
    ensures Reveal(m, master, s) == Some(s)
  {
    assert s + "" == s;
    NoMatchAlone(s);
    RevealSkip(m, master, s, "");
  }

  lemma {:induction false} RunOfToken(t: string, x: string)
    requires AllTokenChars(t) && (x == "" || !IsTokenChar(x[0]))
    ensures Run(t + x) == |t|
  {
    if t == "" {
      assert t + x == x;
    } else {
      assert (t + x)[1..] == t[1..] + x;
      RunOfToken(t[1..], x);
    }
  }

  /** A token that nothing continues is matched whole. */
  lemma RevealToken(m: Machine, master: Bytes, tok: string, x: string)
    requires IsToken(tok) && (x == "" || IsSep(x[0]))
    ensures Reveal(m, master, tok + x) == Prepend(Open(m, tok, master), Reveal(m, master, x))
  {
    var s := tok + x;
    assert tok[0] == VALUE_PREFIX[0] && tok[1] == VALUE_PREFIX[1] && tok[2] == VALUE_PREFIX[2];
    assert tok[3] == tok[3..][0];
    assert s[3..] == tok[3..] + x;
    RunOfToken(tok[3..], x);
    assert s[..|tok|] == tok && s[|tok|..] == x;
  }

  // ----- the literals around values separate -----

  /** The first literal ends in a separator, unless it is empty. */
  predicate Separated(p: Parts)
    requires Proper(p)
  {
    p.vals == [] ||
    ((p.lits[0] == "" || IsSep(p.lits[0][|p.lits[0]| - 1])) && After(Parts(p.lits[1..], p.vals[1..])))
  }

  /** What follows a value: literals that begin and end in separators; only the last may be empty. */
  predicate After(p: Parts)
    requires Proper(p)
    decreases |p.vals|
  {
    if p.vals == [] then p.lits[0] == "" || IsSep(p.lits[0][0])
    else
      && p.lits[0] != "" && IsSep(p.lits[0][0]) && IsSep(p.lits[0][|p.lits[0]| - 1])
      && After(Parts(p.lits[1..], p.vals[1..]))
  }

  /** The text begins and ends in separators. */
  predicate EndsInSep(s: string)
  {
    s == "" || (IsSep(s[0]) && IsSep(s[|s| - 1]))
  }

  lemma {:induction false} BlankSeparates(s: string)
    requires Blank(s)
    ensures EndsInSep(s)
  {
    if |s| > 1 { BlankSeparates(s[1..]); }
  }

  lemma {:induction false} AfterJoin(p: Parts, q: Parts)
    requires Proper(p) && Proper(q) && After(p) && Separated(q)
    ensures After(Chain(p, ",", q))
    decreases |p.vals|
  {
    if p.vals == [] {
      JoinHead(p, q);
    } else {
      JoinTail(p, q);
      AfterJoin(Parts(p.lits[1..], p.vals[1..]), q);
    }
  }

  lemma SeparatedJoin(p: Parts, q: Parts)
    requires Proper(p) && Proper(q) && Separated(p) && Separated(q)
    ensures Separated(Chain(p, ",", q))
  {
    if p.vals == [] {
      JoinHead(p, q);
    } else {
      JoinTail(p, q);
      AfterJoin(Parts(p.lits[1..], p.vals[1..]), q);
    }
  }

  lemma {:induction false} AfterAround(p: Parts, post: string)
    requires Proper(p) && After(p) && EndsInSep(post)
    ensures After(Around("", p, post))
    decreases |p.vals|
  {
    if p.vals == [] {
      assert "" + p.lits[0] + post == p.lits[0] + post;
    } else {
      AroundTail("", p, post);
      AfterAround(Parts(p.lits[1..], p.vals[1..]), post);
      assert "" + p.lits[0] == p.lits[0];
    }
  }

  lemma SeparatedAround(pre: string, p: Parts, post: string)
    requires Proper(p) && Separated(p) && EndsInSep(pre) && EndsInSep(post)
    ensures Separated(Around(pre, p, post))
  {
    if p.vals != [] {
      AroundTail(pre, p, post);
      AfterAround(Parts(p.lits[1..], p.vals[1..]), post);
    }
  }

  lemma OneSeparated(a: string, v: string, b: string)
    requires a == "" || IsSep(a[|a| - 1])
    requires b == "" || IsSep(b[0])
    ensures Separated(Parts([a, b], [v]))
  {
    assert Parts([a, b][1..], [v][1..]) == Parts([b], []);
  }

  lemma CutSeparated(c: Cut)
    requires Blank(c.lead) && Blank(c.tail) && (c.head == "" || IsSep(c.head[|c.head| - 1]))
    ensures Separated(CutParts(c))
  {
    if Unquoted(c.core) != "" {
      BlankSeparates(c.lead);
      BlankSeparates(c.tail);
      OneSeparated(c.head + c.lead + QuoteOf(c.core), Unquoted(c.core), QuoteOf(c.core) + c.tail);
    }
  }

  lemma ItemHead(t: string)
    ensures var head := ItemCut(t).head; head == "" || IsSep(head[|head| - 1])
  {
    FindFirst(t, ':');
  }

  lemma ItemSeparated(t: string)
    ensures Separated(ItemParts(t))
  {
    ItemCutWhole(t);
    ItemHead(t);
    CutSeparated(ItemCut(t));
  }

  lemma {:induction false} ItemsSeparated(inner: string)
    ensures Separated(Items(inner))
    decreases |inner|
  {
    var k := Find(inner, ',');
    if k == |inner| {
      ItemSeparated(inner);
    } else {
      ItemSeparated(inner[..k]);
      ItemsSeparated(inner[k + 1..]);
      ItemsJoined(inner, k);
    }
  }

  lemma ItemsJoined(inner: string, k: nat)
    requires k == Find(inner, ',') < |inner| && Separated(ItemParts(inner[..k])) && Separated(Items(inner[k + 1..]))
    ensures Separated(Items(inner))
  {
    SeparatedJoin(ItemParts(inner[..k]), Items(inner[k + 1..]));
    ItemsStep(inner);
  }

  /** The values of a right-hand side are set off by separators. */
  lemma RhsSeparated(rhs: string)
    ensures Separated(RhsParts(rhs))
  {
    if Strip(rhs) != "" {
      var core := Strip(rhs);
      StripSplit(rhs);
      BlankSeparates(LeadOf(rhs));
      BlankSeparates(TailOf(rhs));
      CoreSeparated(core);
      SeparatedAround(LeadOf(rhs), CoreParts(core), TailOf(rhs));
    }
  }

  lemma CoreSeparated(core: string)
    requires core != ""
    ensures Separated(CoreParts(core))
  {
    if IsContainer(core) {
      var inner := core[1..|core| - 1];
      if inner == "" {
        OneSeparated("{", "", "}");
      } else {
        ItemsSeparated(inner);
        SeparatedAround("{", Items(inner), "}");
      }
    } else if Unquoted(core) != "" {
      OneSeparated(QuoteOf(core), Unquoted(core), QuoteOf(core));
    }
  }

  // ----- reading what was sealed -----

  /** `v'` is what protection writes for `v`: itself when it looks protected, else a token of it. */
  predicate Sealed(m: Machine, master: Bytes, v: string, v': string)
  {
    if StartsWith(v, VALUE_PREFIX) then v' == v else IsToken(v') && Open(m, v', master) == Some(v)
  }

  predicate AllSealed(m: Machine, master: Bytes, vals: seq<string>, vals': seq<string>)
  {
    |vals'| == |vals| && forall i :: 0 <= i < |vals| ==> Sealed(m, master, vals[i], vals'[i])
  }

  lemma {:induction false} NoMatchConcat(a: string, b: string)
    requires NoMatch(a + b)
    ensures NoMatch(a) && NoMatch(b)
  {
    if a == "" {
      assert a + b == b;
    } else {
      assert (a + b)[1..] == a[1..] + b;
      NoMatchConcat(a[1..], b);
      assert |a| > 3 ==> (a + b)[..3] == a[..3];
    }
  }

  /** No match begins in a text that ends in a separator, or is followed by one. */
  lemma {:induction false} NoStraddle(l: string, x: string)
    requires NoMatch(l)
    requires l == "" || x == "" || IsSep(l[|l| - 1]) || IsSep(x[0])
    ensures NoMatchIn(l, x)
  {
    if l != "" {
      NoStraddleHere(l, x);
      if l[1..] != "" { assert l[1..][|l| - 2] == l[|l| - 1]; }
      NoStraddle(l[1..], x);
    }
  }

  lemma NoStraddleHere(l: string, x: string)
    requires l != "" && !Matches(l) && (x == "" || IsSep(l[|l| - 1]) || IsSep(x[0]))
    ensures !Matches(l + x)
  {
    var s := l + x;
    if |l| > 3 {
      assert s[..3] == l[..3];
    } else if |s| > 3 && s[..3] == VALUE_PREFIX {
      assert s[0] == 'f' && s[1] == 's' && s[2] == '$';
      assert s[|l| - 1] == l[|l| - 1] && s[|l|] == x[0];
    }
  }

  lemma AfterBegins(p: Parts, vals': seq<string>)
    requires Proper(p) && After(p) && |vals'| == |p.vals|
    ensures var w := Weave(WithVals(p, vals')); w == "" || IsSep(w[0])
  {
    if p.vals == [] {
      assert WithVals(p, vals') == p;
    }
  }

  lemma RevealValue(m: Machine, master: Bytes, v: string, v': string, rest: string, rest': string)
    requires Sealed(m, master, v, v') && NoMatch(v) && (rest' == "" || IsSep(rest'[0]))
    requires Reveal(m, master, rest') == Some(rest)
    ensures Reveal(m, master, v' + rest') == Some(v + rest)
  {
    if StartsWith(v, VALUE_PREFIX) {
      NoStraddle(v, rest');
      RevealSkip(m, master, v, rest');
    } else {
      RevealToken(m, master, v', rest');
    }
  }

  /** A literal, a value and the rest. */
  lemma {:induction false} RevealFrom(m: Machine, master: Bytes, p: Parts, vals': seq<string>)
    requires Proper(p) && (After(p) || Separated(p)) && NoMatch(Weave(p)) && AllSealed(m, master, p.vals, vals')
    ensures Reveal(m, master, Weave(WithVals(p, vals'))) == Some(Weave(p))
    decreases |p.vals|
  {
    if p.vals == [] {
      RevealPlain(m, master, p.lits[0]);
    } else {
      var p1 := Parts(p.lits[1..], p.vals[1..]);
      assert WithVals(p1, vals'[1..]) == Parts(p.lits[1..], vals'[1..]);
      NoMatchConcat(p.lits[0] + p.vals[0], Weave(p1));
      RevealFrom(m, master, p1, vals'[1..]);
      AfterBegins(p1, vals'[1..]);
      RevealThree(m, master, p.lits[0], p.vals[0], vals'[0], Weave(p1), Weave(WithVals(p1, vals'[1..])));
    }
  }

  /** A literal, a value and what is known to read back. */
  lemma RevealThree(m: Machine, master: Bytes, l: string, v: string, v': string, rest: string, rest': string)
    requires NoMatch(l + v) && Sealed(m, master, v, v') && (l == "" || IsSep(l[|l| - 1]))
    requires (rest' == "" || IsSep(rest'[0])) && Reveal(m, master, rest') == Some(rest)
    ensures Reveal(m, master, l + v' + rest') == Some(l + v + rest)
  {
    NoMatchConcat(l, v);
    RevealValue(m, master, v, v', rest, rest');
    NoStraddle(l, v' + rest');
    RevealSkip(m, master, l, v' + rest');
    Regrouped(l, v, rest);
    Regrouped(l, v', rest');
  }

  /** Reading a right-hand side whose values were sealed gives it back, if nothing in it looked like
      a token before. */
  lemma RevealSealed(m: Machine, master: Bytes, rhs: string, vals': seq<string>)
    requires NoMatch(rhs) && AllSealed(m, master, RhsParts(rhs).vals, vals')
    ensures Reveal(m, master, Weave(WithVals(RhsParts(rhs), vals'))) == Some(rhs)
  {
    RhsSeparated(rhs);
    RhsWeave(rhs);
    RevealFrom(m, master, RhsParts(rhs), vals');
  }
}
