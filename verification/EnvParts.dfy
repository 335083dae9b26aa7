/** The secret material inside the right-hand side of a `.env` line: what stands literally, and the
    values between. */
module EnvParts {
  import opened PyText
  import opened Envelope

  /** `lits[0] vals[0] lits[1] … vals[n - 1] lits[n]` */
  datatype Parts = Parts(lits: seq<string>, vals: seq<string>)

  predicate Proper(p: Parts)
  {
    |p.lits| == |p.vals| + 1
  }

  function Weave(p: Parts): string
    requires Proper(p)
    decreases |p.vals|
  {
    if p.vals == [] then p.lits[0] else p.lits[0] + p.vals[0] + Weave(Parts(p.lits[1..], p.vals[1..]))
  }

  /** Put `pre` before and `post` behind. */
  function Around(pre: string, p: Parts, post: string): (r: Parts)
    requires Proper(p)
    ensures Proper(r) && r.vals == p.vals
  {
    var n := |p.vals|;
    if n == 0 then Parts([pre + p.lits[0] + post], [])
    else Parts([pre + p.lits[0]] + p.lits[1..n] + [p.lits[n] + post], p.vals)
  }

  /** One after the other, with `sep` between. */
  function Chain(p: Parts, sep: string, q: Parts): (r: Parts)
    requires Proper(p) && Proper(q)
    ensures Proper(r) && r.vals == p.vals + q.vals
  {
    Parts(p.lits[..|p.vals|] + [p.lits[|p.vals|] + sep + q.lits[0]] + q.lits[1..], p.vals + q.vals)
  }

  lemma JoinHead(p: Parts, q: Parts)
    requires Proper(p) && Proper(q) && p.vals == []
    ensures var r := Chain(p, ",", q);
            r.lits[0] == p.lits[0] + "," + q.lits[0] && r.lits[1..] == q.lits[1..] && r.vals == q.vals
  {
  }

  lemma JoinTail(p: Parts, q: Parts)
    requires Proper(p) && Proper(q) && p.vals != []
    ensures var r := Chain(p, ",", q);
      && r.lits[0] == p.lits[0] && r.vals != []
      && Parts(r.lits[1..], r.vals[1..]) == Chain(Parts(p.lits[1..], p.vals[1..]), ",", q)
  {
  }

  lemma {:induction false} WeaveJoin(p: Parts, sep: string, q: Parts)
    requires Proper(p) && Proper(q) && sep == ","
    ensures Weave(Chain(p, sep, q)) == Weave(p) + sep + Weave(q)
    decreases |p.vals|
  {
    var r := Chain(p, sep, q);
    if p.vals == [] {
      JoinHead(p, q);
      WeaveHead(r, q, p.lits[0] + sep);
    } else {
      JoinTail(p, q);
      var p1 := Parts(p.lits[1..], p.vals[1..]);
      WeaveJoin(p1, sep, q);
      Regrouped(p.lits[0] + p.vals[0], Weave(p1) + sep, Weave(q));
      Regrouped(p.lits[0] + p.vals[0], Weave(p1), sep);
    }
  }

  /** More before the first literal is more before the whole. */
  lemma WeaveHead(r: Parts, q: Parts, pre: string)
    requires Proper(r) && Proper(q) && r.vals == q.vals && r.lits[1..] == q.lits[1..] && r.lits[0] == pre + q.lits[0]
    ensures Weave(r) == pre + Weave(q)
  {
    if q.vals != [] {
      var rest := Weave(Parts(q.lits[1..], q.vals[1..]));
      Regrouped(pre, q.lits[0] + q.vals[0], rest);
      Regrouped(pre, q.lits[0], q.vals[0]);
    }
  }

  lemma {:induction false} WeaveAround(pre: string, p: Parts, post: string)
    requires Proper(p)
    ensures Weave(Around(pre, p, post)) == pre + Weave(p) + post
    decreases |p.vals|
  {
    var r := Around(pre, p, post);
    if |p.vals| > 0 {
      var p1 := Parts(p.lits[1..], p.vals[1..]);
      WeaveAround("", p1, post);
      AroundTail(pre, p, post);
    }
  }

  lemma AroundTail(pre: string, p: Parts, post: string)
    requires Proper(p) && p.vals != []
    ensures var r := Around(pre, p, post);
            Parts(r.lits[1..], r.vals[1..]) == Around("", Parts(p.lits[1..], p.vals[1..]), post)
  {
    var q := Around("", Parts(p.lits[1..], p.vals[1..]), post);
    assert "" + p.lits[1] + post == p.lits[1] + post && "" + p.lits[1] == p.lits[1];
    var r := Around(pre, p, post);
    assert |r.lits| == |q.lits| + 1;
    assert forall i :: 0 <= i < |q.lits| ==> q.lits[i] == r.lits[i + 1];
  }

  // ----- cutting -----

  function IsQuoted(core: string): bool
  {
    |core| >= 2 && core[0] == core[|core| - 1] && (core[0] == '"' || core[0] == '\'')
  }

  /** One layer of paired quotes comes off. */
  function Unquoted(core: string): string
  {
    if IsQuoted(core) then core[1..|core| - 1] else core
  }

  function QuoteOf(core: string): string
  {
    if IsQuoted(core) then core[..1] else ""
  }

  /** Where the value of an item begins: behind the first colon, if any. */
  function ValueStart(t: string): (h: nat)
    ensures h <= |t|
  {
    if Find(t, ':') < |t| then Find(t, ':') + 1 else 0
  }

  /** An item: what stands before the value, white space, the core with its quotes, white space. */
  datatype Cut = Cut(head: string, lead: string, core: string, tail: string)

  function ItemCut(t: string): (c: Cut)
  {
    var w := t[ValueStart(t)..];
    Cut(t[..ValueStart(t)], LeadOf(w), Strip(w), TailOf(w))
  }

  lemma ItemCutWhole(t: string)
    ensures var c := ItemCut(t);
            Trimmed(c.core) && Blank(c.lead) && Blank(c.tail) && t == Whole(c) && c.head == t[..ValueStart(t)]
  {
    StripSplit(t[ValueStart(t)..]);
  }

  function Whole(c: Cut): string
  {
    c.head + (c.lead + c.core + c.tail)
  }

  function CutParts(c: Cut): (p: Parts)
    ensures Proper(p) && |p.vals| <= 1
  {
    if Unquoted(c.core) == "" then Parts([Whole(c)], [])
    else Parts([c.head + c.lead + QuoteOf(c.core), QuoteOf(c.core) + c.tail], [Unquoted(c.core)])
  }

  function ItemParts(t: string): (p: Parts)
    ensures Proper(p) && |p.vals| <= 1
  {
    CutParts(ItemCut(t))
  }

  /** Items are split at every comma. */
  function Items(inner: string): (p: Parts)
    ensures Proper(p)
    decreases |inner|
  {
    var k := Find(inner, ',');
    if k == |inner| then ItemParts(inner) else Chain(ItemParts(inner[..k]), ",", Items(inner[k + 1..]))
  }

  lemma ItemsStep(inner: string)
    requires Find(inner, ',') < |inner|
    ensures var k := Find(inner, ','); Items(inner) == Chain(ItemParts(inner[..k]), ",", Items(inner[k + 1..]))
  {
  }

  predicate IsContainer(core: string)
  {
    core != "" && core[0] == '{' && core[|core| - 1] == '}'
  }

  function CoreParts(core: string): (p: Parts)
    requires core != ""
    ensures Proper(p)
  {
    if IsContainer(core) then
      var inner := core[1..|core| - 1];
      if inner == "" then Parts(["{", "}"], [""]) else Around("{", Items(inner), "}")
    else if Unquoted(core) == "" then Parts([core], [])
    else Parts([QuoteOf(core), QuoteOf(core)], [Unquoted(core)])
  }

  function RhsParts(rhs: string): (p: Parts)
    ensures Proper(p)
  {
    if Strip(rhs) == "" then Parts([rhs], []) else Around(LeadOf(rhs), CoreParts(Strip(rhs)), TailOf(rhs))
  }

  // ----- which the values are -----

  /** The one value of a text without its white space and one layer of quotes, if anything is left of it. */
  function OneValue(w: string): seq<string>
  {
    if Unquoted(Strip(w)) == "" then [] else [Unquoted(Strip(w))]
  }

  /** Paired quotes come off once; nothing else does. */
  lemma UnquotedIs(v: string)
    ensures Unquoted("\"" + v + "\"") == v && Unquoted("'" + v + "'") == v
    ensures |v| < 2 || v[0] != v[|v| - 1] || v[0] !in {'"', '\''} ==> Unquoted(v) == v
  {
    assert ("\"" + v + "\"")[1..|v| + 1] == v && ("'" + v + "'")[1..|v| + 1] == v;
  }

  /** The value of an item stands behind its first colon, or is the item. */
  lemma ItemValue(name: string, w: string)
    requires ':' !in name
    ensures ItemParts(name + ":" + w).vals == OneValue(w) && ItemParts(name).vals == OneValue(name)
  {
    var t := name + ":" + w;
    AbsentIff(name, ':');
    assert t == name + (":" + w);
    FindConcat(name, ":" + w, ':');
    assert t[|name| + 1..] == w && name[0..] == name;
  }

  /** The values of a container are those of its items, which the commas set apart. */
  lemma ItemsValues(item: string, rest: string)
    requires ',' !in item
    ensures Items(item).vals == ItemParts(item).vals
    ensures Items(item + "," + rest).vals == ItemParts(item).vals + Items(rest).vals
  {
    var inner := item + "," + rest;
    AbsentIff(item, ',');
    assert inner == item + ("," + rest);
    FindConcat(item, "," + rest, ',');
    ItemsStep(inner);
    assert inner[..|item|] == item && inner[|item| + 1..] == rest;
  }

  /** A right-hand side in braces has the values of its items, and `{}` the one empty value; any other has
      one value, or none when it is blank. */
  lemma RhsValues(rhs: string)
    ensures forall inner :: Strip(rhs) == "{" + inner + "}" ==> RhsParts(rhs).vals == if inner == "" then [""] else Items(inner).vals
    ensures (Strip(rhs) == "" || Strip(rhs)[0] != '{' || Strip(rhs)[|Strip(rhs)| - 1] != '}') ==> RhsParts(rhs).vals == OneValue(rhs)
  {
    forall inner | Strip(rhs) == "{" + inner + "}" ensures RhsParts(rhs).vals == if inner == "" then [""] else Items(inner).vals {
      assert Strip(rhs)[1..|Strip(rhs)| - 1] == inner;
    }
  }

  // ----- the parts make up the whole -----

  lemma WeaveOne(a: string, v: string, b: string)
    ensures Weave(Parts([a, b], [v])) == a + v + b
  {
    assert Weave(Parts([a, b][1..], [v][1..])) == b;
  }

  lemma QuotedWhole(core: string)
    ensures core == QuoteOf(core) + Unquoted(core) + QuoteOf(core)
  {
    if IsQuoted(core) { assert core == core[..1] + core[1..|core| - 1] + core[..1]; }
  }

  lemma Regroup(a: string, b: string, q: string, v: string, d: string)
    ensures (a + b + q) + v + (q + d) == a + (b + (q + v + q) + d)
  {
    assert (a + b + q) + v + (q + d) == a + b + (q + v + q) + d;
  }

  lemma SplitAt(s: string, k: nat)
    requires k < |s|
    ensures s == s[..k] + [s[k]] + s[k + 1..]
  {
  }

  lemma CutWeave(c: Cut)
    ensures Weave(CutParts(c)) == Whole(c)
  {
    if Unquoted(c.core) != "" {
      QuotedWhole(c.core);
      var q, v := QuoteOf(c.core), Unquoted(c.core);
      WeaveOne(c.head + c.lead + q, v, q + c.tail);
      Regroup(c.head, c.lead, q, v, c.tail);
    }
  }

  lemma ItemWeave(t: string)
    ensures Weave(ItemParts(t)) == t
  {
    CutWeave(ItemCut(t));
    ItemCutWhole(t);
  }

  lemma {:induction false} ItemsWeave(inner: string)
    ensures Weave(Items(inner)) == inner
    decreases |inner|
  {
    var k := Find(inner, ',');
    if k == |inner| {
      ItemWeave(inner);
    } else {
      ItemWeave(inner[..k]);
      ItemsWeave(inner[k + 1..]);
      WeaveJoin(ItemParts(inner[..k]), ",", Items(inner[k + 1..]));
      FindFirst(inner, ',');
      SplitAt(inner, k);
    }
  }

  lemma CoreWeave(core: string)
    requires core != ""
    ensures Weave(CoreParts(core)) == core
  {
    if IsContainer(core) {
      var inner := core[1..|core| - 1];
      assert core == "{" + inner + "}";
      if inner == "" {
        WeaveOne("{", "", "}");
      } else {
        ItemsWeave(inner);
        WeaveAround("{", Items(inner), "}");
      }
    } else if Unquoted(core) != "" {
      QuotedWhole(core);
      WeaveOne(QuoteOf(core), Unquoted(core), QuoteOf(core));
    }
  }

  /** Nothing is lost or added by cutting a right-hand side into parts. */
  lemma RhsWeave(rhs: string)
    ensures Weave(RhsParts(rhs)) == rhs
  {
    if Strip(rhs) != "" {
      StripSplit(rhs);
      CoreWeave(Strip(rhs));
      WeaveAround(LeadOf(rhs), CoreParts(Strip(rhs)), TailOf(rhs));
    }
  }

  // ----- looking again at what was sealed -----

  /** A value as it was, or a token in its place. */
  predicate Fits(v: string, v': string)
  {
    v' == v || IsToken(v')
  }

  predicate AllFit(vals: seq<string>, vals': seq<string>)
  {
    |vals'| == |vals| && forall i :: 0 <= i < |vals| ==> Fits(vals[i], vals'[i])
  }

  /** No character of a token means anything to the splitting. */
  lemma TokenIsPlain(tok: string, i: nat)
    requires IsToken(tok) && i < |tok|
    ensures !IsSpace(tok[i]) && tok[i] != ',' && tok[i] != ':' && tok[i] != '"' && tok[i] != '\'' && tok[i] != '{' && tok[i] != '}'
    ensures !IsBreak(tok[i]) && tok[i] != '=' && tok[i] != '#'
  {
    assert tok[i] == if i < 3 then VALUE_PREFIX[i] else tok[3..][i - 3];
  }

  lemma TokenAbsent(tok: string)
    requires IsToken(tok)
    ensures Absent(tok, ',') && Absent(tok, ':') && Trimmed(tok) && !IsQuoted(tok) && !IsContainer(tok) && tok != ""
  {
    forall i: nat | i < |tok| ensures tok[i] != ',' && tok[i] != ':' { TokenIsPlain(tok, i); }
    AbsentIff(tok, ',');
    AbsentIff(tok, ':');
    TokenIsPlain(tok, 0);
    TokenIsPlain(tok, |tok| - 1);
  }

  /** With a token in the place of the value, the core has the same quotes and the token inside. */
  lemma CoreOfToken(core: string, tok: string)
    requires IsToken(tok) && Trimmed(core)
    ensures var core' := QuoteOf(core) + tok + QuoteOf(core);
            core' != "" && Trimmed(core') && QuoteOf(core') == QuoteOf(core) && Unquoted(core') == tok && !IsContainer(core')
  {
    TokenAbsent(tok);
    if IsQuoted(core) {
      var core' := core[..1] + tok + core[..1];
      assert core'[1..|core'| - 1] == tok && core'[..1] == core[..1];
    }
  }

  /** The cut with a token for the value. */
  function Resealed(c: Cut, tok: string): Cut
  {
    c.(core := QuoteOf(c.core) + tok + QuoteOf(c.core))
  }

  lemma ResealedParts(c: Cut, tok: string)
    requires Unquoted(c.core) != "" && Trimmed(c.core) && IsToken(tok)
    ensures Unquoted(Resealed(c, tok).core) == tok && Trimmed(Resealed(c, tok).core)
    ensures CutParts(Resealed(c, tok)) == Parts(CutParts(c).lits, [tok])
    ensures Weave(CutParts(Resealed(c, tok))) == Whole(Resealed(c, tok))
  {
    CoreOfToken(c.core, tok);
    CutWeave(Resealed(c, tok));
  }

  lemma QuotedAbsent(core: string, tok: string, ch: char)
    requires Absent(core, ch) && Absent(tok, ch)
    ensures Absent(QuoteOf(core) + tok + QuoteOf(core), ch)
  {
    if IsQuoted(core) {
      AbsentConcat(core[..1] + tok, core[..1], ch);
      AbsentConcat(core[..1], tok, ch);
      assert core == core[..1] + core[1..];
      AbsentConcat(core[..1], core[1..], ch);
    } else {
      assert "" + tok + "" == tok;
    }
  }

  lemma AbsentConcat(a: string, b: string, ch: char)
    ensures Absent(a + b, ch) <==> Absent(a, ch) && Absent(b, ch)
  {
    FindConcat(a, b, ch);
  }

  lemma WholeAbsent(c: Cut, ch: char)
    ensures Absent(Whole(c), ch) <==> Absent(c.head, ch) && Absent(c.lead, ch) && Absent(c.core, ch) && Absent(c.tail, ch)
  {
    AbsentConcat(c.head, c.lead + c.core + c.tail, ch);
    AbsentConcat(c.lead + c.core, c.tail, ch);
    AbsentConcat(c.lead, c.core, ch);
  }

  /** Cutting again finds the same cut with the token in it. */
  lemma CutAgain(t: string, c': Cut)
    requires c'.head == t[..ValueStart(t)]
    requires var w := c'.lead + c'.core + c'.tail; LeadOf(w) == c'.lead && Strip(w) == c'.core && TailOf(w) == c'.tail
    requires Find(t, ':') == |t| ==> Absent(c'.lead + c'.core + c'.tail, ':')
    ensures ItemCut(Whole(c')) == c'
  {
    SameValueStart(t, c'.head, c'.lead + c'.core + c'.tail);
    CutOf(Whole(c'), c'.head, c'.lead + c'.core + c'.tail, c'.lead, c'.core, c'.tail);
  }

  lemma CutOf(s: string, head: string, w: string, lead: string, core: string, tail: string)
    requires ValueStart(s) == |head| <= |s| && s[|head|..] == w && s[..|head|] == head
    requires LeadOf(w) == lead && Strip(w) == core && TailOf(w) == tail
    ensures ItemCut(s) == Cut(head, lead, core, tail)
  {
  }

  lemma ResealedAbsent(c: Cut, tok: string, ch: char)
    requires Absent(Whole(c), ch) && Absent(tok, ch)
    ensures Absent(Whole(Resealed(c, tok)), ch)
  {
    WholeAbsent(c, ch);
    WholeAbsent(Resealed(c, tok), ch);
    QuotedAbsent(c.core, tok, ch);
  }

  lemma ResealedStrip(c: Cut, tok: string)
    requires Trimmed(c.core) && Blank(c.lead) && Blank(c.tail) && IsToken(tok)
    ensures var core := Resealed(c, tok).core;
            var w := c.lead + core + c.tail;
            LeadOf(w) == c.lead && Strip(w) == core && TailOf(w) == c.tail
  {
    CoreOfToken(c.core, tok);
    StripParts(c.lead, Resealed(c, tok).core, c.tail);
  }

  lemma ResealedCut(t: string, tok: string)
    requires IsToken(tok)
    ensures ItemCut(Whole(Resealed(ItemCut(t), tok))) == Resealed(ItemCut(t), tok)
  {
    var c := ItemCut(t);
    var c' := Resealed(c, tok);
    ItemCutWhole(t);
    ResealedStrip(c, tok);
    if Find(t, ':') == |t| {
      TokenAbsent(tok);
      ResealedAbsent(c, tok, ':');
      AbsentConcat(c'.head, c'.lead + c'.core + c'.tail, ':');
    }
    CutAgain(t, c');
  }

  lemma ItemRescan(t: string, tok: string)
    requires |ItemParts(t).vals| == 1 && IsToken(tok) && Absent(t, ',')
    ensures var p := Parts(ItemParts(t).lits, [tok]);
            ItemParts(Weave(p)) == p && Absent(Weave(p), ',')
  {
    ItemCutWhole(t);
    ResealedParts(ItemCut(t), tok);
    ResealedCut(t, tok);
    TokenAbsent(tok);
    ResealedAbsent(ItemCut(t), tok, ',');
  }

  lemma SameValueStart(t: string, head: string, w': string)
    requires head == t[..ValueStart(t)] && (Find(t, ':') == |t| ==> Absent(w', ':'))
    ensures ValueStart(head + w') == |head| && (head + w')[|head|..] == w' && (head + w')[..|head|] == head
  {
    FindConcat(head, w', ':');
    FindFirst(t, ':');
  }

  function WithVals(p: Parts, vals: seq<string>): Parts
  {
    Parts(p.lits, vals)
  }

  lemma ItemAgain(t: string, vals': seq<string>)
    requires Absent(t, ',') && AllFit(ItemParts(t).vals, vals')
    ensures var p := WithVals(ItemParts(t), vals');
            ItemParts(Weave(p)) == p && Absent(Weave(p), ',')
  {
    ItemWeave(t);
    var p := ItemParts(t);
    if vals' == p.vals {
      assert WithVals(p, vals') == p;
    } else {
      assert Fits(p.vals[0], vals'[0]);
      assert vals' == [vals'[0]];
      ItemRescan(t, vals'[0]);
    }
  }

  lemma ItemsAreItem(t: string)
    requires Absent(t, ',')
    ensures Items(t) == ItemParts(t)
  {
  }

  lemma JoinWithVals(p: Parts, q: Parts, vals: seq<string>)
    requires Proper(p) && Proper(q) && |vals| == |p.vals| + |q.vals|
    ensures WithVals(Chain(p, ",", q), vals) == Chain(WithVals(p, vals[..|p.vals|]), ",", WithVals(q, vals[|p.vals|..]))
  {
  }

  lemma AllFitSplit(a: seq<string>, b: seq<string>, vals': seq<string>)
    requires AllFit(a + b, vals')
    ensures AllFit(a, vals'[..|a|]) && AllFit(b, vals'[|a|..])
  {
    forall i | 0 <= i < |a| ensures Fits(a[i], vals'[..|a|][i]) { assert Fits((a + b)[i], vals'[i]); }
    forall i | 0 <= i < |b| ensures Fits(b[i], vals'[|a|..][i]) { assert Fits((a + b)[|a| + i], vals'[|a| + i]); }
  }

  lemma {:induction false} ItemsRescan(inner: string, vals': seq<string>)
    requires AllFit(Items(inner).vals, vals')
    ensures var p := WithVals(Items(inner), vals'); Items(Weave(p)) == p
    decreases |inner|
  {
    var k := Find(inner, ',');
    FindFirst(inner, ',');
    if k == |inner| {
      ItemAgain(inner, vals');
      ItemsAreItem(Weave(WithVals(Items(inner), vals')));
    } else {
      var p, q := ItemParts(inner[..k]), Items(inner[k + 1..]);
      var a, b := vals'[..|p.vals|], vals'[|p.vals|..];
      AllFitSplit(p.vals, q.vals, vals');
      ItemAgain(inner[..k], a);
      ItemsRescan(inner[k + 1..], b);
      JoinWithVals(p, q, vals');
      WeaveJoin(WithVals(p, a), ",", WithVals(q, b));
      ItemsOfJoined(Weave(WithVals(p, a)), Weave(WithVals(q, b)));
    }
  }

  lemma ItemsOfJoined(x: string, y: string)
    requires Absent(x, ',')
    ensures Items(x + "," + y) == Chain(ItemParts(x), ",", Items(y))
  {
    var s := x + "," + y;
    assert s == x + ("," + y);
    FindConcat(x, "," + y, ',');
    assert Find("," + y, ',') == 0;
    assert s[..|x|] == x && s[|x| + 1..] == y;
  }

  lemma AroundWithVals(pre: string, p: Parts, post: string, vals: seq<string>)
    requires Proper(p) && |vals| == |p.vals|
    ensures WithVals(Around(pre, p, post), vals) == Around(pre, WithVals(p, vals), post)
  {
  }

  lemma ContainerRescan(inner: string, vals': seq<string>)
    requires AllFit(if inner == "" then [""] else Items(inner).vals, vals')
    ensures var core := "{" + inner + "}";
            var p := WithVals(CoreParts(core), vals');
            IsContainer(Weave(p)) && CoreParts(Weave(p)) == p
  {
    InnerOf(inner);
    if inner == "" {
      assert Fits("", vals'[0]) && vals' == [vals'[0]];
      EmptyContainerRescan(vals'[0]);
    } else {
      var q := WithVals(Items(inner), vals');
      ItemsRescan(inner, vals');
      AroundWithVals("{", Items(inner), "}", vals');
      WeaveAround("{", q, "}");
      InnerOf(Weave(q));
      EmptyWeave(inner, vals');
    }
  }

  lemma EmptyContainerRescan(v': string)
    requires Fits("", v')
    ensures var p := Parts(["{", "}"], [v']); IsContainer(Weave(p)) && CoreParts(Weave(p)) == p
  {
    WeaveOne("{", v', "}");
    CoreOfContainer(v');
    if v' != "" {
      TokenItem(v');
      BracesAround(v');
    }
  }

  lemma BracesAround(tok: string)
    ensures Around("{", Parts(["", ""], [tok]), "}") == Parts(["{", "}"], [tok])
  {
    assert "{" + "" == "{" && "" + "}" == "}";
    assert ["", ""][1..1] == [];
  }

  lemma CoreOfContainer(inner: string)
    ensures var core := "{" + inner + "}";
            IsContainer(core) && CoreParts(core) == if inner == "" then Parts(["{", "}"], [""]) else Around("{", Items(inner), "}")
  {
    InnerOf(inner);
  }

  lemma InnerOf(x: string)
    ensures var s := "{" + x + "}"; IsContainer(s) && s[1..|s| - 1] == x
  {
  }

  /** Items with text keep some. */
  lemma EmptyWeave(inner: string, vals': seq<string>)
    requires inner != "" && AllFit(Items(inner).vals, vals')
    ensures Weave(WithVals(Items(inner), vals')) != ""
  {
    var p := WithVals(Items(inner), vals');
    ItemsRescan(inner, vals');
    ItemsWeave(inner);
    if Weave(p) == "" {
      EmptyItems();
    }
  }

  lemma EmptyItems()
    ensures Items("") == Parts([""], [])
  {
  }

  lemma TokenItem(tok: string)
    requires IsToken(tok)
    ensures Items(tok) == Parts(["", ""], [tok])
  {
    TokenAbsent(tok);
    StripParts("", tok, "");
    assert "" + tok + "" == tok;
    CutOf(tok, "", tok, "", tok, "");
    assert "" + "" == "";
    assert CutParts(Cut("", "", tok, "")) == Parts(["", ""], [tok]);
    ItemsAreItem(tok);
  }

  lemma CoreRescan(core: string, vals': seq<string>)
    requires core != "" && Trimmed(core) && AllFit(CoreParts(core).vals, vals')
    ensures var w := Weave(WithVals(CoreParts(core), vals'));
            w != "" && Trimmed(w) && CoreParts(w) == WithVals(CoreParts(core), vals')
  {
    var p := CoreParts(core);
    if IsContainer(core) {
      assert core == "{" + core[1..|core| - 1] + "}";
      ContainerRescan(core[1..|core| - 1], vals');
    } else if vals' == p.vals {
      assert WithVals(p, vals') == p;
      CoreWeave(core);
    } else {
      assert Fits(p.vals[0], vals'[0]) && vals' == [vals'[0]];
      CoreOfToken(core, vals'[0]);
      WeaveOne(QuoteOf(core), vals'[0], QuoteOf(core));
    }
  }

  /** Looking again at a right-hand side with tokens in the place of values finds those tokens,
      between the same literals. */
  lemma RhsRescan(rhs: string, vals': seq<string>)
    requires AllFit(RhsParts(rhs).vals, vals')
    ensures var p := WithVals(RhsParts(rhs), vals'); RhsParts(Weave(p)) == p
  {
    RhsWeave(rhs);
    if Strip(rhs) == "" {
      assert WithVals(RhsParts(rhs), vals') == RhsParts(rhs);
    } else {
      var core := Strip(rhs);
      StripSplit(rhs);
      CoreRescan(core, vals');
      var q := WithVals(CoreParts(core), vals');
      AroundWithVals(LeadOf(rhs), CoreParts(core), TailOf(rhs), vals');
      WeaveAround(LeadOf(rhs), q, TailOf(rhs));
      StripParts(LeadOf(rhs), Weave(q), TailOf(rhs));
    }
  }
}
