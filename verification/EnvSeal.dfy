/** Sealing the values of one line in place. */
module EnvSeal {
  import opened Wrappers
  import opened PyText
  import opened Base64Url
  import opened Envelope
  import opened EnvParts
  import opened EnvReveal
  import opened EnvSpans
  import opened EnvLines

  const KEYRING_NAME := "FINESUB_KEYRING"

  /** A line that sets a variable other than the keyring. */
  predicate IsSecret(l: EnvLine)
  {
    l.name.Some? && l.name.value != KEYRING_NAME && l.rhsStart <= |l.body|
  }

  predicate IsPlain(v: string)
  {
    !StartsWith(v, VALUE_PREFIX)
  }

  /** Some value of the line stands there in the clear. */
  predicate Exposed(l: EnvLine)
  {
    IsSecret(l) && exists v :: v in RhsParts(Rhs(l)).vals && IsPlain(v)
  }

  method AnyPlain(rhs: string, spans: seq<Span>, ghost vals: seq<string>) returns (plain: bool)
    requires InOrder(rhs, vals, spans)
    ensures plain == exists v :: v in vals && IsPlain(v)
  {
    for i := 0 to |spans|
      invariant forall k :: 0 <= k < i ==> !IsPlain(vals[k])
    {
      assert rhs[spans[i].0..spans[i].1] == vals[i];
      if !StartsWith(rhs[spans[i].0..spans[i].1], VALUE_PREFIX) {
        assert vals[i] in vals && IsPlain(vals[i]);
        return true;
      }
    }
    return false;
  }

  method IsExposed(l: EnvLine) returns (exposed: bool)
    ensures exposed == Exposed(l)
  {
    if !IsSecret(l) { return false; }
    var spans := ValueSpans(Rhs(l));
    SpansInOrder(Rhs(l));
    exposed := AnyPlain(Rhs(l), spans, RhsParts(Rhs(l)).vals);
  }

  /** `l'` is `l` with every value in the clear sealed, and nothing else changed. */
  ghost predicate SealedLine(m: Machine, master: Bytes, l: EnvLine, l': EnvLine)
  {
    if !IsSecret(l) then l' == l
    else exists vals' :: SealedWith(m, master, l, l', vals')
  }

  predicate SealedWith(m: Machine, master: Bytes, l: EnvLine, l': EnvLine, vals': seq<string>)
    requires l.rhsStart <= |l.body|
  {
    var p := RhsParts(Rhs(l));
    AllSealed(m, master, p.vals, vals') && l' == WithRhs(l, p, vals')
  }

  function WithRhs(l: EnvLine, p: Parts, vals: seq<string>): EnvLine
    requires l.rhsStart <= |l.body| && Proper(p) && |vals| == |p.vals|
  {
    l.(body := l.body[..l.rhsStart] + Weave(WithVals(p, vals)))
  }

  lemma SealIsToken(m: Machine, plaintext: string, master: Bytes, salt: Bytes)
    requires |salt| == VALUE_SALT_LENGTH
    ensures IsToken(Seal(m, plaintext, master, salt))
  {
    var data := m.encode(plaintext);
    var ciphertext := Xor(data, m.keystream(master, salt, |data|));
    var raw := salt + m.tag(master, salt, ciphertext) + ciphertext;
    assert raw != [];
    assert Seal(m, plaintext, master, salt)[3..] == Encode(raw);
  }

  /** The values behind position `k` have been sealed, those before are as they were. */
  predicate Progress(m: Machine, master: Bytes, p: Parts, vals: seq<string>, spans: seq<Span>, k: nat)
    requires Proper(p)
  {
    && |vals| == |p.vals| == |spans| && k <= |vals|
    && vals[..k] == p.vals[..k]
    && (forall i :: k <= i < |vals| ==> Sealed(m, master, p.vals[i], vals[i]))
    && Offsets(WithVals(p, vals), 0)[..k] == spans[..k]
  }

  /** Replacing the value at `k - 1` in the body replaces it among the values. */
  lemma SealInBody(p: Parts, vals: seq<string>, spans: seq<Span>, k: nat, tok: string, pre: string)
    requires Proper(p) && |vals| == |p.vals| == |spans| && 0 < k <= |vals|
    requires Offsets(WithVals(p, vals), 0)[..k] == spans[..k]
    ensures var w, (start, end) := pre + Weave(WithVals(p, vals)), spans[k - 1];
      && start <= end && |pre| + end <= |w|
      && pre + Weave(WithVals(p, vals[k - 1 := tok])) == w[..|pre| + start] + tok + w[|pre| + end..]
  {
    var q := WithVals(p, vals);
    assert Offsets(q, 0)[k - 1] == Offsets(q, 0)[..k][k - 1] == spans[..k][k - 1] == spans[k - 1];
    ReplaceOne(q, k - 1, tok, 0);
    SpliceBehind(pre, Weave(q), spans[k - 1].0, spans[k - 1].1, tok);
  }

  lemma SealProgress(m: Machine, master: Bytes, p: Parts, vals: seq<string>, spans: seq<Span>, k: nat, tok: string)
    requires Proper(p) && Progress(m, master, p, vals, spans, k) && k > 0
    requires Sealed(m, master, p.vals[k - 1], tok)
    ensures Progress(m, master, p, vals[k - 1 := tok], spans, k - 1)
  {
    var q := WithVals(p, vals);
    ReplaceMoves(q, k - 1, tok, 0);
    Shorter(Offsets(WithVals(q, q.vals[k - 1 := tok]), 0), Offsets(q, 0), spans, k);
    assert vals[k - 1 := tok][..k - 1] == vals[..k][..k - 1] == p.vals[..k][..k - 1] == p.vals[..k - 1];
  }

  lemma Shorter(a: seq<Span>, b: seq<Span>, spans: seq<Span>, k: nat)
    requires 0 < k <= |a| && k <= |b| && k <= |spans| && a[..k - 1] == b[..k - 1] && b[..k] == spans[..k]
    ensures a[..k - 1] == spans[..k - 1]
  {
    assert b[..k - 1] == b[..k][..k - 1] == spans[..k][..k - 1] == spans[..k - 1];
  }

  /** A value is sealed and, before the token is used, opened again. That this gives something else
      does not happen on a lawful machine. */
  method SealValue(m: Machine, master: Bytes, plaintext: string) returns (token: string, ok: bool)
    requires IsPlain(plaintext)
    ensures ok ==> Sealed(m, master, plaintext, token)
    ensures Lawful(m) ==> ok
  {
    var salt := RandomBytes(VALUE_SALT_LENGTH);
    token := Seal(m, plaintext, master, salt);
    SealIsToken(m, plaintext, master, salt);
    ok := Open(m, token, master) == Some(plaintext);
    if Lawful(m) { OpenSealed(m, plaintext, master, salt); }
  }

  lemma SealOne(m: Machine, master: Bytes, p: Parts, vals: seq<string>, spans: seq<Span>, k: nat, tok: string, pre: string, body: string)
    requires Proper(p) && Progress(m, master, p, vals, spans, k) && k > 0 && body == pre + Weave(WithVals(p, vals))
    requires Sealed(m, master, p.vals[k - 1], tok)
    ensures Progress(m, master, p, vals[k - 1 := tok], spans, k - 1)
    ensures var (start, end) := spans[k - 1];
      && start <= end && |pre| + end <= |body|
      && pre + Weave(WithVals(p, vals[k - 1 := tok])) == body[..|pre| + start] + tok + body[|pre| + end..]
  {
    SealInBody(p, vals, spans, k, tok, pre);
    SealProgress(m, master, p, vals, spans, k, tok);
  }

  /** The values are sealed from right to left, so that the spans still to come stay valid. */
  method SealValues(m: Machine, master: Bytes, pre: string, rhs: string, spans: seq<Span>, ghost p: Parts)
    returns (body: string, ok: bool, ghost vals: seq<string>)
    requires Proper(p) && InOrder(rhs, p.vals, spans) && Offsets(p, 0) == spans && Weave(p) == rhs
    ensures ok ==> AllSealed(m, master, p.vals, vals) && body == pre + Weave(WithVals(p, vals))
    ensures Lawful(m) ==> ok
  {
    var offset := |pre|;
    vals := p.vals;
    body := pre + rhs;
    ok := true;
    assert WithVals(p, vals) == p;
    var k: nat := |spans|;
    while k > 0
      invariant k <= |spans| && Progress(m, master, p, vals, spans, k)
      invariant body == pre + Weave(WithVals(p, vals))
    {
      var (start, end) := spans[k - 1];
      var plaintext := rhs[start..end];
      assert plaintext == p.vals[k - 1];
      var token := plaintext;
      if !StartsWith(plaintext, VALUE_PREFIX) {
        token, ok := SealValue(m, master, plaintext);
        if !ok { return; }
      }
      SealOne(m, master, p, vals, spans, k, token, pre, body);
      body := body[..offset + start] + token + body[offset + end..];
      vals := vals[k - 1 := token];
      k := k - 1;
    }
  }

  method SealLine(m: Machine, master: Bytes, l: EnvLine) returns (l': EnvLine, ok: bool)
    requires IsSecret(l)
    ensures ok ==> SealedLine(m, master, l, l')
    ensures Lawful(m) ==> ok
  {
    var rhs := Rhs(l);
    var spans := ValueSpans(rhs);
    SpansInOrder(rhs);
    RhsWeave(rhs);
    var body;
    ghost var vals;
    body, ok, vals := SealValues(m, master, l.body[..l.rhsStart], rhs, spans, RhsParts(rhs));
    l' := l.(body := body);
    assert ok ==> SealedWith(m, master, l, l', vals);
  }

  /** Any bytes of the given number. */
  method RandomBytes(n: nat) returns (bs: Bytes)
    ensures |bs| == n
  {
    bs := [];
    while |bs| < n
      invariant |bs| <= n
    {
      var b: Byte := *;
      bs := bs + [b];
    }
  }
}
