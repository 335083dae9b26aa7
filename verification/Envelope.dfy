/** Sealing values under a master key, and wrapping the master key into the keyring line. */
module Envelope {
  import opened Wrappers
  import opened PyText
  import opened Base64Url

  const VALUE_PREFIX := "fs$"
  const KEK_PREFIX := "finesub$kek$v1$"
  const OBF_PREFIX := "finesub$obf$v1$"
  const MASTER_LENGTH: nat := 32
  const KEK_SALT_LENGTH: nat := 16
  const VALUE_SALT_LENGTH: nat := 12
  const TAG_LENGTH: nat := 8

  /** What the machine provides: its hash functions, UTF-8, and the account-bound wrapping, which
      may be missing or refuse; and the wording of the comments it writes. */
  datatype Machine = Machine(
    keystream: (Bytes, Bytes, nat) -> Bytes,
    tag: (Bytes, Bytes, Bytes) -> Bytes,
    pad: (Bytes, nat) -> Bytes,
    encode: string -> Bytes,
    decode: Bytes -> Option<string>,
    windows: bool,
    bindable: bool,
    bind: Bytes -> Option<Bytes>,
    unbind: Bytes -> Option<Bytes>,
    notePrefix: string,
    noteTail: bool -> string,
    hint: string)

  ghost predicate Lawful(m: Machine)
  {
    && (forall k, s, n :: |m.keystream(k, s, n)| == n)
    && (forall k, s, x :: |m.tag(k, s, x)| == TAG_LENGTH)
    && (forall s, n :: |m.pad(s, n)| == n)
    && (forall t :: m.decode(m.encode(t)) == Some(t))
    && (forall k :: m.bind(k).Some? ==> m.unbind(m.bind(k).value) == Some(k))
    && (forall k :: m.bind(k).Some? ==> m.bind(k).value != [])
  }

  // ----- exclusive or -----

  function XorBits(a: nat, b: nat, bits: nat): nat
  {
    if bits == 0 then 0 else (a % 2 + b % 2) % 2 + 2 * XorBits(a / 2, b / 2, bits - 1)
  }

  function Power2(n: nat): nat
  {
    if n == 0 then 1 else 2 * Power2(n - 1)
  }

  lemma {:induction false} XorBitsTwice(a: nat, b: nat, bits: nat)
    requires a < Power2(bits)
    ensures XorBits(a, b, bits) < Power2(bits) && XorBits(XorBits(a, b, bits), b, bits) == a
  {
    if bits > 0 {
      var bit, rest := (a % 2 + b % 2) % 2, XorBits(a / 2, b / 2, bits - 1);
      XorBitsTwice(a / 2, b / 2, bits - 1);
      BitAndRest(bit, rest);
      BitTwice(a, b);
    }
  }

  lemma BitAndRest(bit: nat, rest: nat)
    requires bit < 2
    ensures (bit + 2 * rest) % 2 == bit && (bit + 2 * rest) / 2 == rest
  {
  }

  lemma BitTwice(a: nat, b: nat)
    ensures ((a % 2 + b % 2) % 2 + b % 2) % 2 == a % 2
  {
  }

  function XorByte(a: Byte, b: Byte): Byte
  {
    XorByteTwice(a, b);
    XorBits(a, b, 8)
  }

  lemma XorByteTwice(a: nat, b: nat)
    requires a < 256
    ensures XorBits(a, b, 8) < 256 && XorBits(XorBits(a, b, 8), b, 8) == a
  {
    assert Power2(8) == 256;
    XorBitsTwice(a, b, 8);
  }

  /** As long as the shorter of the two. */
  function Xor(data: Bytes, pad: Bytes): Bytes
  {
    if data == [] || pad == [] then [] else [XorByte(data[0], pad[0])] + Xor(data[1..], pad[1..])
  }

  lemma {:induction false} XorTwice(data: Bytes, pad: Bytes)
    requires |pad| == |data|
    ensures |Xor(data, pad)| == |data| && Xor(Xor(data, pad), pad) == data
  {
    if data != [] {
      XorTwice(data[1..], pad[1..]);
      XorByteTwice(data[0], pad[0]);
      assert Xor(data, pad)[1..] == Xor(data[1..], pad[1..]);
    }
  }

  // ----- values -----

  function Seal(m: Machine, plaintext: string, master: Bytes, salt: Bytes): string
  {
    var data := m.encode(plaintext);
    var ciphertext := Xor(data, m.keystream(master, salt, |data|));
    VALUE_PREFIX + Encode(salt + m.tag(master, salt, ciphertext) + ciphertext)
  }

  function DecodeToken(body: string): Option<Bytes>
  {
    if AllTokenChars(body) then Decode(body) else None
  }

  /** None when the token cannot be opened here. */
  function Open(m: Machine, token: string, master: Bytes): Option<string>
  {
    if !StartsWith(token, VALUE_PREFIX) then None
    else
      match DecodeToken(token[|VALUE_PREFIX|..])
      case None => None
      case Some(raw) =>
        if |raw| < VALUE_SALT_LENGTH + TAG_LENGTH then None
        else
          var salt := raw[..VALUE_SALT_LENGTH];
          var tag := raw[VALUE_SALT_LENGTH..VALUE_SALT_LENGTH + TAG_LENGTH];
          var ciphertext := raw[VALUE_SALT_LENGTH + TAG_LENGTH..];
          if tag != m.tag(master, salt, ciphertext) then None
          else m.decode(Xor(ciphertext, m.keystream(master, salt, |ciphertext|)))
  }

  /** What the reader's pattern takes for a sealed value. */
  predicate IsToken(s: string)
  {
    |s| > 3 && s[..3] == VALUE_PREFIX && AllTokenChars(s[3..])
  }

  /** A sealed value is a token and opens to what was sealed. */
  lemma OpenSealed(m: Machine, plaintext: string, master: Bytes, salt: Bytes)
    requires Lawful(m) && |salt| == VALUE_SALT_LENGTH
    ensures IsToken(Seal(m, plaintext, master, salt))
    ensures Open(m, Seal(m, plaintext, master, salt), master) == Some(plaintext)
  {
    var data := m.encode(plaintext);
    var ciphertext := Xor(data, m.keystream(master, salt, |data|));
    var tag := m.tag(master, salt, ciphertext);
    XorTwice(data, m.keystream(master, salt, |data|));
    var raw := salt + tag + ciphertext;
    RoundTrip(raw);
    assert Seal(m, plaintext, master, salt)[3..] == Encode(raw);
    assert raw[..VALUE_SALT_LENGTH] == salt && raw[VALUE_SALT_LENGTH..VALUE_SALT_LENGTH + TAG_LENGTH] == tag;
    assert raw[VALUE_SALT_LENGTH + TAG_LENGTH..] == ciphertext;
  }

  /** A token opens only if it carries the tag of what it carries: anything else is not opened to garbage. */
  lemma OpensOnlyAuthentic(m: Machine, token: string, master: Bytes)
    requires Open(m, token, master).Some?
    ensures StartsWith(token, VALUE_PREFIX)
    ensures exists salt, ciphertext :: |salt| == VALUE_SALT_LENGTH && |m.tag(master, salt, ciphertext)| == TAG_LENGTH
              && DecodeToken(token[|VALUE_PREFIX|..]) == Some(salt + m.tag(master, salt, ciphertext) + ciphertext)
  {
    var raw := DecodeToken(token[|VALUE_PREFIX|..]).value;
    var salt, ciphertext := raw[..VALUE_SALT_LENGTH], raw[VALUE_SALT_LENGTH + TAG_LENGTH..];
    assert raw == salt + m.tag(master, salt, ciphertext) + ciphertext;
  }

  // ----- the master key -----

  datatype Opened = Opened(master: Bytes) | Unreadable | Unavailable

  /** None when this machine cannot wrap a key. Off Windows nothing binds the key. */
  function WrapMaster(m: Machine, master: Bytes, salt: Bytes): Option<string>
  {
    if m.windows && !m.bindable then None
    else if m.windows && m.bind(master).None? then None
    else
      var blob := if m.windows then m.bind(master).value else master;
      Some((if m.windows then KEK_PREFIX else OBF_PREFIX) + Encode(salt + Xor(blob, m.pad(salt, |blob|))))
  }

  function UnwrapMaster(m: Machine, token: string): Opened
  {
    if StartsWith(token, OBF_PREFIX) then UnwrapBody(m, token[|OBF_PREFIX|..], false)
    else if !StartsWith(token, KEK_PREFIX) || !m.windows then Unreadable
    else if !m.bindable then Unavailable
    else UnwrapBody(m, token[|KEK_PREFIX|..], true)
  }

  function UnwrapBody(m: Machine, body: string, bound: bool): Opened
  {
    match DecodeToken(body)
    case None => Unreadable
    case Some(raw) =>
      if |raw| <= KEK_SALT_LENGTH then Unreadable
      else
        var salt := raw[..KEK_SALT_LENGTH];
        var blob := Xor(raw[KEK_SALT_LENGTH..], m.pad(salt, |raw| - KEK_SALT_LENGTH));
        var master := if bound then m.unbind(blob) else Some(blob);
        if master.None? || |master.value| != MASTER_LENGTH then Unreadable else Opened(master.value)
  }

  /** A keyring line opens where it was written; an obfuscated one opens anywhere. */
  lemma UnwrapWrapped(m: Machine, there: Machine, master: Bytes, salt: Bytes)
    requires Lawful(m) && Lawful(there) && there.pad == m.pad && there.unbind == m.unbind
    requires |master| == MASTER_LENGTH && |salt| == KEK_SALT_LENGTH && WrapMaster(m, master, salt).Some?
    requires m.windows ==> there.windows && there.bindable
    ensures UnwrapMaster(there, WrapMaster(m, master, salt).value) == Opened(master)
  {
    var blob := if m.windows then m.bind(master).value else master;
    var hidden := Xor(blob, m.pad(salt, |blob|));
    XorTwice(blob, m.pad(salt, |blob|));
    var raw := salt + hidden;
    RoundTrip(raw);
    assert raw[..KEK_SALT_LENGTH] == salt && raw[KEK_SALT_LENGTH..] == hidden;
    UnwrapBodyOf(there, Encode(raw), raw, hidden, blob, m.windows);
    var prefix := if m.windows then KEK_PREFIX else OBF_PREFIX;
    PrefixTells(prefix, Encode(raw));
  }

  /** What a keyring line opens to has the length of a master key; and off Windows one bound to an account does
      not open. */
  lemma UnwrapsMasters(m: Machine, token: string)
    ensures UnwrapMaster(m, token).Opened? ==> |UnwrapMaster(m, token).master| == MASTER_LENGTH
    ensures UnwrapMaster(m, token).Opened? ==> StartsWith(token, OBF_PREFIX) || (StartsWith(token, KEK_PREFIX) && m.windows && m.bindable)
  {
  }

  lemma UnwrapBodyOf(m: Machine, body: string, raw: Bytes, hidden: Bytes, blob: Bytes, bound: bool)
    requires DecodeToken(body) == Some(raw) && |raw| > KEK_SALT_LENGTH && raw[KEK_SALT_LENGTH..] == hidden
    requires Xor(hidden, m.pad(raw[..KEK_SALT_LENGTH], |hidden|)) == blob
    ensures var master := if bound then m.unbind(blob) else Some(blob);
            UnwrapBody(m, body, bound)
            == if master.None? || |master.value| != MASTER_LENGTH then Unreadable else Opened(master.value)
  {
  }

  /** The two prefixes are told apart, and cut off, reliably. */
  lemma PrefixTells(prefix: string, body: string)
    requires prefix == KEK_PREFIX || prefix == OBF_PREFIX
    ensures var token := prefix + body;
      && (StartsWith(token, OBF_PREFIX) <==> prefix == OBF_PREFIX) && (StartsWith(token, KEK_PREFIX) <==> prefix == KEK_PREFIX)
      && token[|prefix|..] == body
  {
    var token := prefix + body;
    assert token[..|prefix|] == prefix;
    assert |KEK_PREFIX| == |OBF_PREFIX| && KEK_PREFIX[8] != OBF_PREFIX[8];
    assert token[8] == prefix[8];
    assert StartsWith(token, OBF_PREFIX) ==> token[8] == OBF_PREFIX[8];
    assert StartsWith(token, KEK_PREFIX) ==> token[8] == KEK_PREFIX[8];
  }

  predicate IsKeyring(s: string)
  {
    || (StartsWith(s, KEK_PREFIX) && AllTokenChars(s[|KEK_PREFIX|..]))
    || (StartsWith(s, OBF_PREFIX) && AllTokenChars(s[|OBF_PREFIX|..]))
  }

  lemma WrappedShape(m: Machine, master: Bytes, salt: Bytes)
    requires WrapMaster(m, master, salt).Some?
    ensures IsKeyring(WrapMaster(m, master, salt).value)
  {
    var blob := if m.windows then m.bind(master).value else master;
    var raw := salt + Xor(blob, m.pad(salt, |blob|));
    var prefix := if m.windows then KEK_PREFIX else OBF_PREFIX;
    assert (prefix + Encode(raw))[|prefix|..] == Encode(raw);
  }
}
