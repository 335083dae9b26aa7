/** base64url without padding: bytes are cut into groups of six bits, and each group is a character. */
module Base64Url {
  import opened Wrappers

  type Byte = b: int | 0 <= b < 256

  type Bytes = seq<Byte>

  type Six = v: int | 0 <= v < 64

  // ----- groups and characters -----

  predicate IsTokenChar(ch: char)
  {
    'A' <= ch <= 'Z' || 'a' <= ch <= 'z' || '0' <= ch <= '9' || ch == '-' || ch == '_'
  }

  predicate AllTokenChars(s: string)
  {
    forall i :: 0 <= i < |s| ==> IsTokenChar(s[i])
  }

  function OfChar(ch: char): Six
    requires IsTokenChar(ch)
  {
    if 'A' <= ch <= 'Z' then ch as int - 'A' as int
    else if 'a' <= ch <= 'z' then ch as int - 'a' as int + 26
    else if '0' <= ch <= '9' then ch as int - '0' as int + 52
    else if ch == '-' then 62 else 63
  }

  function ToChar(v: Six): (ch: char)
    ensures IsTokenChar(ch) && OfChar(ch) == v
  {
    if v < 26 then ('A' as int + v) as char
    else if v < 52 then ('a' as int + (v - 26)) as char
    else if v < 62 then ('0' as int + (v - 52)) as char
    else if v == 62 then '-' else '_'
  }

  function ToChars(vs: seq<Six>): (s: string)
    ensures |s| == |vs| && AllTokenChars(s)
  {
    seq(|vs|, i requires 0 <= i < |vs| => ToChar(vs[i]))
  }

  function OfChars(s: string): (vs: seq<Six>)
    requires AllTokenChars(s)
    ensures |vs| == |s|
  {
    seq(|s|, i requires 0 <= i < |s| => OfChar(s[i]))
  }

  lemma CharsRoundTrip(vs: seq<Six>)
    ensures OfChars(ToChars(vs)) == vs
  {
  }

  // ----- bytes and groups -----

  function Group1(b0: Byte, b1: Byte): Six { b0 % 4 * 16 + b1 / 16 }
  function Group2(b1: Byte, b2: Byte): Six { b1 % 16 * 4 + b2 / 64 }

  function Byte0(g0: int, g1: int): Byte
    requires 0 <= g0 < 64 && 0 <= g1 < 64
  {
    g0 * 4 + g1 / 16
  }

  function Byte1(g1: int, g2: int): Byte
    requires 0 <= g1 < 64 && 0 <= g2 < 64
  {
    g1 % 16 * 16 + g2 / 4
  }

  function Byte2(g2: int, g3: int): Byte
    requires 0 <= g2 < 64 && 0 <= g3 < 64
  {
    g2 % 4 * 64 + g3
  }

  lemma ThreeBytes(b0: Byte, b1: Byte, b2: Byte)
    ensures Byte0(b0 / 4, Group1(b0, b1)) == b0
    ensures Byte1(Group1(b0, b1), Group2(b1, b2)) == b1
    ensures Byte2(Group2(b1, b2), b2 % 64) == b2
  {
  }

  function Groups(bs: Bytes): seq<Six>
  {
    if |bs| == 0 then []
    else if |bs| == 1 then [bs[0] / 4, Group1(bs[0], 0)]
    else if |bs| == 2 then [bs[0] / 4, Group1(bs[0], bs[1]), Group2(bs[1], 0)]
    else [bs[0] / 4, Group1(bs[0], bs[1]), Group2(bs[1], bs[2]), bs[2] % 64] + Groups(bs[3..])
  }

  /** One group too many is an error; bits left over are dropped. */
  function Ungroup(vs: seq<Six>): Option<Bytes>
  {
    if |vs| == 0 then Some([])
    else if |vs| == 1 then None
    else if |vs| == 2 then Some([Byte0(vs[0], vs[1])])
    else if |vs| == 3 then Some([Byte0(vs[0], vs[1]), Byte1(vs[1], vs[2])])
    else
      match Ungroup(vs[4..])
      case None => None
      case Some(rest) => Some([Byte0(vs[0], vs[1]), Byte1(vs[1], vs[2]), Byte2(vs[2], vs[3])] + rest)
  }

  lemma FewBytes(b0: Byte, b1: Byte)
    ensures Ungroup([b0 / 4, Group1(b0, 0)]) == Some([b0])
    ensures Ungroup([b0 / 4, Group1(b0, b1), Group2(b1, 0)]) == Some([b0, b1])
  {
    UngroupFew(b0 / 4, Group1(b0, 0), 0);
    UngroupFew(b0 / 4, Group1(b0, b1), Group2(b1, 0));
    ThreeBytes(b0, 0, 0);
    ThreeBytes(b0, b1, 0);
  }

  lemma UngroupFew(g0: Six, g1: Six, g2: Six)
    ensures Ungroup([g0, g1]) == Some([Byte0(g0, g1)])
    ensures Ungroup([g0, g1, g2]) == Some([Byte0(g0, g1), Byte1(g1, g2)])
  {
  }

  lemma UngroupFour(g0: Six, g1: Six, g2: Six, g3: Six, rest: seq<Six>, bs: Bytes)
    requires Ungroup(rest) == Some(bs)
    ensures Ungroup([g0, g1, g2, g3] + rest) == Some([Byte0(g0, g1), Byte1(g1, g2), Byte2(g2, g3)] + bs)
  {
    assert ([g0, g1, g2, g3] + rest)[4..] == rest;
  }

  lemma {:induction false} GroupsRoundTrip(bs: Bytes)
    ensures Ungroup(Groups(bs)) == Some(bs)
  {
    if |bs| >= 3 {
      GroupsRoundTrip(bs[3..]);
      UngroupFour(bs[0] / 4, Group1(bs[0], bs[1]), Group2(bs[1], bs[2]), bs[2] % 64, Groups(bs[3..]), bs[3..]);
      ThreeBytes(bs[0], bs[1], bs[2]);
      FirstThree(bs);
    } else if |bs| > 0 {
      FewBytes(bs[0], if |bs| == 1 then 0 else bs[1]);
      assert bs == if |bs| == 1 then [bs[0]] else [bs[0], bs[1]];
    }
  }

  lemma FirstThree(bs: Bytes)
    requires |bs| >= 3
    ensures bs == [bs[0], bs[1], bs[2]] + bs[3..]
  {
  }

  lemma {:induction false} GroupsNonEmpty(bs: Bytes)
    requires bs != []
    ensures Groups(bs) != []
  {
  }

  // ----- the encoding -----

  function Encode(bs: Bytes): (s: string)
    ensures AllTokenChars(s) && (bs != [] ==> s != "")
  {
    if bs != [] then GroupsNonEmpty(bs); ToChars(Groups(bs)) else ToChars(Groups(bs))
  }

  function Decode(s: string): Option<Bytes>
    requires AllTokenChars(s)
  {
    Ungroup(OfChars(s))
  }

  lemma RoundTrip(bs: Bytes)
    ensures Decode(Encode(bs)) == Some(bs)
  {
    CharsRoundTrip(Groups(bs));
    GroupsRoundTrip(bs);
  }
}
