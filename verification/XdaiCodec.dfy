/**
 The 124-byte xDai message: the processor builds it as hexadecimal text and signs
 the decoded bytes; the sender slices the same bytes back into fields.
 */
module XdaiCodec {
  import opened Prelude

  newtype byte = x: int | 0 <= x < 256

  function Pow256(n: nat): (r: nat)
    ensures r >= 1
  {
    if n == 0 then 1 else 256 * Pow256(n - 1)
  }

  const U256_LIMIT: nat := 0x1_0000000000000000_0000000000000000_0000000000000000_0000000000000000

  type Address = s: seq<byte> | |s| == 20 witness seq(20, i => 0 as byte)
  type Bytes32 = s: seq<byte> | |s| == 32 witness seq(32, i => 0 as byte)
  type U256 = v: nat | v < U256_LIMIT

  datatype CodecError =
    | InvalidFieldLength(field: string, expected: int, actual: int)
    | UnexpectedLength(length: int)

  // ----- big-endian integers -----

  function ToBeBytes(v: nat, n: nat): (bs: seq<byte>)
    ensures |bs| == n
  {
    if n == 0 then [] else ToBeBytes(v / 256, n - 1) + [(v % 256) as byte]
  }

  function FromBeBytes(bs: seq<byte>): nat {
    if bs == [] then 0 else FromBeBytes(bs[..|bs| - 1]) * 256 + bs[|bs| - 1] as int
  }

  /** Most significant byte first: byte i has the weight 256^(n-1-i). */
  ghost predicate BigEndian(bs: seq<byte>, v: nat) {
    forall i :: 0 <= i < |bs| ==> bs[i] as int == v / Pow256(|bs| - 1 - i) % 256
  }

  lemma {:induction false} ToBeBytesIsBigEndian(v: nat, n: nat)
    ensures BigEndian(ToBeBytes(v, n), v)
  {
    if n == 0 {
    } else {
      var bs, head := ToBeBytes(v, n), ToBeBytes(v / 256, n - 1);
      ToBeBytesIsBigEndian(v / 256, n - 1);
      forall i | 0 <= i < n ensures bs[i] as int == v / Pow256(n - 1 - i) % 256 {
        if i < n - 1 {
          assert bs[i] == head[i];
          DivideTwice(v, 256, Pow256(n - 2 - i));
        }
      }
    }
  }

  /** There is one such byte string per value and length. */
  lemma BigEndianIs(bs: seq<byte>, v: nat)
    ensures BigEndian(bs, v) <==> bs == ToBeBytes(v, |bs|)
  {
    ToBeBytesIsBigEndian(v, |bs|);
    if BigEndian(bs, v) {
      forall i | 0 <= i < |bs| ensures bs[i] == ToBeBytes(v, |bs|)[i] {}
    }
  }

  lemma {:induction false} FromToBe(v: nat, n: nat)
    requires v < Pow256(n)
    ensures FromBeBytes(ToBeBytes(v, n)) == v
  {
    if n == 0 {
    } else {
      var head := ToBeBytes(v / 256, n - 1);
      FromToBe(v / 256, n - 1);
      assert (head + [(v % 256) as byte])[..n - 1] == head;
    }
  }

  lemma {:induction false} ToFromBe(bs: seq<byte>)
    ensures FromBeBytes(bs) < Pow256(|bs|)
    ensures ToBeBytes(FromBeBytes(bs), |bs|) == bs
  {
    if bs == [] {
    } else {
      var head, last := bs[..|bs| - 1], bs[|bs| - 1];
      ToFromBe(head);
      var v := FromBeBytes(bs);
      assert v / 256 == FromBeBytes(head) && v % 256 == last as int;
      assert head + [last] == bs;
    }
  }

  lemma Pow256Of32()
    ensures Pow256(32) == U256_LIMIT
  {
    assert Pow256(4) == 0x1_00000000;
    assert Pow256(8) == 0x1_00000000_00000000;
    assert Pow256(12) == 0x1_00000000_00000000_00000000;
    assert Pow256(16) == 0x1_00000000_00000000_00000000_00000000;
    assert Pow256(20) == 0x1_00000000_00000000_00000000_00000000_00000000;
    assert Pow256(24) == 0x1_00000000_00000000_00000000_00000000_00000000_00000000;
    assert Pow256(28) == 0x1_00000000_00000000_00000000_00000000_00000000_00000000_00000000;
  }

  // ----- hexadecimal -----

  const DIGITS: string := "0123456789abcdef"

  function HexEncode(bs: seq<byte>): string {
    if bs == [] then "" else
      [DIGITS[bs[0] as int / 16], DIGITS[bs[0] as int % 16]] + HexEncode(bs[1..])
  }

  function DigitValue(c: char): Option<nat> {
    if '0' <= c <= '9' then Some(c as int - '0' as int)
    else if 'a' <= c <= 'f' then Some(c as int - 'a' as int + 10)
    else if 'A' <= c <= 'F' then Some(c as int - 'A' as int + 10)
    else None
  }

  function DecodeDigits(s: string): Option<seq<byte>> {
    if s == "" then Some([])
    else if |s| == 1 then None
    else
      match (DigitValue(s[0]), DigitValue(s[1]), DecodeDigits(s[2..]))
      case (Some(hi), Some(lo), Some(rest)) =>
        if hi < 16 && lo < 16 then Some([(hi * 16 + lo) as byte] + rest) else None
      case _ => None
  }

  /** `hex::decode`: an optional `0x` prefix, then an even number of digits. */
  function HexDecode(s: string): Option<seq<byte>> {
    if |s| >= 2 && s[..2] == "0x" then DecodeDigits(s[2..]) else DecodeDigits(s)
  }

  /** The lower-case digit of a value below 16. */
  predicate IsHexDigit(c: char, d: int) {
    0 <= d < 16 && c as int == if d < 10 then '0' as int + d else 'a' as int + d - 10
  }

  /** Two lower-case digits per byte, the high one first. */
  lemma {:induction false} HexSpells(bs: seq<byte>, i: nat)
    requires i < |bs|
    ensures |HexEncode(bs)| == 2 * |bs|
    ensures IsHexDigit(HexEncode(bs)[2 * i], bs[i] as int / 16) && IsHexDigit(HexEncode(bs)[2 * i + 1], bs[i] as int % 16)
  {
    HexLength(bs);
    if i == 0 {
    } else {
      HexSpells(bs[1..], i - 1);
      assert HexEncode(bs)[2..] == HexEncode(bs[1..]);
      assert HexEncode(bs)[2..][2 * (i - 1)] == HexEncode(bs)[2 * i];
      assert HexEncode(bs)[2..][2 * (i - 1) + 1] == HexEncode(bs)[2 * i + 1];
    }
  }

  /** A hexadecimal digit of either case and its value. */
  predicate Denotes(c: char, d: int) {
    || ('0' <= c <= '9' && d == c as int - '0' as int)
    || ('a' <= c <= 'f' && d == c as int - 'a' as int + 10)
    || ('A' <= c <= 'F' && d == c as int - 'A' as int + 10)
  }

  /** Decoding gives the bytes whose digits these are, two per byte, and fails exactly if there are no such bytes. */
  lemma {:induction false} DecodeDigitsMeaning(s: string, bs: seq<byte>)
    ensures DecodeDigits(s) == Some(bs) <==>
              |s| == 2 * |bs| &&
              forall i :: 0 <= i < |bs| ==> Denotes(s[2 * i], bs[i] as int / 16) && Denotes(s[2 * i + 1], bs[i] as int % 16)
  {
    if |s| < 2 || bs == [] {
    } else {
      var rest, tail := s[2..], bs[1..];
      DecodeDigitsMeaning(rest, tail);
      assert DecodeDigits(s) == Some(bs) <==>
               Denotes(s[0], bs[0] as int / 16) && Denotes(s[1], bs[0] as int % 16) && DecodeDigits(rest) == Some(tail)
      by {
        assert bs == [bs[0]] + tail;
      }
      assert forall i :: 0 <= i < |tail| ==> tail[i] == bs[i + 1];
      assert |s| == 2 * |bs| ==> forall i :: 0 <= i < |tail| ==> rest[2 * i] == s[2 * (i + 1)] && rest[2 * i + 1] == s[2 * (i + 1) + 1];
      if |s| == 2 * |bs| { ShiftDigits(s, bs); }
    }
  }

  lemma ShiftDigits(s: string, bs: seq<byte>)
    requires bs != [] && |s| == 2 * |bs|
    ensures (forall i :: 0 <= i < |bs| ==> Denotes(s[2 * i], bs[i] as int / 16) && Denotes(s[2 * i + 1], bs[i] as int % 16))
       <==> Denotes(s[0], bs[0] as int / 16) && Denotes(s[1], bs[0] as int % 16)
            && forall i :: 0 <= i < |bs[1..]| ==>
                 Denotes(s[2..][2 * i], bs[1..][i] as int / 16) && Denotes(s[2..][2 * i + 1], bs[1..][i] as int % 16)
  {
    var rest, tail := s[2..], bs[1..];
    if forall i :: 0 <= i < |tail| ==> Denotes(rest[2 * i], tail[i] as int / 16) && Denotes(rest[2 * i + 1], tail[i] as int % 16) {
      forall i | 0 < i < |bs| && Denotes(s[0], bs[0] as int / 16) && Denotes(s[1], bs[0] as int % 16)
        ensures Denotes(s[2 * i], bs[i] as int / 16) && Denotes(s[2 * i + 1], bs[i] as int % 16)
      {
        assert tail[i - 1] == bs[i] && rest[2 * (i - 1)] == s[2 * i] && rest[2 * (i - 1) + 1] == s[2 * i + 1];
      }
    }
    if forall i :: 0 <= i < |bs| ==> Denotes(s[2 * i], bs[i] as int / 16) && Denotes(s[2 * i + 1], bs[i] as int % 16) {
      forall i | 0 <= i < |tail|
        ensures Denotes(rest[2 * i], tail[i] as int / 16) && Denotes(rest[2 * i + 1], tail[i] as int % 16)
      {
        assert tail[i] == bs[i + 1] && rest[2 * i] == s[2 * (i + 1)] && rest[2 * i + 1] == s[2 * (i + 1) + 1];
      }
    }
  }

  lemma {:induction false} HexLength(bs: seq<byte>)
    ensures |HexEncode(bs)| == 2 * |bs|
  {
    if bs == [] {
    } else {
      HexLength(bs[1..]);
    }
  }

  lemma {:induction false} HexConcat(a: seq<byte>, b: seq<byte>)
    ensures HexEncode(a + b) == HexEncode(a) + HexEncode(b)
  {
    if a == [] {
      assert a + b == b;
    } else {
      assert (a + b)[1..] == a[1..] + b;
      HexConcat(a[1..], b);
    }
  }

  lemma DigitRoundTrip(n: nat)
    requires n < 16
    ensures DigitValue(DIGITS[n]) == Some(n) && DIGITS[n] != 'x'
  {
  }

  lemma DigitPairRoundTrip(b: byte, s: string, rest: seq<byte>)
    requires DecodeDigits(s) == Some(rest)
    ensures DecodeDigits([DIGITS[b as int / 16], DIGITS[b as int % 16]] + s) == Some([b] + rest)
  {
    DigitRoundTrip(b as int / 16);
    DigitRoundTrip(b as int % 16);
    assert ([DIGITS[b as int / 16], DIGITS[b as int % 16]] + s)[2..] == s;
  }

  lemma {:induction false} DigitsRoundTrip(bs: seq<byte>)
    ensures DecodeDigits(HexEncode(bs)) == Some(bs)
  {
    if bs == [] {
    } else {
      DigitsRoundTrip(bs[1..]);
      DigitPairRoundTrip(bs[0], HexEncode(bs[1..]), bs[1..]);
      assert [bs[0]] + bs[1..] == bs;
    }
  }

  /** Text produced by the encoder never starts with `0x`, so decoding it strips nothing. */
  lemma HexRoundTrip(bs: seq<byte>)
    ensures HexDecode(HexEncode(bs)) == Some(bs)
  {
    DigitsRoundTrip(bs);
    HexLength(bs);
    if bs != [] {
      DigitRoundTrip(bs[0] as int % 16);
      assert HexEncode(bs)[1] != 'x' && "0x"[1] == 'x';
      assert HexEncode(bs)[..2][1] == HexEncode(bs)[1];
    }
  }

  // ----- the message -----

  /** `create_xdai_message`, with every length check it makes. */
  function CreateXdaiMessage(bridge: Address, recipient: Address, value: U256, nonce: Bytes32, token: Address)
    : Result<string, CodecError>
  {
    var recipientHex := HexEncode(recipient);
    if |recipientHex| != 40 then Err(InvalidFieldLength("recipient", 20, |recipientHex| / 2)) else
    var valueHex := HexEncode(ToBeBytes(value, 32));
    if |valueHex| != 64 then Err(InvalidFieldLength("value", 32, |valueHex| / 2)) else
    var nonceHex := HexEncode(nonce);
    if |nonceHex| != 64 then Err(InvalidFieldLength("nonce", 32, |nonceHex| / 2)) else
    var bridgeHex := HexEncode(bridge);
    if |bridgeHex| != 40 then Err(InvalidFieldLength("bridge_address", 20, |bridgeHex| / 2)) else
    var tokenHex := HexEncode(token);
    if |tokenHex| != 40 then Err(InvalidFieldLength("token_address", 20, |tokenHex| / 2)) else
    var message := "0x" + recipientHex + valueHex + nonceHex + bridgeHex + tokenHex;
    if |message| != 250 then Err(InvalidFieldLength("message", 124, (|message| - 2) / 2)) else
    Ok(message)
  }

  datatype ParsedXdaiMessage =
    ParsedXdaiMessage(recipient: Address, value: U256, nonce: Bytes32, bridge: Address, token: Address)

  /** `parse_xdai_message`. */
  function ParseXdaiMessage(message: seq<byte>): Result<ParsedXdaiMessage, CodecError> {
    if |message| != 124 then Err(UnexpectedLength(|message|)) else
      ToFromBe(message[20..52]);
      Pow256Of32();
      Ok(ParsedXdaiMessage(
           message[0..20],
           FromBeBytes(message[20..52]),
           message[52..84],
           message[84..104],
           message[104..124]))
  }

  /** The layout the two sides agree on: five big-endian fields, 124 bytes. */
  function Layout(p: ParsedXdaiMessage): (bytes: seq<byte>)
    ensures |bytes| == 124
  {
    p.recipient + ToBeBytes(p.value, 32) + p.nonce + p.bridge + p.token
  }

  lemma HexConcat5(a: seq<byte>, b: seq<byte>, c: seq<byte>, d: seq<byte>, e: seq<byte>)
    ensures HexEncode(a + b + c + d + e) == HexEncode(a) + HexEncode(b) + HexEncode(c) + HexEncode(d) + HexEncode(e)
  {
    HexConcat(a, b);
    HexConcat(a + b, c);
    HexConcat(a + b + c, d);
    HexConcat(a + b + c + d, e);
  }

  /** No length error is reachable; the text is 250 characters and spells the layout. */
  lemma CreateSpellsLayout(p: ParsedXdaiMessage)
    ensures CreateXdaiMessage(p.bridge, p.recipient, p.value, p.nonce, p.token) == Ok("0x" + HexEncode(Layout(p)))
    ensures |HexEncode(Layout(p))| == 248
  {
    var v := ToBeBytes(p.value, 32);
    HexLength(p.recipient); HexLength(v); HexLength(p.nonce); HexLength(p.bridge); HexLength(p.token);
    HexConcat5(p.recipient, v, p.nonce, p.bridge, p.token);
    HexLength(Layout(p));
    SpellAssociates("0x", HexEncode(p.recipient), HexEncode(v), HexEncode(p.nonce), HexEncode(p.bridge), HexEncode(p.token));
  }

  lemma SpellAssociates(x: string, a: string, b: string, c: string, d: string, e: string)
    ensures x + a + b + c + d + e == x + (a + b + c + d + e)
  {
  }

  lemma ParseLayout(p: ParsedXdaiMessage)
    ensures ParseXdaiMessage(Layout(p)) == Ok(p)
  {
    var bytes, v := Layout(p), ToBeBytes(p.value, 32);
    Pow256Of32();
    FromToBe(p.value, 32);
    assert bytes[0..20] == p.recipient;
    assert bytes[20..52] == v;
    assert bytes[52..84] == p.nonce;
    assert bytes[84..104] == p.bridge;
    assert bytes[104..124] == p.token;
  }

  /** Build the text, drop `0x`, decode, parse: the same five fields come back. */
  lemma XdaiRoundTrip(p: ParsedXdaiMessage)
    ensures var text := CreateXdaiMessage(p.bridge, p.recipient, p.value, p.nonce, p.token);
            && text.Ok? && |text.value| == 250
            && HexDecode(text.value[2..]).Some?
            && |HexDecode(text.value[2..]).value| == 124
            && ParseXdaiMessage(HexDecode(text.value[2..]).value) == Ok(p)
  {
    CreateSpellsLayout(p);
    assert ("0x" + HexEncode(Layout(p)))[2..] == HexEncode(Layout(p));
    HexRoundTrip(Layout(p));
    ParseLayout(p);
  }

  /** Where the five fields are in the 124 bytes. */
  ghost predicate HasFields(m: seq<byte>, recipient: Address, value: U256, nonce: Bytes32, bridge: Address, token: Address) {
    && |m| == 124
    && m[0..20] == recipient && BigEndian(m[20..52], value) && m[52..84] == nonce
    && m[84..104] == bridge && m[104..124] == token
  }

  /** The text is `0x` and the digits of 124 bytes that have the fields at these places; no other bytes have them. */
  lemma XdaiFieldPositions(p: ParsedXdaiMessage, m: seq<byte>)
    ensures var text := CreateXdaiMessage(p.bridge, p.recipient, p.value, p.nonce, p.token);
            && text.Ok? && text.value[..2] == "0x"
            && (HasFields(m, p.recipient, p.value, p.nonce, p.bridge, p.token) <==> HexDecode(text.value[2..]) == Some(m))
            && (HasFields(m, p.recipient, p.value, p.nonce, p.bridge, p.token) <==> ParseXdaiMessage(m) == Ok(p))
  {
    var bytes, v := Layout(p), ToBeBytes(p.value, 32);
    CreateSpellsLayout(p);
    assert ("0x" + HexEncode(bytes))[2..] == HexEncode(bytes);
    HexRoundTrip(bytes);
    LayoutHasFields(p);
    if HasFields(m, p.recipient, p.value, p.nonce, p.bridge, p.token) { FieldsAreLayout(p, m); ParseLayout(p); }
    if ParseXdaiMessage(m) == Ok(p) { XdaiReencode(m); }
  }

  lemma LayoutHasFields(p: ParsedXdaiMessage)
    ensures HasFields(Layout(p), p.recipient, p.value, p.nonce, p.bridge, p.token)
  {
    var m := Layout(p);
    ToBeBytesIsBigEndian(p.value, 32);
    assert m[0..20] == p.recipient && m[20..52] == ToBeBytes(p.value, 32) && m[52..84] == p.nonce;
    assert m[84..104] == p.bridge && m[104..124] == p.token;
  }

  lemma FieldsAreLayout(p: ParsedXdaiMessage, m: seq<byte>)
    requires HasFields(m, p.recipient, p.value, p.nonce, p.bridge, p.token)
    ensures m == Layout(p)
  {
    BigEndianIs(m[20..52], p.value);
    assert m == m[0..20] + m[20..52] + m[52..84] + m[84..104] + m[104..124];
  }

  /** Different fields never share a message text. */
  lemma XdaiEncodingInjective(p: ParsedXdaiMessage, q: ParsedXdaiMessage)
    requires CreateXdaiMessage(p.bridge, p.recipient, p.value, p.nonce, p.token)
          == CreateXdaiMessage(q.bridge, q.recipient, q.value, q.nonce, q.token)
    ensures p == q
  {
    XdaiRoundTrip(p);
    XdaiRoundTrip(q);
  }

  /** The parser accepts exactly the 124-byte strings, and what it accepts re-encodes to itself. */
  lemma XdaiReencode(message: seq<byte>)
    ensures ParseXdaiMessage(message).Ok? <==> |message| == 124
    ensures ParseXdaiMessage(message).Ok? ==>
              var p := ParseXdaiMessage(message).value;
              var text := CreateXdaiMessage(p.bridge, p.recipient, p.value, p.nonce, p.token);
              Layout(p) == message && text.Ok? && HexDecode(text.value[2..]) == Some(message)
  {
    if |message| == 124 {
      var p := ParseXdaiMessage(message).value;
      ToFromBe(message[20..52]);
      assert message == message[0..20] + message[20..52] + message[52..84] + message[84..104] + message[104..124];
      assert Layout(p) == message;
      CreateSpellsLayout(p);
      assert ("0x" + HexEncode(message))[2..] == HexEncode(message);
      HexRoundTrip(message);
    }
  }
}
