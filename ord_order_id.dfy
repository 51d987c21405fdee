/**
 * The order service's order numbers (src/utils/generateOrderId.js): three
 * random bytes written as six lower-case hex digits, upper-cased, cut to the
 * first five, after `ORD-`. The random bytes are a parameter.
 */
module OrdOrderId {
  import opened Common

  newtype byte = x: int | 0 <= x < 256

  const Prefix := "ORD-"

  /** `Buffer.prototype.toString('hex')` writes a nibble with these digits. */
  function HexLower(n: nat): (c: char)
    requires n < 16
    ensures ('0' <= c <= '9') || ('a' <= c <= 'f')
  {
    if n < 10 then ('0' as int + n) as char else ('a' as int + n - 10) as char
  }

  /** `String.prototype.toUpperCase` on the characters hex output uses. */
  function UpperChar(c: char): char {
    if 'a' <= c <= 'z' then (c as int - 'a' as int + 'A' as int) as char else c
  }

  function ToUpper(s: string): (r: string)
    ensures |r| == |s| && forall i :: 0 <= i < |s| ==> r[i] == UpperChar(s[i])
  {
    if s == [] then [] else [UpperChar(s[0])] + ToUpper(s[1..])
  }

  function ByteHex(b: byte): string {
    [HexLower(b as int / 16), HexLower(b as int % 16)]
  }

  predicate IsUpperHex(c: char) {
    ('0' <= c <= '9') || ('A' <= c <= 'F')
  }

  /** The number `generateOrderId` returns for the bytes `randomBytes(3)` produced. */
  function GenerateOrderId(b0: byte, b1: byte, b2: byte): (id: string)
    ensures |id| == 9 && id[..4] == Prefix
    ensures forall i :: 4 <= i < 9 ==> IsUpperHex(id[i])
  {
    var short := ToUpper(ByteHex(b0) + ByteHex(b1) + ByteHex(b2))[..5];
    Prefix + short
  }

  function HexValue(c: char): nat {
    if '0' <= c <= '9' then c as int - '0' as int
    else if 'A' <= c <= 'F' then c as int - 'A' as int + 10
    else 0
  }

  /** Reading an order number back to the two whole bytes and the high nibble of the third. */
  function ParseOrderId(id: string): Option<(nat, nat, nat)> {
    if |id| == 9 && id[..4] == Prefix && (forall i :: 4 <= i < 9 ==> IsUpperHex(id[i])) then
      Some((HexValue(id[4]) * 16 + HexValue(id[5]), HexValue(id[6]) * 16 + HexValue(id[7]), HexValue(id[8])))
    else None
  }

  lemma UpperHexValue(n: nat)
    requires n < 16
    ensures IsUpperHex(UpperChar(HexLower(n))) && HexValue(UpperChar(HexLower(n))) == n
  {
  }

  /** The number keeps the first two bytes whole and the third byte's high nibble; its low nibble is dropped. */
  lemma GenerateOrderIdRoundTrip(b0: byte, b1: byte, b2: byte)
    ensures ParseOrderId(GenerateOrderId(b0, b1, b2)) == Some((b0 as nat, b1 as nat, b2 as nat / 16))
  {
    var hex := ByteHex(b0) + ByteHex(b1) + ByteHex(b2);
    var id := GenerateOrderId(b0, b1, b2);
    assert id[4..] == ToUpper(hex)[..5];
    UpperHexValue(b0 as int / 16);
    UpperHexValue(b0 as int % 16);
    UpperHexValue(b1 as int / 16);
    UpperHexValue(b1 as int % 16);
    UpperHexValue(b2 as int / 16);
    assert id[4] == UpperChar(HexLower(b0 as int / 16)) && id[5] == UpperChar(HexLower(b0 as int % 16));
    assert id[6] == UpperChar(HexLower(b1 as int / 16)) && id[7] == UpperChar(HexLower(b1 as int % 16));
    assert id[8] == UpperChar(HexLower(b2 as int / 16));
  }

  /** Two draws give the same number exactly when they agree on everything but the third byte's low nibble. */
  lemma GenerateOrderIdCollision(b0: byte, b1: byte, b2: byte, c0: byte, c1: byte, c2: byte)
    ensures GenerateOrderId(b0, b1, b2) == GenerateOrderId(c0, c1, c2) <==>
      b0 == c0 && b1 == c1 && b2 as int / 16 == c2 as int / 16
  {
    GenerateOrderIdRoundTrip(b0, b1, b2);
    GenerateOrderIdRoundTrip(c0, c1, c2);
    if b0 == c0 && b1 == c1 && b2 as int / 16 == c2 as int / 16 {
      assert ByteHex(b2)[0] == ByteHex(c2)[0];
      var h := ByteHex(b0) + ByteHex(b1) + ByteHex(b2);
      var k := ByteHex(c0) + ByteHex(c1) + ByteHex(c2);
      assert h[..5] == k[..5];
      assert ToUpper(h)[..5] == ToUpper(k)[..5];
    }
  }
}
