/** The `key` string that carries a rate-limit bucket through the throttler's storage
    interface: two percent-encoded components joined by `::`. Text is modelled as its UTF-8
    bytes, which is what percent-encoding works on (section 2.1 of RFC 3986). */
module RateLimitKey {

  type Byte = b: int | 0 <= b < 256

  type Bytes = seq<Byte>

  datatype Bucket = Bucket(tracker: Bytes, route: Bytes)

  datatype Parsed<T> = Ok(value: T) | Malformed

  const COLON: Byte := 0x3A
  const PERCENT: Byte := 0x25

  /** The bytes `encodeURIComponent` leaves alone: letters, digits and `-_.!~*'()`. */
  predicate Unescaped(b: Byte) {
    0x41 <= b <= 0x5A || 0x61 <= b <= 0x7A || 0x30 <= b <= 0x39
    || b in {0x2D, 0x5F, 0x2E, 0x21, 0x7E, 0x2A, 0x27, 0x28, 0x29}
  }

  function HexDigit(n: int): (b: Byte)
    requires 0 <= n < 16
  {
    if n < 10 then 0x30 + n else 0x41 + n - 10
  }

  /** The value of a hexadecimal digit in either case; -1 for any other byte. */
  function HexValue(b: Byte): int {
    if 0x30 <= b <= 0x39 then b - 0x30
    else if 0x41 <= b <= 0x46 then b - 0x41 + 10
    else if 0x61 <= b <= 0x66 then b - 0x61 + 10
    else -1
  }

  function EncodeByte(b: Byte): Bytes {
    if Unescaped(b) then [b] else [PERCENT, HexDigit(b / 16), HexDigit(b % 16)]
  }

  function Encode(s: Bytes): Bytes {
    if s == [] then [] else EncodeByte(s[0]) + Encode(s[1..])
  }

  function Decode(s: Bytes): Parsed<Bytes> {
    if s == [] then Ok([])
    else if s[0] != PERCENT then
      match Decode(s[1..])
      case Ok(rest) => Ok([s[0]] + rest)
      case Malformed => Malformed
    else if |s| < 3 || HexValue(s[1]) < 0 || HexValue(s[2]) < 0 then Malformed
    else
      match Decode(s[3..])
      case Ok(rest) => Ok([16 * HexValue(s[1]) + HexValue(s[2])] + rest)
      case Malformed => Malformed
  }

  function BuildKey(bucket: Bucket): Bytes {
    Encode(bucket.tracker) + [COLON, COLON] + Encode(bucket.route)
  }

  /** `indexOf('::')`: the first place where two colons stand side by side, or -1. */
  function SeparatorIndex(s: Bytes): (i: int)
    ensures -1 <= i && (i >= 0 ==> i + 2 <= |s| && s[i] == s[i + 1] == COLON)
    ensures forall j :: 0 <= j < (if i < 0 then |s| - 1 else i) ==> !(s[j] == s[j + 1] == COLON)
  {
    if |s| < 2 then -1
    else if s[0] == s[1] == COLON then 0
    else
      var rest := SeparatorIndex(s[1..]);
      if rest < 0 then -1 else rest + 1
  }

  function ParseKey(key: Bytes): Parsed<Bucket> {
    var i := SeparatorIndex(key);
    if i < 0 then Malformed
    else
      match (Decode(key[..i]), Decode(key[i + 2..]))
      case (Ok(tracker), Ok(route)) => Ok(Bucket(tracker, route))
      case _ => Malformed
  }

  /** Which bytes are left alone, and how the others are written: with upper-case digits, as
      section 2.1 of RFC 3986 asks. */
  lemma {:induction false} EncodedByte(b: Byte)
    ensures var c, digits := b as char, "0123456789ABCDEF";
            EncodeByte(b) ==
              if 'A' <= c <= 'Z' || 'a' <= c <= 'z' || '0' <= c <= '9' || c == '-' || c == '_' || c == '.' || c == '!'
                 || c == '~' || c == '*' || c == '\'' || c == '(' || c == ')'
              then [b]
              else ['%' as int, digits[b / 16] as int, digits[b % 16] as int]
  {
    HexDigitName(b / 16);
    HexDigitName(b % 16);
  }

  lemma {:induction false} HexDigitName(n: int)
    requires 0 <= n < 16
    ensures HexDigit(n) == "0123456789ABCDEF"[n] as int
  {
    if n < 8 { assert n in {0, 1, 2, 3, 4, 5, 6, 7}; } else { assert n in {8, 9, 10, 11, 12, 13, 14, 15}; }
  }

  /** Decoding undoes encoding, and an encoded component holds no colon. */
  lemma {:induction false} EncodeThenDecode(s: Bytes)
    ensures Decode(Encode(s)) == Ok(s)
    ensures COLON !in Encode(s)
  {
    if s != [] {
      EncodeThenDecode(s[1..]);
      var head, tail := EncodeByte(s[0]), Encode(s[1..]);
      assert Encode(s) == head + tail && (head + tail)[|head|..] == tail;
      assert [s[0]] + s[1..] == s;
      if !Unescaped(s[0]) {
        assert HexValue(HexDigit(s[0] / 16)) == s[0] / 16 && HexValue(HexDigit(s[0] % 16)) == s[0] % 16;
      }
    }
  }

  /** Parsing a built key gives back its bucket, whatever bytes (colons included) it holds. */
  lemma {:induction false} ParseBuiltKey(bucket: Bucket)
    ensures ParseKey(BuildKey(bucket)) == Ok(bucket)
  {
    var left, right := Encode(bucket.tracker), Encode(bucket.route);
    EncodeThenDecode(bucket.tracker);
    EncodeThenDecode(bucket.route);
    var key := BuildKey(bucket);
    var i := SeparatorIndex(key);
    assert key[|left|] == key[|left| + 1] == COLON;
    assert forall j :: 0 <= j < |left| ==> key[j] == left[j];
    assert i == |left|;
    assert key[..i] == left && key[i + 2..] == right;
  }

  /** No two buckets share a key. */
  lemma {:induction false} BuiltKeysDiffer(a: Bucket, b: Bucket)
    ensures BuildKey(a) == BuildKey(b) <==> a == b
  {
    ParseBuiltKey(a);
    ParseBuiltKey(b);
  }
}
