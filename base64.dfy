/**
 * `Buffer.from(text).toString('base64')`: UTF-8 encoding of the text followed by the
 * base64 encoding of section 4 of RFC 4648 (standard alphabet, '=' padding).
 */
module Base64 {

  type Byte = b: int | 0 <= b < 256

  /** The digit for a 6-bit value in the standard alphabet 'A'-'Z', 'a'-'z', '0'-'9', '+', '/'
   *  (callers pass values below 64; the `% 64` keeps it total). */
  function Digit(v: int): (r: char)
    ensures IsDigit(r)
  {
    var d := v % 64;
    if d < 26 then ('A' as int + d) as char
    else if d < 52 then ('a' as int + (d - 26)) as char
    else if d < 62 then ('0' as int + (d - 52)) as char
    else if d == 62 then '+'
    else '/'
  }

  /** A character of the standard alphabet. */
  predicate IsDigit(c: char) {
    'A' <= c <= 'Z' || 'a' <= c <= 'z' || '0' <= c <= '9' || c == '+' || c == '/'
  }

  /** A character an encoding may hold: a digit or the '=' padding. */
  predicate IsEncodingChar(c: char) {
    IsDigit(c) || c == '='
  }

  /** Three bytes become four digits. */
  function Block(a: Byte, b: Byte, c: Byte): (r: string)
    ensures |r| == 4
  {
    [Digit(a / 4), Digit((a % 4) * 16 + b / 16), Digit((b % 16) * 4 + c / 64), Digit(c % 64)]
  }

  /** The last group of fewer than three bytes; one or two bytes are padded with '='. */
  function Final(bs: seq<Byte>): (r: string)
    requires |bs| < 3
    ensures |r| == if |bs| == 0 then 0 else 4
  {
    if |bs| == 0 then ""
    else if |bs| == 1 then [Digit(bs[0] / 4), Digit((bs[0] % 4) * 16), '=', '=']
    else [Digit(bs[0] / 4), Digit((bs[0] % 4) * 16 + bs[1] / 16), Digit((bs[1] % 16) * 4), '=']
  }

  /** Base64 encoding, three bytes at a time. */
  function Encode(bs: seq<Byte>): string {
    if |bs| < 3 then Final(bs) else Block(bs[0], bs[1], bs[2]) + Encode(bs[3..])
  }

  /** An encoding holds only digits of the alphabet and '=' padding. */
  lemma {:induction false} EncodeChars(bs: seq<Byte>)
    ensures forall i :: 0 <= i < |Encode(bs)| ==> IsEncodingChar(Encode(bs)[i])
  {
    if |bs| >= 3 {
      EncodeChars(bs[3..]);
      var head := Block(bs[0], bs[1], bs[2]);
      assert forall i :: 0 <= i < 4 ==> IsDigit(head[i]);
      assert Encode(bs) == head + Encode(bs[3..]);
    }
  }

  /** Every started group of three bytes yields four digits. */
  lemma {:induction false} EncodeLength(bs: seq<Byte>)
    ensures |Encode(bs)| == 4 * ((|bs| + 2) / 3)
  {
    if |bs| >= 3 {
      EncodeLength(bs[3..]);
      assert (|bs| + 2) / 3 == (|bs[3..]| + 2) / 3 + 1;
    }
  }

  /** Encoding a whole number of 3-byte groups and then the rest is encoding the concatenation. */
  lemma {:induction false} EncodeAppend(a: seq<Byte>, b: seq<Byte>)
    requires |a| % 3 == 0
    ensures Encode(a + b) == Encode(a) + Encode(b)
  {
    if |a| > 0 {
      assert |a[3..]| % 3 == 0;
      var ab := a + b;
      assert ab[3..] == a[3..] + b;
      assert ab[0] == a[0] && ab[1] == a[1] && ab[2] == a[2];
      var head := Block(a[0], a[1], a[2]);
      assert Encode(ab) == head + Encode(a[3..] + b);
      EncodeAppend(a[3..], b);
      assert Encode(a) == head + Encode(a[3..]);
    } else {
      assert a + b == b;
    }
  }

  /**
   * The first 32 digits of an encoding are the encoding of the first 24 bytes (or the whole
   * encoding of a shorter input): a 32-digit prefix depends on nothing past byte 24.
   */
  lemma Prefix32(bs: seq<Byte>)
    ensures |bs| >= 24 ==> |Encode(bs)| >= 32 && Encode(bs)[..32] == Encode(bs[..24])
    ensures |bs| < 24 ==> |Encode(bs)| <= 32
  {
    if |bs| >= 24 {
      var front, back := bs[..24], bs[24..];
      assert bs == front + back;
      EncodeAppend(front, back);
      Encode24(front);
      var e := Encode(front);
      assert (e + Encode(back))[..32] == e;
    } else {
      EncodeLength(bs);
      var groups := (|bs| + 2) / 3;
      assert groups <= 8;
    }
  }

  /** Twenty-four bytes encode to exactly 32 digits. */
  lemma Encode24(bs: seq<Byte>)
    requires |bs| == 24
    ensures |Encode(bs)| == 32
  {
    EncodeLength(bs);
  }

  /** UTF-8 encoding of one Unicode scalar value. */
  function Utf8Char(c: char): (r: seq<Byte>)
    ensures 1 <= |r| <= 4
  {
    var n := c as int;
    if n < 0x80 then [n]
    else if n < 0x800 then [0xC0 + n / 64, 0x80 + n % 64]
    else if n < 0x10000 then [0xE0 + n / 4096, 0x80 + (n / 64) % 64, 0x80 + n % 64]
    else [0xF0 + n / 262144, 0x80 + (n / 4096) % 64, 0x80 + (n / 64) % 64, 0x80 + n % 64]
  }

  /** `Buffer.from(s)`: the UTF-8 bytes of a text. */
  function Utf8(s: string): (r: seq<Byte>)
    ensures |r| >= |s|
  {
    if |s| == 0 then [] else Utf8Char(s[0]) + Utf8(s[1..])
  }

  /** `Buffer.from(s).toString('base64')`. */
  function TextToBase64(s: string): string {
    Encode(Utf8(s))
  }

  /** UTF-8 encodes a text character by character, so it distributes over concatenation. */
  lemma {:induction false} Utf8Append(a: string, b: string)
    ensures Utf8(a + b) == Utf8(a) + Utf8(b)
  {
    if |a| > 0 {
      assert (a + b)[1..] == a[1..] + b;
      Utf8Append(a[1..], b);
    } else {
      assert a + b == b;
    }
  }
}
