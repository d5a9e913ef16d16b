/**
  Rust text: a `char` is a Unicode scalar value and a `String` is the UTF-8
  encoding of a sequence of them (section 3 of RFC 3629).  Every byte limit in
  the program counts bytes of that encoding.
 */
module Text {
  import opened Wrappers

  type byte = b: int | 0 <= b < 0x100

  lemma Assoc<T>(a: seq<T>, b: seq<T>, c: seq<T>)
    ensures (a + b) + c == a + (b + c)
  {
  }

  /** `char::len_utf8`. */
  function CharLen(c: char): (n: nat)
    ensures 1 <= n <= 4
  {
    var code := c as int;
    if code < 0x80 then 1 else if code < 0x800 then 2 else if code < 0x10000 then 3 else 4
  }

  /** `char::is_control`: the general category Cc. */
  predicate IsControl(c: char) {
    var code := c as int;
    code < 0x20 || 0x7F <= code < 0xA0
  }

  /** `char::is_whitespace`: the property White_Space. */
  predicate IsWhitespace(c: char) {
    var code := c as int;
    || 0x09 <= code <= 0x0D || code == 0x20 || code == 0x85 || code == 0xA0
    || code == 0x1680 || 0x2000 <= code <= 0x200A || code == 0x2028 || code == 0x2029
    || code == 0x202F || code == 0x205F || code == 0x3000
  }

  /** Visible ASCII is neither; the space is only white space; C0, DEL and C1 are controls. */
  lemma AsciiClasses(c: char)
    ensures 0x21 <= c as int <= 0x7E ==> !IsControl(c) && !IsWhitespace(c)
    ensures c == ' ' ==> IsWhitespace(c) && !IsControl(c)
    ensures c in "\t\n\r" ==> IsWhitespace(c) && IsControl(c)
    ensures c as int < 0x20 || 0x7F <= c as int <= 0x9F <==> IsControl(c)
  {
  }

  /** `value.trim().is_empty()`. */
  predicate Blank(s: string) {
    forall i :: 0 <= i < |s| ==> IsWhitespace(s[i])
  }

  predicate NoControls(s: string) {
    forall i :: 0 <= i < |s| ==> !IsControl(s[i])
  }

  function HexDigit(n: nat): (c: char)
    requires n < 16
  {
    "0123456789abcdef"[n]
  }

  /** The value of a hexadecimal digit. */
  function HexValue(c: char): (n: Option<nat>) {
    if '0' <= c <= '9' then Some(c as int - '0' as int)
    else if 'a' <= c <= 'f' then Some(c as int - 'a' as int + 10)
    else None
  }

  lemma HexDigitReads(n: nat)
    requires n < 16
    ensures HexValue(HexDigit(n)) == Some(n)
  {
  }

  function EncodeChar(c: char): (bytes: seq<byte>)
    ensures |bytes| == CharLen(c)
  {
    var code := c as int;
    var high := code / 0x40;
    var higher := high / 0x40;
    if code < 0x80 then [code]
    else if code < 0x800 then [0xC0 + high, 0x80 + code % 0x40]
    else if code < 0x10000 then [0xE0 + higher, 0x80 + high % 0x40, 0x80 + code % 0x40]
    else [0xF0 + higher / 0x40, 0x80 + higher % 0x40, 0x80 + high % 0x40, 0x80 + code % 0x40]
  }

  function Encode(s: string): (bytes: seq<byte>) {
    if s == [] then [] else EncodeChar(s[0]) + Encode(s[1..])
  }

  /** `str::len`: bytes, not characters. */
  function ByteLen(s: string): (n: nat) {
    if s == [] then 0 else CharLen(s[0]) + ByteLen(s[1..])
  }

  /** The byte length announced by a leading byte. */
  function Width(lead: byte): (n: nat)
    ensures 1 <= n <= 4
  {
    if lead < 0x80 then 1 else if lead < 0xE0 then 2 else if lead < 0xF0 then 3 else 4
  }

  predicate IsContinuation(b: byte) {
    0x80 <= b < 0xC0
  }

  /** `str::is_char_boundary`. */
  predicate IsCharBoundary(bytes: seq<byte>, i: nat) {
    i == 0 || i == |bytes| || (i < |bytes| && !IsContinuation(bytes[i]))
  }

  /** The scalar value written at the head of a byte sequence. */
  function HeadCode(bytes: seq<byte>): (code: int)
    requires bytes != [] && Width(bytes[0]) <= |bytes|
  {
    var lead: int := bytes[0];
    var w := Width(bytes[0]);
    if w == 1 then lead
    else if w == 2 then (lead - 0xC0) * 0x40 + Payload(bytes[1])
    else if w == 3 then ((lead - 0xE0) * 0x40 + Payload(bytes[1])) * 0x40 + Payload(bytes[2])
    else (((lead - 0xF0) * 0x40 + Payload(bytes[1])) * 0x40 + Payload(bytes[2])) * 0x40 + Payload(bytes[3])
  }

  /** The six bits a continuation byte carries. */
  function Payload(b: byte): (bits: int) {
    b as int - 0x80
  }

  /** One character can be read back from the front of any byte sequence that starts with it. */
  lemma EncodeCharReads(c: char, rest: seq<byte>)
    ensures Width(EncodeChar(c)[0]) == CharLen(c)
    ensures HeadCode(EncodeChar(c) + rest) == c as int
    ensures !IsContinuation(EncodeChar(c)[0])
    ensures forall k :: 1 <= k < CharLen(c) ==> IsContinuation(EncodeChar(c)[k])
  {
  }

  /** The examples of section 7 of RFC 3629. */
  lemma EncodedSamples()
    ensures EncodeChar(0x41 as char) == [0x41] && EncodeChar(0x391 as char) == [0xCE, 0x91]
    ensures EncodeChar(0x2262 as char) == [0xE2, 0x89, 0xA2] && EncodeChar(0xD55C as char) == [0xED, 0x95, 0x9C]
    ensures EncodeChar(0x233B4 as char) == [0xF0, 0xA3, 0x8E, 0xB4]
  {
  }

  lemma {:induction false} EncodeLength(s: string)
    ensures |Encode(s)| == ByteLen(s)
  {
    if s != [] {
      EncodeLength(s[1..]);
    }
  }

  lemma {:induction false} EncodeAppend(a: string, b: string)
    ensures Encode(a + b) == Encode(a) + Encode(b)
  {
    if a == [] {
      assert a + b == b;
    } else {
      assert (a + b)[1..] == a[1..] + b;
      EncodeAppend(a[1..], b);
    }
  }

  lemma {:induction false} ByteLenAppend(a: string, b: string)
    ensures ByteLen(a + b) == ByteLen(a) + ByteLen(b)
  {
    if a == [] {
      assert a + b == b;
    } else {
      assert (a + b)[1..] == a[1..] + b;
      ByteLenAppend(a[1..], b);
    }
  }

  lemma {:induction false} ByteLenBounds(s: string)
    ensures |s| <= ByteLen(s) <= 4 * |s|
  {
    if s != [] {
      ByteLenBounds(s[1..]);
    }
  }

  /** UTF-8 loses nothing: two strings with the same bytes are the same string. */
  lemma {:induction false} EncodeInjective(s: string, t: string)
    requires Encode(s) == Encode(t)
    ensures s == t
  {
    EncodeLength(s);
    EncodeLength(t);
    ByteLenBounds(s);
    ByteLenBounds(t);
    if s != [] && t != [] {
      EncodeCharReads(s[0], Encode(s[1..]));
      EncodeCharReads(t[0], Encode(t[1..]));
      assert s[0] == t[0];
      assert Encode(s)[CharLen(s[0])..] == Encode(s[1..]);
      assert Encode(t)[CharLen(t[0])..] == Encode(t[1..]);
      EncodeInjective(s[1..], t[1..]);
    }
  }

  /** The end of the encoding of every character prefix passes Rust's boundary test. */
  lemma {:induction false} PrefixEndIsBoundary(s: string, n: nat)
    requires n <= |s|
    ensures ByteLen(s[..n]) <= |Encode(s)|
    ensures IsCharBoundary(Encode(s), ByteLen(s[..n]))
    ensures Encode(s)[..ByteLen(s[..n])] == Encode(s[..n])
    ensures Encode(s)[ByteLen(s[..n])..] == Encode(s[n..])
  {
    assert s == s[..n] + s[n..];
    EncodeAppend(s[..n], s[n..]);
    EncodeLength(s[..n]);
    if n < |s| {
      EncodeCharReads(s[n], []);
      assert Encode(s[n..])[0] == EncodeChar(s[n])[0];
    }
  }

  /** Reading the leading byte after a character prefix steps over exactly the next character. */
  lemma StepOver(s: string, n: nat)
    requires n <= |s|
    ensures ByteLen(s[..n]) <= |Encode(s)|
    ensures ByteLen(s[..n]) == |Encode(s)| <==> n == |s|
    ensures n < |s| ==>
      && Width(Encode(s)[ByteLen(s[..n])]) == CharLen(s[n])
      && ByteLen(s[..n + 1]) == ByteLen(s[..n]) + CharLen(s[n])
  {
    PrefixEndIsBoundary(s, n);
    EncodeLength(s[n..]);
    ByteLenBounds(s[n..]);
    if n < |s| {
      EncodeCharReads(s[n], []);
      assert Encode(s[n..])[0] == EncodeChar(s[n])[0];
      assert s[..n + 1] == s[..n] + [s[n]];
      ByteLenAppend(s[..n], [s[n]]);
      assert ByteLen([s[n]]) == CharLen(s[n]);
    }
  }

  /** Conversely, every byte position that passes the test ends a character prefix. */
  lemma {:induction false} BoundaryIsPrefixEnd(s: string, i: nat) returns (n: nat)
    requires i <= |Encode(s)| && IsCharBoundary(Encode(s), i)
    ensures n <= |s| && i == ByteLen(s[..n])
  {
    if i == 0 {
      n := 0;
    } else {
      var w := CharLen(s[0]);
      EncodeCharReads(s[0], Encode(s[1..]));
      assert forall k :: 1 <= k < w ==> IsContinuation(Encode(s)[k]);
      assert w <= i;
      if i < |Encode(s)| {
        assert Encode(s)[i] == Encode(s[1..])[i - w];
      }
      var m := BoundaryIsPrefixEnd(s[1..], i - w);
      n := m + 1;
      assert s[..n][1..] == s[1..][..m];
    }
  }

  /**
    `truncate_utf8`: step back from the byte limit to the nearest boundary.
    The result is the longest character prefix that fits.
   */
  method TruncateUtf8(value: seq<byte>, ghost chars: string, maxBytes: nat) returns (r: seq<byte>)
    requires value == Encode(chars)
    ensures exists n ::
        && 0 <= n <= |chars| && r == Encode(chars[..n]) && |r| <= maxBytes
        && (n < |chars| ==> maxBytes < ByteLen(chars[..n + 1]))
  {
    if |value| <= maxBytes {
      assert chars[..|chars|] == chars;
      return value;
    }
    var boundary := maxBytes;
    while !(boundary == 0 || boundary == |value| || !IsContinuation(value[boundary]))
      invariant 0 <= boundary <= maxBytes < |value|
      invariant forall i: nat :: boundary < i <= maxBytes ==> !IsCharBoundary(value, i)
    {
      boundary := boundary - 1;
    }
    ghost var n := LastBoundary(chars, boundary, maxBytes);
    return value[..boundary];
  }

  /** The last boundary at or before a limit ends the longest character prefix within it. */
  lemma LastBoundary(s: string, boundary: nat, limit: nat) returns (n: nat)
    requires boundary <= limit < |Encode(s)| && IsCharBoundary(Encode(s), boundary)
    requires forall i: nat :: boundary < i <= limit ==> !IsCharBoundary(Encode(s), i)
    ensures n < |s| && boundary == ByteLen(s[..n])
    ensures Encode(s)[..boundary] == Encode(s[..n])
    ensures limit < ByteLen(s[..n + 1])
  {
    n := BoundaryIsPrefixEnd(s, boundary);
    PrefixEndIsBoundary(s, n);
    StepOver(s, n);
    PrefixEndIsBoundary(s, n + 1);
  }
}
