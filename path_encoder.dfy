/** The path-segment encoder `_encode` / `_encode_char` and its inverse,
    percent-decoding as PHP's `rawurldecode` does it. */
module PathEncoder {
  import opened PhpValues

  /** The string `_encode_char` searches with `strpos` before handing a
      byte to `rawurlencode`. In the PHP literal `\\` is one backslash and
      `\'` a quote. */
  const ReservedString: string := " ~`!@#$%^&*()+=[]\\{}|;':\",./<>?"

  /** The same bytes by ASCII ranges: every printable non-alphanumeric
      byte except `-` and `_`. */
  predicate Reserved(c: char) {
    c == ' ' || ('!' <= c <= '/' && c != '-') || (':' <= c <= '@') ||
    ('[' <= c <= '^') || c == '`' || ('{' <= c <= '~')
  }

  /** `Reserved` holds of exactly the bytes of the PHP string. */
  lemma ReservedStringBytes(b: Byte)
    ensures b in ReservedString <==> Reserved(b)
  {
    ReservedStringAll();
    if b in ReservedString {
      var i :| 0 <= i < |ReservedString| && ReservedString[i] == b;
      assert Reserved(ReservedString[i]);
    }
  }

  lemma ReservedStringAll()
    ensures forall i :: 0 <= i < |ReservedString| ==> Reserved(ReservedString[i])
  {
  }

  /** The bytes `rawurlencode` leaves as they are: the unreserved characters
      of section 2.3 of RFC 3986. */
  predicate Unreserved(b: Byte) {
    ('A' <= b <= 'Z') || ('a' <= b <= 'z') || ('0' <= b <= '9') ||
    b == '-' || b == '_' || b == '.' || b == '~'
  }

  /** A byte the encoder replaces by a three-byte escape: reserved, and not
      one that `rawurlencode` keeps. Of the reserved bytes only `.` and `~`
      are kept. */
  predicate Escaped(b: Byte) {
    Reserved(b) && !Unreserved(b)
  }

  predicate IsHex(c: Byte) {
    ('0' <= c <= '9') || ('A' <= c <= 'F') || ('a' <= c <= 'f')
  }

  function HexValue(c: Byte): (d: nat)
    requires IsHex(c)
    ensures d < 16
  {
    if c <= '9' then c as int - '0' as int
    else if c <= 'F' then c as int - 'A' as int + 10
    else c as int - 'a' as int + 10
  }

  /** The upper-case hexadecimal digit `rawurlencode` writes. */
  function HexDigit(d: nat): (c: Byte)
    requires d < 16
    ensures IsHex(c) && HexValue(c) == d
    ensures !('a' <= c <= 'f')
  {
    if d < 10 then ('0' as int + d) as char else ('A' as int + d - 10) as char
  }

  /** PHP's `rawurldecode`: each `%` followed by two hexadecimal digits
      becomes the byte they denote; every other byte is kept. */
  function PercentDecode(s: Bytes): (r: Bytes)
    ensures |r| <= |s|
  {
    if s == [] then []
    else if |s| >= 3 && s[0] == '%' && IsHex(s[1]) && IsHex(s[2]) then
      [(16 * HexValue(s[1]) + HexValue(s[2])) as char] + PercentDecode(s[3..])
    else
      [s[0]] + PercentDecode(s[1..])
  }

  /** `rawurlencode` of a one-byte string. */
  function RawUrlEncodeByte(b: Byte): (r: Bytes)
    ensures PercentDecode(r) == [b]
    ensures r == [b] <==> Unreserved(b)
  {
    if Unreserved(b) then [b]
    else ['%', HexDigit(b as int / 16), HexDigit(b as int % 16)]
  }

  /** `_encode_char`: a reserved byte goes through `rawurlencode`, any other
      byte is returned as it is. */
  function EncodeByte(b: Byte): (r: Bytes)
    ensures r == [b] <==> !Escaped(b)
    ensures Escaped(b) ==>
      && |r| == 3 && r[0] == '%' && IsHex(r[1]) && IsHex(r[2])
      && !('a' <= r[1] <= 'f') && !('a' <= r[2] <= 'f')
      && 16 * HexValue(r[1]) + HexValue(r[2]) == b as int
  {
    if !Reserved(b) then [b] else RawUrlEncodeByte(b)
  }

  /** `_encode`: the segment is split into bytes, each byte is encoded and
      the pieces are concatenated in order. */
  function Encode(s: Bytes): Bytes {
    if s == [] then [] else EncodeByte(s[0]) + Encode(s[1..])
  }

  /** The bytes `_encode` splits for a value given as a path segment.
      `str_split` converts a scalar to its string; given an array it warns
      and returns null, so `array_map` and `implode('')` return null too,
      and the `implode('/')` of the URL turns that null into an empty
      segment. The string to sign, a plain `implode`, still sees "Array". */
  function SegmentText(v: Value): (r: Bytes)
    ensures v.Arr? ==> r == [] && ToStr(v) == "Array"
    ensures !v.Arr? ==> r == ToStr(v)
  {
    if v.Arr? then [] else ToStr(v)
  }

  /** The number of bytes of `s` that the encoder escapes. */
  function EscapedCount(s: Bytes): nat {
    if s == [] then 0 else (if Escaped(s[0]) then 1 else 0) + EscapedCount(s[1..])
  }

  /** A byte that may appear in an encoded segment: anything but a reserved
      byte, except the `%` that opens an escape and the kept `.` and `~`. */
  predicate SafeByte(c: Byte) {
    !Reserved(c) || c == '%' || c == '.' || c == '~'
  }

  /** Encoding works byte by byte, so it distributes over concatenation. */
  lemma {:induction false} EncodeAppend(a: Bytes, b: Bytes)
    ensures Encode(a + b) == Encode(a) + Encode(b)
  {
    if a == [] {
      assert a + b == b;
    } else {
      assert (a + b)[0] == a[0];
      assert (a + b)[1..] == a[1..] + b;
      EncodeAppend(a[1..], b);
    }
  }

  /** Every escaped byte grows by two; every other byte keeps its length. */
  lemma {:induction false} EncodeLength(s: Bytes)
    ensures |Encode(s)| == |s| + 2 * EscapedCount(s)
  {
    if s != [] {
      EncodeLength(s[1..]);
    }
  }

  /** An encoded segment holds no raw reserved byte other than `%`, `.` and
      `~`; in particular no `/` and no space, so it cannot break a path. */
  lemma {:induction false} EncodeSafe(s: Bytes)
    ensures forall i :: 0 <= i < |Encode(s)| ==> SafeByte(Encode(s)[i])
    ensures '/' !in Encode(s) && ' ' !in Encode(s)
  {
    if s != [] {
      EncodeSafe(s[1..]);
      EncodeByteSafe(s[0]);
      var head, tail := EncodeByte(s[0]), Encode(s[1..]);
      assert Encode(s) == head + tail;
      forall i | 0 <= i < |head + tail| ensures SafeByte((head + tail)[i]) {
        if i < |head| {
          assert (head + tail)[i] == head[i];
        } else {
          assert (head + tail)[i] == tail[i - |head|];
        }
      }
    }
    assert !SafeByte('/') && !SafeByte(' ');
  }

  lemma EncodeByteSafe(b: Byte)
    ensures forall i :: 0 <= i < |EncodeByte(b)| ==> SafeByte(EncodeByte(b)[i])
  {
    var e := EncodeByte(b);
    if Escaped(b) {
      assert SafeByte(e[0]) && SafeByte(e[1]) && SafeByte(e[2]);
    }
  }

  /** Decoding one encoded byte in front of any rest gives that byte back
      in front of the decoded rest: an escape is never merged with what
      follows it and a raw byte is never `%`. */
  lemma DecodeEncodedByte(b: Byte, rest: Bytes)
    ensures PercentDecode(EncodeByte(b) + rest) == [b] + PercentDecode(rest)
  {
    var e := EncodeByte(b);
    if Escaped(b) {
      assert (e + rest)[3..] == rest;
    } else {
      assert b != '%';
      assert (e + rest)[1..] == rest;
    }
  }

  /** `rawurldecode` undoes `_encode`: no two segments encode alike. */
  lemma {:induction false} DecodeEncode(s: Bytes)
    ensures PercentDecode(Encode(s)) == s
  {
    if s != [] {
      DecodeEncode(s[1..]);
      DecodeEncodedByte(s[0], Encode(s[1..]));
    }
  }

  /** A segment with no escaped byte is sent as it is; so are the
      dot-segments "." and "..", since `rawurlencode` keeps `.`. */
  lemma {:induction false} EncodeUnescaped(s: Bytes)
    requires forall i :: 0 <= i < |s| ==> !Escaped(s[i])
    ensures Encode(s) == s
  {
    if s != [] {
      EncodeUnescaped(s[1..]);
    }
  }

  /** The fixed words of the request paths need no escaping. */
  lemma PlainWords()
    ensures Encode("0") == "0" && Encode("publish") == "publish"
  {
    EncodeUnescaped("0");
    EncodeUnescaped("publish");
  }

  /** Integers, as PHP prints them, pass through the encoder unchanged. */
  lemma EncodeDecimal(i: int)
    ensures Encode(Decimal(i)) == Decimal(i)
  {
    var d := Decimal(i);
    DecimalDigits(i);
    forall k | 0 <= k < |d| ensures !Escaped(d[k]) {
      if i < 0 && k > 0 {
        assert d[k] == d[1..][k - 1];
      }
    }
    EncodeUnescaped(d);
  }
}
