/** Concrete encodings: the bytes `_encode_char` escapes or keeps. */
module EncoderExamples {
  import opened PhpValues
  import opened PathEncoder

  /** A slash and a space are escaped, and so is `%` itself. */
  lemma EncodeEscapesExamples()
    ensures Encode("a/b") == "a%2Fb"
    ensures Encode(" %") == "%20%25"
  {
    EscapeExample('/', 2, 15);
    EscapeExample(' ', 2, 0);
    EscapeExample('%', 2, 5);
    assert "a/b"[1..] == "/b" && "/b"[1..] == "b";
    assert " %"[1..] == "%";
  }

  lemma EscapeExample(b: Byte, hi: nat, lo: nat)
    requires Reserved(b) && !Unreserved(b)
    requires hi < 16 && lo < 16 && b as int == 16 * hi + lo
    ensures EncodeByte(b) == ['%', HexDigit(hi), HexDigit(lo)]
  {
  }

  /** The dot-segments "." and ".." and a tilde are sent as they are. */
  lemma EncodeKeepsExamples()
    ensures Encode(".") == "." && Encode("..") == ".." && Encode("~") == "~"
  {
    assert EncodeByte('.') == "." && EncodeByte('~') == "~";
    assert ".."[1..] == ".";
  }
}
