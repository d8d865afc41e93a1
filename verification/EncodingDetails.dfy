/** Details of the byte strings in callback data: white space, the characters that stay, hex digits and numbers. */
module EncodingDetails {
  import opened QueryEscape
  import PrinterDetails
  import Text
  import opened Wrappers

  // ----- white space, in UTF-8 -----

  /** The encoding of a code point of the basic plane, by section 3 of RFC 3629. */
  function Utf8(c: char): Bytes
    requires c as int < 0x10000
  {
    var n := c as int;
    if n < 0x80 then [c]
    else if n < 0x800 then [(0xC0 + n / 64) as char, (0x80 + n % 64) as char]
    else [(0xE0 + n / 4096) as char, (0x80 + n / 64 % 64) as char, (0x80 + n % 64) as char]
  }

  /** The byte strings that count as one white-space character are the encodings of the white-space characters. */
  lemma SpacesAreEncoded(c: char)
    requires c as int < 0x10000
    ensures IsSpaceCode(Utf8(c)) <==> Text.IsSpace(c)
  {
    var n := c as int;
    if n < 0x80 {
    } else if n < 0x800 {
      TwoBytes(n);
    } else {
      ThreeBytes(n);
    }
  }

  lemma TwoBytes(n: int)
    ensures n / 64 == 2 && n % 64 == 5 <==> n == 0x85
    ensures n / 64 == 2 && n % 64 == 0x20 <==> n == 0xA0
  {
  }

  lemma ThreeBytes(n: int)
    requires 0x800 <= n < 0x10000
    ensures n == 4096 * (n / 4096) + 64 * (n / 64 % 64) + n % 64
    ensures n / 4096 < 16
  {
    assert n / 64 / 64 == n / 4096;
  }

  /** No other byte string counts as one. */
  lemma OnlySpacesCount(w: Bytes)
    requires IsSpaceCode(w)
    ensures exists c: char :: c as int < 0x10000 && Text.IsSpace(c) && Utf8(c) == w
  {
    if |w| == 1 {
      assert Utf8(w[0]) == w;
    } else if |w| == 2 {
      assert Utf8((64 * (w[0] as int - 0xC0) + w[1] as int - 0x80) as char) == w;
    } else {
      var c := ThreeByteSpace(w);
    }
  }

  lemma ThreeByteSpace(w: Bytes) returns (c: char)
    requires |w| == 3 && IsSpaceCode(w)
    ensures c as int < 0x10000 && Text.IsSpace(c) && Utf8(c) == w
  {
    c := (4096 * (w[0] as int - 0xE0) + 64 * (w[1] as int - 0x80) + w[2] as int - 0x80) as char;
  }

  // ----- percent-encoding -----

  /** What section 2.3 of RFC 3986 calls unreserved: letters, digits and four signs. */
  lemma UnreservedIs(c: Byte)
    ensures Unreserved(c) <==>
      Text.LowerChar(c) in PrinterDetails.LETTERS || c in "0123456789" || c == '-' || c == '_' || c == '.' || c == '~'
  {
    PrinterDetails.LetterIs(Text.LowerChar(c));
    PrinterDetails.DigitIs(c);
  }

  /** Hex digits are read in either case, and nothing else is read as one. */
  lemma HexIs(c: Byte)
    ensures Unhex(c) == (if c in "0123456789" then Some(c as int - '0' as int)
                         else if c in "abcdef" then Some(c as int - 'a' as int + 10)
                         else if c in "ABCDEF" then Some(c as int - 'A' as int + 10)
                         else None)
  {
    PrinterDetails.DigitIs(c);
    var lower, upper := "abcdef", "ABCDEF";
    assert |lower| == 6 && lower[0] == 'a' && lower[1] == 'b' && lower[2] == 'c' && lower[3] == 'd' && lower[4] == 'e' && lower[5] == 'f';
    assert |upper| == 6 && upper[0] == 'A' && upper[1] == 'B' && upper[2] == 'C' && upper[3] == 'D' && upper[4] == 'E' && upper[5] == 'F';
  }

  // ----- numbers -----

  /** The range of a 64-bit integer. */
  lemma IntIs(n: int)
    ensures IsInt(n) <==> -0x8000_0000_0000_0000 <= n < 0x8000_0000_0000_0000
  {
  }

  /** A number is printed without a leading zero, and with a sign exactly if it is negative. */
  lemma {:induction false} DecimalIs(n: nat)
    ensures Decimal(n)[0] != '0' || (n == 0 && Decimal(n) == "0")
  {
    if n >= 10 { DecimalIs(n / 10); }
  }

  lemma ItoaIs(n: int)
    ensures n >= 0 ==> Itoa(n)[0] != '-' && (Itoa(n)[0] == '0' ==> n == 0 && Itoa(n) == "0")
    ensures n < 0 ==> Itoa(n) == "-" + Itoa(-n)
  {
    if n >= 0 { DecimalIs(n); }
  }
}
