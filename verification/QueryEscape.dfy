/** Byte strings, and the functions of Go's standard library that callback data is built with.  Percent-encoding is that
    of sections 2.1 and 2.3 of RFC 3986, with space as '+'; trimming and splitting at white space work on the UTF-8
    encodings of white space characters; decimal numbers are printed and parsed with their sign, in the range of an int.
    A byte is a char below U+0100, so that string literals can be used. */
module QueryEscape {
  import opened Seqs
  import opened Wrappers

  type Byte = c: char | c < '\U{100}'
  type Bytes = seq<Byte>

  // ----- strings.TrimSpace and strings.Fields on UTF-8 -----

  /** w is the UTF-8 encoding of one white space character. */
  predicate IsSpaceCode(w: Bytes) {
    || (|w| == 1 && ('\t' <= w[0] <= '\r' || w[0] == ' '))
    || (|w| == 2 && w[0] == '\U{C2}' && (w[1] == '\U{85}' || w[1] == '\U{A0}'))
    || (|w| == 3 && w[0] == '\U{E1}' && w[1] == '\U{9A}' && w[2] == '\U{80}')
    || (|w| == 3 && w[0] == '\U{E2}' && w[1] == '\U{80}'
        && ('\U{80}' <= w[2] <= '\U{8A}' || w[2] == '\U{A8}' || w[2] == '\U{A9}' || w[2] == '\U{AF}'))
    || (|w| == 3 && w[0] == '\U{E2}' && w[1] == '\U{81}' && w[2] == '\U{9F}')
    || (|w| == 3 && w[0] == '\U{E3}' && w[1] == '\U{80}' && w[2] == '\U{80}')
  }

  /** The width of the white space at the start of s, or 0. */
  function SpaceAtStart(s: Bytes): (w: nat)
    ensures w <= |s|
  {
    if |s| >= 1 && IsSpaceCode(s[..1]) then 1
    else if |s| >= 2 && IsSpaceCode(s[..2]) then 2
    else if |s| >= 3 && IsSpaceCode(s[..3]) then 3
    else 0
  }

  function SpaceAtEnd(s: Bytes): (w: nat)
    ensures w <= |s|
  {
    if |s| >= 1 && IsSpaceCode(s[|s| - 1..]) then 1
    else if |s| >= 2 && IsSpaceCode(s[|s| - 2..]) then 2
    else if |s| >= 3 && IsSpaceCode(s[|s| - 3..]) then 3
    else 0
  }

  function TrimStart(s: Bytes): (r: Bytes)
    ensures SpaceAtStart(r) == 0
    decreases |s|
  {
    if SpaceAtStart(s) > 0 then TrimStart(s[SpaceAtStart(s)..]) else s
  }

  function TrimEnd(s: Bytes): (r: Bytes)
    ensures SpaceAtEnd(r) == 0
    ensures r <= s
    decreases |s|
  {
    if SpaceAtEnd(s) > 0 then TrimEnd(s[..|s| - SpaceAtEnd(s)]) else s
  }

  /** strings.TrimSpace. */
  function Trim(s: Bytes): (r: Bytes) {
    TrimEnd(TrimStart(s))
  }

  lemma PrefixStartsAlike(p: Bytes, s: Bytes)
    requires p <= s && SpaceAtStart(s) == 0
    ensures SpaceAtStart(p) == 0
  {
    assert |p| >= 1 ==> p[..1] == s[..1];
    assert |p| >= 2 ==> p[..2] == s[..2];
    assert |p| >= 3 ==> p[..3] == s[..3];
  }

  lemma TrimIdempotent(s: Bytes)
    ensures Trim(Trim(s)) == Trim(s)
  {
    PrefixStartsAlike(Trim(s), TrimStart(s));
  }

  /** The bytes before the first white space. */
  function WordLength(s: Bytes): (n: nat)
    ensures n <= |s| && (s != [] && SpaceAtStart(s) == 0 ==> n > 0)
    decreases |s|
  {
    if s == [] || SpaceAtStart(s) > 0 then 0 else 1 + WordLength(s[1..])
  }

  /** strings.Fields. */
  function Fields(s: Bytes): seq<Bytes>
    decreases |s|
  {
    if s == [] then []
    else if SpaceAtStart(s) > 0 then Fields(s[SpaceAtStart(s)..])
    else [s[..WordLength(s)]] + Fields(s[WordLength(s)..])
  }

  // ----- url.QueryEscape -----

  predicate Unreserved(c: Byte) {
    'a' <= c <= 'z' || 'A' <= c <= 'Z' || '0' <= c <= '9' || c == '-' || c == '_' || c == '.' || c == '~'
  }

  function Hex(d: nat): (c: Byte)
    requires d < 16
  {
    if d < 10 then ('0' as int + d) as char else ('A' as int + d - 10) as char
  }

  function Unhex(c: Byte): (d: Option<nat>)
    ensures d.Some? ==> d.value < 16
  {
    if '0' <= c <= '9' then Some(c as int - '0' as int)
    else if 'a' <= c <= 'f' then Some(c as int - 'a' as int + 10)
    else if 'A' <= c <= 'F' then Some(c as int - 'A' as int + 10)
    else None
  }

  function EscapeByte(c: Byte): (r: Bytes)
    ensures r != []
  {
    if Unreserved(c) then [c]
    else if c == ' ' then ['+']
    else ['%', Hex(c as int / 16), Hex(c as int % 16)]
  }

  function Escape(s: Bytes): (r: Bytes)
    ensures r == [] <==> s == []
  {
    if s == [] then [] else EscapeByte(s[0]) + Escape(s[1..])
  }

  function Unescape(s: Bytes): Option<Bytes>
    decreases |s|
  {
    if s == [] then Some([])
    else if s[0] == '%' then
      if |s| < 3 || Unhex(s[1]).None? || Unhex(s[2]).None? then None
      else
        match Unescape(s[3..])
        case None => None
        case Some(rest) => Some([(Unhex(s[1]).value * 16 + Unhex(s[2]).value) as char] + rest)
    else
      match Unescape(s[1..])
      case None => None
      case Some(rest) => Some([if s[0] == '+' then ' ' else s[0]] + rest)
  }

  lemma {:induction false} UnescapeEscape(s: Bytes)
    ensures Unescape(Escape(s)) == Some(s)
  {
    if s != [] {
      UnescapeEscape(s[1..]);
      var e := EscapeByte(s[0]);
      assert Escape(s)[|e|..] == Escape(s[1..]);
      assert s == [s[0]] + s[1..];
    }
  }

  /** What escaping can produce: no white space, no '#', nothing outside ASCII. */
  predicate Plain(s: Bytes) {
    forall i :: 0 <= i < |s| ==> Unreserved(s[i]) || s[i] == '+' || s[i] == '%'
  }

  lemma {:induction false} EscapeIsPlain(s: Bytes)
    ensures Plain(Escape(s))
  {
    if s != [] { EscapeIsPlain(s[1..]); }
  }

  function JoinWords(words: seq<Bytes>): (r: Bytes)
    ensures words != [] && words[0] != [] ==> r != [] && r[0] == words[0][0]
  {
    if |words| == 0 then [] else if |words| == 1 then words[0] else words[0] + " " + JoinWords(words[1..])
  }

  lemma PlainIsNotSpace(s: Bytes)
    requires s != [] && (Unreserved(s[0]) || s[0] == '+' || s[0] == '%')
    ensures SpaceAtStart(s) == 0
  {
  }

  lemma {:induction false} WordLengthOf(word: Bytes, rest: Bytes)
    requires Plain(word) && (rest == [] || rest[0] == ' ')
    ensures WordLength(word + rest) == |word|
  {
    if word == [] {
      assert word + rest == rest;
      if rest != [] { assert IsSpaceCode(rest[..1]); }
    } else {
      PlainIsNotSpace(word + rest);
      WordLengthOf(word[1..], rest);
      assert (word + rest)[1..] == word[1..] + rest;
    }
  }

  lemma FieldsFirst(word: Bytes, rest: Bytes)
    requires word != [] && Plain(word) && (rest == [] || rest[0] == ' ')
    ensures Fields(word + rest) == [word] + if rest == [] then [] else Fields(rest[1..])
  {
    var s := word + rest;
    PlainIsNotSpace(s);
    WordLengthOf(word, rest);
    assert s[..|word|] == word && s[|word|..] == rest;
    if rest != [] { assert IsSpaceCode(rest[..1]); }
  }

  lemma WordsAre(words: seq<Bytes>)
    requires words != []
    ensures words == [words[0]] + words[1..]
  {
  }

  /** Fields takes apart what Join put together. */
  lemma {:induction false} FieldsOfJoin(words: seq<Bytes>)
    requires forall i :: 0 <= i < |words| ==> words[i] != [] && Plain(words[i])
    ensures Fields(JoinWords(words)) == words
  {
    if |words| == 1 {
      EmptyEnds(words[0]);
      FieldsFirst(words[0], []);
      assert words == [words[0]];
    } else if |words| > 1 {
      var later := JoinWords(words[1..]);
      FieldsOfJoin(words[1..]);
      FieldsFirst(words[0], [' '] + later);
      Assoc(words[0], [' '], later);
      Dropped([' '], later);
      WordsAre(words);
    }
  }

  // ----- strings.SplitN(s, "~", n) -----

  function IndexOf(s: Bytes, c: Byte): (i: nat)
    ensures i <= |s| && (forall j :: 0 <= j < i ==> s[j] != c) && (i < |s| ==> s[i] == c)
  {
    if s == [] || s[0] == c then 0 else 1 + IndexOf(s[1..], c)
  }

  function SplitN(s: Bytes, n: nat): (parts: seq<Bytes>)
    requires n > 0
    ensures 1 <= |parts| <= n
    ensures forall i :: 0 <= i < |parts| - 1 ==> '~' !in parts[i]
  {
    var i := IndexOf(s, '~');
    if n == 1 || i == |s| then [s] else [s[..i]] + SplitN(s[i + 1..], n - 1)
  }

  lemma SplitNFirst(a: Bytes, rest: Bytes, n: nat)
    requires '~' !in a && n > 1
    ensures SplitN(a + "~" + rest, n) == [a] + SplitN(rest, n - 1)
  {
    var s: Bytes := a + "~" + rest;
    assert s[|a|] == '~';
    assert forall j :: 0 <= j < |a| ==> s[j] == a[j];
    assert IndexOf(s, '~') == |a|;
    assert s[..|a|] == a && s[|a| + 1..] == rest;
  }

  // ----- strconv.Itoa and Atoi -----

  const MAX_INT := 0x7FFF_FFFF_FFFF_FFFF

  /** The values of an int. */
  predicate IsInt(n: int) { -MAX_INT - 1 <= n <= MAX_INT }

  function Decimal(n: nat): (r: Bytes)
    ensures r != [] && forall i :: 0 <= i < |r| ==> '0' <= r[i] <= '9'
  {
    if n < 10 then [('0' as int + n) as char] else Decimal(n / 10) + [('0' as int + n % 10) as char]
  }

  function Itoa(n: int): (r: Bytes)
    ensures r != [] && '~' !in r
  {
    if n < 0 then ['-'] + Decimal(-n) else Decimal(n)
  }

  function Digits(s: Bytes): Option<nat> {
    if s == [] then Some(0)
    else
      var last := s[|s| - 1];
      match Digits(s[..|s| - 1])
      case None => None
      case Some(n) => if '0' <= last <= '9' then Some(n * 10 + (last as int - '0' as int)) else None
  }

  /** The int that s spells, with an optional sign, if it spells one in range. */
  function Atoi(s: Bytes): Option<int> {
    var negative := s != [] && s[0] == '-';
    var digits := if s != [] && (s[0] == '-' || s[0] == '+') then s[1..] else s;
    if digits == [] then None
    else
      match Digits(digits)
      case None => None
      case Some(n) =>
        var value: int := if negative then 0 - n else n;
        if IsInt(value) then Some(value) else None
  }

  lemma {:induction false} DigitsOfDecimal(n: nat)
    ensures Digits(Decimal(n)) == Some(n)
  {
    if n >= 10 {
      DigitsOfDecimal(n / 10);
      assert Decimal(n)[..|Decimal(n)| - 1] == Decimal(n / 10);
    } else {
      assert Digits(Decimal(n)[..0]) == Some(0);
    }
  }

  lemma AtoiNegative(digits: Bytes, n: nat)
    requires digits != [] && Digits(digits) == Some(n) && IsInt(0 - n)
    ensures Atoi(['-'] + digits) == Some(0 - n)
  {
    Dropped(['-'], digits);
  }

  lemma AtoiUnsigned(digits: Bytes, n: nat)
    requires digits != [] && digits[0] != '-' && digits[0] != '+' && Digits(digits) == Some(n) && IsInt(n)
    ensures Atoi(digits) == Some(n)
  {
  }

  lemma AtoiItoa(n: int)
    requires IsInt(n)
    ensures Atoi(Itoa(n)) == Some(n)
  {
    if n < 0 {
      DigitsOfDecimal(-n);
      AtoiNegative(Decimal(-n), -n);
    } else {
      DigitsOfDecimal(n);
      AtoiUnsigned(Decimal(n), n);
    }
  }
}
