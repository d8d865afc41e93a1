/** Details of the canonical form and of the index: what reads as a date, how long an id is, and which spellings are the same. */
module CanonicalDetails {
  import opened ModelIndex
  import opened Seqs
  import opened Text
  import opened Wrappers

  const DIGITS := "0123456789"

  lemma DigitsAre(s: string)
    ensures Digits(s) <==> forall i :: 0 <= i < |s| ==> s[i] in DIGITS
  {
    forall c: char ensures c in DIGITS <==> '0' <= c <= '9' { DigitIs(c); }
  }

  lemma DigitIs(c: char)
    ensures c in DIGITS <==> '0' <= c <= '9'
  {
    assert |DIGITS| == 10 && DIGITS[0] == '0' && DIGITS[1] == '1' && DIGITS[2] == '2' && DIGITS[3] == '3' && DIGITS[4] == '4';
    assert DIGITS[5] == '5' && DIGITS[6] == '6' && DIGITS[7] == '7' && DIGITS[8] == '8' && DIGITS[9] == '9';
  }

  /** A dash and eight digits at the end are a date, and nothing else is one without dashes. */
  lemma CompactDatesAre(s: string)
    ensures EndsCompact(s) <==>
      exists front, d :: s == front + ("-" + d) && |d| == 8 && forall i :: 0 <= i < 8 ==> d[i] in DIGITS
  {
    if EndsCompact(s) {
      var front, d := s[..|s| - 9], s[|s| - 8..];
      DigitsAre(d);
      assert s == front + ("-" + d);
    }
    if front, d :| s == front + ("-" + d) && |d| == 8 && forall i :: 0 <= i < 8 ==> d[i] in DIGITS {
      DigitsAre(d);
      assert s[|s| - 9] == '-' && s[|s| - 8..] == d;
    }
  }

  /** With dashes, a date of this century is one. */
  lemma DashedDatesEnd(front: string, year: string, month: string, day: string)
    requires |year| == 2 && |month| == 2 && |day| == 2
    requires forall i :: 0 <= i < 2 ==> year[i] in DIGITS && month[i] in DIGITS && day[i] in DIGITS
    ensures EndsDashed(front + ("-20" + year + "-" + month + "-" + day))
  {
    DigitsAre(year);
    DigitsAre(month);
    DigitsAre(day);
    var date := "-20" + year + "-" + month + "-" + day;
    var s := front + date;
    assert |date| == 11 && forall i :: 0 <= i < 11 ==> s[|front| + i] == date[i];
    assert s[|s| - 11..|s| - 8] == "-20" && s[|s| - 8..|s| - 6] == year && s[|s| - 5..|s| - 3] == month && s[|s| - 2..] == day;
  }

  /** The length by which keys are compared is that of UTF-8: one byte for 7 bits, two for 11, three for 16, and four. */
  lemma {:induction false} BytesOfConcat(a: string, b: string)
    ensures ByteLength(a + b) == ByteLength(a) + ByteLength(b)
  {
    if a == [] {
      EmptyEnds(b);
    } else {
      Tail(a, b);
      BytesOfConcat(a[1..], b);
    }
  }

  lemma BytesOf(c: char)
    ensures ByteLength("") == 0 && 1 <= ByteLength([c]) <= 4
    ensures ByteLength([c]) <= 1 <==> c as int < 0x80
    ensures ByteLength([c]) <= 2 <==> c as int < 0x800
    ensures ByteLength([c]) <= 3 <==> c as int < 0x10000
  {
    assert [c][1..] == [];
  }

  /** White space around an id makes no difference to the answer. */
  lemma SpaceIsIgnored(w: Words, keys: set<string>, raw: string, r: Option<string>)
    ensures Answers(w, keys, Trim(raw), r) <==> Answers(w, keys, raw, r)
  {
    TrimIdempotent(raw);
    SameForms(w, keys, Trim(raw), raw, r);
  }

  lemma SameForms(w: Words, keys: set<string>, a: string, b: string, r: Option<string>)
    requires Lower(Trim(a)) == Lower(Trim(b))
    ensures Answers(w, keys, a, r) <==> Answers(w, keys, b, r)
  {
    SameSlug(w, a, b);
    assert Exact(a) == Exact(b);
  }

  lemma SameSlug(w: Words, a: string, b: string)
    requires Lower(Trim(a)) == Lower(Trim(b))
    ensures Canonical(w, a) == Canonical(w, b)
  {
  }

  lemma {:induction false} LowerTwice(s: string)
    ensures Lower(Lower(s)) == Lower(s)
  {
    assert |Lower(Lower(s))| == |Lower(s)|;
  }

  lemma LowerSpace(s: string)
    ensures Trim(Lower(s)) == Lower(Trim(s))
  {
    if Trim(s) == [] {
      LowerBlank(s);
    } else {
      var front, back := TrimParts(s);
      LowerMiddle(front, Trim(s), back);
    }
  }

  lemma LowerBlank(s: string)
    requires Trim(s) == []
    ensures Trim(Lower(s)) == []
  {
    TrimEmpty(s);
    LowerKeepsSpace(s);
    TrimEmpty(Lower(s));
  }

  lemma LowerMiddle(front: string, middle: string, back: string)
    requires Blank(front) && Blank(back) && middle != [] && !IsSpace(middle[0]) && !IsSpace(middle[|middle| - 1])
    ensures Trim(Lower(front + middle + back)) == Lower(middle)
  {
    LowerParts(front, middle, back);
    LowerKeepsSpace(middle);
    TrimMiddle(Lower(front), Lower(middle), Lower(back));
  }

  lemma LowerKeepsSpace(s: string)
    ensures Blank(Lower(s)) <==> Blank(s)
    ensures s != [] ==> (IsSpace(Lower(s)[0]) <==> IsSpace(s[0])) && (IsSpace(Lower(s)[|s| - 1]) <==> IsSpace(s[|s| - 1]))
  {
    assert forall i :: 0 <= i < |s| ==> (IsSpace(Lower(s)[i]) <==> IsSpace(s[i]));
  }

  lemma LowerParts(a: string, b: string, c: string)
    ensures Lower(a + b + c) == Lower(a) + Lower(b) + Lower(c)
    ensures Blank(a) ==> Blank(Lower(a))
    ensures Blank(c) ==> Blank(Lower(c))
  {
    LowerKeepsSpace(a);
    LowerKeepsSpace(c);
  }

  /** Neither does the case of its letters. */
  lemma CaseIsIgnored(w: Words, keys: set<string>, raw: string, r: Option<string>)
    ensures Answers(w, keys, Lower(raw), r) <==> Answers(w, keys, raw, r)
  {
    LowerSpace(raw);
    LowerTwice(Trim(raw));
    SameForms(w, keys, Lower(raw), raw, r);
  }
}
