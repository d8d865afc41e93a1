/** Strings as sequences of code points, with the white-space notion of Go's unicode.IsSpace and the strings.TrimSpace and
    strings.Join helpers that the channel code is built from.  Trimming is defined by the positions of the first and the
    last character that is no white space; erasing all white space is what texts are compared by where a promise is about
    everything else.  Lower-casing is that of the ASCII letters, and blank means empty after trimming. */
module Text {
  import opened Seqs

  predicate IsSpace(c: char) {
    || '\t' <= c <= '\r' || c == ' ' || c == '\U{85}' || c == '\U{A0}' || c == '\U{1680}'
    || '\U{2000}' <= c <= '\U{200A}' || c == '\U{2028}' || c == '\U{2029}' || c == '\U{202F}'
    || c == '\U{205F}' || c == '\U{3000}'
  }

  /** strings.TrimSpace(s) == "". */
  predicate Blank(s: string) {
    forall i :: 0 <= i < |s| ==> IsSpace(s[i])
  }

  /** The first position from i on that holds no white space. */
  function Leading(s: string, i: nat): (k: nat)
    requires i <= |s|
    ensures i <= k <= |s| && (k < |s| ==> !IsSpace(s[k]))
    decreases |s| - i
  {
    if i < |s| && IsSpace(s[i]) then Leading(s, i + 1) else i
  }

  /** The position behind the last one before j that holds no white space. */
  function Ending(s: string, j: nat): (k: nat)
    requires j <= |s|
    ensures k <= j && (k > 0 ==> !IsSpace(s[k - 1]))
  {
    if j > 0 && IsSpace(s[j - 1]) then Ending(s, j - 1) else j
  }

  function TrimLeft(s: string): (r: string)
    ensures r != [] ==> !IsSpace(r[0])
    ensures |r| <= |s|
  {
    s[Leading(s, 0)..]
  }

  function TrimRight(s: string): (r: string)
    ensures r != [] ==> !IsSpace(r[|r| - 1])
    ensures |r| <= |s| && r == s[..|r|]
  {
    s[..Ending(s, |s|)]
  }

  /** strings.TrimSpace. */
  function Trim(s: string): (r: string)
    ensures r != [] ==> !IsSpace(r[0]) && !IsSpace(r[|r| - 1])
    ensures |r| <= |s|
  {
    TrimRight(TrimLeft(s))
  }

  /** strings.ToLower, for the ASCII letters. */
  function LowerChar(c: char): char {
    if 'A' <= c <= 'Z' then ((c as int) + 32) as char else c
  }

  function Lower(s: string): (r: string)
    ensures |r| == |s| && forall i :: 0 <= i < |s| ==> r[i] == LowerChar(s[i])
  {
    seq(|s|, i requires 0 <= i < |s| => LowerChar(s[i]))
  }

  /** s with all white space removed. */
  function Erase(s: string): (r: string) {
    if s == [] then [] else (if IsSpace(s[0]) then [] else [s[0]]) + Erase(s[1..])
  }

  lemma {:induction false} EraseConcat(a: string, b: string)
    ensures Erase(a + b) == Erase(a) + Erase(b)
  {
    if a == [] {
      EmptyEnds(b);
      EmptyEnds(Erase(b));
    } else {
      EraseConcat(a[1..], b);
      Tail(a, b);
      Assoc(if IsSpace(a[0]) then [] else [a[0]], Erase(a[1..]), Erase(b));
    }
  }

  lemma {:induction false} EraseBlank(s: string)
    ensures Erase(s) == [] <==> Blank(s)
  {
    if s != [] {
      EraseBlank(s[1..]);
      assert Blank(s) <==> IsSpace(s[0]) && Blank(s[1..]) by {
        if IsSpace(s[0]) && Blank(s[1..]) {
          forall i | 0 <= i < |s| ensures IsSpace(s[i]) {
            if i > 0 { assert s[i] == s[1..][i - 1]; }
          }
        }
      }
    }
  }

  lemma BlankConcat(a: string, b: string)
    ensures Blank(a + b) <==> Blank(a) && Blank(b)
  {
    var ab := a + b;
    if Blank(ab) {
      assert forall i :: 0 <= i < |a| ==> a[i] == ab[i];
      assert forall i :: 0 <= i < |b| ==> b[i] == ab[|a| + i];
    }
  }

  lemma {:induction false} LeadingBlank(s: string, i: nat)
    requires i <= |s|
    ensures Blank(s[i..Leading(s, i)])
    decreases |s| - i
  {
    if i < |s| && IsSpace(s[i]) {
      LeadingBlank(s, i + 1);
      BlankConcat([s[i]], s[i + 1..Leading(s, i)]);
      assert s[i..Leading(s, i)] == [s[i]] + s[i + 1..Leading(s, i)];
    }
  }

  lemma {:induction false} EndingBlank(s: string, j: nat)
    requires j <= |s|
    ensures Blank(s[Ending(s, j)..j])
  {
    if j > 0 && IsSpace(s[j - 1]) {
      EndingBlank(s, j - 1);
      BlankConcat(s[Ending(s, j)..j - 1], [s[j - 1]]);
      assert s[Ending(s, j)..j] == s[Ending(s, j)..j - 1] + [s[j - 1]];
    }
  }

  /** Trimming on the left drops a blank front, and on the right a blank end. */
  lemma TrimLeftParts(s: string) returns (before: string)
    ensures s == before + TrimLeft(s) && Blank(before)
  {
    LeadingBlank(s, 0);
    before := s[0..Leading(s, 0)];
  }

  lemma TrimRightParts(s: string) returns (after: string)
    ensures s == TrimRight(s) + after && Blank(after)
  {
    EndingBlank(s, |s|);
    after := s[Ending(s, |s|)..|s|];
  }

  lemma {:induction false} LeadingOf(s: string, n: nat, i: nat)
    requires i <= n <= |s| && Blank(s[i..n]) && (n < |s| ==> !IsSpace(s[n]))
    ensures Leading(s, i) == n
    decreases n - i
  {
    if i < n {
      assert s[i..n][0] == s[i] && s[i + 1..n] == s[i..n][1..];
      LeadingOf(s, n, i + 1);
    }
  }

  lemma {:induction false} EndingOf(s: string, n: nat, j: nat)
    requires n <= j <= |s| && Blank(s[n..j]) && (n > 0 ==> !IsSpace(s[n - 1]))
    ensures Ending(s, j) == n
  {
    if n < j {
      assert s[n..j][j - 1 - n] == s[j - 1] && s[n..j - 1] == s[n..j][..j - 1 - n];
      EndingOf(s, n, j - 1);
    }
  }

  /** Trimming finds the middle of a text that is solid at both ends. */
  lemma TrimMiddle(front: string, middle: string, back: string)
    requires Blank(front) && Blank(back) && middle != [] && !IsSpace(middle[0]) && !IsSpace(middle[|middle| - 1])
    ensures Trim(front + middle + back) == middle
  {
    var s, t := front + middle + back, middle + back;
    assert s[0..|front|] == front && s[|front|] == middle[0] && s[|front|..] == t;
    LeadingOf(s, |front|, 0);
    assert t[|middle|..|t|] == back && t[|middle| - 1] == middle[|middle| - 1] && t[..|middle|] == middle;
    EndingOf(t, |middle|, |t|);
  }

  lemma TrimParts(s: string) returns (front: string, back: string)
    ensures s == front + Trim(s) + back && Blank(front) && Blank(back)
  {
    front := TrimLeftParts(s);
    back := TrimRightParts(TrimLeft(s));
    assert front + Trim(s) + back == front + (Trim(s) + back);
  }

  lemma EraseTrimLeft(s: string)
    ensures Erase(TrimLeft(s)) == Erase(s)
  {
    var before := TrimLeftParts(s);
    EraseConcat(before, TrimLeft(s));
    EraseBlank(before);
  }

  lemma EraseTrimRight(s: string)
    ensures Erase(TrimRight(s)) == Erase(s)
  {
    var after := TrimRightParts(s);
    EraseConcat(TrimRight(s), after);
    EraseBlank(after);
  }

  /** Trimming removes white space only. */
  lemma EraseTrim(s: string)
    ensures Erase(Trim(s)) == Erase(s)
  {
    EraseTrimLeft(s);
    EraseTrimRight(TrimLeft(s));
  }

  /** The empty-after-trim test of the source is exactly blankness. */
  lemma TrimEmpty(s: string)
    ensures Trim(s) == [] <==> Blank(s)
  {
    EraseTrim(s);
    EraseBlank(s);
    EraseBlank(Trim(s));
  }

  lemma TrimFixed(s: string)
    requires s != [] && !IsSpace(s[0]) && !IsSpace(s[|s| - 1])
    ensures Trim(s) == s
  {
    assert TrimLeft(s) == s && TrimRight(s) == s;
  }

  /** What is left after trimming, if anything, is not blank. */
  lemma TrimSolid(s: string)
    ensures Trim(s) == [] <==> Blank(s)
    ensures Trim(s) != [] ==> !Blank(Trim(s))
  {
    TrimEmpty(s);
    var t := Trim(s);
    assert t != [] ==> !IsSpace(t[0]);
  }

  lemma TrimIdempotent(s: string)
    ensures Trim(Trim(s)) == Trim(s)
  {
    assert TrimLeft(Trim(s)) == Trim(s);
  }

  /** strings.Join. */
  function Join(parts: seq<string>, sep: string): (r: string) {
    if |parts| == 0 then []
    else if |parts| == 1 then parts[0]
    else parts[0] + sep + Join(parts[1..], sep)
  }

  lemma {:induction false} JoinSnoc(parts: seq<string>, sep: string, last: string)
    ensures Join(parts + [last], sep) == if parts == [] then last else Join(parts, sep) + sep + last
  {
    if |parts| > 1 {
      JoinSnoc(parts[1..], sep, last);
      assert (parts + [last])[1..] == parts[1..] + [last];
      assert Join(parts + [last], sep) == parts[0] + sep + (Join(parts[1..], sep) + sep + last);
    } else if |parts| == 1 {
      assert (parts + [last])[1..] == [last];
    }
  }
}
