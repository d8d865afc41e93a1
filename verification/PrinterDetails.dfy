/** Details of the printed code blocks: the fence, the language, and what is trimmed. */
module PrinterDetails {
  import opened MarkdownPrinter
  import opened Seqs
  import opened Text

  /** A fence has at least three ticks, more than any stretch of the text, and no more than it needs. */
  lemma FenceIsShortest(text: string)
    ensures FenceLength(text) >= 3 && FenceLength(text) > MaxRun(text)
    ensures FenceLength(text) == 3 || FenceLength(text) == MaxRun(text) + 1
  {
  }

  /** A hint for the language is printed, trimmed, if it has at most 32 characters and they are all letters, digits, or one of
      four signs; any other is left out. */
  lemma LanguageIs(language: string)
    ensures var l := Trim(language);
      && (|l| <= 32 && (forall i :: 0 <= i < |l| ==> Plain(l[i])) ==> Language(language) == l)
      && (|l| > 32 || (exists i :: 0 <= i < |l| && !Plain(l[i])) ==> Language(language) == "")
  {
    var l := Trim(language);
    forall i | 0 <= i < |l| ensures Plain(l[i]) <==> LanguageChar(l[i]) { PlainIs(l[i]); }
  }

  const LETTERS := "abcdefghijklmnopqrstuvwxyz"

  /** Letters of either case, digits, and the four signs. */
  predicate Plain(c: char) { LowerChar(c) in LETTERS || c in "0123456789" || c in "_-+#" }

  lemma PlainIs(c: char)
    ensures Plain(c) <==> LanguageChar(c)
  {
    LetterIs(LowerChar(c));
    DigitIs(c);
    assert |"_-+#"| == 4 && "_-+#"[0] == '_' && "_-+#"[1] == '-' && "_-+#"[2] == '+' && "_-+#"[3] == '#';
  }

  lemma LetterIs(c: char)
    ensures c in LETTERS <==> 'a' <= c <= 'z'
  {
    forall i | 0 <= i < 26 ensures LETTERS[i] as int == 'a' as int + i {
      LettersAre(i);
    }
    if 'a' <= c <= 'z' { assert LETTERS[c as int - 'a' as int] == c; }
  }

  lemma LettersAre(i: nat)
    requires i < 26
    ensures |LETTERS| == 26 && LETTERS[i] as int == 'a' as int + i
  {
    var front := "abcdefghijklm";
    var back := "nopqrstuvwxyz";
    assert LETTERS == front + back;
    assert front[0] == 'a' && front[1] == 'b' && front[2] == 'c' && front[3] == 'd' && front[4] == 'e' && front[5] == 'f';
    assert front[6] == 'g' && front[7] == 'h' && front[8] == 'i' && front[9] == 'j' && front[10] == 'k' && front[11] == 'l';
    assert front[12] == 'm' && back[0] == 'n' && back[1] == 'o' && back[2] == 'p' && back[3] == 'q' && back[4] == 'r';
    assert back[5] == 's' && back[6] == 't' && back[7] == 'u' && back[8] == 'v' && back[9] == 'w' && back[10] == 'x';
    assert back[11] == 'y' && back[12] == 'z';
  }

  lemma DigitIs(c: char)
    ensures c in "0123456789" <==> '0' <= c <= '9'
  {
    var digits := "0123456789";
    assert |digits| == 10 && digits[0] == '0' && digits[1] == '1' && digits[2] == '2' && digits[3] == '3' && digits[4] == '4';
    assert digits[5] == '5' && digits[6] == '6' && digits[7] == '7' && digits[8] == '8' && digits[9] == '9';
  }

  ghost predicate Newlines(s: string) { forall i :: 0 <= i < |s| ==> IsNewline(s[i]) }

  /** Line breaks are trimmed at both ends of the code, and nothing else is: inner ones, and other white space, stay. */
  lemma {:induction false} NewlinesAreTrimmed(s: string) returns (front: string, back: string)
    ensures s == front + TrimNewlines(s) + back && Newlines(front) && Newlines(back)
    ensures var t := TrimNewlines(s); t != [] ==> !IsNewline(t[0]) && !IsNewline(t[|t| - 1])
    decreases |s|
  {
    if s != [] && IsNewline(s[0]) {
      front, back := NewlinesAreTrimmed(s[1..]);
      front := [s[0]] + front;
      assert s == [s[0]] + s[1..];
    } else if s != [] && IsNewline(s[|s| - 1]) {
      front, back := NewlinesAreTrimmed(s[..|s| - 1]);
      back := back + [s[|s| - 1]];
      InitLast(s);
    } else {
      front, back := "", "";
      EmptyEnds(s);
    }
  }

  /** A block stands behind what was written before, with an empty line between them, or alone. */
  lemma BlockIsAppended(before: string, block: string)
    ensures before == "" ==> Appended(before, block) == block
    ensures before != "" ==> Appended(before, block) == before + "\n\n" + block
  {
    EmptyEnds(block);
  }
}
