/** Printing code and text as Markdown, checked against the readers of CommonMark 0.31.2: backslash escapes
    (section 2.4), fenced code blocks (section 4.5) and code spans (section 6.1). */
module MarkdownPrinter {
  import opened Seqs
  import opened Text
  import opened Wrappers

  const TICK := '`'

  function Ticks(n: nat): (s: string)
    ensures |s| == n && forall i :: 0 <= i < n ==> s[i] == TICK
  {
    seq(n, _ => TICK)
  }

  predicate AllTicks(s: string) { forall i :: 0 <= i < |s| ==> s[i] == TICK }

  // ----- selectDegradeMarkdownBacktickFence -----

  /** The stretch of backticks that s ends with, and the longest one in it. */
  function LastRun(s: string): nat { if s != [] && s[|s| - 1] == TICK then 1 + LastRun(s[..|s| - 1]) else 0 }

  function MaxRun(s: string): nat {
    if s == [] then 0
    else
      var before, last := MaxRun(s[..|s| - 1]), LastRun(s);
      if last > before then last else before
  }

  lemma {:induction false} LastRunIsLongest(s: string, i: nat)
    requires i <= |s| && AllTicks(s[i..])
    ensures |s| - i <= LastRun(s)
  {
    if i < |s| {
      assert s[i..][|s| - 1 - i] == s[|s| - 1];
      assert s[..|s| - 1][i..] == s[i..][..|s| - 1 - i];
      LastRunIsLongest(s[..|s| - 1], i);
    }
  }

  /** No stretch of backticks is longer than the longest one. */
  lemma {:induction false} MaxRunIsLongest(s: string, i: nat, j: nat)
    requires i <= j <= |s| && AllTicks(s[i..j])
    ensures j - i <= MaxRun(s)
  {
    if i < j {
      if j == |s| {
        assert s[i..j] == s[i..];
        LastRunIsLongest(s, i);
      } else {
        assert s[..|s| - 1][i..j] == s[i..j];
        MaxRunIsLongest(s[..|s| - 1], i, j);
      }
    }
  }

  lemma {:induction false} LastRunIsThere(s: string)
    ensures LastRun(s) <= |s| && AllTicks(s[|s| - LastRun(s)..])
  {
    if s != [] && s[|s| - 1] == TICK {
      var init := s[..|s| - 1];
      LastRunIsThere(init);
      TailSnoc(s, |init| - LastRun(init));
    }
  }

  /** And there is one that long. */
  lemma {:induction false} MaxRunIsThere(s: string) returns (i: nat)
    ensures i + MaxRun(s) <= |s| && AllTicks(s[i..i + MaxRun(s)])
  {
    if s == [] {
      i := 0;
    } else if LastRun(s) > MaxRun(s[..|s| - 1]) {
      LastRunIsThere(s);
      i := |s| - LastRun(s);
      ToTheEnd(s, i);
      assert MaxRun(s) == LastRun(s) && i + MaxRun(s) == |s|;
    } else {
      i := MaxRunIsThere(s[..|s| - 1]);
      FrontSlice(s, |s| - 1, i, i + MaxRun(s));
    }
  }

  /** A fence longer than every stretch of backticks in the text, and no longer than that or minRun. */
  method SelectFence(text: string, minRun: nat) returns (fence: string)
    ensures fence == Ticks(if MaxRun(text) >= minRun then MaxRun(text) + 1 else minRun)
  {
    var maxRun, cur := 0, 0;
    for k := 0 to |text|
      invariant maxRun == MaxRun(text[..k]) && cur == LastRun(text[..k])
    {
      assert text[..k + 1][..k] == text[..k];
      if text[k] == TICK {
        cur := cur + 1;
        if cur > maxRun { maxRun := cur; }
      } else {
        cur := 0;
      }
    }
    assert text[..|text|] == text;
    var n := minRun;
    if maxRun >= n { n := maxRun + 1; }
    fence := Ticks(n);
  }

  // ----- reading a code span -----

  /** The number of backticks that s starts with. */
  function TickRun(s: string): (n: nat)
    ensures n <= |s|
  {
    if s != [] && s[0] == TICK then 1 + TickRun(s[1..]) else 0
  }

  /** The length of the backtick string at the start of s, or of the one character that is not a backtick. */
  function Step(s: string): (k: nat)
    requires s != []
    ensures 0 < k <= |s|
  {
    if TickRun(s) > 0 then TickRun(s) else 1
  }

  function Shift(k: Option<nat>, d: nat): Option<nat> { match k case Some(i) => Some(i + d) case None => None }

  /** Where the first backtick string of exactly n backticks starts. */
  function FindClose(s: string, n: nat): (k: Option<nat>)
    requires n > 0
    ensures k.Some? ==> k.value + n <= |s|
    decreases |s|
  {
    if s == [] then None
    else if TickRun(s) == n then Some(0)
    else Shift(FindClose(s[Step(s)..], n), Step(s))
  }

  predicate AllSpaces(s: string) { forall i :: 0 <= i < |s| ==> s[i] == ' ' }

  /** Every line ending, which is a line feed, a carriage return, or both together, becomes a space. */
  function Unbroken(s: string): string {
    if s == [] then []
    else if |s| >= 2 && s[0] == '\r' && s[1] == '\n' then " " + Unbroken(s[2..])
    else [if IsNewline(s[0]) then ' ' else s[0]] + Unbroken(s[1..])
  }

  predicate IsNewline(c: char) { c == '\n' || c == '\r' }

  /** Line endings become spaces, and one space is stripped from both ends of a span that is not all spaces. */
  function SpanContent(raw: string): string {
    var s := Unbroken(raw);
    if |s| >= 2 && s[0] == ' ' && s[|s| - 1] == ' ' && !AllSpaces(s) then s[1..|s| - 1] else s
  }

  /** A code span at the start of s: its content and what follows it. */
  function ReadSpan(s: string): Option<(string, string)> {
    var n := TickRun(s);
    if n == 0 then None
    else
      match FindClose(s[n..], n)
      case None => None
      case Some(k) => Some((SpanContent(s[n..][..k]), s[n..][k + n..]))
  }

  lemma {:induction false} TickRunOf(n: nat, rest: string)
    requires rest == [] || rest[0] != TICK
    ensures TickRun(Ticks(n) + rest) == n
  {
    if n > 0 {
      TickRunOf(n - 1, rest);
      assert (Ticks(n) + rest)[1..] == Ticks(n - 1) + rest;
    }
  }

  lemma {:induction false} TickRunIs(s: string)
    ensures AllTicks(s[..TickRun(s)]) && (TickRun(s) < |s| ==> s[TickRun(s)] != TICK)
  {
    if s != [] && s[0] == TICK {
      TickRunIs(s[1..]);
      assert forall i :: 0 < i < TickRun(s) ==> s[i] == s[1..][..TickRun(s) - 1][i - 1];
    }
  }

  /** No backtick string of s is as long as n. */
  predicate RunsBelow(s: string, n: nat) { s == [] || (TickRun(s) < n && RunsBelow(s[1..], n)) }

  lemma {:induction false} RunsBelowFrom(s: string, k: nat, n: nat)
    requires MaxRun(s) < n && k <= |s|
    ensures RunsBelow(s[k..], n)
    decreases |s| - k
  {
    if k < |s| {
      TickRunIs(s[k..]);
      var run := TickRun(s[k..]);
      assert s[k..k + run] == s[k..][..run];
      MaxRunIsLongest(s, k, k + run);
      RunsBelowFrom(s, k + 1, n);
      assert s[k..][1..] == s[k + 1..];
    }
  }

  lemma {:induction false} RunsBelowTail(s: string, k: nat, n: nat)
    requires RunsBelow(s, n) && k <= |s|
    ensures RunsBelow(s[k..], n)
  {
    if k > 0 {
      RunsBelowTail(s[1..], k - 1, n);
      assert s[1..][k - 1..] == s[k..];
    }
  }

  lemma RunInside(content: string, more: string)
    requires content != [] && content[|content| - 1] != TICK
    ensures TickRun(content) < |content| && TickRun(content + more) == TickRun(content)
  {
    TickRunIs(content);
    var run := TickRun(content);
    if run > 0 { assert content[..run][run - 1] == content[run - 1]; }
    assert content + more == Ticks(run) + (content[run..] + more);
    TickRunOf(run, content[run..] + more);
  }

  lemma StepOver(content: string, n: nat, tail: string)
    requires n > 0 && RunsBelow(content, n) && content != [] && content[|content| - 1] != TICK
    ensures var k := Step(content + tail);
      && TickRun(content + tail) < n && k <= |content| && RunsBelow(content[k..], n)
      && (content + tail)[k..] == content[k..] + tail
      && (content[k..] == [] || content[k..][|content| - k - 1] != TICK)
  {
    RunInside(content, tail);
    var k := Step(content + tail);
    RunsBelowTail(content, k, n);
  }

  /** Behind a content that has only shorter runs, and does not end in one, the fence is found. */
  lemma {:induction false} FenceIsFound(content: string, n: nat, tail: string)
    requires n > 0 && RunsBelow(content, n) && (content == [] || content[|content| - 1] != TICK)
    requires TickRun(tail) == n
    ensures FindClose(content + tail, n) == Some(|content|)
    decreases |content|
  {
    if content == [] {
      EmptyEnds(tail);
      CloseHere(tail, n);
    } else {
      var k := Step(content + tail);
      StepOver(content, n, tail);
      FenceIsFound(content[k..], n, tail);
      CloseBehind(content + tail, n);
    }
  }

  lemma CloseHere(s: string, n: nat)
    requires n > 0 && TickRun(s) == n
    ensures FindClose(s, n) == Some(0)
  {
  }

  lemma CloseBehind(s: string, n: nat)
    requires n > 0 && s != [] && TickRun(s) != n
    ensures FindClose(s, n) == Shift(FindClose(s[Step(s)..], n), Step(s))
  {
  }

  // ----- printing a code span -----

  function Pad(text: string): string { if TICK in text then " " else "" }

  function Span(text: string): string {
    var fence := Ticks(MaxRun(text) + 1);
    fence + Padded(text) + fence
  }

  /** wrapDegradeMarkdownInlineCode. */
  method WrapInlineCode(text: string) returns (span: string)
    ensures span == Span(text)
  {
    var fence := SelectFence(text, 1);
    var pad := "";
    if TICK in text { pad := " "; }
    span := fence + (pad + text + pad) + fence;
  }

  lemma {:induction false} UnbrokenSpace(s: string)
    ensures Unbroken(s + " ") == Unbroken(s) + " "
    decreases |s|
  {
    if s == [] {
      assert Unbroken(" ") == " " + Unbroken(" "[1..]);
    } else if |s| >= 2 && s[0] == '\r' && s[1] == '\n' {
      UnbrokenSpace(s[2..]);
      assert (s + " ")[2..] == s[2..] + " ";
      Assoc(" ", Unbroken(s[2..]), " ");
    } else {
      UnbrokenSpace(s[1..]);
      assert (s + " ")[1..] == s[1..] + " ";
      Assoc([if IsNewline(s[0]) then ' ' else s[0]], Unbroken(s[1..]), " ");
    }
  }

  /** Text that does not begin with a line ending keeps its first character. */
  lemma UnbrokenStart(s: string)
    requires s != [] && !IsNewline(s[0])
    ensures Unbroken(s) != [] && Unbroken(s)[0] == s[0] && Unbroken(" " + s) == " " + Unbroken(s)
  {
    assert (" " + s)[1..] == s;
  }

  /** Only text on one line is kept as it is. */
  lemma {:induction false} UnbrokenIs(s: string)
    ensures forall c :: c in Unbroken(s) ==> !IsNewline(c)
    ensures (forall c :: c in s ==> !IsNewline(c)) ==> Unbroken(s) == s
    decreases |s|
  {
    if s == [] {
    } else if |s| >= 2 && s[0] == '\r' && s[1] == '\n' {
      UnbrokenIs(s[2..]);
      assert s[0] in s && IsNewline(s[0]);
    } else {
      UnbrokenIs(s[1..]);
      assert s == [s[0]] + s[1..] && s[0] in s;
    }
  }

  lemma PaddedContent(text: string)
    requires text != [] && !IsSpace(text[0])
    ensures SpanContent(" " + text + " ") == Unbroken(text)
  {
    UnbrokenSpace(" " + text);
    UnbrokenStart(text);
    StripPadding(Unbroken(text));
  }

  lemma StripPadding(text: string)
    requires text != [] && text[0] != ' '
    ensures var raw := " " + text + " ";
      |raw| >= 2 && raw[0] == ' ' && raw[|raw| - 1] == ' ' && !AllSpaces(raw) && raw[1..|raw| - 1] == text
  {
    var raw := " " + text + " ";
    assert raw[1] == text[0];
    Dropped(" " + text, " ");
    Dropped(" ", text);
    assert raw[1..|raw| - 1] == raw[..|raw| - 1][1..];
  }

  lemma PlainContent(text: string)
    requires text != [] && !IsSpace(text[0])
    ensures SpanContent(text) == Unbroken(text)
  {
    UnbrokenStart(text);
  }

  lemma {:induction false} RunsBelowSpace(text: string, n: nat)
    requires RunsBelow(text, n) && n > 0
    ensures RunsBelow(text + " ", n)
  {
    var s := text + " ";
    if text == [] {
      assert s == " " && s[1..] == [];
    } else {
      RunsBelowSpace(text[1..], n);
      assert s[1..] == text[1..] + " ";
      SameRun(text);
    }
  }

  lemma {:induction false} SameRun(text: string)
    ensures TickRun(text + " ") == TickRun(text)
  {
    if text != [] {
      SameRun(text[1..]);
      assert (text + " ")[1..] == text[1..] + " ";
    }
  }

  /** What stands between the fences. */
  function Padded(text: string): string { Pad(text) + text + Pad(text) }

  predicate Trimmed(text: string) { text != [] && Trim(text) == text }

  predicate OnOneLine(text: string) { forall c :: c in text ==> !IsNewline(c) }

  ghost predicate ReadsAs(content: string, text: string, n: nat) {
    SpanContent(content) == Unbroken(text) && RunsBelow(content, n) && content != [] && content[0] != TICK && content[|content| - 1] != TICK
  }

  lemma PaddedIsRead(text: string, n: nat)
    requires Trimmed(text) && RunsBelow(text, n) && n > 0
    ensures ReadsAs(" " + text + " ", text, n)
  {
    PaddedContent(text);
    PaddedRuns(text, n);
    Ends(" ", text, " ");
  }

  lemma PaddedRuns(text: string, n: nat)
    requires RunsBelow(text, n) && n > 0
    ensures RunsBelow(" " + text + " ", n)
  {
    RunsBelowSpace(text, n);
    Assoc(" ", text, " ");
    Tail(" ", text + " ");
    EmptyEnds(text + " ");
    assert " "[1..] == [];
  }

  lemma PlainIsRead(text: string, n: nat)
    requires Trimmed(text) && RunsBelow(text, n) && TICK !in text
    ensures ReadsAs(text, text, n)
  {
    PlainContent(text);
    assert text[|text| - 1] in text && text[0] in text;
  }

  lemma ContentIsRead(text: string)
    requires Trimmed(text)
    ensures ReadsAs(Padded(text), text, MaxRun(text) + 1)
  {
    var n := MaxRun(text) + 1;
    RunsBelowFrom(text, 0, n);
    assert text[0..] == text;
    if TICK in text {
      PaddedIsRead(text, n);
    } else {
      PlainIsRead(text, n);
      EmptyEnds(text);
    }
  }

  lemma ContentReads(content: string, text: string, n: nat, after: string)
    requires n > 0 && ReadsAs(content, text, n) && (after == [] || after[0] != TICK)
    ensures ReadSpan(Ticks(n) + content + Ticks(n) + after) == Some((Unbroken(text), after))
  {
    var fence := Ticks(n);
    SpanIsRead(content, n, after);
    Assoc(fence + content, fence, after);
    Assoc(fence, content, fence + after);
  }

  lemma UnbrokenIff(text: string)
    ensures Unbroken(text) == text <==> OnOneLine(text)
  {
    UnbrokenIs(text);
  }

  /** A trimmed text, printed as a code span and read back, is the text with spaces for its line endings, so it is the
      text exactly if that is on one line; whatever follows the span is left alone. */
  lemma CodeSpanRoundTrip(text: string, after: string)
    requires Trimmed(text) && (after == [] || after[0] != TICK)
    ensures ReadSpan(Span(text) + after) == Some((Unbroken(text), after))
    ensures ReadSpan(Span(text) + after) == Some((text, after)) <==> OnOneLine(text)
  {
    ContentIsRead(text);
    ContentReads(Padded(text), text, MaxRun(text) + 1, after);
    UnbrokenIff(text);
  }

  lemma ReadSpanIs(n: nat, tail: string, k: nat)
    requires n > 0 && (tail == [] || tail[0] != TICK) && FindClose(tail, n) == Some(k)
    ensures ReadSpan(Ticks(n) + tail) == Some((SpanContent(tail[..k]), tail[k + n..]))
  {
    TickRunOf(n, tail);
    Dropped(Ticks(n), tail);
  }

  lemma SpanIsRead(content: string, n: nat, after: string)
    requires n > 0 && RunsBelow(content, n) && content != [] && content[0] != TICK && content[|content| - 1] != TICK
    requires after == [] || after[0] != TICK
    ensures ReadSpan(Ticks(n) + (content + (Ticks(n) + after))) == Some((SpanContent(content), after))
  {
    var close := Ticks(n) + after;
    TickRunOf(n, after);
    FenceIsFound(content, n, close);
    Tail(content, close);
    AroundFence(content, n, after);
    SpanParts(n, content + close, content, after);
  }

  lemma SpanParts(n: nat, tail: string, content: string, after: string)
    requires n > 0 && tail != [] && tail[0] != TICK && FindClose(tail, n) == Some(|content|)
    requires tail[..|content|] == content && tail[|content| + n..] == after
    ensures ReadSpan(Ticks(n) + tail) == Some((SpanContent(content), after))
  {
    ReadSpanIs(n, tail, |content|);
  }

  lemma AroundFence(content: string, n: nat, after: string)
    ensures var tail := content + (Ticks(n) + after); tail[..|content|] == content && tail[|content| + n..] == after
  {
    var close := Ticks(n) + after;
    Dropped(content, close);
    DroppedMore(content, close, n);
    Dropped(Ticks(n), after);
  }

  // ----- lines -----

  /** The lines of a text that ends its lines with line feeds. */
  function Lines(s: string): (lines: seq<string>)
    ensures lines != []
  {
    if s == [] then [""]
    else WithChar(s[0], Lines(s[1..]))
  }

  lemma {:induction false} LinesConcat(a: string, b: string)
    ensures Lines(a + ("\n" + b)) == Lines(a) + Lines(b)
  {
    var rest := "\n" + b;
    if a == [] {
      EmptyEnds(rest);
      Tail("\n", b);
      EmptyEnds(b);
      assert "\n"[1..] == [];
    } else {
      LinesConcat(a[1..], b);
      Tail(a, rest);
      LinesCons(a[0], Lines(a[1..]), Lines(b));
    }
  }

  /** The lines of a text that starts with c, from the lines of the rest. */
  function WithChar(c: char, rest: seq<string>): seq<string>
    requires rest != []
  {
    if c == '\n' then [""] + rest else [[c] + rest[0]] + rest[1..]
  }

  lemma LinesCons(c: char, a: seq<string>, b: seq<string>)
    requires a != []
    ensures WithChar(c, a + b) == WithChar(c, a) + b
  {
    Tail(a, b);
    if c == '\n' { Assoc([""], a, b); } else { Assoc([[c] + a[0]], a[1..], b); }
  }

  lemma {:induction false} JoinLines(s: string)
    ensures Join(Lines(s), "\n") == s
  {
    if s != [] {
      JoinLines(s[1..]);
      var rest := Lines(s[1..]);
      if s[0] == '\n' {
        assert ([""] + rest)[1..] == rest;
      } else {
        JoinHead(s[0], rest);
      }
      assert s == [s[0]] + s[1..];
    }
  }

  lemma JoinHead(c: char, rest: seq<string>)
    requires rest != []
    ensures Join([[c] + rest[0]] + rest[1..], "\n") == [c] + Join(rest, "\n")
  {
    var longer := [[c] + rest[0]] + rest[1..];
    assert longer[1..] == rest[1..];
    if |rest| > 1 {
      assert Join(longer, "\n") == ([c] + rest[0]) + "\n" + Join(rest[1..], "\n");
    }
  }

  lemma {:induction false} OneLine(s: string)
    requires '\n' !in s
    ensures Lines(s) == [s]
  {
    if s != [] {
      assert s[0] in s;
      OneLine(s[1..]);
      assert s == [s[0]] + s[1..];
    }
  }

  lemma LineBehind(s: string, line: string, k: nat)
    requires s != [] && k + |line| < |s| && s[1..][k..k + |line|] == line
    ensures s[k + 1..k + 1 + |line|] == line
  {
    forall i | 0 <= i < |line| ensures s[k + 1..k + 1 + |line|][i] == line[i] {
      assert s[1..][k..k + |line|][i] == line[i];
    }
  }

  lemma LineGrows(s: string, line: string)
    requires |line| < |s| && s[1..][0..|line|] == line
    ensures s[0..1 + |line|] == [s[0]] + line
  {
  }

  /** The line of the text that a line of its tail becomes. */
  lemma LineStep(s: string, rest: seq<string>, i: nat, j: nat, k: nat)
    requires s != [] && rest != [] && i < |WithChar(s[0], rest)| && j < |rest| && i == (if s[0] == '\n' then j + 1 else j)
    requires k + |rest[j]| < |s| && s[1..][k..k + |rest[j]|] == rest[j] && (j == 0 ==> k == 0)
    ensures var line, at := WithChar(s[0], rest)[i], if i == 0 then 0 else k + 1;
      at + |line| <= |s| && s[at..at + |line|] == line
  {
    if i == 0 { LineGrows(s, rest[0]); } else { LineBehind(s, rest[j], k); }
  }

  /** A line is a stretch of its text. */
  lemma {:induction false} LineIsThere(s: string, i: nat) returns (at: nat)
    requires i < |Lines(s)|
    ensures at + |Lines(s)[i]| <= |s| && s[at..at + |Lines(s)[i]|] == Lines(s)[i]
    ensures i == 0 ==> at == 0
  {
    at := 0;
    if s != [] && !(s[0] == '\n' && i == 0) {
      var j := if s[0] == '\n' then i - 1 else i;
      var k := LineIsThere(s[1..], j);
      LineStep(s, Lines(s[1..]), i, j, k);
      at := if i == 0 then 0 else k + 1;
    }
  }

  // ----- reading a fenced code block -----

  /** A line without its indentation of at most three spaces. */
  function Unindent(line: string, most: nat): string {
    if most > 0 && line != [] && line[0] == ' ' then Unindent(line[1..], most - 1) else line
  }

  predicate SpacesAndTabs(s: string) { forall i :: 0 <= i < |s| ==> s[i] == ' ' || s[i] == '\t' }

  /** A closing fence: at least n backticks, with nothing but spaces or tabs behind them. */
  predicate Closes(line: string, n: nat) {
    var l := Unindent(line, 3);
    TickRun(l) >= n && SpacesAndTabs(l[TickRun(l)..])
  }

  /** The lines before the closing fence, or all of them if there is none. */
  function BlockLines(lines: seq<string>, n: nat): seq<string> {
    if lines == [] || Closes(lines[0], n) then [] else [lines[0]] + BlockLines(lines[1..], n)
  }

  /** The lines behind the closing fence. */
  function LinesBehind(lines: seq<string>, n: nat): seq<string> {
    if lines == [] then [] else if Closes(lines[0], n) then lines[1..] else LinesBehind(lines[1..], n)
  }

  /** A fenced code block at the start of the lines: its info string, its lines, and the lines behind it.  An opening
      fence has at least three backticks, and no backtick in its info string. */
  function ReadBlock(lines: seq<string>): Option<(string, seq<string>, seq<string>)> {
    if lines == [] then None
    else
      var n := TickRun(lines[0]);
      if n < 3 || TICK in lines[0][n..] then None else Some((lines[0][n..], BlockLines(lines[1..], n), LinesBehind(lines[1..], n)))
  }

  // ----- printing a fenced code block -----

  /** strings.Trim(s, "\n\r"). */
  function TrimNewlines(s: string): string
    decreases |s|
  {
    if s != [] && IsNewline(s[0]) then TrimNewlines(s[1..])
    else if s != [] && IsNewline(s[|s| - 1]) then TrimNewlines(s[..|s| - 1])
    else s
  }

  predicate LanguageChar(c: char) {
    'a' <= c <= 'z' || 'A' <= c <= 'Z' || '0' <= c <= '9' || c == '_' || c == '-' || c == '+' || c == '#'
  }

  /** NormalizeMessagePartCodeLanguage: a hint that is too long or has other characters is dropped. */
  function Language(language: string): (r: string)
    ensures forall i :: 0 <= i < |r| ==> LanguageChar(r[i])
  {
    var l := Trim(language);
    if |l| <= 32 && forall i :: 0 <= i < |l| ==> LanguageChar(l[i]) then l else ""
  }

  function FenceLength(text: string): nat { if MaxRun(text) >= 3 then MaxRun(text) + 1 else 3 }

  function Block(text: string, language: string): string {
    var fence := Ticks(FenceLength(text));
    fence + Language(language) + "\n" + text + "\n" + fence
  }

  /** The builder that all parts are written to. */
  class MarkdownBuilder {
    var text: string

    constructor ()
      ensures text == ""
    {
      text := "";
    }

    /** writeDegradeMarkdownCodeBlock: a blank block writes nothing. */
    method WriteCodeBlock(code: string, language: string)
      modifies this
      ensures var body := TrimNewlines(code);
        text == if Blank(body) then old(text) else Appended(old(text), Block(body, language))
    {
      var body := TrimNewlines(code);
      TrimEmpty(body);
      if Trim(body) == [] { return; }
      if |text| > 0 { text := text + "\n\n"; }
      var block := PrintBlock(body, language);
      text := text + block;
    }
  }

  method PrintBlock(body: string, language: string) returns (block: string)
    ensures block == Block(body, language)
  {
    var fence := SelectFence(body, 3);
    block := fence + Language(language) + "\n" + body + "\n" + fence;
  }

  /** A block behind what has been written before, with an empty line between them. */
  function Appended(before: string, block: string): string {
    (if before == "" then "" else before + "\n\n") + block
  }

  // ----- the round trip -----

  lemma {:induction false} UnindentIsTail(line: string, most: nat) returns (k: nat)
    ensures k <= |line| && Unindent(line, most) == line[k..]
  {
    k := 0;
    if most > 0 && line != [] && line[0] == ' ' {
      var j := UnindentIsTail(line[1..], most - 1);
      k := j + 1;
    }
  }

  /** No line of the text closes a fence longer than all its backtick strings. */
  lemma NoLineCloses(text: string, i: nat, n: nat)
    requires i < |Lines(text)| && MaxRun(text) < n
    ensures !Closes(Lines(text)[i], n)
  {
    var at := LineIsThere(text, i);
    StretchDoesNotClose(text, Lines(text)[i], at, n);
  }

  lemma StretchDoesNotClose(text: string, line: string, at: nat, n: nat)
    requires at + |line| <= |text| && text[at..at + |line|] == line && MaxRun(text) < n
    ensures !Closes(line, n)
  {
    var k := UnindentIsTail(line, 3);
    RunInStretch(text, line, at, k);
  }

  lemma RunInStretch(text: string, line: string, at: nat, k: nat)
    requires at + |line| <= |text| && text[at..at + |line|] == line && k <= |line|
    ensures TickRun(line[k..]) <= MaxRun(text)
  {
    var part := line[k..];
    TickRunIs(part);
    Inside(text, line, at, k, TickRun(part));
    TicksInside(text, part[..TickRun(part)], at + k);
  }

  lemma TicksInside(text: string, ticks: string, at: nat)
    requires at + |ticks| <= |text| && text[at..at + |ticks|] == ticks && AllTicks(ticks)
    ensures |ticks| <= MaxRun(text)
  {
    MaxRunIsLongest(text, at, at + |ticks|);
  }

  lemma {:induction false} BlockLinesEnd(body: seq<string>, close: string, after: seq<string>, n: nat)
    requires forall i :: 0 <= i < |body| ==> !Closes(body[i], n)
    requires Closes(close, n)
    ensures BlockLines(body + ([close] + after), n) == body
    ensures LinesBehind(body + ([close] + after), n) == after
  {
    var lines := body + ([close] + after);
    if body == [] {
      assert lines[0] == close && lines[1..] == after;
    } else {
      BlockLinesEnd(body[1..], close, after, n);
      assert lines[1..] == body[1..] + ([close] + after);
    }
  }

  lemma FenceCloses(n: nat)
    ensures Closes(Ticks(n), n)
  {
    TickRunOf(n, "");
    assert Ticks(n) + "" == Ticks(n);
    assert n > 0 ==> Ticks(n)[0] == TICK;
    assert Unindent(Ticks(n), 3) == Ticks(n);
  }

  lemma OpeningLine(n: nat, language: string)
    ensures var line := Ticks(n) + Language(language);
      TickRun(line) == n && line[n..] == Language(language) && TICK !in Language(language)
  {
    TickRunOf(n, Language(language));
    Dropped(Ticks(n), Language(language));
  }

  lemma OpeningLineIsOne(n: nat, language: string)
    ensures '\n' !in Ticks(n) + Language(language) && '\n' !in Ticks(n)
  {
    NotInEither('\n', Ticks(n), Language(language));
  }

  lemma NotInEither(c: char, a: string, b: string)
    requires c !in a && c !in b
    ensures c !in a + b
  {
  }

  lemma BlockAsLines(text: string, language: string, after: string)
    ensures var fence := Ticks(FenceLength(text));
      Lines(Block(text, language) + ("\n" + after)) == [fence + Language(language)] + (Lines(text) + ([fence] + Lines(after)))
  {
    var fence := Ticks(FenceLength(text));
    var first := fence + Language(language);
    OpeningLineIsOne(|fence|, language);
    OneLine(first);
    OneLine(fence);
    LinesConcat(fence, after);
    LinesConcat(text, fence + ("\n" + after));
    LinesConcat(first, text + ("\n" + (fence + ("\n" + after))));
    Regroup(first, text, fence, "\n" + after);
  }

  lemma Regroup(a: string, b: string, c: string, d: string)
    ensures a + "\n" + b + "\n" + c + d == a + ("\n" + (b + ("\n" + (c + d))))
  {
    Assoc(a + "\n" + b + "\n", c, d);
    Assoc(a + "\n" + b, "\n", c + d);
    Assoc(a + "\n", b, "\n" + (c + d));
    Assoc(a, "\n", b + ("\n" + (c + d)));
  }

  /** A block whose lines end in line feeds, printed and read back, has the lines of its text and its language, and leaves
      the lines that follow. */
  lemma CodeBlockRoundTrip(text: string, language: string, after: string)
    ensures ReadBlock(Lines(Block(text, language) + ("\n" + after))) == Some((Language(language), Lines(text), Lines(after)))
    ensures Join(Lines(text), "\n") == text
  {
    var n := FenceLength(text);
    var first := Ticks(n) + Language(language);
    BlockAsLines(text, language, after);
    OpeningLine(n, language);
    FenceCloses(n);
    forall i | 0 <= i < |Lines(text)| ensures !Closes(Lines(text)[i], n) { NoLineCloses(text, i, n); }
    BlockLinesEnd(Lines(text), Ticks(n), Lines(after), n);
    var rest := Lines(text) + ([Ticks(n)] + Lines(after));
    assert ([first] + rest)[0] == first && ([first] + rest)[1..] == rest;
    JoinLines(text);
  }

  // ----- backslash escapes -----

  /** What escapeDegradeMarkdownInline puts a backslash in front of. */
  predicate Special(c: char) { c in "\\`*_~[]<>" }

  predicate AsciiPunctuation(c: char) { '!' <= c <= '/' || ':' <= c <= '@' || '[' <= c <= '`' || '{' <= c <= '~' }

  function EscapeInline(s: string): string {
    if s == [] then [] else (if Special(s[0]) then ['\\', s[0]] else [s[0]]) + EscapeInline(s[1..])
  }

  /** Backslash escapes undone: a backslash in front of ASCII punctuation is dropped, any other one is kept. */
  function UnescapeInline(s: string): string
    decreases |s|
  {
    if |s| >= 2 && s[0] == '\\' && AsciiPunctuation(s[1]) then [s[1]] + UnescapeInline(s[2..])
    else if s == [] then []
    else [s[0]] + UnescapeInline(s[1..])
  }

  /** Every special character stands behind a backslash that escapes it. */
  predicate Inert(s: string)
    decreases |s|
  {
    s == [] || (|s| >= 2 && s[0] == '\\' && AsciiPunctuation(s[1]) && Inert(s[2..])) || (!Special(s[0]) && Inert(s[1..]))
  }

  /** Escaped text reads back as it was, and none of the characters that are escaped is left bare in it. */
  lemma {:induction false} EscapeRoundTrip(s: string)
    ensures UnescapeInline(EscapeInline(s)) == s && Inert(EscapeInline(s))
  {
    if s != [] {
      EscapeRoundTrip(s[1..]);
      var e := EscapeInline(s);
      if Special(s[0]) {
        assert e[0] == '\\' && e[1] == s[0] && AsciiPunctuation(e[1]) && e[2..] == EscapeInline(s[1..]);
      } else {
        assert e[0] == s[0] && e[1..] == EscapeInline(s[1..]);
      }
      assert s == [s[0]] + s[1..];
    }
  }
}
