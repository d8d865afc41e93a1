/** Where the chunkers cut. */
module ChunkBoundaries {
  import opened Chunkers
  import opened Seqs
  import opened Text

  // A long text falls into its lines, or into its paragraphs, and these into groups: as many as fit go into one chunk, and
  // only a piece that is too long by itself is cut.

  // ----- the pieces of a text -----

  predicate At(s: string, sep: string, k: int) { 0 <= k <= |s| - |sep| && s[k..k + |sep|] == sep }

  /** The first place where the separator stands, if there is one. */
  lemma {:induction false} IndexIsFirst(s: string, sep: string)
    requires sep != []
    ensures match Index(s, sep)
            case None => forall k :: !At(s, sep, k)
            case Some(i) => At(s, sep, i) && forall k :: 0 <= k < i ==> !At(s, sep, k)
  {
    if |s| >= |sep| && s[..|sep|] != sep {
      IndexIsFirst(s[1..], sep);
      forall k ensures At(s, sep, k) <==> At(s[1..], sep, k - 1) { Later(s, sep, k); }
    }
  }

  lemma Later(s: string, sep: string, k: int)
    requires s != [] && |s| >= |sep| && s[..|sep|] != sep
    ensures At(s, sep, k) <==> At(s[1..], sep, k - 1)
  {
    if 0 < k <= |s| - |sep| { Slice(s, 1, |s|, k - 1, k - 1 + |sep|); }
  }

  /** No piece of a text has the separator in it; the pieces joined are the text. */
  lemma {:induction false} SplitIsComplete(s: string, sep: string)
    requires sep != []
    ensures Join(Split(s, sep), sep) == s
    ensures forall i, k :: 0 <= i < |Split(s, sep)| ==> !At(Split(s, sep)[i], sep, k)
  {
    JoinSplit(s, sep);
    IndexIsFirst(s, sep);
    match Index(s, sep)
    case None =>
    case Some(at) =>
      var rest := Split(s[at + |sep|..], sep);
      SplitIsComplete(s[at + |sep|..], sep);
      forall k ensures !At(s[..at], sep, k) { NotBefore(s, sep, at, k); }
      forall i, k | 0 <= i < 1 + |rest| ensures !At(([s[..at]] + rest)[i], sep, k) {
        assert i > 0 ==> ([s[..at]] + rest)[i] == rest[i - 1];
      }
  }

  lemma NotBefore(s: string, sep: string, at: nat, k: int)
    requires sep != [] && at <= |s| && forall j :: 0 <= j < at ==> !At(s, sep, j)
    ensures !At(s[..at], sep, k)
  {
    if 0 <= k <= at - |sep| {
      assert !At(s, sep, k);
      FrontSlice(s, at, k, k + |sep|);
    }
  }

  // ----- groups of pieces -----

  function Flat(groups: seq<seq<string>>): seq<string> { if groups == [] then [] else groups[0] + Flat(groups[1..]) }

  /** The chunks that the groups stand for: one each, or the cut pieces of a single one that is too long. */
  function ChunksOfGroups(groups: seq<seq<string>>, sep: string, limit: int, cut: string -> seq<string>): seq<string>
    requires forall i :: 0 <= i < |groups| ==> groups[i] != []
  {
    if groups == [] then []
    else (if |Join(groups[0], sep)| <= limit then [Join(groups[0], sep)] else cut(groups[0][0])) + ChunksOfGroups(groups[1..], sep, limit, cut)
  }

  /** No group is empty; one that does not fit is a single piece; and the first piece of the next would not have fitted in. */
  ghost predicate Greedy(groups: seq<seq<string>>, sep: string, limit: int) {
    && (forall i :: 0 <= i < |groups| ==> groups[i] != [])
    && (forall i :: 0 <= i < |groups| ==> |Join(groups[i], sep)| <= limit || |groups[i]| == 1)
    && (forall i :: 0 <= i < |groups| - 1 ==> |Join(groups[i], sep)| + |sep| + |groups[i + 1][0]| > limit)
  }

  lemma GreedyCons(group: seq<string>, groups: seq<seq<string>>, sep: string, limit: int, cut: string -> seq<string>)
    requires Greedy(groups, sep, limit) && group != [] && (|Join(group, sep)| <= limit || |group| == 1)
    requires groups != [] ==> |Join(group, sep)| + |sep| + |groups[0][0]| > limit
    ensures Greedy([group] + groups, sep, limit) && Flat([group] + groups) == group + Flat(groups)
    ensures ChunksOfGroups([group] + groups, sep, limit, cut)
         == (if |Join(group, sep)| <= limit then [Join(group, sep)] else cut(group[0])) + ChunksOfGroups(groups, sep, limit, cut)
  {
    var all := [group] + groups;
    assert all[0] == group && all[1..] == groups;
    forall i | 0 <= i < |all| - 1 ensures |Join(all[i], sep)| + |sep| + |all[i + 1][0]| > limit {
      assert i > 0 ==> all[i] == groups[i - 1] && all[i + 1] == groups[i];
    }
  }

  /** What is packed behind a buffer that fits is greedy, with the buffer at the front of the first group. */
  lemma {:induction false} PackIsGreedy(pieces: seq<string>, sep: string, limit: int, cut: string -> seq<string>, buf: seq<string>)
      returns (groups: seq<seq<string>>)
    requires |Join(buf, sep)| <= limit
    ensures Greedy(groups, sep, limit) && Flat(groups) == buf + pieces
    ensures ChunksOfGroups(groups, sep, limit, cut) == Pack(pieces, sep, limit, cut, buf)
    ensures groups == [] <==> buf + pieces == []
    ensures buf != [] ==> groups[0][0] == buf[0]
    ensures buf == [] && pieces != [] ==> groups[0][0] == pieces[0]
    decreases |pieces|
  {
    if pieces == [] {
      groups := Closed(buf, [], sep, limit, cut);
      EmptyEnds(buf);
      EmptyEnds(Flushed(buf, sep));
    } else {
      var piece, rest := pieces[0], pieces[1..];
      assert pieces == [piece] + rest;
      Assoc(buf, [piece], rest);
      JoinSnoc(buf, sep, piece);
      if Grown(buf, sep, piece) <= limit {
        groups := PackIsGreedy(rest, sep, limit, cut, buf + [piece]);
      } else if |piece| <= limit {
        var later := PackIsGreedy(rest, sep, limit, cut, [piece]);
        groups := Closed(buf, later, sep, limit, cut);
      } else {
        var later := PackIsGreedy(rest, sep, limit, cut, []);
        EmptyEnds(rest);
        GreedyCons([piece], later, sep, limit, cut);
        groups := Closed(buf, [[piece]] + later, sep, limit, cut);
      }
    }
  }

  /** The buffer as a group of its own, in front of others. */
  lemma Closed(buf: seq<string>, later: seq<seq<string>>, sep: string, limit: int, cut: string -> seq<string>) returns (groups: seq<seq<string>>)
    requires Greedy(later, sep, limit) && |Join(buf, sep)| <= limit
    requires later != [] && buf != [] ==> |Join(buf, sep)| + |sep| + |later[0][0]| > limit
    ensures groups == (if buf == [] then later else [buf] + later)
    ensures Greedy(groups, sep, limit) && Flat(groups) == buf + Flat(later)
    ensures ChunksOfGroups(groups, sep, limit, cut) == Flushed(buf, sep) + ChunksOfGroups(later, sep, limit, cut)
  {
    if buf == [] {
      groups := later;
      EmptyEnds(Flat(later));
      EmptyEnds(ChunksOfGroups(later, sep, limit, cut));
    } else {
      groups := [buf] + later;
      GreedyCons(buf, later, sep, limit, cut);
    }
  }

  /** A text that is too long is cut between lines, as late as possible; a line by itself only if it is too long. */
  lemma TextIsCutAtLines(text: string, limit: int) returns (groups: seq<seq<string>>)
    requires 0 < limit < |Trim(text)|
    ensures Greedy(groups, NEWLINE, limit) && Flat(groups) == Split(Trim(text), NEWLINE)
    ensures TextChunks(text, limit) == ChunksOfGroups(groups, NEWLINE, limit, line => LongLine(line, limit))
  {
    groups := PackIsGreedy(Split(Trim(text), NEWLINE), NEWLINE, limit, LineCutter(limit), []);
    EmptyEnds(Split(Trim(text), NEWLINE));
    SameCut(groups, NEWLINE, limit, LineCutter(limit), line => LongLine(line, limit));
  }

  /** Markdown is cut between paragraphs, and a paragraph that is too long between its lines. */
  lemma MarkdownIsCutAtParagraphs(text: string, limit: int) returns (groups: seq<seq<string>>)
    requires 0 < limit < |Trim(text)|
    ensures Greedy(groups, PARAGRAPH, limit) && Flat(groups) == Split(Trim(text), PARAGRAPH)
    ensures MarkdownChunks(text, limit) == ChunksOfGroups(groups, PARAGRAPH, limit, para => TextChunks(para, limit))
  {
    groups := PackIsGreedy(Split(Trim(text), PARAGRAPH), PARAGRAPH, limit, ParagraphCutter(limit), []);
    EmptyEnds(Split(Trim(text), PARAGRAPH));
    SameCut(groups, PARAGRAPH, limit, ParagraphCutter(limit), para => TextChunks(para, limit));
  }

  lemma {:induction false} SameCut(groups: seq<seq<string>>, sep: string, limit: int, a: string -> seq<string>, b: string -> seq<string>)
    requires (forall i :: 0 <= i < |groups| ==> groups[i] != []) && forall s :: a(s) == b(s)
    ensures ChunksOfGroups(groups, sep, limit, a) == ChunksOfGroups(groups, sep, limit, b)
  {
    if groups != [] { SameCut(groups[1..], sep, limit, a, b); }
  }

  // ----- a line that is too long -----

  /** Stretch number k of a line. */
  function Stretch(line: string, limit: int, k: nat): string
    requires 0 < limit && k * limit < |line|
  {
    if |line| - k * limit <= limit then line[k * limit..] else line[k * limit..k * limit + limit]
  }

  function StretchesTo(line: string, limit: int, n: nat): seq<string>
    requires 0 < limit && (n > 0 ==> (n - 1) * limit < |line|)
  {
    if n == 0 then [] else StretchesTo(line, limit, n - 1) + [Stretch(line, limit, n - 1)]
  }

  lemma {:induction false} StretchesAre(line: string, limit: int, n: nat)
    requires 0 < limit && (n > 0 ==> (n - 1) * limit < |line|)
    ensures Stretches(line, n * limit, limit) == StretchesTo(line, limit, n)
  {
    if n > 0 {
      StretchesAre(line, limit, n - 1);
      var start := (n - 1) * limit;
      assert n * limit == start + limit && start >= 0;
      LastStretch(line, limit, start);
    }
  }

  lemma LastStretch(line: string, limit: int, start: nat)
    requires 0 < limit && start < |line|
    ensures line[Least(start, |line|)..Least(start + limit, |line|)]
         == if |line| - start <= limit then line[start..] else line[start..start + limit]
  {
  }

  lemma {:induction false} EndIs(line: string, limit: int, k: nat) returns (n: nat)
    requires 0 < limit && (k > 0 ==> (k - 1) * limit < |line|)
    ensures EndOf(line, k * limit, limit) == n * limit && n * limit >= |line| && (n > 0 ==> (n - 1) * limit < |line|)
    decreases |line| - k * limit
  {
    if k * limit >= |line| {
      n := k;
    } else {
      assert (k + 1) * limit == k * limit + limit;
      n := EndIs(line, limit, k + 1);
    }
  }

  /** A line that is too long is cut into stretches of the full limit, the last one shorter; each is trimmed, and blank ones are
      left out. */
  lemma LongLineIs(line: string, limit: int) returns (n: nat)
    requires 0 < limit
    ensures n * limit >= |line| && (n > 0 ==> (n - 1) * limit < |line|)
    ensures LongLine(line, limit) == Trimmed(StretchesTo(line, limit, n))
  {
    n := EndIs(line, limit, 0);
    StretchesAre(line, limit, n);
  }

  /** Without a limit a line is not cut. */
  lemma LineWithoutLimit(line: string, limit: int)
    requires limit <= 0
    ensures LongLine(line, limit) == [line]
  {
  }
}
