/** The built-in text chunkers: by lines, and by paragraphs.  A chunker packs pieces greedily into chunks that are joined
    by a separator; a piece that does not fit into a chunk by itself is cut up, paragraphs into lines and lines into
    stretches of as many characters as the limit allows. */
module Chunkers {
  import opened Seqs
  import opened Text
  import opened Wrappers

  const NEWLINE: string := "\n"
  const PARAGRAPH: string := "\n\n"

  // ----- strings.Split -----

  function Index(s: string, sep: string): (k: Option<nat>)
    requires sep != []
    ensures k.Some? ==> k.value + |sep| <= |s| && s[k.value..k.value + |sep|] == sep
  {
    if |s| < |sep| then None
    else if s[..|sep|] == sep then Some(0)
    else match Index(s[1..], sep) case Some(k) => Some(k + 1) case None => None
  }

  function Split(s: string, sep: string): (pieces: seq<string>)
    requires sep != []
    ensures pieces != []
  {
    match Index(s, sep)
    case None => [s]
    case Some(k) => [s[..k]] + Split(s[k + |sep|..], sep)
  }

  lemma {:induction false} JoinSplit(s: string, sep: string)
    requires sep != []
    ensures Join(Split(s, sep), sep) == s
  {
    match Index(s, sep)
    case None =>
    case Some(k) =>
      var after := s[k + |sep|..];
      JoinSplit(after, sep);
      JoinFirst(s[..k], Split(after, sep), sep);
      AtSeparator(s, k, sep);
  }

  lemma JoinFirst(first: string, rest: seq<string>, sep: string)
    requires rest != []
    ensures Join([first] + rest, sep) == first + sep + Join(rest, sep)
  {
    assert ([first] + rest)[1..] == rest;
  }

  lemma AtSeparator(s: string, k: nat, sep: string)
    requires k + |sep| <= |s| && s[k..k + |sep|] == sep
    ensures s == s[..k] + sep + s[k + |sep|..]
  {
  }

  // ----- what it means for chunks to carry a text -----

  /** text is the chunks in order, with nothing but white space before, between and after them. */
  ghost predicate Carries(chunks: seq<string>, text: string)
    decreases |chunks|
  {
    if chunks == [] then Blank(text)
    else
      exists i, j :: 0 <= i <= j <= |text| && text[i..j] == chunks[|chunks| - 1] && Blank(text[j..])
                     && Carries(chunks[..|chunks| - 1], text[..i])
  }

  lemma CarriesSnoc(chunks: seq<string>, front: string, last: string, gap: string)
    requires Carries(chunks, front) && Blank(gap)
    ensures Carries(chunks + [last], front + last + gap)
  {
    var text, all := front + last + gap, chunks + [last];
    var i, j := |front|, |front + last|;
    assert all[..|all| - 1] == chunks;
    assert text[..i] == front && text[i..j] == last && text[j..] == gap;
  }

  lemma CarriesLast(chunks: seq<string>, text: string) returns (front: string, gap: string)
    requires Carries(chunks, text) && chunks != []
    ensures text == front + chunks[|chunks| - 1] + gap && Blank(gap) && Carries(chunks[..|chunks| - 1], front)
  {
    var i, j :| 0 <= i <= j <= |text| && text[i..j] == chunks[|chunks| - 1] && Blank(text[j..])
             && Carries(chunks[..|chunks| - 1], text[..i]);
    front, gap := text[..i], text[j..];
  }

  lemma CarriesBlank(chunks: seq<string>, a: string, b: string)
    requires Carries(chunks, a) && Blank(b)
    ensures Carries(chunks, a + b)
  {
    if chunks == [] {
      BlankConcat(a, b);
    } else {
      var init, last := chunks[..|chunks| - 1], chunks[|chunks| - 1];
      var front, gap := CarriesLast(chunks, a);
      BlankConcat(gap, b);
      CarriesSnoc(init, front, last, gap + b);
      InitLast(chunks);
      Assoc(front + last, gap, b);
    }
  }

  lemma {:induction false} CarriesAppend(cs: seq<string>, a: string, ds: seq<string>, b: string)
    requires Carries(cs, a) && Carries(ds, b)
    ensures Carries(cs + ds, a + b)
    decreases |ds|
  {
    if ds == [] {
      assert cs + ds == cs;
      CarriesBlank(cs, a, b);
    } else {
      var init, last := ds[..|ds| - 1], ds[|ds| - 1];
      var front, gap := CarriesLast(ds, b);
      CarriesAppend(cs, a, init, front);
      CarriesSnoc(cs + init, a + front, last, gap);
      Assoc(cs, init, [last]);
      InitLast(ds);
      Regroup(a, front, last, gap);
    }
  }

  lemma Regroup(a: string, b: string, c: string, d: string)
    ensures (a + b) + c + d == a + (b + c + d)
  {
    Assoc(a, b, c);
    Assoc(a, b + c, d);
  }

  lemma CarriesWhole(text: string)
    ensures Carries([text], text)
  {
    assert text[0..|text|] == text && [text][..0] == [];
    assert Carries([text][..0], text[..0]);
  }

  lemma TrimParts(text: string) returns (before: string, after: string)
    ensures text == before + Trim(text) + after && Blank(before) && Blank(after)
  {
    before := TrimLeftParts(text);
    after := TrimRightParts(TrimLeft(text));
  }

  lemma CarriesAmid(chunks: seq<string>, before: string, text: string, after: string)
    requires Carries(chunks, text) && Blank(before) && Blank(after)
    ensures Carries(chunks, before + text + after)
  {
    assert Carries([], before);
    CarriesAppend([], before, chunks, text);
    assert [] + chunks == chunks;
    CarriesBlank(chunks, before + text, after);
  }

  /** What carries the trimmed text carries the text. */
  lemma CarriesTrimmed(chunks: seq<string>, text: string)
    requires Carries(chunks, Trim(text))
    ensures Carries(chunks, text)
  {
    var before, after := TrimParts(text);
    CarriesAmid(chunks, before, Trim(text), after);
  }

  function Concat(chunks: seq<string>): string {
    if chunks == [] then [] else Concat(chunks[..|chunks| - 1]) + chunks[|chunks| - 1]
  }

  /** In particular all text but white space is kept, in order. */
  lemma {:induction false} CarriesKeepsText(chunks: seq<string>, text: string)
    requires Carries(chunks, text)
    ensures Erase(Concat(chunks)) == Erase(text)
    decreases |chunks|
  {
    if chunks == [] {
      EraseBlank(text);
    } else {
      var init, last := chunks[..|chunks| - 1], chunks[|chunks| - 1];
      var front, gap := CarriesLast(chunks, text);
      CarriesKeepsText(init, front);
      EraseConcat(Concat(init), last);
      EraseConcat(front, last);
      EraseConcat(front + last, gap);
      EraseBlank(gap);
    }
  }

  ghost predicate Fit(chunks: seq<string>, limit: int) { forall i :: 0 <= i < |chunks| ==> |chunks[i]| <= limit }

  ghost predicate SolidEnds(chunks: seq<string>) {
    chunks != [] && !Blank(chunks[0]) && !Blank(chunks[|chunks| - 1])
  }

  // ----- trimming chunks -----

  /** Chunks trimmed, blank ones left out. */
  function Trimmed(chunks: seq<string>): seq<string> {
    if chunks == [] then []
    else Trimmed(chunks[..|chunks| - 1]) + Segment(chunks[|chunks| - 1])
  }

  function Segment(piece: string): seq<string> { if Trim(piece) == [] then [] else [Trim(piece)] }

  lemma TrimmedSnoc(chunks: seq<string>, last: string)
    ensures Trimmed(chunks + [last]) == if Trim(last) == [] then Trimmed(chunks) else Trimmed(chunks) + [Trim(last)]
  {
    Dropped(chunks, [last]);
    EmptyEnds(Trimmed(chunks));
  }

  lemma AddSegment(chunks: seq<string>, front: string, piece: string)
    requires Carries(chunks, front)
    ensures Carries(if Trim(piece) == [] then chunks else chunks + [Trim(piece)], front + piece)
  {
    TrimEmpty(piece);
    if Trim(piece) == [] {
      CarriesBlank(chunks, front, piece);
    } else {
      WholeSegment(piece);
      CarriesAppend(chunks, front, [Trim(piece)], piece);
    }
  }

  lemma WholeSegment(piece: string)
    ensures Carries([Trim(piece)], piece)
  {
    CarriesWhole(Trim(piece));
    CarriesTrimmed([Trim(piece)], piece);
  }

  /** Trimming the chunks leaves them carrying the text. */
  lemma {:induction false} TrimmedCarries(chunks: seq<string>, text: string)
    requires Carries(chunks, text)
    ensures Carries(Trimmed(chunks), text)
    decreases |chunks|
  {
    if chunks != [] {
      var init, last := chunks[..|chunks| - 1], chunks[|chunks| - 1];
      var front, gap := CarriesLast(chunks, text);
      TrimmedCarries(init, front);
      AddSegment(Trimmed(init), front, last);
      TrimmedSnoc(init, last);
      InitLast(chunks);
      CarriesBlank(Trimmed(chunks), front + last, gap);
    }
  }

  /** Chunks that fit and are not blank. */
  ghost predicate Segments(chunks: seq<string>, limit: int) {
    forall i :: 0 <= i < |chunks| ==> |chunks[i]| <= limit && !Blank(chunks[i])
  }

  lemma {:induction false} TrimmedFit(chunks: seq<string>, limit: int)
    requires Fit(chunks, limit)
    ensures Segments(Trimmed(chunks), limit)
  {
    if chunks != [] {
      TrimmedFit(chunks[..|chunks| - 1], limit);
      TrimSolid(chunks[|chunks| - 1]);
    }
  }

  // ----- splitLongLine -----

  /** A multiple of limit. */
  predicate Aligned(start: nat, limit: int) { start == 0 || (0 < limit <= start && Aligned(start - limit, limit)) }

  /** The stretches of limit characters of a line up to end. */
  function Stretches(line: string, end: nat, limit: int): seq<string>
    decreases end
  {
    if limit <= 0 || end < limit then []
    else Stretches(line, end - limit, limit) + [line[Least(end - limit, |line|)..Least(end, |line|)]]
  }

  /** The first multiple of limit, counted from start, that is not inside the line. */
  function EndOf(line: string, start: nat, limit: int): (end: nat)
    decreases |line| - start
  {
    if limit <= 0 || start >= |line| then start else EndOf(line, start + limit, limit)
  }

  function AllStretches(line: string, limit: int): seq<string> { Stretches(line, EndOf(line, 0, limit), limit) }

  /** splitLongLine. */
  function LongLine(line: string, limit: int): seq<string> {
    if limit <= 0 then [line] else Trimmed(AllStretches(line, limit))
  }

  method SplitLongLine(line: string, limit: int) returns (chunks: seq<string>)
    ensures chunks == LongLine(line, limit)
  {
    if limit <= 0 { return [line]; }
    chunks := [];
    var start: nat := 0;
    ghost var past: seq<string> := [];
    while start < |line|
      invariant chunks == Trimmed(past) && past == Stretches(line, start, limit)
      invariant EndOf(line, start, limit) == EndOf(line, 0, limit)
    {
      var piece := line[start..Least(start + limit, |line|)];
      chunks := KeepSegment(chunks, piece, past);
      NextStretch(line, start, limit);
      past, start := past + [piece], start + limit;
    }
  }

  lemma NextStretch(line: string, start: nat, limit: int)
    requires limit > 0 && start < |line|
    ensures Stretches(line, start + limit, limit)
         == Stretches(line, start, limit) + [line[start..Least(start + limit, |line|)]]
  {
  }

  /** One stretch of the loop: trimmed, and skipped if blank. */
  method KeepSegment(chunks: seq<string>, piece: string, ghost past: seq<string>) returns (r: seq<string>)
    requires chunks == Trimmed(past)
    ensures r == Trimmed(past + [piece])
  {
    TrimmedSnoc(past, piece);
    var segment := Trim(piece);
    if segment == [] { return chunks; }
    r := chunks + [segment];
  }

  /** Chunks that carry a text, fit, and have solid ends if the text is not blank. */
  ghost predicate CutWell(chunks: seq<string>, text: string, limit: int) {
    Carries(chunks, text) && Fit(chunks, limit) && (Blank(text) || SolidEnds(chunks))
  }

  lemma {:induction false} StretchesCarry(line: string, end: nat, limit: int)
    requires limit > 0 && Aligned(end, limit)
    ensures Carries(Stretches(line, end, limit), line[..Least(end, |line|)]) && Fit(Stretches(line, end, limit), limit)
  {
    if end > 0 {
      var i, j := Least(end - limit, |line|), Least(end, |line|);
      StretchesCarry(line, end - limit, limit);
      TakeMore(line, i, j);
      CarriesMore(Stretches(line, end - limit, limit), line[..i], line[i..j]);
    }
  }

  lemma CarriesMore(chunks: seq<string>, front: string, last: string)
    requires Carries(chunks, front)
    ensures Carries(chunks + [last], front + last)
  {
    CarriesSnoc(chunks, front, last, []);
    EmptyEnds(front + last);
  }

  lemma {:induction false} EndIsAligned(line: string, start: nat, limit: int)
    requires limit > 0 && Aligned(start, limit)
    ensures Aligned(EndOf(line, start, limit), limit) && EndOf(line, start, limit) >= |line|
    decreases |line| - start
  {
    if start < |line| { EndIsAligned(line, start + limit, limit); }
  }

  lemma SegmentsAreCutWell(chunks: seq<string>, text: string, limit: int)
    requires Carries(chunks, text) && Segments(chunks, limit)
    ensures CutWell(chunks, text, limit)
  {
  }

  /** The pieces of a long line carry it, fit, and are not blank. */
  lemma LongLineIsCutWell(line: string, limit: int)
    requires limit > 0
    ensures CutWell(LongLine(line, limit), line, limit) && Segments(LongLine(line, limit), limit)
  {
    var all := AllStretches(line, limit);
    AllStretchesCarry(line, limit);
    TrimmedCarries(all, line);
    TrimmedFit(all, limit);
    SegmentsAreCutWell(Trimmed(all), line, limit);
  }

  lemma AllStretchesCarry(line: string, limit: int)
    requires limit > 0
    ensures Carries(AllStretches(line, limit), line) && Fit(AllStretches(line, limit), limit)
  {
    EndIsAligned(line, 0, limit);
    StretchesCarry(line, EndOf(line, 0, limit), limit);
    assert line[..|line|] == line;
  }

  function Least(a: int, b: int): int { if a < b then a else b }

  // ----- packing pieces into a buffer -----

  /** chunks carry the first pieces of a text, fit, and end in solid chunks where these pieces do. */
  ghost predicate Good(pieces: seq<string>, sep: string, chunks: seq<string>, limit: int) {
    && Carries(chunks, Join(pieces, sep)) && Fit(chunks, limit)
    && (pieces == [] ==> chunks == [])
    && (pieces != [] && !Blank(pieces[0]) ==> chunks != [] && !Blank(chunks[0]))
    && (pieces != [] && !Blank(pieces[|pieces| - 1]) ==> chunks != [] && !Blank(chunks[|chunks| - 1]))
  }

  lemma {:induction false} JoinConcat(a: seq<string>, b: seq<string>, sep: string)
    requires a != [] && b != []
    ensures Join(a + b, sep) == Join(a, sep) + sep + Join(b, sep)
    decreases |b|
  {
    var init, last := b[..|b| - 1], b[|b| - 1];
    InitLast(b);
    Assoc(a, init, [last]);
    JoinSnoc(a + init, sep, last);
    JoinSnoc(init, sep, last);
    if init == [] {
      EmptyEnds(a);
    } else {
      JoinConcat(a, init, sep);
      Assoc(Join(a, sep) + sep, Join(init, sep), sep);
      Assoc(Join(a, sep) + sep, Join(init, sep) + sep, last);
    }
  }

  /** Chunks for some more pieces go behind those that are there. */
  lemma GoodAppend(done: seq<string>, more: seq<string>, sep: string, chunks: seq<string>, news: seq<string>, limit: int)
    requires Good(done, sep, chunks, limit) && Good(more, sep, news, limit) && more != [] && Blank(sep)
    ensures Good(done + more, sep, chunks + news, limit)
  {
    if done == [] {
      assert done + more == more && chunks + news == news;
    } else {
      JoinConcat(done, more, sep);
      CarriesBlank(chunks, Join(done, sep), sep);
      CarriesAppend(chunks, Join(done, sep) + sep, news, Join(more, sep));
      LastBlank(done + more, more);
    }
  }

  lemma LastBlank(all: seq<string>, more: seq<string>)
    requires more != [] && |more| <= |all| && all[|all| - |more|..] == more
    ensures all[|all| - 1] == more[|more| - 1]
  {
  }

  lemma {:induction false} BlankJoin(pieces: seq<string>, sep: string)
    requires pieces != [] && Blank(Join(pieces, sep))
    ensures Blank(pieces[0]) && Blank(pieces[|pieces| - 1])
  {
    if |pieces| > 1 {
      BlankConcat(pieces[0], sep);
      BlankConcat(pieces[0] + sep, Join(pieces[1..], sep));
      BlankJoin(pieces[1..], sep);
    }
  }

  /** A buffer of pieces that fits is good as one chunk. */
  lemma BufferIsGood(buf: seq<string>, sep: string, limit: int)
    requires buf != [] && |Join(buf, sep)| <= limit
    ensures Good(buf, sep, [Join(buf, sep)], limit)
  {
    CarriesWhole(Join(buf, sep));
    if Blank(Join(buf, sep)) { BlankJoin(buf, sep); }
  }

  // ----- the packing loop -----

  /** Pieces packed greedily into chunks joined by sep; a piece that does not fit into a chunk is cut up. */
  function Pack(pieces: seq<string>, sep: string, limit: int, cut: string -> seq<string>, buf: seq<string>): seq<string>
    decreases |pieces|
  {
    if pieces == [] then Flushed(buf, sep)
    else if Grown(buf, sep, pieces[0]) <= limit then Pack(pieces[1..], sep, limit, cut, buf + [pieces[0]])
    else if |pieces[0]| <= limit then Flushed(buf, sep) + Pack(pieces[1..], sep, limit, cut, [pieces[0]])
    else Flushed(buf, sep) + (cut(pieces[0]) + Pack(pieces[1..], sep, limit, cut, []))
  }

  function Flushed(buf: seq<string>, sep: string): seq<string> { if buf == [] then [] else [Join(buf, sep)] }

  /** The length of the buffer with one more piece. */
  function Grown(buf: seq<string>, sep: string, piece: string): int {
    |Join(buf, sep)| + (if buf == [] then 0 else |sep|) + |piece|
  }

  function Packer(sep: string, limit: int, cut: string -> seq<string>): (seq<string>, seq<string>) -> seq<string> {
    (pieces, buf) => Pack(pieces, sep, limit, cut, buf)
  }

  /** One piece of the loop: it goes into the buffer, or the buffer goes to the chunks and the piece starts a
      new one or is cut up behind them. */
  lemma PackStep(pack: (seq<string>, seq<string>) -> seq<string>, sep: string, limit: int, cut: string -> seq<string>,
                 chunks: seq<string>, rest: seq<string>, buf: seq<string>, total: seq<string>)
    requires pack == Packer(sep, limit, cut) && rest != [] && chunks + pack(rest, buf) == total
    ensures |Join(buf + [rest[0]], sep)| == Grown(buf, sep, rest[0])
    ensures var piece := rest[0]; var flushed := if buf == [] then chunks else chunks + [Join(buf, sep)];
      if Grown(buf, sep, piece) <= limit then chunks + pack(rest[1..], buf + [piece]) == total
      else if |piece| <= limit then flushed + pack(rest[1..], [piece]) == total
      else (flushed + cut(piece)) + pack(rest[1..], []) == total
  {
    var piece := rest[0];
    JoinSnoc(buf, sep, piece);
    if Grown(buf, sep, piece) > limit {
      var later := Pack(rest[1..], sep, limit, cut, []);
      EmptyEnds(chunks);
      if |piece| <= limit {
        Assoc(chunks, Flushed(buf, sep), Pack(rest[1..], sep, limit, cut, [piece]));
      } else {
        Assoc(chunks, Flushed(buf, sep), cut(piece) + later);
        Assoc(chunks + Flushed(buf, sep), cut(piece), later);
      }
    }
  }

  lemma FlushedIsGood(done: seq<string>, sep: string, chunks: seq<string>, buf: seq<string>, limit: int)
    requires Good(done, sep, chunks, limit) && Blank(sep) && |Join(buf, sep)| <= limit
    ensures Good(done + buf, sep, chunks + Flushed(buf, sep), limit)
  {
    if buf == [] {
      EmptyEnds(done);
      EmptyEnds(chunks);
    } else {
      BufferIsGood(buf, sep, limit);
      GoodAppend(done, buf, sep, chunks, [Join(buf, sep)], limit);
    }
  }

  lemma CutIsGood(done: seq<string>, sep: string, chunks: seq<string>, piece: string, news: seq<string>, limit: int)
    requires Good(done, sep, chunks, limit) && Blank(sep) && CutWell(news, piece, limit)
    ensures Good(done + [piece], sep, chunks + news, limit)
  {
    assert Join([piece], sep) == piece;
    GoodAppend(done, [piece], sep, chunks, news, limit);
  }

  ghost predicate Cutter(cut: string -> seq<string>, limit: int) { forall p :: CutWell(cut(p), p, limit) }

  /** Whatever is packed behind good chunks is good. */
  lemma {:induction false} PackIsGood(done: seq<string>, sep: string, chunks: seq<string>, buf: seq<string>, pieces: seq<string>,
                                      limit: int, cut: string -> seq<string>)
    requires Good(done, sep, chunks, limit) && Blank(sep) && |Join(buf, sep)| <= limit && Cutter(cut, limit)
    ensures Good(done + buf + pieces, sep, chunks + Pack(pieces, sep, limit, cut, buf), limit)
    decreases |pieces|
  {
    if pieces == [] {
      FlushedIsGood(done, sep, chunks, buf, limit);
      EmptyEnds(done + buf);
    } else {
      var piece, rest := pieces[0], pieces[1..];
      Behind(done, buf, pieces);
      if Grown(buf, sep, piece) <= limit {
        JoinSnoc(buf, sep, piece);
        PackIsGood(done, sep, chunks, buf + [piece], rest, limit, cut);
      } else {
        FlushedIsGood(done, sep, chunks, buf, limit);
        var now := chunks + Flushed(buf, sep);
        if |piece| <= limit {
          PackIsGood(done + buf, sep, now, [piece], rest, limit, cut);
          Assoc(chunks, Flushed(buf, sep), Pack(rest, sep, limit, cut, [piece]));
        } else {
          CutIsGood(done + buf, sep, now, piece, cut(piece), limit);
          PackIsGood(done + buf + [piece], sep, now + cut(piece), [], rest, limit, cut);
          EmptyEnds(done + buf + [piece]);
          Assoc(now, cut(piece), Pack(rest, sep, limit, cut, []));
          Assoc(chunks, Flushed(buf, sep), cut(piece) + Pack(rest, sep, limit, cut, []));
        }
      }
    }
  }

  /** The first piece may stand with the buffer, or behind it. */
  lemma Behind(done: seq<string>, buf: seq<string>, pieces: seq<string>)
    requires pieces != []
    ensures done + (buf + [pieces[0]]) + pieces[1..] == done + buf + pieces
    ensures (done + buf) + [pieces[0]] + pieces[1..] == done + buf + pieces
  {
    assert pieces == [pieces[0]] + pieces[1..];
    Assoc(done + buf, [pieces[0]], pieces[1..]);
    Assoc(done, buf, [pieces[0]]);
  }

  lemma FirstSolid(first: string, sep: string, rest: string)
    requires sep != [] && Blank(sep)
    ensures Blank(first) ==> IsSpace((first + sep + rest)[0])
  {
    assert (first + sep + rest)[0] == if first == [] then sep[0] else first[0];
  }

  lemma LastSolid(front: string, sep: string, last: string)
    requires sep != [] && Blank(sep)
    ensures var s := front + sep + last; Blank(last) ==> IsSpace(s[|s| - 1])
  {
    var s := front + sep + last;
    assert s[|s| - 1] == if last == [] then sep[|sep| - 1] else last[|last| - 1];
  }

  /** A trimmed text falls into pieces of which the first and the last are not blank. */
  lemma SplitEnds(pieces: seq<string>, sep: string)
    requires pieces != [] && sep != [] && Blank(sep)
    requires var s := Join(pieces, sep); s != [] && !IsSpace(s[0]) && !IsSpace(s[|s| - 1])
    ensures !Blank(pieces[0]) && !Blank(pieces[|pieces| - 1])
  {
    if |pieces| > 1 {
      FirstSolid(pieces[0], sep, Join(pieces[1..], sep));
      var init, last := pieces[..|pieces| - 1], pieces[|pieces| - 1];
      assert pieces == init + [last];
      JoinSnoc(init, sep, last);
      LastSolid(Join(init, sep), sep, last);
    }
  }

  // ----- the chunkers -----

  /** What the chunkers promise: the chunks carry the text, none is longer than a positive limit, the first
      and the last are not blank, and a text that fits, or has no limit, is one trimmed chunk. */
  ghost predicate ChunksOf(chunks: seq<string>, text: string, limit: int) {
    && Carries(chunks, text)
    && (limit > 0 ==> Fit(chunks, limit))
    && (if Blank(text) then chunks == [] else SolidEnds(chunks))
    && (!Blank(text) && (limit <= 0 || |Trim(text)| <= limit) ==> chunks == [Trim(text)])
  }

  lemma OneChunk(text: string, limit: int)
    requires Trim(text) != [] && (limit <= 0 || |Trim(text)| <= limit)
    ensures ChunksOf([Trim(text)], text, limit)
  {
    TrimEmpty(text);
    TrimIdempotent(text);
    TrimEmpty(Trim(text));
    CarriesWhole(Trim(text));
    CarriesTrimmed([Trim(text)], text);
  }

  lemma ManyChunks(text: string, limit: int, sep: string, pieces: seq<string>, chunks: seq<string>)
    requires limit > 0 && |Trim(text)| > limit && Join(pieces, sep) == Trim(text)
    requires pieces != [] && !Blank(pieces[0]) && !Blank(pieces[|pieces| - 1]) && Good(pieces, sep, chunks, limit)
    ensures ChunksOf(chunks, text, limit)
  {
    TrimEmpty(text);
    GoodEnds(pieces, sep, chunks, limit);
    CarriesTrimmed(chunks, text);
  }

  lemma SplitSolid(s: string, sep: string)
    requires s != [] && !IsSpace(s[0]) && !IsSpace(s[|s| - 1]) && sep != [] && Blank(sep)
    ensures Join(Split(s, sep), sep) == s
    ensures !Blank(Split(s, sep)[0]) && !Blank(Split(s, sep)[|Split(s, sep)| - 1])
  {
    JoinSplit(s, sep);
    SplitEnds(Split(s, sep), sep);
  }

  lemma GoodEnds(pieces: seq<string>, sep: string, chunks: seq<string>, limit: int)
    requires Good(pieces, sep, chunks, limit) && pieces != [] && !Blank(pieces[0]) && !Blank(pieces[|pieces| - 1])
    ensures SolidEnds(chunks) && Fit(chunks, limit) && Carries(chunks, Join(pieces, sep))
  {
  }

  lemma NoChunk(text: string, limit: int)
    requires Trim(text) == []
    ensures ChunksOf([], text, limit)
  {
    TrimEmpty(text);
  }

  /** What both chunkers do with a text: one chunk if it fits, otherwise its pieces packed. */
  function Chunked(text: string, limit: int, sep: string, cut: string -> seq<string>): seq<string>
    requires sep != []
  {
    if Trim(text) == [] then []
    else if limit <= 0 || |Trim(text)| <= limit then [Trim(text)]
    else Pack(Split(Trim(text), sep), sep, limit, cut, [])
  }

  function LineCutter(limit: int): string -> seq<string> { line => LongLine(line, limit) }

  function TextChunks(text: string, limit: int): seq<string> { Chunked(text, limit, NEWLINE, LineCutter(limit)) }

  function ParagraphCutter(limit: int): string -> seq<string> { para => TextChunks(para, limit) }

  function MarkdownChunks(text: string, limit: int): seq<string> { Chunked(text, limit, PARAGRAPH, ParagraphCutter(limit)) }

  method CutLine(line: string, limit: int, ghost cut: string -> seq<string>) returns (pieces: seq<string>)
    requires cut == LineCutter(limit)
    ensures pieces == cut(line)
  {
    pieces := SplitLongLine(line, limit);
  }

  method CutParagraph(para: string, limit: int, ghost cut: string -> seq<string>) returns (pieces: seq<string>)
    requires cut == ParagraphCutter(limit)
    ensures pieces == cut(para)
  {
    pieces := ChunkText(para, limit);
  }

  /** The loop of ChunkText: lines are packed into chunks joined by a newline. */
  method PackLines(lines: seq<string>, sep: string, limit: int, ghost cut: string -> seq<string>,
                   ghost pack: (seq<string>, seq<string>) -> seq<string>) returns (chunks: seq<string>)
    requires |sep| == 1 && cut == LineCutter(limit) && pack == Packer(sep, limit, cut)
    ensures chunks == pack(lines, [])
  {
    chunks := [];
    var buf: seq<string>, bufLen := [], 0;
    ghost var rest := lines;
    for i := 0 to |lines|
      invariant bufLen == |Join(buf, sep)| && rest == lines[i..]
      invariant chunks + pack(rest, buf) == pack(lines, [])
    {
      var line := lines[i];
      var sepLen := if |buf| > 0 then 1 else 0;
      PackStep(pack, sep, limit, cut, chunks, rest, buf, pack(lines, []));
      rest := rest[1..];
      if bufLen + sepLen + |line| <= limit {
        buf, bufLen := buf + [line], bufLen + sepLen + |line|;
        continue;
      }
      if |buf| > 0 {
        chunks := chunks + [Join(buf, sep)];
        buf, bufLen := [], 0;
      }
      if |line| <= limit {
        buf, bufLen := [line], |line|;
        continue;
      }
      var pieces := CutLine(line, limit, cut);
      chunks := chunks + pieces;
    }
    EmptyEnds(chunks);
    if |buf| > 0 { chunks := chunks + [Join(buf, sep)]; }
  }

  method ChunkText(text: string, limit: int) returns (chunks: seq<string>)
    ensures chunks == TextChunks(text, limit)
  {
    var trimmed := Trim(text);
    if trimmed == [] { return []; }
    if limit <= 0 || |trimmed| <= limit { return [trimmed]; }
    chunks := PackLines(Split(trimmed, NEWLINE), NEWLINE, limit, LineCutter(limit), Packer(NEWLINE, limit, LineCutter(limit)));
  }

  /** The loop of ChunkMarkdownText: paragraphs are packed into chunks joined by a blank line. */
  method PackParagraphs(paragraphs: seq<string>, sep: string, limit: int, ghost cut: string -> seq<string>,
                   ghost pack: (seq<string>, seq<string>) -> seq<string>) returns (chunks: seq<string>)
    requires |sep| == 2 && cut == ParagraphCutter(limit) && pack == Packer(sep, limit, cut)
    ensures chunks == pack(paragraphs, [])
  {
    chunks := [];
    var buf: seq<string>, bufLen := [], 0;
    ghost var rest := paragraphs;
    for i := 0 to |paragraphs|
      invariant bufLen == |Join(buf, sep)| && rest == paragraphs[i..]
      invariant chunks + pack(rest, buf) == pack(paragraphs, [])
    {
      var para := paragraphs[i];
      var sepLen := if |buf| > 0 then 2 else 0;
      PackStep(pack, sep, limit, cut, chunks, rest, buf, pack(paragraphs, []));
      rest := rest[1..];
      if bufLen + sepLen + |para| <= limit {
        buf, bufLen := buf + [para], bufLen + sepLen + |para|;
        continue;
      }
      if |buf| > 0 {
        chunks := chunks + [Join(buf, sep)];
        buf, bufLen := [], 0;
      }
      if |para| <= limit {
        buf, bufLen := [para], |para|;
        continue;
      }
      var pieces := CutParagraph(para, limit, cut);
      chunks := chunks + pieces;
    }
    EmptyEnds(chunks);
    if |buf| > 0 { chunks := chunks + [Join(buf, sep)]; }
  }

  method ChunkMarkdownText(text: string, limit: int) returns (chunks: seq<string>)
    ensures chunks == MarkdownChunks(text, limit)
  {
    var trimmed := Trim(text);
    if trimmed == [] { return []; }
    if limit <= 0 || |trimmed| <= limit { return [trimmed]; }
    chunks := PackParagraphs(Split(trimmed, PARAGRAPH), PARAGRAPH, limit, ParagraphCutter(limit), Packer(PARAGRAPH, limit, ParagraphCutter(limit)));
  }

  // ----- what the chunkers promise -----

  lemma ChunkedKeepsItsPromise(text: string, limit: int, sep: string, cut: string -> seq<string>)
    requires sep != [] && Blank(sep) && (limit > 0 ==> Cutter(cut, limit))
    ensures ChunksOf(Chunked(text, limit, sep, cut), text, limit)
  {
    if Trim(text) == [] {
      NoChunk(text, limit);
    } else if limit <= 0 || |Trim(text)| <= limit {
      OneChunk(text, limit);
    } else {
      var pieces := Split(Trim(text), sep);
      SplitSolid(Trim(text), sep);
      LongKeepsItsPromise(text, limit, sep, cut, pieces);
    }
  }

  lemma LongKeepsItsPromise(text: string, limit: int, sep: string, cut: string -> seq<string>, pieces: seq<string>)
    requires Blank(sep) && 0 < limit < |Trim(text)| && Cutter(cut, limit)
    requires Join(pieces, sep) == Trim(text) && pieces != [] && !Blank(pieces[0]) && !Blank(pieces[|pieces| - 1])
    ensures ChunksOf(Pack(pieces, sep, limit, cut, []), text, limit)
  {
    PackedIsGood(pieces, sep, limit, cut);
    ManyChunks(text, limit, sep, pieces, Pack(pieces, sep, limit, cut, []));
  }

  lemma PackedIsGood(pieces: seq<string>, sep: string, limit: int, cut: string -> seq<string>)
    requires limit > 0 && Blank(sep) && Cutter(cut, limit)
    ensures Good(pieces, sep, Pack(pieces, sep, limit, cut, []), limit)
  {
    PackIsGood([], sep, [], [], pieces, limit, cut);
    EmptyEnds(pieces);
    EmptyEnds(Pack(pieces, sep, limit, cut, []));
  }

  lemma TextChunksKeepTheirPromise(text: string, limit: int)
    ensures ChunksOf(TextChunks(text, limit), text, limit)
  {
    if limit > 0 {
      forall line ensures CutWell(LineCutter(limit)(line), line, limit) { LongLineIsCutWell(line, limit); }
    }
    ChunkedKeepsItsPromise(text, limit, NEWLINE, LineCutter(limit));
  }

  lemma MarkdownChunksKeepTheirPromise(text: string, limit: int)
    ensures ChunksOf(MarkdownChunks(text, limit), text, limit)
  {
    if limit > 0 {
      forall para ensures CutWell(ParagraphCutter(limit)(para), para, limit) { TextChunksKeepTheirPromise(para, limit); }
    }
    ChunkedKeepsItsPromise(text, limit, PARAGRAPH, ParagraphCutter(limit));
  }
}
