/** Where a stream is split, and what is sent beside it. */
module StreamDetails {
  import opened Seqs
  import opened StreamSplitter
  import opened Text

  // ----- natural break points -----

  /** Full stops, exclamation and question marks, ellipses and semicolons, of Latin and of Chinese texts. */
  lemma TerminatorsAre(c: char)
    ensures IsTerminator(c) <==>
      || c == '.' || c == '!' || c == '?' || c == ';' || c == '\U{3002}' || c == '\U{FF01}' || c == '\U{FF1F}' || c == '\U{FF1B}'
      || c == '\U{2026}' || c == '\U{22EF}'
  {
    var all := ".\U{3002}!\U{FF01}?\U{FF1F}\U{2026}\U{22EF};\U{FF1B}";
    assert |all| == 10 && all[0] == '.' && all[1] == '\U{3002}' && all[2] == '!' && all[3] == '\U{FF01}' && all[4] == '?';
    assert all[5] == '\U{FF1F}' && all[6] == '\U{2026}' && all[7] == '\U{22EF}' && all[8] == ';' && all[9] == '\U{FF1B}';
  }

  /** A sentence ends at i, and only white space follows. */
  ghost predicate SentenceEnds(text: string, i: nat) { i < |text| && IsTerminator(text[i]) && Blank(text[i + 1..]) }

  lemma TerminatorIsSolid(c: char)
    requires IsTerminator(c)
    ensures !IsSpace(c)
  {
    TerminatorsAre(c);
  }

  lemma SentenceFound(text: string)
    requires TrimRight(text) != [] && IsTerminator(TrimRight(text)[|TrimRight(text)| - 1])
    ensures SentenceEnds(text, |TrimRight(text)| - 1)
  {
    var after := TrimRightParts(text);
    Dropped(TrimRight(text), after);
  }

  lemma SentenceIsLast(text: string, i: nat)
    requires SentenceEnds(text, i)
    ensures |TrimRight(text)| == i + 1 && TrimRight(text)[i] == text[i]
  {
    TerminatorIsSolid(text[i]);
    ToTheEnd(text, i + 1);
    EndingOf(text, i + 1, |text|);
  }

  /** A text can be cut behind a line break, and behind a sentence. */
  lemma BreaksIff(text: string)
    ensures BreakPoint(text) <==> (text != [] && text[|text| - 1] == '\n') || exists i: nat :: SentenceEnds(text, i)
  {
    if TrimRight(text) != [] && IsTerminator(TrimRight(text)[|TrimRight(text)| - 1]) { SentenceFound(text); }
    if i: nat :| SentenceEnds(text, i) { SentenceIsLast(text, i); }
  }

  // ----- where a delta goes -----

  /** A delta that would go over the limit opens the next stream; one that ends at a break point above three quarters of the
      limit closes its own; any other is appended, and nothing is split. */
  lemma DeltaGoes(limit: int, s: Splitter, delta: string)
    requires limit > 0
    ensures var t := PushDelta(limit, s, delta); var after := s.deltaRunes + |delta|;
      && t.sent == s.sent
      && if after > limit then
           && t.past == s.past + [Stream(s.current.events + [EmptyFinal], true)] && t.splitCount == s.splitCount + 1
           && t.current == Stream([Started, Delta(delta)], false) && t.deltaRunes == |delta|
         else if after > limit - limit / 4 && BreakPoint(s.deltaText + delta) then
           && t.past == s.past + [Stream(s.current.events + [Delta(delta), EmptyFinal], true)] && t.splitCount == s.splitCount + 1
           && t.current == Stream([Started], false) && t.deltaRunes == 0
         else
           && t.past == s.past && t.splitCount == s.splitCount
           && t.current == s.current.(events := s.current.events + [Delta(delta)]) && t.deltaRunes == after
  {
    var events := s.current.events;
    assert events + [Delta(delta)] + [EmptyFinal] == events + [Delta(delta), EmptyFinal];
    assert [] + delta == delta;
  }

  // ----- what is sent directly -----

  /** The questions that are not blank, trimmed. */
  function Questions(inputs: seq<Input>): seq<string> {
    if inputs == [] then []
    else
      var last := inputs[|inputs| - 1];
      Questions(inputs[..|inputs| - 1]) + if last.UserInput? && !Blank(last.question) then [Trim(last.question)] else []
  }

  lemma QuestionIsSent(limit: int, s: Splitter, i: Input)
    ensures PushInput(limit, s, i).sent == s.sent + if i.UserInput? && !Blank(i.question) then [Trim(i.question)] else []
  {
    if i.UserInput? {
      TrimEmpty(i.question);
    } else if i.Text? && limit > 0 {
      DeltaGoes(limit, s, i.delta);
    }
    assert s.sent + [] == s.sent;
  }

  /** Every question that is not blank is sent, once and in order, and nothing else is sent directly. */
  lemma {:induction false} QuestionsAreSent(limit: int, inputs: seq<Input>)
    ensures PushAll(limit, inputs).sent == Questions(inputs)
  {
    if inputs != [] {
      QuestionsAreSent(limit, inputs[..|inputs| - 1]);
      QuestionIsSent(limit, PushAll(limit, inputs[..|inputs| - 1]), inputs[|inputs| - 1]);
    }
  }

  /** A question that is not blank closes a stream with something counted before it goes out. */
  lemma QuestionGoes(s: Splitter, question: string)
    ensures var t := PushUserInput(s, question);
      if Blank(question) then t == s
      else if s.deltaRunes == 0 then t == s.(sent := s.sent + [Trim(question)])
      else
        && t.past == s.past + [Stream(s.current.events + [EmptyFinal], true)] && t.current == Stream([Started], false)
        && t.splitCount == s.splitCount + 1 && t.sent == s.sent + [Trim(question)] && t.deltaRunes == s.deltaRunes
  {
    TrimEmpty(question);
  }
}
