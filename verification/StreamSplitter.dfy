/** A stream of text, cut into messages while it is being written, with nothing lost. */
module StreamSplitter {
  import opened Text

  // managerOutboundStream: text deltas are forwarded to an adapter stream that is finalized and replaced by a continuation
  // stream whenever its text gets close to the platform's limit.

  /** What an adapter stream receives.  Uncounted stands for every event that is passed on as it is:
      reasoning deltas, tool calls, attachments, status changes of the producer. */
  datatype Event = Started | Delta(text: string) | Uncounted(tag: int) | EmptyFinal

  datatype Stream = Stream(events: seq<Event>, closed: bool)

  /** The producer's pushes: a text delta to be counted, an event passed on, or a question to the user
      on a channel that can only show it as plain text. */
  datatype Input = Text(delta: string) | Pass(tag: int) | UserInput(question: string)

  /** past are the streams finalized by a split, current the open one; sent are the messages sent directly. */
  datatype Splitter = Splitter(past: seq<Stream>, current: Stream, deltaRunes: nat, deltaText: string,
                               splitCount: nat, sent: seq<string>)

  const OPENED := Splitter([], Stream([], false), 0, [], 0, [])

  const SOFT_RATIO := 4

  predicate IsTerminator(c: char) {
    c in ".\U{3002}!\U{FF01}?\U{FF1F}\U{2026}\U{22EF};\U{FF1B}"
  }

  /** isNaturalBreakPoint: a line break, or sentence-ending punctuation before trailing white space. */
  predicate BreakPoint(text: string) {
    || (text != [] && text[|text| - 1] == '\n')
    || (TrimRight(text) != [] && IsTerminator(TrimRight(text)[|TrimRight(text)| - 1]))
  }

  // ----- the pushes -----

  function Push(s: Splitter, e: Event): Splitter {
    s.(current := s.current.(events := s.current.events + [e]))
  }

  function Split(s: Splitter): Splitter {
    var finalized := Push(s, EmptyFinal).current.(closed := true);
    s.(past := s.past + [finalized], current := Stream([Started], false), splitCount := s.splitCount + 1)
  }

  function Count(s: Splitter, delta: string): Splitter {
    Push(s, Delta(delta)).(deltaRunes := s.deltaRunes + |delta|, deltaText := s.deltaText + delta)
  }

  function Reset(s: Splitter): Splitter {
    s.(deltaRunes := 0, deltaText := [])
  }

  /** pushDelta; without a limit the stream is never split here, and only the counter is kept. */
  function PushDelta(limit: int, s: Splitter, delta: string): Splitter {
    if limit <= 0 then Push(s, Delta(delta)).(deltaRunes := s.deltaRunes + |delta|)
    else PushLimited(limit, s, delta)
  }

  function PushLimited(limit: int, s: Splitter, delta: string): Splitter
    requires limit > 0
  {
    var after := s.deltaRunes + |delta|;
    var soft := limit - limit / SOFT_RATIO;
    if after <= soft then Count(s, delta)
    else if after <= limit then
      var s1 := Count(s, delta);
      if BreakPoint(s1.deltaText) then Split(Reset(s1)) else s1
    else Count(Reset(Split(s)), delta)
  }

  /** pushPlainTextUserInput; the question is rendered and trimmed, and a blank one is dropped.
      A split here does not reset the counter. */
  function PushUserInput(s: Splitter, question: string): Splitter {
    if Trim(question) == "" then s
    else
      var s1 := if s.deltaRunes > 0 then Split(s) else s;
      s1.(sent := s1.sent + [Trim(question)])
  }

  function PushInput(limit: int, s: Splitter, i: Input): Splitter {
    match i
    case Text(delta) => if delta == "" then Push(s, Delta(delta)) else PushDelta(limit, s, delta)
    case Pass(tag) => Push(s, Uncounted(tag))
    case UserInput(question) => PushUserInput(s, question)
  }

  function PushAll(limit: int, inputs: seq<Input>): Splitter {
    if inputs == [] then OPENED
    else PushInput(limit, PushAll(limit, inputs[..|inputs| - 1]), inputs[|inputs| - 1])
  }

  // ----- what the adapter streams have received -----

  function TextOf(events: seq<Event>): string {
    if events == [] then []
    else TextOf(events[..|events| - 1]) + if events[|events| - 1].Delta? then events[|events| - 1].text else []
  }

  function Received(streams: seq<Stream>): string {
    if streams == [] then [] else Received(streams[..|streams| - 1]) + TextOf(streams[|streams| - 1].events)
  }

  function AllReceived(s: Splitter): string {
    Received(s.past) + TextOf(s.current.events)
  }

  function Produced(inputs: seq<Input>): string {
    if inputs == [] then []
    else Produced(inputs[..|inputs| - 1]) + if inputs[|inputs| - 1].Text? then inputs[|inputs| - 1].delta else []
  }

  function LongestDelta(inputs: seq<Input>): nat {
    if inputs == [] then 0
    else
      var rest, last := LongestDelta(inputs[..|inputs| - 1]), inputs[|inputs| - 1];
      if last.Text? && |last.delta| > rest then |last.delta| else rest
  }

  predicate Finalized(stream: Stream) {
    && stream.closed && stream.events != [] && stream.events[|stream.events| - 1] == EmptyFinal
    && forall i :: 0 <= i < |stream.events| - 1 ==> stream.events[i] != EmptyFinal
  }

  predicate Reopened(stream: Stream) {
    stream.events != [] && stream.events[0] == Started
  }

  ghost predicate Shape(s: Splitter) {
    && s.splitCount == |s.past|
    && (forall i :: 0 <= i < |s.past| ==> Finalized(s.past[i]))
    && !s.current.closed && EmptyFinal !in s.current.events
    && (forall i :: 0 < i < |s.past| ==> Reopened(s.past[i]))
    && (s.past != [] ==> Reopened(s.current))
  }

  /** The counter is an upper bound on the text of the current stream, and every stream is short. */
  ghost predicate Bounded(s: Splitter, bound: nat) {
    && |s.deltaText| == s.deltaRunes <= bound
    && |TextOf(s.current.events)| <= s.deltaRunes
    && forall i :: 0 <= i < |s.past| ==> |TextOf(s.past[i].events)| <= bound
  }

  lemma TextOfSnoc(events: seq<Event>, e: Event)
    ensures TextOf(events + [e]) == TextOf(events) + if e.Delta? then e.text else []
  {
    assert (events + [e])[..|events|] == events;
  }

  lemma PushKeeps(s: Splitter, e: Event)
    requires Shape(s) && e != EmptyFinal
    ensures Shape(Push(s, e)) && AllReceived(Push(s, e)) == AllReceived(s) + if e.Delta? then e.text else []
    ensures TextOf(Push(s, e).current.events) == TextOf(s.current.events) + if e.Delta? then e.text else []
  {
    TextOfSnoc(s.current.events, e);
  }

  lemma SplitShape(s: Splitter)
    requires Shape(s)
    ensures Shape(Split(s)) && AllReceived(Split(s)) == AllReceived(s)
    ensures TextOf(Split(s).current.events) == []
    ensures TextOf(Split(s).past[|s.past|].events) == TextOf(s.current.events)
  {
    TextOfSnoc(s.current.events, EmptyFinal);
    TextOfSnoc([], Started);
    assert Split(s).past[..|s.past|] == s.past;
  }

  lemma SplitKeeps(s: Splitter, bound: nat)
    requires Shape(s) && Bounded(s, bound)
    ensures Shape(Split(s)) && Bounded(Split(s), bound) && AllReceived(Split(s)) == AllReceived(s)
    ensures TextOf(Split(s).current.events) == []
  {
    SplitShape(s);
  }

  lemma CountKeeps(s: Splitter, delta: string, bound: nat)
    requires Shape(s) && Bounded(s, bound) && s.deltaRunes + |delta| <= bound
    ensures var s' := Count(s, delta);
      Shape(s') && Bounded(s', bound) && AllReceived(s') == AllReceived(s) + delta
  {
    PushKeeps(s, Delta(delta));
  }

  /** On a stream without text the counter may start again. */
  lemma SplitResetKeeps(s: Splitter, bound: nat)
    requires Shape(s) && Bounded(s, bound)
    ensures var s' := Reset(Split(s));
      && s' == Split(Reset(s)) && s'.deltaRunes == 0
      && Shape(s') && Bounded(s', bound) && AllReceived(s') == AllReceived(s)
  {
    SplitKeeps(s, bound);
  }

  lemma PushDeltaKeeps(limit: int, s: Splitter, delta: string, bound: nat)
    requires limit > 0 && limit <= bound && |delta| <= bound && Shape(s) && Bounded(s, bound)
    ensures var s' := PushDelta(limit, s, delta);
      Shape(s') && Bounded(s', bound) && AllReceived(s') == AllReceived(s) + delta
  {
    var s' := PushDelta(limit, s, delta);
    if s.deltaRunes + |delta| <= limit {
      var s1 := Count(s, delta);
      assert s' == s1 || s' == Split(Reset(s1));
      CountKeeps(s, delta, bound);
      SplitResetKeeps(s1, bound);
    } else {
      var s1 := Reset(Split(s));
      assert s' == Count(s1, delta);
      SplitResetKeeps(s, bound);
      CountKeeps(s1, delta, bound);
    }
  }

  lemma PassKeeps(s: Splitter, e: Event, bound: nat)
    requires Shape(s) && Bounded(s, bound) && e != EmptyFinal && (e.Delta? ==> e.text == "")
    ensures Shape(Push(s, e)) && Bounded(Push(s, e), bound) && AllReceived(Push(s, e)) == AllReceived(s)
  {
    PushKeeps(s, e);
  }

  lemma UserInputKeeps(s: Splitter, question: string, bound: nat)
    requires Shape(s) && Bounded(s, bound)
    ensures var s' := PushUserInput(s, question);
      Shape(s') && Bounded(s', bound) && AllReceived(s') == AllReceived(s)
  {
    SplitKeeps(s, bound);
  }

  lemma PushInputKeeps(limit: int, s: Splitter, i: Input, bound: nat)
    requires limit > 0 && limit <= bound && (i.Text? ==> |i.delta| <= bound) && Shape(s) && Bounded(s, bound)
    ensures var s' := PushInput(limit, s, i);
      && Shape(s') && Bounded(s', bound)
      && AllReceived(s') == AllReceived(s) + if i.Text? then i.delta else []
  {
    match i
    case Text(delta) => if delta == "" { PassKeeps(s, Delta(delta), bound); } else { PushDeltaKeeps(limit, s, delta, bound); }
    case Pass(tag) => PassKeeps(s, Uncounted(tag), bound);
    case UserInput(question) => UserInputKeeps(s, question, bound);
  }

  // ----- main result -----

  /** Over any run of pushes, splits for user input included: the adapter streams receive, one after the
      other, exactly the text produced; the text of the open stream never exceeds the counter; no stream
      gets more than the limit, or than the longest delta if that is longer; every stream closed by a
      split got one empty final, as its last event; and every reopened stream begins with Started. */
  lemma {:induction false} StreamsCarryTheText(limit: int, inputs: seq<Input>, bound: nat)
    requires limit > 0 && bound >= limit && bound >= LongestDelta(inputs)
    ensures var s := PushAll(limit, inputs);
      Shape(s) && Bounded(s, bound) && AllReceived(s) == Produced(inputs)
  {
    if inputs != [] {
      var init, last := inputs[..|inputs| - 1], inputs[|inputs| - 1];
      StreamsCarryTheText(limit, init, bound);
      PushInputKeeps(limit, PushAll(limit, init), last, bound);
    }
  }

  /** Without a limit nothing but a question to the user splits the stream, and the counter counts everything. */
  lemma {:induction false} UnlimitedStreamsCarryTheText(limit: int, inputs: seq<Input>)
    requires limit <= 0
    ensures var s := PushAll(limit, inputs);
      Shape(s) && AllReceived(s) == Produced(inputs) && s.deltaRunes == |Produced(inputs)|
  {
    if inputs != [] {
      var init, last := inputs[..|inputs| - 1], inputs[|inputs| - 1];
      UnlimitedStreamsCarryTheText(limit, init);
      UnlimitedPushKeeps(limit, PushAll(limit, init), last);
    }
  }

  lemma UnlimitedPushKeeps(limit: int, s: Splitter, i: Input)
    requires limit <= 0 && Shape(s)
    ensures var s' := PushInput(limit, s, i); var delta := if i.Text? then i.delta else [];
      Shape(s') && AllReceived(s') == AllReceived(s) + delta && s'.deltaRunes == s.deltaRunes + |delta|
  {
    match i
    case Text(delta) => UnlimitedTextKeeps(s, delta);
    case Pass(tag) => PushKeeps(s, Uncounted(tag));
    case UserInput(question) => UserInputShape(s, question);
  }

  lemma UnlimitedTextKeeps(s: Splitter, delta: string)
    requires Shape(s)
    ensures var s' := Push(s, Delta(delta)).(deltaRunes := s.deltaRunes + |delta|);
      Shape(s') && AllReceived(s') == AllReceived(s) + delta && (delta == "" ==> s' == Push(s, Delta(delta)))
  {
    PushKeeps(s, Delta(delta));
  }

  lemma UserInputShape(s: Splitter, question: string)
    requires Shape(s)
    ensures var s' := PushUserInput(s, question);
      Shape(s') && AllReceived(s') == AllReceived(s) && s'.deltaRunes == s.deltaRunes
  {
    if Trim(question) != "" {
      SplitShape(s);
      SendingKeeps(if s.deltaRunes > 0 then Split(s) else s, Trim(question));
    }
  }

  /** A direct send leaves the streams as they are. */
  lemma SendingKeeps(s: Splitter, text: string)
    requires Shape(s)
    ensures Shape(s.(sent := s.sent + [text])) && AllReceived(s.(sent := s.sent + [text])) == AllReceived(s)
  {
  }

  // ----- when the counter is what the open stream holds -----

  predicate CounterAgrees(s: Splitter) { |TextOf(s.current.events)| == s.deltaRunes }

  /** A question that splits the stream; it leaves the counter where it is. */
  predicate Interrupts(s: Splitter, i: Input) { i.UserInput? && !Blank(i.question) && s.deltaRunes > 0 }

  /** A delta with which the counter starts afresh: one that would go beyond the limit, or that reaches a natural break
      point beyond the soft limit. */
  predicate StartsAfresh(limit: int, s: Splitter, i: Input) {
    && limit > 0 && i.Text? && i.delta != ""
    && var after := s.deltaRunes + |i.delta|;
       after > limit || (after > limit - limit / SOFT_RATIO && BreakPoint(s.deltaText + i.delta))
  }

  lemma PushAgrees(s: Splitter, e: Event, n: nat)
    requires n == if e.Delta? then |e.text| else 0
    ensures |TextOf(Push(s, e).current.events)| == |TextOf(s.current.events)| + n
  {
    TextOfSnoc(s.current.events, e);
  }

  lemma SplitIsEmpty(s: Splitter)
    ensures TextOf(Split(s).current.events) == []
  {
    TextOfSnoc([], Started);
  }

  lemma DeltaAgrees(limit: int, s: Splitter, delta: string)
    requires delta != ""
    ensures CounterAgrees(PushDelta(limit, s, delta)) <==> CounterAgrees(s) || StartsAfresh(limit, s, Text(delta))
  {
    PushAgrees(s, Delta(delta), |delta|);
    SplitIsEmpty(Reset(Count(s, delta)));
    SplitIsEmpty(s);
    PushAgrees(Reset(Split(s)), Delta(delta), |delta|);
  }

  lemma QuestionAgrees(s: Splitter, question: string)
    ensures CounterAgrees(PushUserInput(s, question)) <==> CounterAgrees(s) && !Interrupts(s, UserInput(question))
  {
    TrimEmpty(question);
    SplitIsEmpty(s);
  }

  lemma AgreesAfter(limit: int, s: Splitter, i: Input)
    ensures CounterAgrees(PushInput(limit, s, i)) <==>
      (CounterAgrees(s) || StartsAfresh(limit, s, i)) && !Interrupts(s, i)
  {
    match i
    case Text(delta) =>
      if delta == "" { PushAgrees(s, Delta(delta), 0); } else { DeltaAgrees(limit, s, delta); }
    case Pass(tag) => PushAgrees(s, Uncounted(tag), 0);
    case UserInput(question) => QuestionAgrees(s, question);
  }

  /** The input at i is a question that splits the stream, and the counter has not started afresh since. */
  ghost predicate LeftBehind(limit: int, inputs: seq<Input>, i: nat) {
    && i < |inputs| && Interrupts(PushAll(limit, inputs[..i]), inputs[i])
    && forall j :: i < j < |inputs| ==> !StartsAfresh(limit, PushAll(limit, inputs[..j]), inputs[j])
  }

  lemma LeftBehindSnoc(limit: int, inputs: seq<Input>, last: Input, i: nat)
    ensures LeftBehind(limit, inputs + [last], i) <==>
      (LeftBehind(limit, inputs, i) && !StartsAfresh(limit, PushAll(limit, inputs), last))
      || (i == |inputs| && Interrupts(PushAll(limit, inputs), last))
  {
    var all := inputs + [last];
    assert all[..|inputs|] == inputs;
    forall j | 0 <= j < |inputs| ensures all[j] == inputs[j] && all[..j] == inputs[..j] {}
  }

  /** The counter is the length of the open stream's text unless a question has split the stream, with text counted, since
      the counter last started afresh.  Until it does, the next delta may then be split off earlier than it has to be. */
  lemma {:induction false} CounterIsTheText(limit: int, inputs: seq<Input>)
    ensures CounterAgrees(PushAll(limit, inputs)) <==> !exists i: nat :: LeftBehind(limit, inputs, i)
  {
    if inputs != [] {
      var init, last := inputs[..|inputs| - 1], inputs[|inputs| - 1];
      assert inputs == init + [last];
      CounterIsTheText(limit, init);
      AgreesAfter(limit, PushAll(limit, init), last);
      forall i: nat { LeftBehindSnoc(limit, init, last, i); }
      if CounterAgrees(PushAll(limit, inputs)) {
      } else if Interrupts(PushAll(limit, init), last) {
        assert LeftBehind(limit, inputs, |init|);
      } else {
        var i: nat :| LeftBehind(limit, init, i);
        assert LeftBehind(limit, inputs, i);
      }
    }
  }

  // ----- the methods -----

  /** Events without text leave what the streams have received as it is. */
  lemma PushKeepsText(s: Splitter, e: Event)
    requires !e.Delta?
    ensures AllReceived(Push(s, e)) == AllReceived(s)
  {
    TextOfSnoc(s.current.events, e);
  }

  /** The open stream joins the past ones, and a new one is open. */
  function ReopenedAs(s: Splitter): Splitter {
    s.(past := s.past + [s.current.(closed := true)], current := Stream([], false), splitCount := s.splitCount + 1)
  }

  lemma ReopenedKeepsText(s: Splitter)
    ensures AllReceived(ReopenedAs(s)) == AllReceived(s)
  {
    var past := s.past + [s.current.(closed := true)];
    assert past[..|past| - 1] == s.past;
  }

  /** The stream wrapper; budget adapter calls (Push, Close and OpenStream) succeed before one fails. */
  class ManagerOutboundStream {
    const limit: int
    var past: seq<Stream>
    var current: Stream
    var deltaRunes: nat
    var deltaText: string
    var splitCount: nat
    var sent: seq<string>
    var budget: nat

    ghost function View(): Splitter
      reads this
    {
      Splitter(past, current, deltaRunes, deltaText, splitCount, sent)
    }

    constructor (limit: int, budget: nat)
      ensures this.limit == limit && this.budget == budget && View() == OPENED
    {
      this.limit, this.budget := limit, budget;
      past, current, deltaRunes, deltaText, splitCount, sent := [], Stream([], false), 0, [], 0, [];
    }

    /** pushPrepared. */
    method PushPrepared(e: Event) returns (ok: bool)
      modifies `current, `budget
      ensures ok == (old(budget) > 0)
      ensures View() == if ok then Push(old(View()), e) else old(View())
    {
      if budget == 0 { return false; }
      budget := budget - 1;
      current := current.(events := current.events + [e]);
      return true;
    }

    /** Close and OpenStream: the closed stream joins the past ones. */
    method Reopen() returns (ok: bool)
      modifies `current, `past, `splitCount, `budget
      ensures if ok then View() == ReopenedAs(old(View()))
              else past == old(past) && current.events == old(current).events
    {
      if budget == 0 { return false; }
      budget, current := budget - 1, current.(closed := true);
      if budget == 0 { return false; }
      past, current, splitCount, budget := past + [current], Stream([], false), splitCount + 1, budget - 1;
      return true;
    }

    /** splitStream: an error leaves the texts received so far as they were. */
    method SplitStream() returns (ok: bool)
      modifies `current, `past, `splitCount, `budget
      ensures ok ==> View() == Split(old(View()))
      ensures AllReceived(View()) == AllReceived(old(View()))
    {
      PushKeepsText(View(), EmptyFinal);
      ok := PushPrepared(EmptyFinal);
      if !ok { return; }
      ReopenedKeepsText(View());
      ok := Reopen();
      if !ok { return; }
      PushKeepsText(View(), Started);
      ok := PushPrepared(Started);
    }

    /** pushDelta: on an error the delta has been received once or not at all. */
    method PushDeltaEvent(delta: string) returns (ok: bool)
      modifies this
      ensures ok ==> View() == PushDelta(limit, old(View()), delta)
      ensures AllReceived(View()) == AllReceived(old(View())) + delta
              || (!ok && AllReceived(View()) == AllReceived(old(View())))
    {
      if limit <= 0 {
        deltaRunes := deltaRunes + |delta|;
        ok := PushText(delta);
      } else {
        ok := PushLimitedDelta(delta);
      }
    }

    method PushText(delta: string) returns (ok: bool)
      modifies `current, `budget
      ensures View() == if ok then Push(old(View()), Delta(delta)) else old(View())
      ensures AllReceived(View()) == AllReceived(old(View())) + if ok then delta else []
    {
      TextOfSnoc(current.events, Delta(delta));
      ok := PushPrepared(Delta(delta));
    }

    /** pushDelta under a limit: at most the soft limit, at most the limit, or beyond it. */
    method PushLimitedDelta(delta: string) returns (ok: bool)
      requires limit > 0
      modifies this
      ensures ok ==> View() == PushLimited(limit, old(View()), delta)
      ensures AllReceived(View()) == AllReceived(old(View())) + delta
              || (!ok && AllReceived(View()) == AllReceived(old(View())))
    {
      var after := deltaRunes + |delta|;
      var soft := limit - limit / SOFT_RATIO;
      if after > limit {
        ok := PushBehindSplit(delta);
        return;
      }
      deltaRunes, deltaText := after, deltaText + delta;
      ok := PushText(delta);
      if ok && after > soft && BreakPoint(deltaText) {
        deltaRunes, deltaText := 0, [];
        ok := SplitStream();
      }
    }

    /** A delta that would go beyond the limit starts a new stream. */
    method PushBehindSplit(delta: string) returns (ok: bool)
      modifies this
      ensures ok ==> View() == Count(Reset(Split(old(View()))), delta)
      ensures AllReceived(View()) == AllReceived(old(View())) + if ok then delta else []
    {
      ok := SplitStream();
      if !ok { return; }
      deltaRunes, deltaText := |delta|, delta;
      ok := PushText(delta);
    }

    /** pushPlainTextUserInput; sendOk says whether the direct send succeeds. */
    method PushPlainTextUserInput(question: string, sendOk: bool) returns (ok: bool)
      modifies this
      ensures ok ==> View() == PushUserInput(old(View()), question)
      ensures AllReceived(View()) == AllReceived(old(View()))
    {
      var text := Trim(question);
      if text == "" { return true; }
      if deltaRunes > 0 {
        ok := SplitStream();
        if !ok { return; }
      }
      if !sendOk { return false; }
      sent := sent + [text];
      return true;
    }
  }
}
