/** How long the texts of a chunked final are. */
module LongFinals {
  import opened Delivery
  import opened Format
  import opened InlineMarkup
  import opened Outbound
  import opened Seqs
  import opened ShownText
  import opened Text
  import opened Wrappers
  import Chunkers

  // Every text of a chunked final is within the limit, except that a message whose actions become links as text only when it
  // is prepared gets them behind its chunk after the text has been cut.  The stream makes its finals fit before.

  lemma {:induction false} KeptNotLonger(s: string, i: nat)
    requires i <= |s|
    ensures |KeptFrom(s, i)| <= |s| - i
    decreases |s| - i
  {
    if i < |s| { KeptNotLonger(s, i + 1); }
  }

  /** Preparing a message without parts or links makes its text no longer. */
  lemma FittedNotLonger(s: Setup, m: Message)
    requires m.body.parts == [] && (s.caps.Some? ==> !Downgraded(s.e, s.caps.value, m.body))
    ensures |Fitted(s, m).body.text| <= |m.body.text|
  {
    if s.caps.Some? {
      TextIsShown(s.e, s.caps.value, m.body);
      KeptNotLonger(m.body.text, 0);
    }
  }

  /** Every act of a run is a try of one of the items. */
  lemma {:induction false} SentAmong(items: seq<Message>, acts: seq<Act>, max: nat, i: nat)
    requires AllSent(items, acts, max) && i < |acts|
    ensures acts[i].m in items
    decreases |items|
  {
    var before, last := AllSentLast(items, acts, max);
    if i < |before| { SentAmong(items[..|items| - 1], before, max, i); }
  }

  lemma RunAmong(items: seq<Message>, acts: seq<Act>, max: nat, ok: bool, i: nat)
    requires Run(items, acts, max, ok) && i < |acts|
    ensures acts[i].m in items
  {
    if ok {
      SentAmong(items, acts, max, i);
    } else {
      var d: nat :| SentUpTo(items, d, acts, max);
      var k :| 0 <= k <= |acts| && AllSent(items[..d], acts[..k], max) && Tries(items[d], acts[k..], max, false);
      if i < k {
        SentAmong(items[..d], acts[..k], max, i);
      } else {
        assert acts[i] == acts[k..][i - k];
      }
    }
  }

  /** The message of a plan that has the actions. */
  function Carrier(m: Message, chunks: seq<string>): Message
    requires chunks != []
  {
    if m.attachments == [] then ChunkMessage(m, Trim(chunks[|chunks| - 1]), true) else MediaMessage(m)
  }

  /** A message of a plan: a new one in the context of the final, and in its format if it has text. */
  predicate InContext(t: Message, m: Message) {
    && t.id == "" && t.thread == m.thread && t.reply == m.reply && t.metadata == m.metadata && t.forward == None
    && t.body.parts == [] && (t.body.format == m.body.format || t == MediaMessage(m))
  }

  /** It is within the limit, and without actions unless it is the carrier. */
  ghost predicate OfPlan(t: Message, m: Message, chunks: seq<string>, limit: int)
    requires chunks != []
  {
    InContext(t, m) && |t.body.text| <= limit && (t.body.actions == [] || t == Carrier(m, chunks))
  }

  /** What is pushed first is the final itself with its first chunk for its text. */
  lemma FirstIs(m: Message, chunk: string)
    ensures var first := FirstChunk(m, chunk);
      && first.body.text == chunk && first.body.parts == [] && first.body.actions == [] && first.attachments == []
      && first.body.format == m.body.format && first.id == m.id && first.thread == m.thread && first.reply == m.reply
      && first.forward == m.forward && first.metadata == m.metadata
  {
  }

  /** The attachments follow without text, and the actions with them. */
  lemma MediaIs(m: Message)
    ensures MediaMessage(m).attachments == m.attachments && MediaMessage(m).body == Body(Unset, "", [], m.body.actions)
    ensures InContext(MediaMessage(m), m)
  {
  }

  lemma {:induction false} ChunkMessagesPlain(m: Message, chunks: seq<string>, t: Message, limit: int)
    requires t in ChunkMessages(m, chunks, false) && Chunkers.Fit(chunks, limit)
    ensures InContext(t, m) && |t.body.text| <= limit && t.body.actions == []
  {
    var init := chunks[..|chunks| - 1];
    assert |chunks[|chunks| - 1]| <= limit;
    if t in ChunkMessages(m, init, false) { ChunkMessagesPlain(m, init, t, limit); }
  }

  lemma PlannedPlain(m: Message, chunks: seq<string>, t: Message, limit: int)
    requires chunks != [] && t in Planned(m, chunks) && Chunkers.Fit(chunks, limit) && limit >= 0
    ensures OfPlan(t, m, chunks, limit)
  {
    var init := chunks[..|chunks| - 1];
    assert |chunks[|chunks| - 1]| <= limit;
    if t in ChunkMessages(m, init, false) { ChunkMessagesPlain(m, init, t, limit); }
  }

  /** An act of a plan that is sent, in terms of the plan. */
  lemma SentOfPlan(s: Setup, m: Message, chunks: seq<string>, acts: seq<Act>, ok: bool, limit: int, i: nat) returns (t: Message)
    requires chunks != [] && Chunkers.Fit(chunks, limit) && limit >= 0 && i < |acts|
    requires AllPrepare(s, Planned(m, chunks)) && Run(Prepared(s, Planned(m, chunks)), acts, s.retryMax, ok)
    ensures OfPlan(t, m, chunks, limit) && acts[i].m == Fitted(s, t)
  {
    var plan := Planned(m, chunks);
    RunAmong(Prepared(s, plan), acts, s.retryMax, ok, i);
    var k :| 0 <= k < |plan| && Prepared(s, plan)[k] == acts[i].m;
    t := plan[k];
    PlannedPlain(m, chunks, t, limit);
  }

  /** A message of an act: within the limit, or the carrier with its links. */
  ghost predicate Short(s: Setup, m: Message, carrier: Message, limit: int, sent: Message) {
    |sent.body.text| <= limit || (s.caps.Some? && Downgraded(s.e, s.caps.value, m.body) && sent == Fitted(s, carrier))
  }

  lemma OfPlanIsShort(s: Setup, m: Message, chunks: seq<string>, limit: int, t: Message)
    requires chunks != [] && OfPlan(t, m, chunks, limit)
    ensures Short(s, m, Carrier(m, chunks), limit, Fitted(s, t))
  {
    if s.caps.None? || !Downgraded(s.e, s.caps.value, t.body) {
      FittedNotLonger(s, t);
    } else {
      assert t == Carrier(m, chunks) && Downgraded(s.e, s.caps.value, m.body);
    }
  }

  lemma PlanIsShort(s: Setup, m: Message, chunks: seq<string>, acts: seq<Act>, ok: bool, limit: int, i: nat)
    requires chunks != [] && Chunkers.Fit(chunks, limit) && limit >= 0 && i < |acts|
    requires AllPrepare(s, Planned(m, chunks)) && Run(Prepared(s, Planned(m, chunks)), acts, s.retryMax, ok)
    ensures Short(s, m, Carrier(m, chunks), limit, acts[i].m)
  {
    var t := SentOfPlan(s, m, chunks, acts, ok, limit, i);
    OfPlanIsShort(s, m, chunks, limit, t);
  }

  /** The chunks that are sent directly: those behind the first, or all of them. */
  lemma SentDirectly(s: Setup, m: Message, chunks: seq<string>, acts: seq<Act>, ok: bool) returns (cs: seq<string>)
    requires |chunks| > 1 && ChunkedPush(s, m, chunks, acts, ok) && |acts| > 1
    ensures cs == chunks || cs == chunks[1..]
    ensures AllPrepare(s, Planned(m, cs)) && Run(Prepared(s, Planned(m, cs)), acts[1..], s.retryMax, ok)
  {
    cs := if acts[0].ok then chunks[1..] else chunks;
  }

  lemma SameEnd(m: Message, chunks: seq<string>, limit: int)
    requires |chunks| > 1 && Chunkers.Fit(chunks, limit)
    ensures Chunkers.Fit(chunks[1..], limit) && Carrier(m, chunks[1..]) == Carrier(m, chunks)
  {
    assert chunks[1..][|chunks| - 2] == chunks[|chunks| - 1];
  }

  lemma FirstIsShort(s: Setup, m: Message, chunks: seq<string>, acts: seq<Act>, ok: bool, limit: int)
    requires |chunks| > 1 && Chunkers.Fit(chunks, limit) && acts != [] && ChunkedPush(s, m, chunks, acts, ok)
    ensures |acts[0].m.body.text| <= limit
  {
    assert acts[0].m == FirstChunk(m, chunks[0]);
  }

  /** The texts of a chunked final are within the limit, but for the message with the actions if they become links. */
  lemma ActsAreShort(s: Setup, m: Message, chunks: seq<string>, acts: seq<Act>, ok: bool, limit: int, i: nat)
    requires |chunks| > 1 && Chunkers.Fit(chunks, limit) && limit > 0 && i < |acts|
    requires ChunkedPush(s, m, chunks, acts, ok)
    ensures Short(s, m, Carrier(m, chunks), limit, acts[i].m)
  {
    if i == 0 {
      FirstIsShort(s, m, chunks, acts, ok, limit);
    } else {
      LaterIsShort(s, m, chunks, acts, ok, limit, i);
    }
  }

  lemma LaterIsShort(s: Setup, m: Message, chunks: seq<string>, acts: seq<Act>, ok: bool, limit: int, i: nat)
    requires |chunks| > 1 && Chunkers.Fit(chunks, limit) && limit > 0 && 0 < i < |acts|
    requires ChunkedPush(s, m, chunks, acts, ok)
    ensures Short(s, m, Carrier(m, chunks), limit, acts[i].m)
  {
    var cs := SentDirectly(s, m, chunks, acts, ok);
    SameEnd(m, chunks, limit);
    PlanIsShort(s, m, cs, acts[1..], ok, limit, i - 1);
  }

  /** A final without parts that is longer than the limit goes out in more than one chunk; and all its texts are within the
      limit if its actions do not become links. */
  lemma LongFinalStaysShort(s: Setup, m: Message, chunks: seq<string>, acts: seq<Act>, ok: bool)
    requires m.body.parts == [] && 0 < s.policy.textLimit < |Trim(m.body.text)|
    requires Chunkers.ChunksOf(chunks, Trim(m.body.text), s.policy.textLimit)
    requires |chunks| > 1 && ChunkedPush(s, FinalBody(s, m), chunks, acts, ok)
    requires s.caps.Some? ==> !Downgraded(s.e, s.caps.value, m.body)
    ensures forall i :: 0 <= i < |acts| ==> |acts[i].m.body.text| <= s.policy.textLimit
  {
    forall i | 0 <= i < |acts| ensures |acts[i].m.body.text| <= s.policy.textLimit {
      ActsAreShort(s, FinalBody(s, m), chunks, acts, ok, s.policy.textLimit, i);
    }
  }

  /** A final as the stream hands it over: on a channel whose capabilities are known it has been made to fit before. */
  function HandedOver(s: Setup, m: Message): Message {
    match s.caps
    case None => m
    case Some(c) => FitMessage(s.e, c, m)
  }

  lemma FitHasNoLinksLeft(e: Env, caps: Capabilities, b: Body)
    ensures !Downgraded(e, caps, Fit(e, caps, b))
  {
    ActionsSurvive(e, caps, b);
  }

  /** So whatever final the stream gets: if it has no parts when it is handed over, it goes out in one push if its text is
      within the limit, and otherwise in chunks, with every text within the limit. */
  lemma StreamFinalsStayShort(s: Setup, m0: Message, chunks: seq<string>, acts: seq<Act>, ok: bool)
    requires s.policy.textLimit > 0 && HandedOver(s, m0).body.parts == [] && FinalPush(s, HandedOver(s, m0), chunks, acts, ok)
    ensures var m := HandedOver(s, m0);
      if |Trim(m.body.text)| <= s.policy.textLimit then acts == [Pushed(m, ok)]
      else |chunks| > 1 && forall i :: 0 <= i < |acts| ==> |acts[i].m.body.text| <= s.policy.textLimit
  {
    var m := HandedOver(s, m0);
    PlainFinal(s, m);
    if |Trim(m.body.text)| > s.policy.textLimit {
      if s.caps.Some? { FitHasNoLinksLeft(s.e, s.caps.value, m0.body); }
      LongFinalStaysShort(s, m, chunks, acts, ok);
    }
  }

  /** For a final that was not made to fit before, the last chunk of a plain text without attachments is sent with the links
      behind it: its text is longer than the limit exactly if the chunk leaves no room for them. */
  lemma LinksNeedRoom(s: Setup, m: Message, chunks: seq<string>, limit: int)
    requires chunks != [] && Chunkers.SolidEnds(chunks) && m.attachments == [] && m.body.format.Plain?
    requires s.caps.Some? && Downgraded(s.e, s.caps.value, m.body)
    ensures var links := Trim(RenderPlain(s.e, LinksOf(m.body.actions))); var last := Trim(chunks[|chunks| - 1]);
      && links != "" && Fitted(s, Carrier(m, chunks)).body.text == last + "\n\n" + links
      && (|Fitted(s, Carrier(m, chunks)).body.text| > limit <==> |last| > limit - 2 - |links|)
  {
    TrimSolid(chunks[|chunks| - 1]);
    TrimIdempotent(chunks[|chunks| - 1]);
    PlainWithLinks(s.e, s.caps.value, Carrier(m, chunks).body);
  }

  lemma PlainWithLinks(e: Env, caps: Capabilities, b: Body)
    requires b.parts == [] && b.format.Plain? && Downgraded(e, caps, b) && Trim(b.text) == b.text && !Blank(b.text)
    ensures var links := Trim(RenderPlain(e, LinksOf(b.actions)));
      links != "" && Fit(e, caps, b).text == b.text + "\n\n" + links
  {
    LinksComeBehind(e, caps, b);
    LinksAreVisible(e, b.actions);
    TrimEmpty(RenderPlain(e, LinksOf(b.actions)));
  }
}
