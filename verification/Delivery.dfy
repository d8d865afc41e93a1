/** Delivering messages through an adapter that may fail: everything is prepared before anything is sent,
    each message is tried a bounded number of times, and a long stream final is sent in chunks. */
module Delivery {
  import opened Chunkers
  import opened Format
  import opened Outbound
  import opened Seqs
  import opened Text
  import opened Wrappers

  /** One call into the adapter and whether it succeeded: a push into the stream, or a send (an edit, for a
      message with an id). */
  datatype Act = Pushed(m: Message, ok: bool) | Tried(m: Message, ok: bool)

  /** What preparation depends on: capabilities, usable attachment references, storage, and an editor. */
  datatype Setup = Setup(
    e: Env, caps: Option<Capabilities>, usable: Attachment -> bool, stores: Message -> bool, hasEditor: bool,
    policy: Policy, retryMax: nat)

  // ----- prepareOutboundForSend -----

  function Fitted(s: Setup, m: Message): Message {
    match s.caps
    case None => m.(body := Normalize(s.e, m.body))
    case Some(c) => FitMessage(s.e, c, m)
  }

  predicate AllUsable(s: Setup, attachments: seq<Attachment>) {
    forall i :: 0 <= i < |attachments| ==> s.usable(attachments[i])
  }

  function Prepare(s: Setup, m: Message): Option<Message> {
    var f := Fitted(s, m);
    if IsEmpty(m) || !AllUsable(s, m.attachments) || (s.caps.Some? && !Allowed(s.e, s.caps.value, f)) || !s.stores(f)
       || (!Blank(f.id) && !s.hasEditor) then None
    else Some(f)
  }

  ghost predicate AllPrepare(s: Setup, ms: seq<Message>) { forall i :: 0 <= i < |ms| ==> Prepare(s, ms[i]).Some? }

  ghost function Prepared(s: Setup, ms: seq<Message>): (items: seq<Message>)
    requires AllPrepare(s, ms)
    ensures |items| == |ms| && forall i :: 0 <= i < |ms| ==> items[i] == Prepare(s, ms[i]).value
  {
    seq(|ms|, i requires 0 <= i < |ms| => Prepare(s, ms[i]).value)
  }

  // ----- what the adapter sees -----

  /** The tries of one message: at most max, and only the last of them can have succeeded. */
  ghost predicate Tries(m: Message, acts: seq<Act>, max: nat, ok: bool) {
    && 0 < |acts| <= max
    && forall i :: 0 <= i < |acts| ==> acts[i] == Tried(m, ok && i == |acts| - 1)
  }

  ghost predicate AllSent(items: seq<Message>, acts: seq<Act>, max: nat)
    decreases |items|
  {
    if items == [] then acts == []
    else
      exists k :: 0 <= k <= |acts| && AllSent(items[..|items| - 1], acts[..k], max)
                  && Tries(items[|items| - 1], acts[k..], max, true)
  }

  ghost predicate SentUpTo(items: seq<Message>, d: nat, acts: seq<Act>, max: nat) {
    d < |items|
    && exists k :: 0 <= k <= |acts| && AllSent(items[..d], acts[..k], max) && Tries(items[d], acts[k..], max, false)
  }

  /** All items are sent, or sending stops at the first one that cannot be. */
  ghost predicate Run(items: seq<Message>, acts: seq<Act>, max: nat, ok: bool) {
    if ok then AllSent(items, acts, max) else exists d: nat :: SentUpTo(items, d, acts, max)
  }

  ghost function Successes(acts: seq<Act>): seq<Message> {
    if acts == [] then []
    else Successes(acts[..|acts| - 1]) + if acts[|acts| - 1].ok then [acts[|acts| - 1].m] else []
  }

  lemma {:induction false} SuccessesConcat(a: seq<Act>, b: seq<Act>)
    ensures Successes(a + b) == Successes(a) + Successes(b)
  {
    if b == [] {
      assert a + b == a;
    } else {
      SuccessesConcat(a, b[..|b| - 1]);
      assert (a + b)[..|a + b| - 1] == a + b[..|b| - 1];
    }
  }

  lemma {:induction false} NoSuccess(acts: seq<Act>)
    requires forall i :: 0 <= i < |acts| ==> !acts[i].ok
    ensures Successes(acts) == []
  {
    if acts != [] { NoSuccess(acts[..|acts| - 1]); }
  }

  lemma TriesSuccesses(m: Message, acts: seq<Act>, max: nat, ok: bool)
    requires Tries(m, acts, max, ok)
    ensures Successes(acts) == if ok then [m] else []
  {
    NoSuccess(acts[..|acts| - 1]);
  }

  lemma AllSentLast(items: seq<Message>, acts: seq<Act>, max: nat) returns (before: seq<Act>, last: seq<Act>)
    requires AllSent(items, acts, max) && items != []
    ensures acts == before + last
    ensures AllSent(items[..|items| - 1], before, max) && Tries(items[|items| - 1], last, max, true)
  {
    var k :| 0 <= k <= |acts| && AllSent(items[..|items| - 1], acts[..k], max) && Tries(items[|items| - 1], acts[k..], max, true);
    before, last := acts[..k], acts[k..];
  }

  lemma {:induction false} AllSentSuccesses(items: seq<Message>, acts: seq<Act>, max: nat)
    requires AllSent(items, acts, max)
    ensures Successes(acts) == items
    decreases |items|
  {
    if items != [] {
      var before, last := AllSentLast(items, acts, max);
      AllSentSuccesses(items[..|items| - 1], before, max);
      TriesSuccesses(items[|items| - 1], last, max, true);
      SuccessesConcat(before, last);
      assert items == items[..|items| - 1] + [items[|items| - 1]];
    }
  }

  lemma {:induction false} AllSentTries(items: seq<Message>, acts: seq<Act>, max: nat)
    requires AllSent(items, acts, max)
    ensures |acts| <= |items| * max
    decreases |items|
  {
    if items != [] {
      var before, last := AllSentLast(items, acts, max);
      AllSentTries(items[..|items| - 1], before, max);
      assert |items| * max == (|items| - 1) * max + max;
    }
  }

  /** What is delivered is a prefix of the list, in order and without repetition, and it is the whole list
      exactly when sending succeeds. */
  lemma DeliveredIsAPrefix(items: seq<Message>, acts: seq<Act>, max: nat, ok: bool)
    requires Run(items, acts, max, ok)
    ensures Successes(acts) <= items && (ok <==> Successes(acts) == items)
  {
    if ok {
      AllSentSuccesses(items, acts, max);
    } else {
      var d: nat :| SentUpTo(items, d, acts, max);
      var k :| 0 <= k <= |acts| && AllSent(items[..d], acts[..k], max) && Tries(items[d], acts[k..], max, false);
      AllSentSuccesses(items[..d], acts[..k], max);
      TriesSuccesses(items[d], acts[k..], max, false);
      assert acts == acts[..k] + acts[k..];
      SuccessesConcat(acts[..k], acts[k..]);
    }
  }

  /** There are at most max tries for each message. */
  lemma TriesAreBounded(items: seq<Message>, acts: seq<Act>, max: nat, ok: bool)
    requires Run(items, acts, max, ok)
    ensures |acts| <= |items| * max
  {
    if ok {
      AllSentTries(items, acts, max);
    } else {
      var d: nat :| SentUpTo(items, d, acts, max);
      var k :| 0 <= k <= |acts| && AllSent(items[..d], acts[..k], max) && Tries(items[d], acts[k..], max, false);
      AllSentTries(items[..d], acts[..k], max);
      assert (d + 1) * max == d * max + max;
      MulGrows(d + 1, |items|, max);
    }
  }

  lemma MulGrows(a: nat, b: nat, max: nat)
    requires a <= b
    ensures a * max <= b * max
  {
  }

  // ----- a stream final in chunks -----

  /** Message.PlainText. */
  function PlainText(e: Env, b: Body): string {
    if !Blank(b.text) then
      (if b.parts == [] then Trim(b.text) else AppendSection(Trim(b.text), RenderPlain(e, b.parts)))
    else if b.parts == [] then ""
    else Trim(RenderPlain(e, b.parts))
  }

  /** The final as it is looked at for chunking. */
  function FinalBody(s: Setup, m: Message): Message {
    var n := m.(body := Normalize(s.e, m.body));
    match s.caps case None => n case Some(c) => CoerceOversized(s.e, s.policy, c, n)
  }

  function FinalText(s: Setup, m: Message): string { Trim(PlainText(s.e, FinalBody(s, m).body)) }

  /** A final that goes out in one push: there is no limit, it fits, or it has rich parts. */
  predicate OnePush(s: Setup, m: Message) {
    s.policy.textLimit <= 0 || |FinalText(s, m)| <= s.policy.textLimit || FinalBody(s, m).body.parts != []
  }

  /** A final without parts is looked at as it came in: its trimmed text alone decides. */
  lemma PlainFinal(s: Setup, m: Message)
    requires m.body.parts == []
    ensures FinalBody(s, m).body.text == m.body.text && FinalBody(s, m).body.parts == []
    ensures PlainText(s.e, m.body) == Trim(m.body.text) && FinalText(s, m) == Trim(m.body.text)
    ensures OnePush(s, m) <==> s.policy.textLimit <= 0 || |Trim(m.body.text)| <= s.policy.textLimit
  {
    BlankOrTrimmed(m.body.text);
  }

  lemma BlankOrTrimmed(text: string)
    ensures (if Blank(text) then "" else Trim(text)) == Trim(text)
    ensures Trim(Trim(text)) == Trim(text)
  {
    TrimEmpty(text);
    TrimIdempotent(text);
  }

  /** Parts go out as they are, unless they are too long for one message of the channel; they then become text. */
  lemma RichFinal(s: Setup, m: Message)
    requires m.body.parts != []
    ensures var parts := AllParts(m.body);
      if s.caps.None? || !Blank(m.id) then OnePush(s, m)
      else
        var plain := Trim(RenderPlain(s.e, parts));
        var limit := if s.caps.value.richText then s.policy.richLimit else s.policy.textLimit;
        if limit <= 0 || |plain| <= limit then OnePush(s, m)
        else
          && FinalBody(s, m).body.parts == []
          && FinalText(s, m) == (if s.caps.value.markdown then Trim(s.e.renderMarkdown(parts)) else plain)
          && (OnePush(s, m) <==> s.policy.textLimit <= 0 || |FinalText(s, m)| <= s.policy.textLimit)
  {
    var parts := AllParts(m.body);
    assert Normalize(s.e, m.body).parts == parts;
    var plain := RenderPlain(s.e, parts);
    TrimIdempotent(plain);
    TrimSolid(plain);
    if s.caps.Some? && FinalBody(s, m).body.parts == [] { BlankOrTrimmed(FinalBody(s, m).body.text); }
  }

  function ChunkMessage(m: Message, chunk: string, last: bool): Message {
    Message("", Body(m.body.format, chunk, [], if last && m.attachments == [] then m.body.actions else []), [],
            m.thread, m.reply, None, m.metadata)
  }

  function MediaMessage(m: Message): Message {
    Message("", Body(Unset, "", [], m.body.actions), m.attachments, m.thread, m.reply, None, m.metadata)
  }

  /** The message that is pushed into the stream: the first chunk, without attachments or actions. */
  function FirstChunk(m: Message, chunk: string): Message {
    m.(body := m.body.(text := chunk, parts := [], actions := []), attachments := [])
  }

  /** A message of a plan before its last one. */
  ghost predicate Bare(t: Message, m: Message, limit: int) {
    t.attachments == [] && t.body.actions == [] && |t.body.text| <= limit && t.thread == m.thread && t.reply == m.reply
  }

  ghost predicate AllBare(ms: seq<Message>, m: Message, limit: int) { forall i :: 0 <= i < |ms| ==> Bare(ms[i], m, limit) }

  /** The actions and the attachments are on the last message alone, and every text is within the limit. */
  ghost predicate Ends(plan: seq<Message>, m: Message, limit: int) {
    plan != []
    && AllBare(plan[..|plan| - 1], m, limit)
    && var last := plan[|plan| - 1];
       last.body.actions == m.body.actions && last.attachments == m.attachments && |last.body.text| <= limit
       && last.thread == m.thread && last.reply == m.reply
  }

  /** A complete delivery of m, whose text is text: the text is carried once, actions and attachments are last. */
  ghost predicate Complete(plan: seq<Message>, m: Message, text: string, limit: int) {
    Ends(plan, m, limit) && Carries(TextsOf(plan), text)
  }

  /** The messages for some chunks, of which the last is the last of all if full. */
  function ChunkMessages(m: Message, chunks: seq<string>, full: bool): seq<Message> {
    if chunks == [] then []
    else
      var last := Trim(chunks[|chunks| - 1]);
      ChunkMessages(m, chunks[..|chunks| - 1], false) + if last == [] then [] else [ChunkMessage(m, last, full)]
  }

  function Planned(m: Message, chunks: seq<string>): seq<Message> {
    ChunkMessages(m, chunks, true) + if m.attachments == [] then [] else [MediaMessage(m)]
  }

  lemma ChunkMessagesSnoc(m: Message, chunks: seq<string>, i: nat, full: bool)
    requires i < |chunks|
    ensures ChunkMessages(m, chunks[..i + 1], full)
         == ChunkMessages(m, chunks[..i], false)
            + if Trim(chunks[i]) == [] then [] else [ChunkMessage(m, Trim(chunks[i]), full)]
  {
    assert chunks[..i + 1][..i] == chunks[..i];
  }

  /** The loop of prepareChunkedFinalSends over the remaining chunks. */
  method PlanChunks(m: Message, chunks: seq<string>) returns (plan: seq<Message>)
    requires chunks != []
    ensures plan == Planned(m, chunks)
  {
    plan := [];
    for idx := 0 to |chunks|
      invariant plan == ChunkMessages(m, chunks[..idx], idx == |chunks|)
    {
      ChunkMessagesSnoc(m, chunks, idx, idx == |chunks| - 1);
      var chunk := Trim(chunks[idx]);
      if chunk == [] { continue; }
      var item := ChunkMessage(m, chunk, idx == |chunks| - 1);
      plan := plan + [item];
    }
    assert chunks[..|chunks|] == chunks;
    if m.attachments != [] { plan := plan + [MediaMessage(m)]; }
  }

  lemma {:induction false} ChunkMessagesText(m: Message, chunks: seq<string>, full: bool)
    ensures TextsOf(ChunkMessages(m, chunks, full)) == Trimmed(chunks)
  {
    if chunks != [] {
      ChunkMessagesText(m, chunks[..|chunks| - 1], false);
      var last := Trim(chunks[|chunks| - 1]);
      TextsOfConcat(ChunkMessages(m, chunks[..|chunks| - 1], false), if last == [] then [] else [ChunkMessage(m, last, full)]);
    }
  }

  lemma TextsOfConcat(a: seq<Message>, b: seq<Message>)
    ensures TextsOf(a + b) == TextsOf(a) + TextsOf(b)
  {
  }

  lemma {:induction false} ChunkMessagesAreBare(m: Message, chunks: seq<string>, limit: int)
    requires Chunkers.Fit(chunks, limit)
    ensures AllBare(ChunkMessages(m, chunks, false), m, limit)
  {
    if chunks != [] {
      var init, last := chunks[..|chunks| - 1], chunks[|chunks| - 1];
      ChunkMessagesAreBare(m, init, limit);
      assert |last| <= limit;
    }
  }

  lemma KeepTrimmed(kept: seq<string>, front: string, last: string, gap: string)
    requires Carries(kept, front) && Blank(gap)
    ensures Carries(if Trim(last) == [] then kept else kept + [Trim(last)], front + last + gap)
  {
    AddSegment(kept, front, last);
    CarriesBlank(if Trim(last) == [] then kept else kept + [Trim(last)], front + last, gap);
  }

  /** The first chunk as it is, and the others trimmed, carry the text as well. */
  lemma {:induction false} FirstKept(first: string, rest: seq<string>, text: string)
    requires Carries([first] + rest, text)
    ensures Carries([first] + Trimmed(rest), text)
    decreases |rest|
  {
    if rest == [] {
      assert [first] + Trimmed(rest) == [first] + rest;
    } else {
      var chunks, init, last := [first] + rest, rest[..|rest| - 1], rest[|rest| - 1];
      assert chunks[..|chunks| - 1] == [first] + init && chunks[|chunks| - 1] == last;
      var front, gap := CarriesLast(chunks, text);
      FirstKept(first, init, front);
      KeepTrimmed([first] + Trimmed(init), front, last, gap);
      FirstKeptIs([first], rest);
    }
  }

  lemma FirstKeptIs(first: seq<string>, rest: seq<string>)
    requires rest != []
    ensures var kept := first + Trimmed(rest[..|rest| - 1]); var last := Trim(rest[|rest| - 1]);
      first + Trimmed(rest) == if last == [] then kept else kept + [last]
  {
    InitLast(rest);
    TrimmedSnoc(rest[..|rest| - 1], rest[|rest| - 1]);
    Assoc(first, Trimmed(rest[..|rest| - 1]), [Trim(rest[|rest| - 1])]);
  }

  /** The ways a chunked final can go. */
  ghost predicate ChunkedPush(s: Setup, msg: Message, chunks: seq<string>, acts: seq<Act>, ok: bool)
    requires chunks != []
  {
    var rest, all := Planned(msg, chunks[1..]), Planned(msg, chunks);
    if !AllPrepare(s, rest) then !ok && acts == []
    else
      && acts != [] && acts[0].Pushed? && acts[0].m == FirstChunk(msg, chunks[0])
      && if acts[0].ok then Run(Prepared(s, rest), acts[1..], s.retryMax, ok)
         else if !AllPrepare(s, all) then !ok && acts == acts[..1]
         else Run(Prepared(s, all), acts[1..], s.retryMax, ok)
  }

  /** How a final goes out: in one push of the message as it came, or in chunks of its text. */
  ghost predicate FinalPush(s: Setup, m: Message, chunks: seq<string>, acts: seq<Act>, ok: bool) {
    if OnePush(s, m) then acts == [Pushed(m, ok)]
    else |chunks| > 1 && ChunksOf(chunks, FinalText(s, m), s.policy.textLimit) && ChunkedPush(s, FinalBody(s, m), chunks, acts, ok)
  }

  /** A final that does not go out in one push has more than one chunk. */
  lemma CutMeansMore(s: Setup, m: Message, chunks: seq<string>)
    requires !OnePush(s, m) && ChunksOf(chunks, FinalText(s, m), s.policy.textLimit)
    ensures |chunks| > 1
  {
    TrimmedIsCut(chunks, PlainText(s.e, FinalBody(s, m).body), s.policy.textLimit);
  }

  lemma TrimmedIsCut(chunks: seq<string>, untrimmed: string, limit: int)
    requires ChunksOf(chunks, Trim(untrimmed), limit) && |Trim(untrimmed)| > limit > 0
    ensures |chunks| > 1
  {
    LongTextsAreCut(chunks, Trim(untrimmed), limit);
  }

  lemma LaterActs(was: seq<Act>, before: seq<Act>, acts: seq<Act>)
    requires was <= before <= acts && |before| == |was| + 1
    ensures acts[|was|..] == before[|was|..] + acts[|before|..] && acts[|was|..][1..] == acts[|before|..]
  {
  }

  // ----- the adapter -----

  /** An adapter's sender, editor and open stream; call number n succeeds if succeeds(n), and the context is
      cancelled during the pause after it if cancelled(n). */
  class Adapter {
    var acts: seq<Act>
    const succeeds: nat -> bool
    const cancelled: nat -> bool

    constructor (succeeds: nat -> bool, cancelled: nat -> bool)
      ensures acts == []
    {
      this.succeeds, this.cancelled, acts := succeeds, cancelled, [];
    }

    method Send(m: Message) returns (ok: bool)
      modifies this
      ensures acts == old(acts) + [Tried(m, ok)]
    {
      ok := succeeds(|acts|);
      acts := acts + [Tried(m, ok)];
    }

    method Push(m: Message) returns (ok: bool)
      modifies this
      ensures acts == old(acts) + [Pushed(m, ok)]
    {
      ok := succeeds(|acts|);
      acts := acts + [Pushed(m, ok)];
    }

    /** sendPreparedWithConfig: tries until one succeeds, the tries are used up, or the context is cancelled. */
    method SendPrepared(item: Message, max: nat) returns (ok: bool)
      requires max > 0
      modifies this
      ensures old(acts) <= acts && Tries(item, acts[|old(acts)|..], max, ok)
      ensures !ok ==> |acts| - |old(acts)| == max || cancelled(|acts| - 1)
    {
      var i := 0;
      while i < max
        invariant 0 <= i <= max && |acts| == |old(acts)| + i && old(acts) <= acts
        invariant forall j :: |old(acts)| <= j < |acts| ==> acts[j] == Tried(item, false)
      {
        ok := Send(item);
        if ok { return true; }
        if cancelled(|acts| - 1) { return false; }
        i := i + 1;
      }
      return false;
    }

    /** The second loop of sendAllWithConfig. */
    method SendAllPrepared(items: seq<Message>, max: nat) returns (ok: bool)
      requires max > 0
      modifies this
      ensures old(acts) <= acts && Run(items, acts[|old(acts)|..], max, ok)
    {
      ghost var start := |acts|;
      for i := 0 to |items|
        invariant old(acts) <= acts && start == |old(acts)| && AllSent(items[..i], acts[start..], max)
      {
        ghost var before := acts;
        ok := SendPrepared(items[i], max);
        ghost var k := |before| - start;
        assert acts[start..][..k] == before[start..] && acts[start..][k..] == acts[|before|..];
        if !ok {
          assert SentUpTo(items, i, acts[start..], max);
          return false;
        }
        assert items[..i + 1][..i] == items[..i];
        assert AllSent(items[..i + 1], acts[start..], max);
      }
      assert items[..|items|] == items;
      return true;
    }

    /** managerReplySender.Send: the message is split, prepared and sent. */
    method SendMessage(s: Setup, m: Message) returns (ok: bool, ghost out: Option<seq<Message>>)
      requires s.retryMax > 0 && NormalizePolicy(s.policy) == s.policy
      modifies this
      ensures old(acts) <= acts
      ensures out.None? ==> !ok && acts == old(acts)
      ensures out.None? <==> IsEmpty(m) || IsEmpty(Ready(s.e, s.policy, s.caps, m))
      ensures out.Some? ==> Delivers(s.policy, Ready(s.e, s.policy, s.caps, m), out.value, s.policy.textLimit)
      ensures out.Some? ==>
        if AllPrepare(s, out.value) then Run(Prepared(s, out.value), acts[|old(acts)|..], s.retryMax, ok)
        else !ok && acts == old(acts)
    {
      var ms := BuildOutboundMessages(s.e, m, s.policy, s.caps);
      out := ms;
      if ms.None? { return false, None; }
      ok := SendAll(s, ms.value);
    }

    /** pushFinalWithChunking. */
    method PushFinal(s: Setup, m: Message) returns (ok: bool, ghost chunks: seq<string>)
      requires s.retryMax > 0
      modifies this
      ensures old(acts) <= acts && FinalPush(s, m, chunks, acts[|old(acts)|..], ok)
      ensures m.body.parts == [] ==>
        if s.policy.textLimit <= 0 || |Trim(m.body.text)| <= s.policy.textLimit then acts == old(acts) + [Pushed(m, ok)]
        else
          && |chunks| > 1 && ChunksOf(chunks, Trim(m.body.text), s.policy.textLimit)
          && ChunkedPush(s, FinalBody(s, m), chunks, acts[|old(acts)|..], ok)
    {
      if m.body.parts == [] { PlainFinal(s, m); }
      var msg := FinalBody(s, m);
      chunks := [];
      if OnePush(s, m) {
        ok := Push(m);
        assert acts[|old(acts)|..] == [Pushed(m, ok)];
        return;
      }
      var pieces := Chunk(msg.body.format.Markdown? || s.policy.markdownMode, FinalText(s, m), s.policy.textLimit);
      chunks := pieces;
      if |pieces| <= 1 {
        ok := Push(m);
        CutMeansMore(s, m, pieces);
      } else {
        ok := PushChunked(s, msg, pieces);
      }
    }

    /** A final in chunks is planned completely before anything goes out; the plan then goes out once: its
        first chunk into the stream and the rest directly, or, if the stream does not take the first chunk,
        all of it directly. */
    method PushChunked(s: Setup, msg: Message, chunks: seq<string>) returns (ok: bool)
      requires s.retryMax > 0 && |chunks| > 1
      modifies this
      ensures old(acts) <= acts && ChunkedPush(s, msg, chunks, acts[|old(acts)|..], ok)
    {
      var plan := PlanChunks(msg, chunks[1..]);
      var overflow := PrepareAll(s, plan);
      if overflow.None? { return false; }
      var first := FirstChunk(msg, chunks[0]);
      ok := Push(first);
      ghost var before := acts;
      assert before[|old(acts)|..] == [Pushed(first, ok)];
      if ok {
        ok := SendAllPrepared(overflow.value, s.retryMax);
      } else {
        ok := SendDirectly(s, msg, chunks);
      }
      LaterActs(old(acts), before, acts);
    }

    /** sendChunkedFinal, for all chunks. */
    method SendDirectly(s: Setup, msg: Message, chunks: seq<string>) returns (ok: bool)
      requires s.retryMax > 0 && chunks != []
      modifies this
      ensures old(acts) <= acts
      ensures var all := Planned(msg, chunks);
        if AllPrepare(s, all) then Run(Prepared(s, all), acts[|old(acts)|..], s.retryMax, ok) else !ok && acts == old(acts)
    {
      var plan := PlanChunks(msg, chunks);
      ok := SendAll(s, plan);
    }

    /** sendAllWithConfig: nothing is sent unless every message can be prepared. */
    method SendAll(s: Setup, ms: seq<Message>) returns (ok: bool)
      requires s.retryMax > 0
      modifies this
      ensures if AllPrepare(s, ms) then old(acts) <= acts && Run(Prepared(s, ms), acts[|old(acts)|..], s.retryMax, ok)
              else !ok && acts == old(acts)
    {
      var items := PrepareAll(s, ms);
      if items.None? { return false; }
      ok := SendAllPrepared(items.value, s.retryMax);
    }
  }

  /** The first loop of sendAllWithConfig. */
  method PrepareAll(s: Setup, ms: seq<Message>) returns (items: Option<seq<Message>>)
    ensures items.Some? <==> AllPrepare(s, ms)
    ensures items.Some? ==> items.value == Prepared(s, ms)
  {
    var done: seq<Message> := [];
    for i := 0 to |ms|
      invariant |done| == i && forall j :: 0 <= j < i ==> Prepare(s, ms[j]) == Some(done[j])
    {
      var item := Prepare(s, ms[i]);
      if item.None? { return None; }
      done := done + [item.value];
    }
    return Some(done);
  }

  // ----- a chunked final that succeeds -----

  lemma PlannedEnds(m: Message, chunks: seq<string>, limit: int)
    requires chunks != [] && Chunkers.Fit(chunks, limit) && limit >= 0 && Trim(chunks[|chunks| - 1]) != []
    ensures Ends(Planned(m, chunks), m, limit)
  {
    var init, last := chunks[..|chunks| - 1], chunks[|chunks| - 1];
    ChunkMessagesAreBare(m, init, limit);
    var front, item := ChunkMessages(m, init, false), ChunkMessage(m, Trim(last), true);
    assert |last| <= limit;
    assert ChunkMessages(m, chunks, true) == front + [item];
    if m.attachments == [] {
      assert Planned(m, chunks) == front + [item];
    } else {
      assert Planned(m, chunks) == front + [item] + [MediaMessage(m)];
      assert (front + [item] + [MediaMessage(m)])[..|front| + 1] == front + [item];
      assert Bare(item, m, limit);
    }
  }

  lemma EndsCons(first: Message, plan: seq<Message>, m: Message, limit: int)
    requires Bare(first, m, limit) && Ends(plan, m, limit)
    ensures Ends([first] + plan, m, limit)
  {
    var longer := [first] + plan;
    assert longer[..|longer| - 1] == [first] + plan[..|plan| - 1];
  }

  lemma PlannedText(m: Message, chunks: seq<string>)
    ensures m.attachments == [] ==> TextsOf(Planned(m, chunks)) == Trimmed(chunks)
    ensures m.attachments != [] ==> TextsOf(Planned(m, chunks)) == Trimmed(chunks) + [""]
  {
    ChunkMessagesText(m, chunks, true);
    if m.attachments == [] {
      assert Planned(m, chunks) == ChunkMessages(m, chunks, true);
    } else {
      TextsOfConcat(ChunkMessages(m, chunks, true), [MediaMessage(m)]);
    }
  }

  lemma CarriesEmpty(chunks: seq<string>, text: string)
    requires Carries(chunks, text)
    ensures Carries(chunks + [""], text)
  {
    CarriesSnoc(chunks, text, "", "");
    assert text + "" + "" == text;
  }

  /** All chunks sent directly deliver the final completely. */
  lemma DirectPlanIsComplete(m: Message, chunks: seq<string>, text: string, limit: int)
    requires Carries(chunks, text) && Chunkers.Fit(chunks, limit) && SolidEnds(chunks) && limit > 0
    ensures Complete(Planned(m, chunks), m, text, limit)
  {
    TrimSolid(chunks[|chunks| - 1]);
    PlannedEnds(m, chunks, limit);
    PlannedText(m, chunks);
    TrimmedCarries(chunks, text);
    if m.attachments != [] { CarriesEmpty(Trimmed(chunks), text); }
  }

  /** So do the first chunk in the stream and the others sent directly. */
  lemma StreamPlanIsComplete(m: Message, first: string, rest: seq<string>, text: string, limit: int)
    requires Carries([first] + rest, text) && Chunkers.Fit(rest, limit) && |first| <= limit && limit > 0
    requires rest != [] && !Blank(rest[|rest| - 1])
    ensures Complete([FirstChunk(m, first)] + Planned(m, rest), m, text, limit)
  {
    TrimSolid(rest[|rest| - 1]);
    PlannedEnds(m, rest, limit);
    EndsCons(FirstChunk(m, first), Planned(m, rest), m, limit);
    StreamPlanCarries(m, first, rest, text);
  }

  lemma StreamPlanCarries(m: Message, first: string, rest: seq<string>, text: string)
    requires Carries([first] + rest, text)
    ensures Carries(TextsOf([FirstChunk(m, first)] + Planned(m, rest)), text)
  {
    FirstKept(first, rest, text);
    PlannedText(m, rest);
    TextsCons(FirstChunk(m, first), Planned(m, rest));
    if m.attachments != [] {
      CarriesEmpty([first] + Trimmed(rest), text);
      AssocEmpty([first], Trimmed(rest));
    }
  }

  lemma TextsCons(first: Message, ms: seq<Message>)
    ensures TextsOf([first] + ms) == [first.body.text] + TextsOf(ms)
  {
  }

  lemma AssocEmpty(a: seq<string>, b: seq<string>)
    ensures a + (b + [""]) == (a + b) + [""]
  {
  }

  /** The messages that a final's plan stands for once they are prepared: the pushed one is sent as it is. */
  ghost predicate Delivered(s: Setup, plan: seq<Message>, sent: seq<Message>) {
    && |sent| == |plan|
    && forall i :: 0 <= i < |plan| ==> Prepare(s, plan[i]) == Some(sent[i]) || (i == 0 && sent[0] == plan[0])
  }

  lemma FirstActCounts(acts: seq<Act>)
    requires acts != []
    ensures Successes(acts) == (if acts[0].ok then [acts[0].m] else []) + Successes(acts[1..])
  {
    assert acts == [acts[0]] + acts[1..];
    SuccessesConcat([acts[0]], acts[1..]);
    assert [acts[0]][..0] == [] && Successes([]) == [];
  }

  lemma PreparedIsDelivered(s: Setup, plan: seq<Message>)
    requires AllPrepare(s, plan)
    ensures Delivered(s, plan, Prepared(s, plan))
  {
  }

  lemma PushedIsDelivered(s: Setup, first: Message, rest: seq<Message>)
    requires AllPrepare(s, rest)
    ensures Delivered(s, [first] + rest, [first] + Prepared(s, rest))
  {
    var plan, sent := [first] + rest, [first] + Prepared(s, rest);
    forall i | 0 < i < |plan| ensures Prepare(s, plan[i]) == Some(sent[i]) {
      assert plan[i] == rest[i - 1] && sent[i] == Prepared(s, rest)[i - 1];
    }
  }

  /** The two ways a chunked final can succeed: the complete plan that is sent. */
  function PlanSent(m: Message, chunks: seq<string>, acts: seq<Act>): seq<Message>
    requires chunks != [] && acts != []
  {
    if acts[0].ok then [FirstChunk(m, chunks[0])] + Planned(m, chunks[1..]) else Planned(m, chunks)
  }

  lemma PlanSentIsComplete(m: Message, text: string, chunks: seq<string>, acts: seq<Act>, limit: int)
    requires ChunksOf(chunks, text, limit) && |chunks| > 1 && limit > 0 && acts != []
    ensures Complete(PlanSent(m, chunks, acts), m, text, limit)
  {
    if acts[0].ok {
      var first, rest := chunks[0], chunks[1..];
      assert chunks == [first] + rest && rest[|rest| - 1] == chunks[|chunks| - 1];
      StreamPlanIsComplete(m, first, rest, text, limit);
    } else {
      DirectPlanIsComplete(m, chunks, text, limit);
    }
  }

  lemma PlanSentIsDelivered(s: Setup, m: Message, chunks: seq<string>, acts: seq<Act>)
    requires chunks != [] && ChunkedPush(s, m, chunks, acts, true)
    ensures Delivered(s, PlanSent(m, chunks, acts), Successes(acts))
  {
    FirstActCounts(acts);
    if acts[0].ok {
      RestIsDelivered(s, FirstChunk(m, chunks[0]), Planned(m, chunks[1..]), acts[1..]);
    } else {
      AllIsDelivered(s, Planned(m, chunks), acts[1..]);
      EmptyEnds(Successes(acts[1..]));
    }
  }

  lemma RestIsDelivered(s: Setup, first: Message, rest: seq<Message>, acts: seq<Act>)
    requires AllPrepare(s, rest) && Run(Prepared(s, rest), acts, s.retryMax, true)
    ensures Delivered(s, [first] + rest, [first] + Successes(acts))
  {
    DeliveredIsAPrefix(Prepared(s, rest), acts, s.retryMax, true);
    PushedIsDelivered(s, first, rest);
  }

  lemma AllIsDelivered(s: Setup, all: seq<Message>, acts: seq<Act>)
    requires AllPrepare(s, all) && Run(Prepared(s, all), acts, s.retryMax, true)
    ensures Delivered(s, all, Successes(acts))
  {
    DeliveredIsAPrefix(Prepared(s, all), acts, s.retryMax, true);
    PreparedIsDelivered(s, all);
  }

  /** A chunked final that succeeds has delivered one complete plan, in order, on exactly one path. */
  lemma ChunkedFinalIsDelivered(s: Setup, m: Message, text: string, chunks: seq<string>, acts: seq<Act>)
    requires ChunksOf(chunks, text, s.policy.textLimit) && |chunks| > 1 && s.policy.textLimit > 0
    requires ChunkedPush(s, m, chunks, acts, true)
    ensures acts != [] && Complete(PlanSent(m, chunks, acts), m, text, s.policy.textLimit)
    ensures Delivered(s, PlanSent(m, chunks, acts), Successes(acts))
  {
    PlanSentIsComplete(m, text, chunks, acts, s.policy.textLimit);
    PlanSentIsDelivered(s, m, chunks, acts);
  }

  lemma GapsAtTheEnds(front: string, chunk: string, gap: string)
    requires Blank(front) && Blank(gap)
    ensures var text := front + chunk + gap;
      (front != [] ==> IsSpace(text[0])) && (gap != [] ==> IsSpace(text[|text| - 1]))
  {
  }

  /** A trimmed text longer than the limit has more than one chunk. */
  lemma LongTextsAreCut(chunks: seq<string>, text: string, limit: int)
    requires ChunksOf(chunks, text, limit) && |text| > limit > 0 && !IsSpace(text[0]) && !IsSpace(text[|text| - 1])
    ensures |chunks| > 1
  {
    if |chunks| == 1 {
      var front, gap := CarriesLast(chunks, text);
      GapsAtTheEnds(front, chunks[0], gap);
    }
  }

  // ----- preparation after splitting -----

  lemma {:induction false} BlankTexts(chunks: seq<string>, text: string, i: nat)
    requires Carries(chunks, text) && Blank(text) && i < |chunks|
    ensures Blank(chunks[i])
    decreases |chunks|
  {
    var front, gap := CarriesLast(chunks, text);
    BlankConcat(front, chunks[|chunks| - 1]);
    BlankConcat(front + chunks[|chunks| - 1], gap);
    if i < |chunks| - 1 { BlankTexts(chunks[..|chunks| - 1], front, i); }
  }

  lemma ReadyIsSettled(s: Setup, m: Message)
    requires s.caps.Some? && !Unsettled(s.e, s.caps.value, m.body)
    ensures Settled(s.e, s.caps.value, Ready(s.e, s.policy, s.caps, m).body)
  {
    OnePassSettles(s.e, s.caps.value, m.body);
  }

  /** Preparing the messages of a delivery changes none of them: what is sent is what was split. */
  lemma SplitMessagesAreSettled(s: Setup, m: Message, out: seq<Message>, i: nat)
    requires s.caps.Some? && !Unsettled(s.e, s.caps.value, m.body) && i < |out|
    requires Delivers(s.policy, Ready(s.e, s.policy, s.caps, m), out, s.policy.textLimit)
    ensures Fitted(s, out[i]) == out[i]
  {
    var n := Ready(s.e, s.policy, s.caps, m);
    ReadyIsSettled(s, m);
    if Blank(n.body.text) && !Inlined(s.policy, n) { BlankTexts(TextsOf(out), n.body.text, i); }
    PieceIsSettled(s.e, s.caps.value, n.body, out[i].body);
    SettledStays(s.e, s.caps.value, out[i].body);
  }

  /** A message that is sent without an error has been delivered as it was split: with the actions last and
      once, all attachments once, and its text once and in order. */
  lemma SentAsSplit(s: Setup, m: Message, out: seq<Message>, acts: seq<Act>)
    requires s.caps.Some? && !Unsettled(s.e, s.caps.value, m.body)
    requires Delivers(s.policy, Ready(s.e, s.policy, s.caps, m), out, s.policy.textLimit)
    requires AllPrepare(s, out) && Run(Prepared(s, out), acts, s.retryMax, true)
    ensures Successes(acts) == out
  {
    DeliveredIsAPrefix(Prepared(s, out), acts, s.retryMax, true);
    forall i | 0 <= i < |out| ensures Prepared(s, out)[i] == out[i] { SplitMessagesAreSettled(s, m, out, i); }
  }

  lemma PieceIsSettled(e: Env, caps: Capabilities, whole: Body, piece: Body)
    requires Settled(e, caps, whole) && (Blank(whole.text) ==> Blank(piece.text))
    requires piece.parts == [] || piece.parts == whole.parts
    requires piece.actions == [] || piece.actions == whole.actions
    requires piece.format == whole.format || (piece.format.Unset? && Blank(piece.text) && piece.parts == [])
    ensures Settled(e, caps, piece)
  {
  }
}
