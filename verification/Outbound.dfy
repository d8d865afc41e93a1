/** Splitting one outbound message into the messages that are sent: text cut into chunks, media on its own. */
module Outbound {
  import opened Chunkers
  import opened Format
  import opened Seqs
  import opened Text
  import opened Wrappers

  /** OutboundPolicy; its chunker is the built-in one that the mode names. */
  datatype Policy = Policy(textLimit: int, richLimit: int, markdownMode: bool, textFirst: bool, inlineText: bool)

  /** NormalizeOutboundPolicy. */
  function NormalizePolicy(p: Policy): (r: Policy)
    ensures r.textLimit > 0 && r.richLimit > 0
  {
    var text := if p.textLimit <= 0 then 2000 else p.textLimit;
    p.(textLimit := text, richLimit := if p.richLimit <= 0 then text else p.richLimit)
  }

  // ----- what is split -----

  /** coerceOversizedRichPartsForChunking: rich parts too long for one message become text, which can be cut. */
  function CoerceOversized(e: Env, policy: Policy, caps: Capabilities, m: Message): Message {
    var limit := if caps.richText then policy.richLimit else policy.textLimit;
    if limit <= 0 || m.body.parts == [] || !Blank(m.id) then m
    else
      var plain := Trim(RenderPlain(e, m.body.parts));
      if plain == [] || |plain| <= limit then m
      else if caps.markdown then
        m.(body := m.body.(text := e.renderMarkdown(m.body.parts), format := Markdown, parts := []))
      else m.(body := m.body.(text := plain, format := Plain, parts := []))
  }

  /** The message after normalization and, where the channel's capabilities are known, coercion. */
  function Ready(e: Env, policy: Policy, caps: Option<Capabilities>, m: Message): Message {
    match caps
    case None => m.(body := Normalize(e, m.body))
    case Some(c) => CoerceOversized(e, policy, c, FitMessage(e, c, m))
  }

  predicate Captionable(kind: AttachmentKind) { kind.Image? || kind.Gif? || kind.Video? || kind.Audio? || kind.Voice? }

  /** shouldInlineTextWithMedia. */
  predicate Inlined(policy: Policy, n: Message) {
    policy.inlineText && !Blank(n.body.text) && n.body.parts == [] && n.attachments != []
    && Blank(n.attachments[0].caption) && Captionable(n.attachments[0].kind)
  }

  function Captioned(policy: Policy, n: Message): seq<Attachment> {
    if Inlined(policy, n) then n.attachments[0 := n.attachments[0].(caption := Trim(n.body.text))] else n.attachments
  }

  predicate HasBody(policy: Policy, n: Message) {
    (!Inlined(policy, n) && !Blank(n.body.text)) || n.body.parts != []
  }

  /** mediaShouldCarryActions. */
  predicate MediaCarries(policy: Policy, n: Message) {
    n.attachments != [] && n.body.actions != [] && (!HasBody(policy, n) || policy.textFirst)
  }

  /** The message that the text is cut from. */
  function Base(policy: Policy, n: Message): Message {
    var text := if Inlined(policy, n) then "" else n.body.text;
    var actions := if MediaCarries(policy, n) then [] else n.body.actions;
    n.(body := n.body.(text := text, actions := actions), attachments := [])
  }

  function Media(policy: Policy, n: Message): seq<Message> {
    if n.attachments == [] then []
    else
      var actions := if MediaCarries(policy, n) then n.body.actions else [];
      [n.(body := Body(Unset, "", [], actions), attachments := Captioned(policy, n))]
  }

  predicate ShouldChunk(base: Message, limit: int) {
    limit > 0 && !Blank(base.body.text) && base.body.parts == [] && Blank(base.id)
  }

  // ----- the text messages -----

  function TextsOf(ms: seq<Message>): (r: seq<string>)
    ensures |r| == |ms|
  {
    seq(|ms|, i requires 0 <= i < |ms| => ms[i].body.text)
  }

  /** A piece of the base message: its body's format and its context, but no parts, attachments or forward. */
  function Piece(base: Message, text: string, first: bool, last: bool): Message {
    Message(if first then base.id else "", Body(base.body.format, text, base.body.parts, if last then base.body.actions else []), [],
            base.thread, base.reply, None, base.metadata)
  }

  ghost predicate Cut(texts: seq<Message>, base: Message, limit: int) {
    && texts != []
    && (forall i :: 0 <= i < |texts| ==> texts[i] == Piece(base, texts[i].body.text, i == 0, i == |texts| - 1))
    && (forall i :: 0 <= i < |texts| ==> !Blank(texts[i].body.text) && |texts[i].body.text| <= limit)
    && Carries(TextsOf(texts), base.body.text)
  }

  /** The text messages: the pieces of a text that is cut, or the base message if it is not empty. */
  ghost predicate TextMessages(texts: seq<Message>, base: Message, limit: int) {
    if ShouldChunk(base, limit) then Cut(texts, base, limit) else texts == if IsEmpty(base) then [] else [base]
  }

  method Chunk(markdown: bool, text: string, limit: int) returns (chunks: seq<string>)
    ensures ChunksOf(chunks, text, limit)
  {
    TextChunksKeepTheirPromise(text, limit);
    MarkdownChunksKeepTheirPromise(text, limit);
    if markdown { chunks := ChunkMarkdownText(text, limit); } else { chunks := ChunkText(text, limit); }
  }

  ghost predicate SmallPiece(m: Message, base: Message, first: bool, last: bool, limit: int) {
    m == Piece(base, m.body.text, first, last) && !Blank(m.body.text) && |m.body.text| <= limit
  }

  /** The pieces made so far; when done, the last of them has the actions. */
  ghost predicate Pieces(texts: seq<Message>, base: Message, limit: int, done: bool) {
    forall j :: 0 <= j < |texts| ==> SmallPiece(texts[j], base, j == 0, done && j == |texts| - 1, limit)
  }

  lemma AddPiece(texts: seq<Message>, base: Message, limit: int, done: bool, item: Message)
    requires Pieces(texts, base, limit, false) && SmallPiece(item, base, texts == [], done, limit)
    ensures Pieces(texts + [item], base, limit, done)
    ensures TextsOf(texts + [item]) == TextsOf(texts) + [item.body.text]
  {
    var more := texts + [item];
    forall j | 0 <= j < |more| ensures SmallPiece(more[j], base, j == 0, done && j == |more| - 1, limit) {
      assert j < |texts| ==> SmallPiece(texts[j], base, j == 0, false, limit);
    }
  }

  /** One piece per chunk; the first has the message's id and the last its actions. */
  method CutText(base: Message, limit: int, markdown: bool) returns (texts: seq<Message>)
    requires ShouldChunk(base, limit)
    ensures Cut(texts, base, limit)
  {
    var chunks := Chunk(markdown, base.body.text, limit);
    texts := PiecesOf(base, chunks, limit);
    TrimmedCarries(chunks, base.body.text);
    forall j | 0 <= j < |texts|
      ensures texts[j] == Piece(base, texts[j].body.text, j == 0, j == |texts| - 1)
      ensures !Blank(texts[j].body.text) && |texts[j].body.text| <= limit
    {
      assert SmallPiece(texts[j], base, j == 0, true && j == |texts| - 1, limit);
    }
  }

  /** The loop over the chunks. */
  method PiecesOf(base: Message, chunks: seq<string>, limit: int) returns (texts: seq<Message>)
    requires SolidEnds(chunks) && Chunkers.Fit(chunks, limit)
    ensures texts != [] && Pieces(texts, base, limit, true) && TextsOf(texts) == Trimmed(chunks)
  {
    SolidSegments(chunks);
    texts := [];
    for i := 0 to |chunks|
      invariant i > 0 <==> texts != []
      invariant TextsOf(texts) == Trimmed(chunks[..i])
      invariant Pieces(texts, base, limit, i == |chunks|)
    {
      assert chunks[..i + 1][..i] == chunks[..i];
      var actions := if |chunks| > 1 && i < |chunks| - 1 then [] else base.body.actions;
      texts := AddChunk(texts, base, limit, chunks[i], i == 0, i == |chunks| - 1, actions);
    }
    assert chunks[..|chunks|] == chunks;
  }

  lemma SolidSegments(chunks: seq<string>)
    requires SolidEnds(chunks)
    ensures Segment(chunks[0]) != [] && Segment(chunks[|chunks| - 1]) != []
  {
    TrimSolid(chunks[0]);
    TrimSolid(chunks[|chunks| - 1]);
  }

  /** One chunk of the loop: trimmed, and skipped if blank. */
  method AddChunk(texts: seq<Message>, base: Message, limit: int, piece: string, first: bool, last: bool, actions: seq<Action>)
      returns (r: seq<Message>)
    requires Pieces(texts, base, limit, false) && |piece| <= limit && (first <==> texts == [])
    requires actions == if last then base.body.actions else []
    ensures TextsOf(r) == TextsOf(texts) + Segment(piece)
    ensures Pieces(r, base, limit, last && Segment(piece) != [])
  {
    var chunk := Trim(piece);
    TrimSolid(piece);
    if chunk == [] { return texts; }
    var id := if first then base.id else "";
    var item := Message(id, Body(base.body.format, chunk, base.body.parts, actions), [], base.thread, base.reply, None, base.metadata);
    AddPiece(texts, base, limit, last, item);
    r := texts + [item];
  }

  // ----- the whole delivery -----

  /** Where the media message and a single text message stand among the n messages of a delivery. */
  function MediaAt(policy: Policy, n: nat): int { if policy.textFirst then n - 1 else 0 }
  function TextAt(policy: Policy, n: nat): int { if policy.textFirst then 0 else n - 1 }

  /** The actions are on the last message and on no other. */
  ghost predicate ActionsLast(n: Message, out: seq<Message>) {
    && out != [] && out[|out| - 1].body.actions == n.body.actions
    && forall i :: 0 <= i < |out| - 1 ==> out[i].body.actions == []
  }

  /** All attachments are on one message. */
  ghost predicate AttachmentsOnce(policy: Policy, n: Message, out: seq<Message>) {
    forall i :: 0 <= i < |out| ==>
      out[i].attachments == if n.attachments != [] && i == MediaAt(policy, |out|) then Captioned(policy, n) else []
  }

  /** The message with the attachments has neither text nor parts of its own. */
  ghost predicate MediaBare(policy: Policy, n: Message, out: seq<Message>) {
    n.attachments != [] && out != [] ==>
      var body := out[MediaAt(policy, |out|)].body;
      body.text == "" && body.parts == [] && body.format.Unset?
  }

  /** The text is carried by the texts of the messages, or is the caption of the first attachment. */
  ghost predicate TextKept(policy: Policy, n: Message, out: seq<Message>) {
    if Inlined(policy, n) then
      (forall i :: 0 <= i < |out| ==> Blank(out[i].body.text)) && Captioned(policy, n)[0].caption == Trim(n.body.text)
    else Carries(TextsOf(out), n.body.text)
  }

  /** All parts are on one message. */
  ghost predicate PartsOnce(policy: Policy, n: Message, out: seq<Message>) {
    forall i :: 0 <= i < |out| ==>
      out[i].body.parts == if n.body.parts != [] && i == TextAt(policy, |out|) then n.body.parts else []
  }

  /** Only new text without parts is cut; an edit never is. */
  predicate Cuttable(policy: Policy, n: Message, limit: int) {
    limit > 0 && !Inlined(policy, n) && !Blank(n.body.text) && n.body.parts == [] && Blank(n.id)
  }

  /** Text that is cut is sent in non-blank pieces within the limit, none of them an edit.  Whatever is not cut, an edit
      above all, is one message with the whole text, beside the one with the attachments; both have the message's id,
      and there is none where there is no body. */
  ghost predicate CutOrWhole(policy: Policy, n: Message, out: seq<Message>, limit: int) {
    var media := if n.attachments == [] then 0 else 1;
    if Cuttable(policy, n, limit) then
      && |out| > media
      && (forall i :: 0 <= i < |out| ==> Blank(out[i].id))
      && (forall i :: 0 <= i < |out| && !(media == 1 && i == MediaAt(policy, |out|)) ==>
            !Blank(out[i].body.text) && |out[i].body.text| <= limit)
    else
      && |out| == media + (if media == 0 || HasBody(policy, n) then 1 else 0)
      && (forall i :: 0 <= i < |out| ==> out[i].id == n.id)
      && (forall i :: 0 <= i < |out| && !(media == 1 && i == MediaAt(policy, |out|)) ==>
            out[i].body.text == if Inlined(policy, n) then "" else n.body.text)
  }

  /** Every other message has the format of the message that was split. */
  ghost predicate FormatKept(policy: Policy, n: Message, out: seq<Message>) {
    forall i :: 0 <= i < |out| && !(n.attachments != [] && i == MediaAt(policy, |out|)) ==> out[i].body.format == n.body.format
  }

  ghost predicate ContextKept(n: Message, out: seq<Message>) {
    forall i :: 0 <= i < |out| ==> out[i].thread == n.thread && out[i].reply == n.reply && out[i].metadata == n.metadata
  }

  /** No message is empty, and a forward reference is passed on with everything but the pieces of a text. */
  ghost predicate FullAndForwarded(policy: Policy, n: Message, out: seq<Message>, limit: int) {
    forall i :: 0 <= i < |out| ==>
      && !IsEmpty(out[i])
      && out[i].forward == if ShouldChunk(Base(policy, n), limit) && !(n.attachments != [] && i == MediaAt(policy, |out|))
                           then None else n.forward
  }

  ghost predicate Delivers(policy: Policy, n: Message, out: seq<Message>, limit: int) {
    && ActionsLast(n, out) && AttachmentsOnce(policy, n, out) && MediaBare(policy, n, out) && TextKept(policy, n, out) && PartsOnce(policy, n, out)
    && CutOrWhole(policy, n, out, limit) && FormatKept(policy, n, out) && ContextKept(n, out)
    && FullAndForwarded(policy, n, out, limit)
  }

  function Compose(policy: Policy, texts: seq<Message>, media: seq<Message>): seq<Message> {
    if policy.textFirst then texts + media else media + texts
  }

  /** What the text messages of n have in common, cut or not. */
  ghost predicate TextLike(t: Message, n: Message, actions: seq<Action>, limit: int) {
    && t.attachments == [] && t.body.parts == n.body.parts && t.body.actions == actions && t.body.format == n.body.format
    && t.thread == n.thread && t.reply == n.reply && t.metadata == n.metadata
    && (if Blank(n.id) then Blank(t.id) else t.id == n.id)
    && (Blank(n.id) && n.body.parts == [] ==> Blank(t.body.text) || |t.body.text| <= limit)
  }

  ghost predicate TextsAlike(texts: seq<Message>, n: Message, actions: seq<Action>, limit: int) {
    && (forall i :: 0 <= i < |texts| ==> TextLike(texts[i], n, if i == |texts| - 1 then actions else [], limit))
    && (!Blank(n.id) || n.body.parts != [] ==> |texts| <= 1)
  }

  lemma TextsAreAlike(texts: seq<Message>, base: Message, limit: int)
    requires TextMessages(texts, base, limit) && limit > 0 && base.attachments == []
    ensures TextsAlike(texts, base, base.body.actions, limit)
    ensures texts == [] <==> IsEmpty(base)
  {
    assert Blank("");
    if ShouldChunk(base, limit) {
      forall i | 0 <= i < |texts|
        ensures TextLike(texts[i], base, if i == |texts| - 1 then base.body.actions else [], limit)
      {
        assert texts[i] == Piece(base, texts[i].body.text, i == 0, i == |texts| - 1);
      }
    }
  }

  /** The media message of n, if there is one. */
  ghost predicate MediaLike(policy: Policy, media: seq<Message>, n: Message, actions: seq<Action>) {
    && |media| == (if n.attachments == [] then 0 else 1)
    && forall i :: 0 <= i < |media| ==>
         media[i] == n.(body := Body(Unset, "", [], actions), attachments := Captioned(policy, n))
  }

  lemma TextsCarry(texts: seq<Message>, base: Message, limit: int)
    requires TextMessages(texts, base, limit)
    ensures Carries(TextsOf(texts), base.body.text)
  {
    if !ShouldChunk(base, limit) {
      if IsEmpty(base) {
        assert TextsOf(texts) == [];
      } else {
        assert TextsOf(texts) == [base.body.text];
        CarriesWhole(base.body.text);
      }
    }
  }

  lemma ComposedText(policy: Policy, n: Message, texts: seq<Message>, limit: int)
    requires TextMessages(texts, Base(policy, n), limit) && !Inlined(policy, n)
    ensures Carries(TextsOf(Compose(policy, texts, Media(policy, n))), n.body.text)
  {
    TextsCarry(texts, Base(policy, n), limit);
    MediaCarriesNothing(policy, n);
    ComposeCarries(policy, texts, n.body.text, Media(policy, n));
  }

  lemma ComposeCarries(policy: Policy, texts: seq<Message>, text: string, media: seq<Message>)
    requires Carries(TextsOf(texts), text) && Carries(TextsOf(media), "")
    ensures Carries(TextsOf(Compose(policy, texts, media)), text)
  {
    if policy.textFirst {
      CarriesAppend(TextsOf(texts), text, TextsOf(media), "");
      TextsOfBoth(texts, media);
    } else {
      CarriesAppend(TextsOf(media), "", TextsOf(texts), text);
      TextsOfBoth(media, texts);
    }
    EmptyEnds(text);
  }

  lemma TextsOfBoth(a: seq<Message>, b: seq<Message>)
    ensures TextsOf(a + b) == TextsOf(a) + TextsOf(b)
  {
  }

  lemma ComposedCaption(policy: Policy, n: Message, texts: seq<Message>, limit: int)
    requires TextMessages(texts, Base(policy, n), limit) && Inlined(policy, n)
    ensures TextKept(policy, n, Compose(policy, texts, Media(policy, n)))
  {
    var base, media := Base(policy, n), Media(policy, n);
    assert Blank("") && base.body.text == "" && texts == if IsEmpty(base) then [] else [base];
    assert forall i :: 0 <= i < |media| ==> media[i].body.text == "";
  }

  lemma MediaCarriesNothing(policy: Policy, n: Message)
    ensures Carries(TextsOf(Media(policy, n)), "")
  {
    if n.attachments == [] {
      assert TextsOf(Media(policy, n)) == [];
    } else {
      assert TextsOf(Media(policy, n)) == [""];
      CarriesWhole("");
    }
  }

  lemma NothingIsLost(policy: Policy, n: Message)
    ensures n.attachments == [] && IsEmpty(Base(policy, n)) <==> IsEmpty(n)
    ensures MediaCarries(policy, n) && !policy.textFirst ==> IsEmpty(Base(policy, n))
  {
    assert Blank("");
  }

  lemma ComposedActions(policy: Policy, n: Message, texts: seq<Message>, limit: int)
    requires TextMessages(texts, Base(policy, n), limit) && limit > 0 && !IsEmpty(n)
    ensures ActionsLast(n, Compose(policy, texts, Media(policy, n)))
  {
    TextsAreAlike(texts, Base(policy, n), limit);
    NothingIsLost(policy, n);
  }

  lemma ComposedAttachments(policy: Policy, n: Message, texts: seq<Message>, media: seq<Message>, mine: seq<Action>,
                            theirs: seq<Action>, limit: int)
    requires TextsAlike(texts, n, mine, limit) && MediaLike(policy, media, n, theirs)
    ensures AttachmentsOnce(policy, n, Compose(policy, texts, media))
    ensures MediaBare(policy, n, Compose(policy, texts, media))
  {
    if policy.textFirst {
      assert forall i :: |texts| <= i < |texts + media| ==> (texts + media)[i] == media[i - |texts|];
    } else {
      assert forall i :: |media| <= i < |media + texts| ==> (media + texts)[i] == texts[i - |media|];
    }
  }

  lemma ComposedParts(policy: Policy, n: Message, texts: seq<Message>, media: seq<Message>, mine: seq<Action>,
                      theirs: seq<Action>, limit: int)
    requires TextsAlike(texts, n, mine, limit) && MediaLike(policy, media, n, theirs) && (n.body.parts != [] ==> texts != [])
    ensures PartsOnce(policy, n, Compose(policy, texts, media))
  {
    if policy.textFirst {
      assert forall i :: |texts| <= i < |texts + media| ==> (texts + media)[i] == media[i - |texts|];
    } else {
      assert forall i :: |media| <= i < |media + texts| ==> (media + texts)[i] == texts[i - |media|];
    }
  }

  lemma ComposedRest(policy: Policy, n: Message, texts: seq<Message>, media: seq<Message>, mine: seq<Action>,
                     theirs: seq<Action>, limit: int)
    requires TextsAlike(texts, n, mine, limit) && MediaLike(policy, media, n, theirs)
    ensures ContextKept(n, Compose(policy, texts, media))
    ensures FormatKept(policy, n, Compose(policy, texts, media))
  {
    assert Blank("");
    if policy.textFirst {
      assert forall i :: |texts| <= i < |texts + media| ==> (texts + media)[i] == media[i - |texts|];
    } else {
      assert forall i :: |media| <= i < |media + texts| ==> (media + texts)[i] == texts[i - |media|];
    }
  }

  /** What CutOrWhole says of the text messages. */
  ghost predicate TextsCutOrWhole(policy: Policy, n: Message, texts: seq<Message>, limit: int) {
    if Cuttable(policy, n, limit) then
      && texts != []
      && forall i :: 0 <= i < |texts| ==> Blank(texts[i].id) && !Blank(texts[i].body.text) && |texts[i].body.text| <= limit
    else
      && |texts| == (if n.attachments == [] || HasBody(policy, n) then 1 else 0)
      && forall i :: 0 <= i < |texts| ==> texts[i].id == n.id && texts[i].body.text == if Inlined(policy, n) then "" else n.body.text
  }

  lemma TextsAreCutOrWhole(policy: Policy, n: Message, texts: seq<Message>, limit: int)
    requires TextMessages(texts, Base(policy, n), limit) && limit > 0 && !IsEmpty(n)
    ensures TextsCutOrWhole(policy, n, texts, limit)
  {
    var base := Base(policy, n);
    assert Blank("");
    if ShouldChunk(base, limit) {
      forall i | 0 <= i < |texts|
        ensures Blank(texts[i].id) && !Blank(texts[i].body.text) && |texts[i].body.text| <= limit
      {
        assert texts[i] == Piece(base, texts[i].body.text, i == 0, i == |texts| - 1);
      }
    }
  }

  lemma ComposedCutOrWhole(policy: Policy, n: Message, texts: seq<Message>, limit: int)
    requires TextsCutOrWhole(policy, n, texts, limit)
    ensures CutOrWhole(policy, n, Compose(policy, texts, Media(policy, n)), limit)
  {
    var media := Media(policy, n);
    if policy.textFirst {
      assert forall i :: |texts| <= i < |texts + media| ==> (texts + media)[i] == media[i - |texts|];
    } else {
      assert forall i :: |media| <= i < |media + texts| ==> (media + texts)[i] == texts[i - |media|];
    }
  }

  lemma TextsAreFull(texts: seq<Message>, base: Message, limit: int)
    requires TextMessages(texts, base, limit)
    ensures forall i :: 0 <= i < |texts| ==>
      !IsEmpty(texts[i]) && texts[i].forward == if ShouldChunk(base, limit) then None else base.forward
  {
    if ShouldChunk(base, limit) {
      forall i | 0 <= i < |texts| ensures !IsEmpty(texts[i]) && texts[i].forward == None {
        assert texts[i] == Piece(base, texts[i].body.text, i == 0, i == |texts| - 1);
      }
    }
  }

  lemma ComposedFull(policy: Policy, n: Message, texts: seq<Message>, limit: int)
    requires TextMessages(texts, Base(policy, n), limit)
    ensures FullAndForwarded(policy, n, Compose(policy, texts, Media(policy, n)), limit)
  {
    TextsAreFull(texts, Base(policy, n), limit);
    FullTogether(policy, n, texts, Media(policy, n), ShouldChunk(Base(policy, n), limit), limit);
  }

  lemma FullTogether(policy: Policy, n: Message, texts: seq<Message>, media: seq<Message>, chunked: bool, limit: int)
    requires chunked == ShouldChunk(Base(policy, n), limit) && |media| == if n.attachments == [] then 0 else 1
    requires forall i :: 0 <= i < |texts| ==> !IsEmpty(texts[i]) && texts[i].forward == if chunked then None else n.forward
    requires forall i :: 0 <= i < |media| ==> !IsEmpty(media[i]) && media[i].forward == n.forward
    ensures FullAndForwarded(policy, n, Compose(policy, texts, media), limit)
  {
    if policy.textFirst {
      assert forall i :: |texts| <= i < |texts + media| ==> (texts + media)[i] == media[i - |texts|];
    } else {
      assert forall i :: |media| <= i < |media + texts| ==> (media + texts)[i] == texts[i - |media|];
    }
  }

  lemma Composed(policy: Policy, n: Message, texts: seq<Message>, limit: int)
    requires TextMessages(texts, Base(policy, n), limit) && limit > 0 && !IsEmpty(n)
    ensures Delivers(policy, n, Compose(policy, texts, Media(policy, n)), limit)
  {
    var base, media := Base(policy, n), Media(policy, n);
    ComposedActions(policy, n, texts, limit);
    if Inlined(policy, n) { ComposedCaption(policy, n, texts, limit); } else { ComposedText(policy, n, texts, limit); }
    TextsAreAlike(texts, base, limit);
    var theirs := if MediaCarries(policy, n) then n.body.actions else [];
    ComposedAttachments(policy, n, texts, media, base.body.actions, theirs, limit);
    ComposedParts(policy, n, texts, media, base.body.actions, theirs, limit);
    ComposedRest(policy, n, texts, media, base.body.actions, theirs, limit);
    ComposedFull(policy, n, texts, limit);
    TextsAreCutOrWhole(policy, n, texts, limit);
    ComposedCutOrWhole(policy, n, texts, limit);
  }

  /** buildOutboundMessagesWithCaps: fails exactly when there is nothing to send; otherwise every action,
      attachment, part and non-blank piece of text of the message is sent, and sent once. */
  method BuildOutboundMessages(e: Env, m: Message, policy0: Policy, caps: Option<Capabilities>)
      returns (out: Option<seq<Message>>)
    ensures var policy := NormalizePolicy(policy0); var n := Ready(e, policy, caps, m);
      && (out.None? <==> IsEmpty(m) || IsEmpty(n))
      && (out.Some? ==> Delivers(policy, n, out.value, policy.textLimit))
  {
    if IsEmpty(m) { return None; }
    var policy := NormalizePolicy(policy0);
    var normalized := Ready(e, policy, caps, m);
    var attachments := normalized.attachments;
    var base := normalized;
    if Inlined(policy, normalized) {
      attachments := attachments[0 := attachments[0].(caption := Trim(base.body.text))];
      base := base.(body := base.body.(text := ""));
    }
    var mediaCarriesActions := MediaCarries(policy, normalized);
    if mediaCarriesActions { base := base.(body := base.body.(actions := [])); }
    base := base.(attachments := []);
    assert base == Base(policy, normalized);
    var texts: seq<Message> := [];
    if ShouldChunk(base, policy.textLimit) {
      texts := CutText(base, policy.textLimit, base.body.format.Markdown? || policy.markdownMode);
    } else if !IsEmpty(base) {
      texts := [base];
    }
    var media: seq<Message> := [];
    if attachments != [] {
      var actions := if mediaCarriesActions then normalized.body.actions else [];
      media := [normalized.(body := Body(Unset, "", [], actions), attachments := attachments)];
    }
    NothingIsLost(policy, normalized);
    if !IsEmpty(normalized) { Composed(policy, normalized, texts, policy.textLimit); }
    TextsAreAlike(texts, base, policy.textLimit);
    if texts == [] && media == [] { return None; }
    return Some(if policy.textFirst then texts + media else media + texts);
  }

  // ----- consequences -----

  /** When no text becomes a caption, the texts sent are the text with only white space left out. */
  lemma SentTextIsTheText(policy: Policy, n: Message, out: seq<Message>, limit: int)
    requires Delivers(policy, n, out, limit) && !Inlined(policy, n)
    ensures Erase(Concat(TextsOf(out))) == Erase(n.body.text)
  {
    CarriesKeepsText(TextsOf(out), n.body.text);
  }

  /** An edit is never cut: it is two messages exactly if it has both attachments and a body, both edit the same message,
      and a text that is not a caption stays whole on one of them. */
  lemma EditStaysWhole(policy: Policy, n: Message, out: seq<Message>, limit: int)
    requires Delivers(policy, n, out, limit) && !Blank(n.id)
    ensures 1 <= |out| <= 2 && (|out| == 2 <==> n.attachments != [] && HasBody(policy, n))
    ensures forall i :: 0 <= i < |out| ==> out[i].id == n.id
    ensures !Inlined(policy, n) && !Blank(n.body.text) ==> out[TextAt(policy, |out|)].body.text == n.body.text
    ensures Inlined(policy, n) ==> forall i :: 0 <= i < |out| ==> out[i].body.text == ""
  {
  }
}
