/** Which messages can be prepared for sending. */
module Preparation {
  import opened Delivery
  import opened Format
  import opened Outbound
  import opened Seqs
  import opened ShownText
  import opened Text
  import opened Wrappers

  // ----- without capabilities -----

  /** A message on a channel whose capabilities are not known is typed: a format is missing only where there is nothing to
      show.  Its text becomes the first of its parts if it has any. */
  lemma NormalizedIs(e: Env, b: Body)
    ensures var n := Normalize(e, b);
      && n.actions == b.actions
      && (if b.parts == [] then n.parts == [] && n.text == b.text else n.parts == TextPartOf(b.text) + b.parts && Blank(n.text))
      && n.format == (if !b.format.Unset? then b.format
                      else if b.parts != [] then Rich
                      else if Blank(b.text) then Unset
                      else if e.containsMarkdown(b.text) then Markdown else Plain)
  {
    EmptyEnds(b.parts);
  }

  // ----- with capabilities -----

  /** What is shown is marked as plain text. */
  predicate ShownPlain(e: Env, caps: Capabilities, b: Body) {
    if b.parts != [] then
      if caps.richText then b.format.Plain? && !Downgraded(e, caps, b) else !caps.markdown
    else
      && (Downgraded(e, caps, b) ==> !RichLinks(e, caps, b))
      && (ShownFormat(e, caps, b).Plain? || (Downgraded(e, caps, b) && ShownFormat(e, caps, b).Unset?))
  }

  lemma ShownPlainIs(e: Env, caps: Capabilities, b: Body)
    ensures Fit(e, caps, b).format.Plain? <==> ShownPlain(e, caps, b)
  {
    if b.parts != [] {
      PartsAreShown(e, caps, b);
    } else if Downgraded(e, caps, b) {
      LinksComeBehind(e, caps, b);
    } else {
      TextIsShown(e, caps, b);
    }
  }

  /** The channel can show the body: it is not marked as rich text for want of anything else, and plain text is shown where
      that is what it becomes. */
  predicate CanShow(e: Env, caps: Capabilities, b: Body) {
    && (caps.richText || !(b.format.Rich? && Blank(b.text) && b.parts == []))
    && (caps.text || !ShownPlain(e, caps, b))
  }

  /** The channel can carry the rest: attachments, media, actions that are more than links, threads, replies and edits. */
  predicate CanCarry(e: Env, caps: Capabilities, m: Message) {
    && (m.attachments != [] ==> caps.attachments)
    && ((exists a :: a in m.attachments && a.kind in {Audio, Video, Voice, Gif}) ==> caps.media)
    && (m.body.actions != [] ==> caps.buttons || LinksOnly(e, m.body.actions))
    && (m.thread.Some? ==> caps.threads) && (m.reply.Some? ==> caps.reply) && (!Blank(m.id) ==> caps.edit)
  }

  /** An action is nothing but a link if it has no value and its address, trimmed, is one of the web; the link then has that
      address, under the action's title or else under the address itself. */
  lemma LinkIs(e: Env, a: Action)
    ensures IsLink(e, a) <==> Trim(a.value) == "" && Trim(a.url) != "" && e.isHttpUrl(Trim(a.url))
    ensures LinkOf(a) == LinkPart(if Trim(a.title) == "" then Trim(a.url) else Trim(a.title), Trim(a.url))
  {
    TrimEmpty(a.value);
    TrimEmpty(a.url);
    TrimEmpty(a.title);
  }

  lemma FormatAllowedIff(e: Env, caps: Capabilities, b: Body)
    ensures FormatAllowed(caps, Fit(e, caps, b)) <==> CanShow(e, caps, b)
  {
    OnePassSettles(e, caps, b);
    ShownPlainIs(e, caps, b);
    if b.parts != [] {
      PartsAreShown(e, caps, b);
    } else if Downgraded(e, caps, b) {
      LinksComeBehind(e, caps, b);
    } else {
      TextIsShown(e, caps, b);
    }
  }

  lemma MediaIs(attachments: seq<Attachment>)
    ensures RequiresMedia(attachments) <==> exists a :: a in attachments && a.kind in {Audio, Video, Voice, Gif}
  {
    if a :| a in attachments && a.kind in {Audio, Video, Voice, Gif} {
      var i :| 0 <= i < |attachments| && attachments[i] == a;
    }
    if i :| 0 <= i < |attachments| && (attachments[i].kind.Audio? || attachments[i].kind.Video? || attachments[i].kind.Voice? || attachments[i].kind.Gif?) {
      assert attachments[i] in attachments && attachments[i].kind in {Audio, Video, Voice, Gif};
    }
  }

  lemma AllowedIff(e: Env, caps: Capabilities, m: Message)
    ensures Allowed(e, caps, FitMessage(e, caps, m)) <==> CanShow(e, caps, m.body) && CanCarry(e, caps, m)
  {
    FormatAllowedIff(e, caps, m.body);
    ActionsAreAllowed(e, caps, m.body);
    MediaIs(m.attachments);
  }

  /** A message can be prepared exactly if it is not empty, all its attachments can be used, the storage takes it, there is an
      editor if it is an edit, and the channel, if its capabilities are known, can show and carry it; what is sent is then
      the message as it fits the channel. */
  lemma PreparesIff(s: Setup, m: Message)
    ensures Prepare(s, m).Some? <==>
      && !(Blank(m.body.text) && m.body.parts == [] && m.attachments == [] && m.body.actions == [])
      && (forall a :: a in m.attachments ==> s.usable(a))
      && s.stores(Fitted(s, m)) && (Blank(m.id) || s.hasEditor)
      && (s.caps.Some? ==> CanShow(s.e, s.caps.value, m.body) && CanCarry(s.e, s.caps.value, m))
    ensures Prepare(s, m).Some? ==> Prepare(s, m).value == Fitted(s, m)
    ensures Fitted(s, m) == m.(body := if s.caps.Some? then Fit(s.e, s.caps.value, m.body) else Normalize(s.e, m.body))
  {
    if s.caps.Some? { AllowedIff(s.e, s.caps.value, m); }
    assert (forall a :: a in m.attachments ==> s.usable(a)) <==> AllUsable(s, m.attachments) by {
      if AllUsable(s, m.attachments) {
        forall a | a in m.attachments ensures s.usable(a) { var i :| 0 <= i < |m.attachments| && m.attachments[i] == a; }
      }
    }
  }

  /** The plain text of a body, which decides how a stream final is cut, says what the body says, and is trimmed. */
  lemma PlainTextSays(e: Env, b: Body)
    ensures Erase(PlainText(e, b)) == Words(e, b) && Trim(PlainText(e, b)) == PlainText(e, b)
  {
    EraseBlank(b.text);
    EraseTrim(b.text);
    TrimIdempotent(b.text);
    RenderingSays(e, b.parts);
    EraseTrim(RenderPlain(e, b.parts));
    TrimIdempotent(RenderPlain(e, b.parts));
    EmptyEnds(Erase(b.text));
    EmptyEnds(PartsWords(e, b.parts));
    SectionIsTrimmed(Trim(b.text), RenderPlain(e, b.parts));
  }

  lemma SectionIsTrimmed(base: string, extra: string)
    ensures Trim(AppendSection(base, extra)) == AppendSection(base, extra)
    ensures Erase(AppendSection(base, extra)) == Erase(base) + Erase(extra)
  {
    Appended(base, extra);
    SectionSays(base, extra);
    TrimIdempotent(base);
    TrimIdempotent(extra);
    BothEnds(Trim(base), Trim(extra));
  }

  lemma BothEnds(b: string, x: string)
    requires (b != [] ==> !IsSpace(b[0])) && (x != [] ==> !IsSpace(x[|x| - 1]))
    ensures b != [] && x != [] ==> Trim(b + "\n\n" + x) == b + "\n\n" + x
  {
    if b != [] && x != [] {
      Seqs.Ends(b, "\n\n", x);
      TrimFixed(b + "\n\n" + x);
    }
  }
}
