/** Details of what is sent: limits, captions, and the text that oversized parts become. */
module SentDetails {
  import opened Format
  import opened Outbound
  import opened Preparation
  import opened Seqs
  import opened ShownText
  import opened Text
  import opened Wrappers
  import Chunkers

  /** A limit that is not set is 2000, and a limit for rich text that is not set is the one for text; limits that are set, and
      the modes, stay as they are. */
  lemma PolicyIs(p: Policy)
    ensures var n := NormalizePolicy(p);
      && (p.textLimit > 0 ==> n.textLimit == p.textLimit) && (p.textLimit <= 0 ==> n.textLimit == 2000)
      && (p.richLimit > 0 ==> n.richLimit == p.richLimit) && (p.richLimit <= 0 ==> n.richLimit == n.textLimit)
      && n.markdownMode == p.markdownMode && n.textFirst == p.textFirst && n.inlineText == p.inlineText
      && NormalizePolicy(n) == n
  {
  }

  /** What is split, on a channel whose capabilities are not known: the message, typed, with its text as its first part if it
      has parts. */
  lemma ReadyUnknown(e: Env, policy: Policy, m: Message)
    ensures var n := Ready(e, policy, None, m);
      && n == m.(body := n.body) && n.body.actions == m.body.actions
      && (if m.body.parts == [] then n.body.parts == [] && n.body.text == m.body.text
          else n.body.parts == TextPartOf(m.body.text) + m.body.parts && Blank(n.body.text))
      && n.body.format == (if !m.body.format.Unset? then m.body.format
                           else if m.body.parts != [] then Rich
                           else if Blank(m.body.text) then Unset
                           else if e.containsMarkdown(m.body.text) then Markdown else Plain)
  {
    NormalizedIs(e, m.body);
  }

  /** On one whose capabilities are known: the message as it fits the channel, except that parts of a new message whose plain
      rendering is too long for one message become text, in Markdown where the channel shows it. */
  lemma ReadyKnown(e: Env, policy: Policy, caps: Capabilities, m: Message)
    ensures var n := Ready(e, policy, Some(caps), m); var f := Fit(e, caps, m.body);
      var plain := Trim(RenderPlain(e, f.parts)); var limit := if caps.richText then policy.richLimit else policy.textLimit;
      n == m.(body := if Blank(m.id) && f.parts != [] && 0 < limit < |plain| then
                        f.(parts := [], text := if caps.markdown then e.renderMarkdown(f.parts) else plain,
                           format := if caps.markdown then Markdown else Plain)
                      else f)
  {
  }

  /** The text becomes the caption of the first attachment exactly if the policy says so, there is text and no parts, and that
      attachment is of a kind that shows captions and has none; no text is sent beside it then.  Otherwise all attachments go
      out as they are, and the text is carried by the messages. */
  lemma CaptionedIff(policy: Policy, n: Message, out: seq<Message>, limit: int)
    requires Delivers(policy, n, out, limit) && n.attachments != []
    ensures var first, media := n.attachments[0], out[MediaAt(policy, |out|)];
      if policy.inlineText && !Blank(n.body.text) && n.body.parts == [] && Blank(first.caption)
         && first.kind in {Image, Gif, Video, Audio, Voice} then
        && media.attachments == [first.(caption := Trim(n.body.text))] + n.attachments[1..]
        && (forall i :: 0 <= i < |out| ==> Blank(out[i].body.text))
      else media.attachments == n.attachments && Chunkers.Carries(TextsOf(out), n.body.text)
  {
    assert out[MediaAt(policy, |out|)].attachments == Captioned(policy, n);
    if Inlined(policy, n) {
      var all := n.attachments;
      assert all[0 := all[0].(caption := Trim(n.body.text))] == [all[0].(caption := Trim(n.body.text))] + all[1..];
    }
  }
}
