/** Which text a message shows in the end. */
module ShownText {
  import Chunkers
  import opened Format
  import opened InlineMarkup
  import opened Outbound
  import opened Seqs
  import opened Text
  import opened Wrappers

  // What becomes of the text of a body without parts, from the message that comes in to the messages that are sent.

  // ----- what is shown -----

  /** Marked as Markdown, or not marked as anything the channel could show and found to be Markdown. */
  predicate IsMarkdown(e: Env, caps: Capabilities, b: Body) {
    b.format.Markdown? || ((b.format.Unset? || (b.format.Rich? && !caps.richText)) && !Blank(b.text) && e.containsMarkdown(b.text))
  }

  /** The text as the channel can show it: verbatim, or without its markers where it would show them. */
  ghost function Shown(e: Env, caps: Capabilities, b: Body): string {
    if IsMarkdown(e, caps, b) && !caps.markdown && !caps.richText then KeptFrom(b.text, 0) else b.text
  }

  /** Markdown that is passed on as rich text. */
  predicate Literal(e: Env, caps: Capabilities, b: Body) { IsMarkdown(e, caps, b) && !caps.markdown && caps.richText }

  function TextPartOf(text: string): seq<Part> { if Blank(text) then [] else [TextPart(text)] }

  /** The format of what is shown, if there are no links to be put behind it. */
  function ShownFormat(e: Env, caps: Capabilities, b: Body): MessageFormat {
    if IsMarkdown(e, caps, b) then
      if caps.markdown then Markdown
      else if !caps.richText then Plain
      else if Blank(b.text) then Markdown else Rich
    else if !Blank(b.text) && (b.format.Unset? || (b.format.Rich? && !caps.richText)) then Plain
    else b.format
  }

  // ----- one pass, step by step -----

  /** The body before its Markdown is looked at: only the format may have changed. */
  function Typed(e: Env, caps: Capabilities, b: Body): Body {
    if !caps.richText then NormalizeTextOnlyRich(e, Normalize(e, b)) else Normalize(e, b)
  }

  lemma TypedIs(e: Env, caps: Capabilities, b: Body)
    requires b.parts == []
    ensures var t := Typed(e, caps, b);
      && t == b.(format := t.format)
      && (t.format.Markdown? <==> IsMarkdown(e, caps, b))
      && (!t.format.Markdown? ==> t.format == ShownFormat(e, caps, b))
  {
  }

  lemma ShownIs(e: Env, caps: Capabilities, b: Body)
    ensures Shown(e, caps, b)
         == if IsMarkdown(e, caps, b) && !caps.markdown && !caps.richText then StripInlineMarkup(b.text) else b.text
  {
    StripKeeps(b.text);
  }

  /** The body before its actions are looked at. */
  function Bare(e: Env, caps: Capabilities, b: Body): Body { CoerceParts(e, caps, CoerceMarkdown(caps, Typed(e, caps, b))) }

  lemma BareIs(e: Env, caps: Capabilities, b: Body)
    requires b.parts == []
    ensures var f := Bare(e, caps, b);
      && f.format == ShownFormat(e, caps, b) && f.actions == b.actions
      && (if Literal(e, caps, b) && !Blank(b.text) then f.parts == [TextPart(b.text)] && f.text == ""
          else f.parts == [] && f.text == Shown(e, caps, b))
  {
    TypedIs(e, caps, b);
    ShownIs(e, caps, b);
    MarkdownIs(e, caps, Typed(e, caps, b), Shown(e, caps, b));
  }

  lemma MarkdownIs(e: Env, caps: Capabilities, t: Body, shown: string)
    requires t.parts == [] && shown == if t.format.Markdown? && !caps.markdown && !caps.richText then StripInlineMarkup(t.text) else t.text
    ensures var f := CoerceParts(e, caps, CoerceMarkdown(caps, t));
      if !t.format.Markdown? || caps.markdown then f == t
      else if !caps.richText then f == t.(text := shown, format := Plain)
      else if Blank(t.text) then f == t
      else f == t.(parts := [TextPart(t.text)], text := "", format := Rich)
  {
  }

  /** Without links the text is shown as it is, or, passed on literally, as the one rich part. */
  lemma TextIsShown(e: Env, caps: Capabilities, b: Body)
    requires b.parts == [] && !Downgraded(e, caps, b)
    ensures var f := Fit(e, caps, b);
      && f.format == ShownFormat(e, caps, b) && f.actions == b.actions
      && (if Literal(e, caps, b) && !Blank(b.text) then f.parts == [TextPart(b.text)] && f.text == ""
          else f.parts == [] && f.text == Shown(e, caps, b))
  {
    BareIs(e, caps, b);
    CoerceActionsIs(e, caps, Bare(e, caps, b), LinksOf(b.actions));
  }

  /** Whether links become rich parts. */
  predicate RichLinks(e: Env, caps: Capabilities, b: Body) { caps.richText && (b.format.Rich? || Literal(e, caps, b)) }

  /** The links as text: in Markdown where that is what is shown. */
  function LinkText(e: Env, caps: Capabilities, b: Body): string {
    if IsMarkdown(e, caps, b) && caps.markdown then e.renderMarkdown(LinksOf(b.actions)) else RenderPlain(e, LinksOf(b.actions))
  }

  /** With links, they come behind the text and nothing else does: as further parts, or as a further paragraph. */
  lemma LinksComeBehind(e: Env, caps: Capabilities, b: Body)
    requires b.parts == [] && Downgraded(e, caps, b)
    ensures var f := Fit(e, caps, b); var links := LinkText(e, caps, b);
      && f.actions == []
      && (if RichLinks(e, caps, b) then
            f.format == Rich && Blank(f.text) && f.parts == TextPartOf(b.text) + LinksOf(b.actions)
          else
            && f.parts == [] && (f.format == if ShownFormat(e, caps, b).Unset? then Plain else ShownFormat(e, caps, b))
            && f.text == Trim(Shown(e, caps, b)) + (if Blank(Shown(e, caps, b)) || Blank(links) then "" else "\n\n") + Trim(links))
  {
    BareIs(e, caps, b);
    var m, links := Bare(e, caps, b), LinksOf(b.actions);
    CoerceActionsIs(e, caps, m, links);
    LinksBehind(e, caps, m.(actions := []), links, b, Shown(e, caps, b));
    Appended(Shown(e, caps, b), LinkText(e, caps, b));
  }

  /** What AppendSection makes of two texts. */
  lemma Appended(base: string, extra: string)
    ensures AppendSection(base, extra) == Trim(base) + (if Blank(base) || Blank(extra) then "" else "\n\n") + Trim(extra)
  {
    TrimEmpty(base);
    TrimEmpty(extra);
    EmptyEnds(Trim(base));
    EmptyEnds(Trim(extra));
  }

  lemma LinksBehind(e: Env, caps: Capabilities, m: Body, links: seq<Part>, b: Body, shown: string)
    requires b.parts == [] && links == LinksOf(b.actions) && shown == Shown(e, caps, b)
    requires m.format == ShownFormat(e, caps, b)
    requires if Literal(e, caps, b) && !Blank(b.text) then m.parts == [TextPart(b.text)] && m.text == ""
             else m.parts == [] && m.text == shown
    ensures var f := ShowLinks(e, caps, m, links);
      && f.actions == m.actions
      && (if RichLinks(e, caps, b) then
            f.format == Rich && Blank(f.text) && f.parts == TextPartOf(b.text) + links
          else
            && f.parts == [] && (f.format == if m.format.Unset? then Plain else m.format)
            && f.text == AppendSection(shown, LinkText(e, caps, b)))
  {
    if RichLinks(e, caps, b) {
      AppendedRich(m, links, b.text);
    }
  }

  lemma AppendedRich(m: Body, links: seq<Part>, text: string)
    requires (m.parts == [] && m.text == text) || (!Blank(text) && m.parts == [TextPart(text)] && m.text == "")
    ensures AppendRich(m, links) == m.(text := if m.parts == [] && Blank(text) then text else "", parts := TextPartOf(text) + links)
  {
    EmptyEnds(links);
    EmptyEnds([TextPart(text)]);
  }

  /** A body with parts: its text, if it has any, becomes the first of them; and what it is shown as. */
  lemma PartsAreShown(e: Env, caps: Capabilities, b: Body)
    requires b.parts != []
    ensures var f := Fit(e, caps, b);
      if !caps.richText then f.parts == [] && f.format == if caps.markdown then Markdown else Plain
      else
        && Blank(f.text) && f.parts == TextPartOf(b.text) + b.parts + (if Downgraded(e, caps, b) then LinksOf(b.actions) else [])
        && f.format == if Downgraded(e, caps, b) || b.format.Unset? then Rich else b.format
  {
    var links := LinksOf(b.actions);
    BareParts(e, caps, b);
    CoerceActionsIs(e, caps, Bare(e, caps, b), links);
    if Downgraded(e, caps, b) {
      LinksBehindParts(e, caps, Bare(e, caps, b).(actions := []), links);
    } else {
      EmptyEnds(TextPartOf(b.text) + b.parts);
    }
  }

  lemma BareParts(e: Env, caps: Capabilities, b: Body)
    requires b.parts != []
    ensures var f := Bare(e, caps, b);
      && f.actions == b.actions
      && if !caps.richText then f.parts == [] && f.format == if caps.markdown then Markdown else Plain
         else Blank(f.text) && f.parts == TextPartOf(b.text) + b.parts && f.format == if b.format.Unset? then Rich else b.format
  {
    EmptyEnds(b.parts);
    MarkdownOfParts(e, caps, Typed(e, caps, b));
  }

  lemma MarkdownOfParts(e: Env, caps: Capabilities, t: Body)
    requires t.parts != [] && Blank(t.text)
    ensures var f := CoerceParts(e, caps, CoerceMarkdown(caps, t));
      && f.actions == t.actions
      && if caps.richText then f == t else f.parts == [] && f.format == if caps.markdown then Markdown else Plain
  {
  }

  lemma LinksBehindParts(e: Env, caps: Capabilities, f: Body, links: seq<Part>)
    requires if caps.richText then f.parts != [] && Blank(f.text) else f.parts == [] && (f.format.Markdown? || f.format.Plain?)
    ensures var g := ShowLinks(e, caps, f, links);
      if caps.richText then g == f.(parts := f.parts + links, format := Rich) else g.parts == [] && g.format == f.format
  {
  }

  // ----- in words -----

  /** What a part says, white space left out. */
  function PartWords(e: Env, p: Part): string {
    match p
    case TextPart(text) => Erase(text)
    case LinkPart(title, url) => if Blank(title) || Blank(url) then Erase(title) + Erase(url) else Erase(title) + "(" + Erase(url) + ")"
    case OtherPart(tag) => Erase(e.plainOther(tag))
  }

  function PartsWords(e: Env, parts: seq<Part>): string {
    if parts == [] then [] else PartWords(e, parts[0]) + PartsWords(e, parts[1..])
  }

  /** What a body says. */
  function Words(e: Env, b: Body): string { Erase(b.text) + PartsWords(e, b.parts) }

  lemma LineSays(e: Env, p: Part)
    ensures Erase(PlainLine(e, p)) == PartWords(e, p)
  {
    match p
    case TextPart(text) => EraseTrim(text);
    case LinkPart(title, url) => LinkSays(title, url);
    case OtherPart(tag) =>
  }

  lemma LinkSays(title: string, url: string)
    ensures Erase(PlainLink(Trim(title), Trim(url)))
         == if Blank(title) || Blank(url) then Erase(title) + Erase(url) else Erase(title) + "(" + Erase(url) + ")"
  {
    var t, u := Trim(title), Trim(url);
    EraseTrim(title);
    EraseTrim(url);
    TrimEmpty(title);
    TrimEmpty(url);
    EraseBlank(title);
    EraseBlank(url);
    if t != [] && u != [] {
      EraseConcat(t + " (" + u, ")");
      EraseConcat(t + " (", u);
      EraseConcat(t, " (");
      Bracket();
    } else {
      EmptyEnds(Erase(t));
      EmptyEnds(Erase(u));
    }
  }

  lemma Bracket()
    ensures Erase(" (") == "(" && Erase(")") == ")"
  {
    assert " ("[1..] == "(";
  }

  lemma {:induction false} JoinSays(lines: seq<string>, sep: string, line: string)
    requires Blank(sep)
    ensures Erase(Join([line] + lines, sep)) == Erase(line) + Erase(Join(lines, sep))
  {
    var all := [line] + lines;
    assert all[1..] == lines;
    if lines == [] {
      EmptyEnds(Erase(line));
    } else {
      EraseConcat(line + sep, Join(lines, sep));
      EraseConcat(line, sep);
      EraseBlank(sep);
      EmptyEnds(Erase(line));
    }
  }

  /** The plain rendering of parts says what the parts say, in their order. */
  lemma {:induction false} RenderingSays(e: Env, parts: seq<Part>)
    ensures Erase(RenderPlain(e, parts)) == PartsWords(e, parts)
  {
    if parts != [] {
      var line, lines := PlainLine(e, parts[0]), PlainLines(e, parts[1..]);
      RenderingSays(e, parts[1..]);
      LineSays(e, parts[0]);
      if line == [] {
        assert Erase(line) == [];
        EmptyEnds(lines);
        EmptyEnds(PartsWords(e, parts[1..]));
      } else {
        JoinSays(lines, "\n\n", line);
      }
    }
  }

  /** The line of a part: trimmed, and a link with its address behind its title. */
  function LineOf(e: Env, p: Part): string {
    match p
    case TextPart(text) => Trim(text)
    case LinkPart(title, url) =>
      if Blank(title) then Trim(url) else if Blank(url) then Trim(title) else Trim(title) + " (" + Trim(url) + ")"
    case OtherPart(tag) => e.plainOther(tag)
  }

  /** Lines are put one below the other, with an empty line between them, and empty ones are left out. */
  lemma RenderingJoins(e: Env, p: Part, rest: seq<Part>)
    ensures RenderPlain(e, []) == ""
    ensures RenderPlain(e, [p] + rest)
         == if LineOf(e, p) == "" then RenderPlain(e, rest)
            else if forall i :: 0 <= i < |rest| ==> LineOf(e, rest[i]) == "" then LineOf(e, p)
            else LineOf(e, p) + "\n\n" + RenderPlain(e, rest)
  {
    LineIs(e, p);
    NoLines(e, rest);
    var lines := PlainLines(e, rest);
    assert ([p] + rest)[1..] == rest;
    EmptyEnds(lines);
    assert ([LineOf(e, p)] + lines)[1..] == lines;
  }

  lemma LineIs(e: Env, p: Part)
    ensures PlainLine(e, p) == LineOf(e, p)
  {
    if p.LinkPart? {
      TrimEmpty(p.title);
      TrimEmpty(p.url);
    }
  }

  lemma {:induction false} NoLines(e: Env, parts: seq<Part>)
    ensures PlainLines(e, parts) == [] <==> forall i :: 0 <= i < |parts| ==> LineOf(e, parts[i]) == ""
  {
    if parts != [] {
      NoLines(e, parts[1..]);
      LineIs(e, parts[0]);
      assert forall i :: 0 < i < |parts| ==> parts[i] == parts[1..][i - 1];
    }
  }

  lemma {:induction false} PartsWordsConcat(e: Env, a: seq<Part>, b: seq<Part>)
    ensures PartsWords(e, a + b) == PartsWords(e, a) + PartsWords(e, b)
  {
    if a == [] {
      EmptyEnds(b);
      EmptyEnds(PartsWords(e, b));
    } else {
      Tail(a, b);
      PartsWordsConcat(e, a[1..], b);
      Assoc(PartWords(e, a[0]), PartsWords(e, a[1..]), PartsWords(e, b));
    }
  }

  lemma TextPartSays(e: Env, text: string)
    ensures PartsWords(e, TextPartOf(text)) == Erase(text)
  {
    EraseBlank(text);
    if !Blank(text) {
      assert [TextPart(text)][1..] == [];
      EmptyEnds(Erase(text));
    }
  }

  /** What the links of a body say, as they are shown. */
  function LinkWords(e: Env, caps: Capabilities, b: Body): string {
    if !Downgraded(e, caps, b) then [] else if RichLinks(e, caps, b) then PartsWords(e, LinksOf(b.actions)) else Erase(LinkText(e, caps, b))
  }

  /** A body without parts says, once it fits the channel, what its text says, and then what its links say. */
  lemma FitSays(e: Env, caps: Capabilities, b: Body)
    requires b.parts == []
    ensures Words(e, Fit(e, caps, b)) == Erase(Shown(e, caps, b)) + LinkWords(e, caps, b)
  {
    var f := Fit(e, caps, b);
    var shown := Shown(e, caps, b);
    TextPartSays(e, b.text);
    EraseBlank(f.text);
    if !Downgraded(e, caps, b) {
      TextIsShown(e, caps, b);
      EmptyEnds(Erase(shown));
      EmptyEnds(PartsWords(e, f.parts));
    } else {
      LinksComeBehind(e, caps, b);
      if RichLinks(e, caps, b) {
        PartsWordsConcat(e, TextPartOf(b.text), LinksOf(b.actions));
        EmptyEnds(PartsWords(e, f.parts));
      } else {
        SectionSays(shown, LinkText(e, caps, b));
        EmptyEnds(Erase(f.text));
      }
    }
  }

  lemma SectionSays(base: string, extra: string)
    ensures var gap := if Blank(base) || Blank(extra) then "" else "\n\n";
      Erase(Trim(base) + gap + Trim(extra)) == Erase(base) + Erase(extra)
  {
    EraseTrim(base);
    EraseTrim(extra);
    var gap := if Blank(base) || Blank(extra) then "" else "\n\n";
    GapIsBlank(gap);
    GapSays(Trim(base), gap, Trim(extra));
  }

  lemma GapIsBlank(gap: string)
    requires gap == "" || gap == "\n\n"
    ensures Blank(gap)
  {
  }

  lemma GapSays(a: string, gap: string, b: string)
    requires Blank(gap)
    ensures Erase(a + gap + b) == Erase(a) + Erase(b)
  {
    EraseConcat(a + gap, b);
    EraseConcat(a, gap);
    EraseBlank(gap);
    EmptyEnds(Erase(a));
  }

  // ----- from the message that comes in to the messages that are sent -----

  /** A rich text whose links make it too long for one message, on a channel that also shows Markdown: what is sent is written
      by the Markdown renderer, which is not modelled. */
  predicate WrittenAsMarkdown(e: Env, policy: Policy, caps: Capabilities, m: Message) {
    && caps.markdown && caps.richText && m.body.format.Rich? && Blank(m.id) && Downgraded(e, caps, m.body)
    && |Trim(RenderPlain(e, TextPartOf(m.body.text) + LinksOf(m.body.actions)))| > policy.richLimit > 0
  }

  lemma OversizedIs(e: Env, policy: Policy, caps: Capabilities, m: Message)
    requires m.body.parts == [] && !WrittenAsMarkdown(e, policy, caps, m)
    ensures var f := FitMessage(e, caps, m);
      && (Blank(f.body.text) || f.body.parts == [])
      && (CoerceOversized(e, policy, caps, f) == f || !caps.markdown)
  {
    if Downgraded(e, caps, m.body) { LinksComeBehind(e, caps, m.body); } else { TextIsShown(e, caps, m.body); }
    TrimSolid(RenderPlain(e, Fit(e, caps, m.body).parts));
  }

  lemma OversizedSays(e: Env, policy: Policy, caps: Capabilities, f: Message)
    requires Blank(f.body.text) || f.body.parts == []
    requires CoerceOversized(e, policy, caps, f) == f || !caps.markdown
    ensures var n := CoerceOversized(e, policy, caps, f);
      Words(e, n.body) == Words(e, f.body) && (n == f || n.body.parts == []) && n == f.(body := n.body)
  {
    var n := CoerceOversized(e, policy, caps, f);
    if n != f {
      RenderingSays(e, f.body.parts);
      EraseTrim(RenderPlain(e, f.body.parts));
      EraseBlank(f.body.text);
      EmptyEnds(PartsWords(e, f.body.parts));
      EmptyEnds(Erase(n.body.text));
    }
  }

  /** What a message without parts has to say on a channel: its text as the channel can show it, and its links. */
  ghost function ToSay(e: Env, caps: Option<Capabilities>, b: Body): string {
    match caps
    case None => Erase(b.text)
    case Some(c) => Erase(Shown(e, c, b)) + LinkWords(e, c, b)
  }

  lemma ReadySays(e: Env, policy: Policy, caps: Option<Capabilities>, m: Message)
    requires m.body.parts == [] && (caps.Some? ==> !WrittenAsMarkdown(e, policy, caps.value, m))
    ensures var n := Ready(e, policy, caps, m);
      Words(e, n.body) == ToSay(e, caps, m.body) && (Blank(n.body.text) || n.body.parts == [])
  {
    var n := Ready(e, policy, caps, m);
    if caps.None? {
      assert n.body.text == m.body.text && n.body.parts == [];
      EmptyEnds(Erase(m.body.text));
    } else {
      FitSays(e, caps.value, m.body);
      OversizedIs(e, policy, caps.value, m);
      OversizedSays(e, policy, caps.value, FitMessage(e, caps.value, m));
    }
  }

  /** What the messages of a delivery say, one after the other. */
  function SentWords(e: Env, out: seq<Message>): string {
    if out == [] then [] else SentWords(e, out[..|out| - 1]) + Words(e, out[|out| - 1].body)
  }

  lemma {:induction false} TextsSay(e: Env, out: seq<Message>)
    requires forall i :: 0 <= i < |out| ==> out[i].body.parts == []
    ensures SentWords(e, out) == Erase(Chunkers.Concat(TextsOf(out)))
  {
    if out != [] {
      var init, last := out[..|out| - 1], out[|out| - 1];
      TextsSay(e, init);
      assert TextsOf(out) == TextsOf(init) + [last.body.text];
      assert TextsOf(out)[..|out| - 1] == TextsOf(init);
      EraseConcat(Chunkers.Concat(TextsOf(init)), last.body.text);
      EmptyEnds(Erase(last.body.text));
    }
  }

  lemma {:induction false} PartsSay(e: Env, out: seq<Message>, k: int, parts: seq<Part>)
    requires forall i :: 0 <= i < |out| ==> Blank(out[i].body.text) && out[i].body.parts == if i == k then parts else []
    ensures SentWords(e, out) == if 0 <= k < |out| then PartsWords(e, parts) else []
  {
    if out != [] {
      var init, last := out[..|out| - 1], out[|out| - 1];
      PartsSay(e, init, k, parts);
      EraseBlank(last.body.text);
      EmptyEnds(PartsWords(e, parts));
    }
  }

  /** The messages of a delivery say together what the message says that was split, unless its text is a caption. */
  lemma DeliverySays(e: Env, policy: Policy, n: Message, out: seq<Message>, limit: int)
    requires Delivers(policy, n, out, limit) && !Inlined(policy, n) && (Blank(n.body.text) || n.body.parts == [])
    ensures SentWords(e, out) == Words(e, n.body)
  {
    SentTextIsTheText(policy, n, out, limit);
    if n.body.parts == [] {
      assert forall i :: 0 <= i < |out| ==> out[i].body.parts == [];
      TextsSay(e, out);
      EmptyEnds(Erase(n.body.text));
    } else {
      PartsAlone(policy, n, out, limit);
      PartsSay(e, out, TextAt(policy, |out|), n.body.parts);
      EraseBlank(n.body.text);
      EmptyEnds(PartsWords(e, n.body.parts));
    }
  }

  lemma PartsAlone(policy: Policy, n: Message, out: seq<Message>, limit: int)
    requires Delivers(policy, n, out, limit) && !Inlined(policy, n) && Blank(n.body.text) && n.body.parts != []
    ensures forall i :: 0 <= i < |out| ==> Blank(out[i].body.text)
    ensures 0 <= TextAt(policy, |out|) < |out|
  {
    assert Blank("");
  }

  /** Every message without parts: what is sent says what its text says, as the channel can show it, and then what its links
      say, if its actions become links; or, if the text is the caption of the first attachment, the caption says it. */
  lemma SentSaysTheText(e: Env, policy: Policy, caps: Option<Capabilities>, m: Message, out: seq<Message>, limit: int)
    requires m.body.parts == [] && (caps.Some? ==> !WrittenAsMarkdown(e, policy, caps.value, m))
    requires Delivers(policy, Ready(e, policy, caps, m), out, limit)
    ensures var n := Ready(e, policy, caps, m);
      if Inlined(policy, n) then
        && n.attachments != [] && out != [] && out[MediaAt(policy, |out|)].attachments != []
        && Erase(out[MediaAt(policy, |out|)].attachments[0].caption) == ToSay(e, caps, m.body)
      else SentWords(e, out) == ToSay(e, caps, m.body)
  {
    ReadySays(e, policy, caps, m);
    var n := Ready(e, policy, caps, m);
    if Inlined(policy, n) {
      assert out[MediaAt(policy, |out|)].attachments == Captioned(policy, n);
      EraseTrim(n.body.text);
      EmptyEnds(Erase(n.body.text));
    } else {
      DeliverySays(e, policy, n, out, limit);
    }
  }
}
