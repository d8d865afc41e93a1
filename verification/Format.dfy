/** Outbound messages and the coercion that fits them to what a channel can show. */
module Format {
  import opened Seqs
  import opened Text
  import opened Wrappers

  datatype MessageFormat = Unset | Plain | Markdown | Rich | Unknown(name: string)

  /** A rich part: a text, a link, or one of the kinds that coercion never makes itself. */
  datatype Part = TextPart(text: string) | LinkPart(title: string, url: string) | OtherPart(tag: nat)

  datatype Action = Action(title: string, value: string, url: string, row: int)

  datatype AttachmentKind = Image | Audio | Video | Voice | File | Gif | UnknownKind

  datatype Attachment = Attachment(kind: AttachmentKind, ref: nat, caption: string)

  /** What a message shows and offers: the part that coercion rewrites. */
  datatype Body = Body(format: MessageFormat, text: string, parts: seq<Part>, actions: seq<Action>)

  /** Message; threads, replies, forwards and metadata are passed on and never looked into. */
  datatype Message = Message(
    id: string, body: Body, attachments: seq<Attachment>, thread: Option<nat>, reply: Option<nat>, forward: Option<nat>,
    metadata: nat)

  predicate IsEmpty(m: Message) {
    Blank(m.body.text) && m.body.parts == [] && m.attachments == [] && m.body.actions == []
  }

  datatype Capabilities = Capabilities(
    text: bool, markdown: bool, richText: bool, attachments: bool, media: bool, buttons: bool, urlButtons: bool,
    reply: bool, threads: bool, edit: bool)

  /** The parts of the program that are not modelled: the Markdown detector, the Markdown renderer, the plain
      rendering of the other kinds of part, and the URL check. */
  datatype Env = Env(
    containsMarkdown: string -> bool, renderMarkdown: seq<Part> -> string, plainOther: nat -> string,
    isHttpUrl: string -> bool)

  // ----- rendering -----

  function PlainLink(title: string, url: string): string {
    if title != [] && url != [] then title + " (" + url + ")" else if url != [] then url else title
  }

  function PlainLine(e: Env, p: Part): string {
    match p
    case TextPart(text) => Trim(text)
    case LinkPart(title, url) => PlainLink(Trim(title), Trim(url))
    case OtherPart(tag) => e.plainOther(tag)
  }

  function PlainLines(e: Env, parts: seq<Part>): seq<string> {
    if parts == [] then []
    else (if PlainLine(e, parts[0]) == [] then [] else [PlainLine(e, parts[0])]) + PlainLines(e, parts[1..])
  }

  function RenderPlain(e: Env, parts: seq<Part>): string { Join(PlainLines(e, parts), "\n\n") }

  /** strings.ReplaceAll(s, "**", ""). */
  function DropStars(s: string): string {
    if |s| >= 2 && s[0] == '*' && s[1] == '*' then DropStars(s[2..]) else if s == [] then [] else [s[0]] + DropStars(s[1..])
  }

  /** strings.ReplaceAll(s, "`", ""). */
  function DropTicks(s: string): string {
    if s == [] then [] else (if s[0] == '`' then [] else [s[0]]) + DropTicks(s[1..])
  }

  function StripInlineMarkup(s: string): string { DropTicks(DropStars(s)) }

  // ----- normalizeOutboundMessage -----

  function NormalizeMixedRichParts(m: Body): Body {
    if m.parts == [] || Blank(m.text) then m
    else m.(parts := [TextPart(m.text)] + m.parts, text := "", format := if m.format.Unset? then Rich else m.format)
  }

  function TextFormat(e: Env, text: string): MessageFormat { if e.containsMarkdown(text) then Markdown else Plain }

  function Normalize(e: Env, m0: Body): Body {
    var m := NormalizeMixedRichParts(m0);
    if !m.format.Unset? then m
    else if m.parts != [] then m.(format := Rich)
    else if !Blank(m.text) then m.(format := TextFormat(e, m.text))
    else m
  }

  // ----- coerceFormatForCaps -----

  function NormalizeTextOnlyRich(e: Env, m: Body): Body {
    if !m.format.Rich? || m.parts != [] || Blank(m.text) then m else m.(format := TextFormat(e, m.text))
  }

  function CoerceMarkdown(caps: Capabilities, m: Body): Body {
    if !m.format.Markdown? || caps.markdown then m
    else if caps.richText && !Blank(m.text) then m.(parts := [TextPart(m.text)], text := "", format := Rich)
    else if !caps.richText then m.(text := StripInlineMarkup(m.text), format := Plain)
    else m
  }

  function CoerceParts(e: Env, caps: Capabilities, m: Body): Body {
    if m.parts == [] || caps.richText then m
    else if caps.markdown then m.(text := e.renderMarkdown(m.parts), format := Markdown, parts := [])
    else m.(text := RenderPlain(e, m.parts), format := Plain, parts := [])
  }

  /** An action that is nothing but a link. */
  predicate IsLink(e: Env, a: Action) { Blank(a.value) && !Blank(a.url) && e.isHttpUrl(Trim(a.url)) }

  predicate LinksOnly(e: Env, actions: seq<Action>) { forall i :: 0 <= i < |actions| ==> IsLink(e, actions[i]) }

  function LinkOf(a: Action): Part { LinkPart(if Blank(a.title) then Trim(a.url) else Trim(a.title), Trim(a.url)) }

  function LinksOf(actions: seq<Action>): (parts: seq<Part>)
    ensures |parts| == |actions|
  {
    if actions == [] then [] else LinksOf(actions[..|actions| - 1]) + [LinkOf(actions[|actions| - 1])]
  }

  /** The link an action stands for, if it is nothing else. */
  function AsLink(e: Env): Action -> Option<Part> { a => if IsLink(e, a) then Some(LinkOf(a)) else None }

  /** The parts of all actions, or none if one of them has none. */
  function AllParsed(parse: Action -> Option<Part>, actions: seq<Action>): Option<seq<Part>> {
    if actions == [] then Some([])
    else
      var init, last := AllParsed(parse, actions[..|actions| - 1]), parse(actions[|actions| - 1]);
      if init.Some? && last.Some? then Some(init.value + [last.value]) else None
  }

  lemma {:induction false} AllParsedStaysNone(parse: Action -> Option<Part>, actions: seq<Action>, i: nat)
    requires i <= |actions| && AllParsed(parse, actions[..i]).None?
    ensures AllParsed(parse, actions).None?
  {
    if i < |actions| {
      assert actions[..|actions| - 1][..i] == actions[..i];
      AllParsedStaysNone(parse, actions[..|actions| - 1], i);
    } else {
      assert actions[..i] == actions;
    }
  }

  lemma AllSnoc(test: Action -> bool, init: seq<Action>, last: Action)
    ensures (forall i :: 0 <= i <= |init| ==> test((init + [last])[i]))
       <==> test(last) && forall i :: 0 <= i < |init| ==> test(init[i])
  {
    var all := init + [last];
    assert all[|init|] == last && forall i :: 0 <= i < |init| ==> all[i] == init[i];
  }

  lemma {:induction false} AllLinks(e: Env, actions: seq<Action>)
    ensures AllParsed(AsLink(e), actions) == if LinksOnly(e, actions) then Some(LinksOf(actions)) else None
  {
    if actions != [] {
      var init, last := actions[..|actions| - 1], actions[|actions| - 1];
      AllLinks(e, init);
      AllSnoc(a => IsLink(e, a), init, last);
      InitLast(actions);
    }
  }

  /** urlActionParts gives up at the first action that is more than a link. */
  method UrlActionParts(e: Env, actions: seq<Action>) returns (parts: Option<seq<Part>>)
    ensures parts == if LinksOnly(e, actions) then Some(LinksOf(actions)) else None
  {
    AllLinks(e, actions);
    parts := CollectParts(e, AsLink(e), actions);
  }

  /** Its loop. */
  method CollectParts(e: Env, ghost parse: Action -> Option<Part>, actions: seq<Action>) returns (parts: Option<seq<Part>>)
    requires parse == AsLink(e)
    ensures parts == AllParsed(parse, actions)
  {
    var out: seq<Part> := [];
    for i := 0 to |actions|
      invariant AllParsed(parse, actions[..i]) == Some(out)
    {
      assert actions[..i + 1][..i] == actions[..i];
      var part := UrlActionPart(e, actions[i], parse);
      if part.None? {
        AllParsedStaysNone(parse, actions, i + 1);
        return None;
      }
      out := out + [part.value];
    }
    assert actions[..|actions|] == actions;
    return Some(out);
  }

  method UrlActionPart(e: Env, action: Action, ghost parse: Action -> Option<Part>) returns (part: Option<Part>)
    requires parse == AsLink(e)
    ensures part == parse(action)
  {
    TrimEmpty(action.value);
    TrimEmpty(action.url);
    TrimEmpty(action.title);
    if Trim(action.value) != [] { return None; }
    var rawUrl := Trim(action.url);
    if rawUrl == [] || !e.isHttpUrl(rawUrl) { return None; }
    var title := Trim(action.title);
    if title == [] { title := rawUrl; }
    return Some(LinkPart(title, rawUrl));
  }

  function AppendSection(base: string, extra: string): string {
    var b, x := Trim(base), Trim(extra);
    if b == [] then x else if x == [] then b else b + "\n\n" + x
  }

  function AppendRich(m: Body, parts: seq<Part>): Body {
    if !Blank(m.text) then m.(parts := [TextPart(m.text)] + m.parts + parts, text := "") else m.(parts := m.parts + parts)
  }

  /** Links shown the best way the channel and the rest of the body allow. */
  function ShowLinks(e: Env, caps: Capabilities, m: Body, parts: seq<Part>): Body {
    if caps.richText && (m.format.Rich? || m.parts != []) then AppendRich(m, parts).(format := Rich)
    else if m.format.Markdown? && caps.markdown then m.(text := AppendSection(m.text, e.renderMarkdown(parts)))
    else if m.format.Markdown? && caps.richText then AppendRich(m, parts).(format := Rich)
    else m.(text := AppendSection(m.text, RenderPlain(e, parts)), format := if m.format.Unset? then Plain else m.format)
  }

  function CoerceLinks(e: Env, caps: Capabilities, m: Body): Body {
    if !LinksOnly(e, m.actions) then m else ShowLinks(e, caps, m, LinksOf(m.actions)).(actions := [])
  }

  function CoerceActions(e: Env, caps: Capabilities, m: Body): Body {
    if m.actions != [] && !caps.buttons && !caps.urlButtons then CoerceLinks(e, caps, m) else m
  }

  function Coerce(e: Env, caps: Capabilities, m: Body): Body {
    var m1 := if !caps.richText then NormalizeTextOnlyRich(e, m) else m;
    CoerceActions(e, caps, CoerceParts(e, caps, CoerceMarkdown(caps, m1)))
  }

  /** What every message goes through, once when it is split up and once more when it is prepared. */
  function Fit(e: Env, caps: Capabilities, m: Body): Body { Coerce(e, caps, Normalize(e, m)) }

  function FitMessage(e: Env, caps: Capabilities, m: Message): Message { m.(body := Fit(e, caps, m.body)) }

  // ----- validateMessageAgainstCapabilities -----

  predicate FormatAllowed(caps: Capabilities, m: Body) {
    && (m.format.Plain? ==> caps.text)
    && (m.format.Markdown? ==> caps.markdown || caps.richText)
    && (m.format.Rich? ==> caps.richText)
    && (m.parts != [] ==> caps.richText)
  }

  predicate RequiresMedia(attachments: seq<Attachment>) {
    exists i :: 0 <= i < |attachments|
      && (attachments[i].kind.Audio? || attachments[i].kind.Video? || attachments[i].kind.Voice? || attachments[i].kind.Gif?)
  }

  predicate AttachmentsAllowed(caps: Capabilities, m: Message) {
    m.attachments != [] ==> caps.attachments && (RequiresMedia(m.attachments) ==> caps.media)
  }

  predicate ActionsAllowed(e: Env, caps: Capabilities, m: Body) {
    m.actions != [] && !caps.buttons ==> caps.urlButtons && LinksOnly(e, m.actions)
  }

  predicate Allowed(e: Env, caps: Capabilities, m: Message) {
    && FormatAllowed(caps, m.body) && AttachmentsAllowed(caps, m) && ActionsAllowed(e, caps, m.body)
    && (m.thread.Some? ==> caps.threads) && (m.reply.Some? ==> caps.reply) && (!Blank(m.id) ==> caps.edit)
  }

  // ----- what coercion achieves -----

  /** A message marked as rich text that has no text: the one kind that coercion cannot retype. */
  predicate RichAndBare(m: Body) { m.format.Rich? && Blank(m.text) && m.parts == [] }

  predicate Downgraded(e: Env, caps: Capabilities, m: Body) {
    m.actions != [] && !caps.buttons && !caps.urlButtons && LinksOnly(e, m.actions)
  }

  /** Actions are rejected after coercion exactly when the channel has no buttons and some action is more
      than a link. */
  lemma ActionsAreAllowed(e: Env, caps: Capabilities, m: Body)
    ensures ActionsAllowed(e, caps, Fit(e, caps, m)) <==> (caps.buttons || m.actions == [] || LinksOnly(e, m.actions))
  {
  }

  /** The body with its parts behind its text, as one list. */
  function AllParts(m: Body): seq<Part> { (if Blank(m.text) then [] else [TextPart(m.text)]) + m.parts }

  /** Parts are never lost where they can be shown: they stay, behind the text and in front of links. */
  lemma PartsAreKept(e: Env, caps: Capabilities, m: Body)
    requires m.parts != [] && caps.richText
    ensures Fit(e, caps, m).parts == AllParts(m) + if Downgraded(e, caps, m) then LinksOf(m.actions) else []
  {
    var n := Normalize(e, m);
    assert n.parts == AllParts(m) && Blank(n.text);
    assert CoerceParts(e, caps, CoerceMarkdown(caps, n)) == n;
  }

  function Render(e: Env, caps: Capabilities, parts: seq<Part>): string {
    if caps.markdown then e.renderMarkdown(parts) else RenderPlain(e, parts)
  }

  /** Elsewhere they become the text, and links are put behind them. */
  lemma PartsAreRendered(e: Env, caps: Capabilities, m: Body)
    requires m.parts != [] && !caps.richText
    ensures Fit(e, caps, m).parts == []
    ensures var rendered := Render(e, caps, AllParts(m));
      Fit(e, caps, m).text
      == if Downgraded(e, caps, m) then AppendSection(rendered, Render(e, caps, LinksOf(m.actions))) else rendered
  {
    var n := Normalize(e, m);
    assert n.parts == AllParts(m) && n.actions == m.actions;
    var shown := CoerceParts(e, caps, CoerceMarkdown(caps, n));
    assert shown == n.(text := Render(e, caps, n.parts), format := if caps.markdown then Markdown else Plain, parts := []);
  }

  /** The actions of a message stay as they are unless all of them become links. */
  lemma ActionsSurvive(e: Env, caps: Capabilities, m: Body)
    ensures Fit(e, caps, m).actions == if Downgraded(e, caps, m) then [] else m.actions
  {
    var m1 := if !caps.richText then NormalizeTextOnlyRich(e, Normalize(e, m)) else Normalize(e, m);
    assert CoerceParts(e, caps, CoerceMarkdown(caps, m1)).actions == m.actions;
  }

  lemma TrimmedLink(e: Env, title: string, url: string)
    requires title != [] && Trim(title) == title && url != [] && Trim(url) == url
    ensures !Blank(PlainLine(e, LinkPart(title, url)))
  {
    TrimEmpty(title);
    BlankConcat(title + " (" + url, ")");
    assert !IsSpace(")"[0]);
  }

  lemma LinkIsVisible(e: Env, a: Action)
    requires IsLink(e, a)
    ensures !Blank(PlainLine(e, LinkOf(a)))
  {
    TrimEmpty(a.url);
    TrimEmpty(a.title);
    TrimIdempotent(a.url);
    TrimIdempotent(a.title);
    TrimmedLink(e, LinkOf(a).title, LinkOf(a).url);
  }

  lemma LinksAreVisible(e: Env, actions: seq<Action>)
    requires actions != [] && LinksOnly(e, actions)
    ensures !Blank(RenderPlain(e, LinksOf(actions)))
  {
    FirstLink(actions);
    LinkIsVisible(e, actions[0]);
    var parts := LinksOf(actions);
    assert PlainLines(e, parts) == [PlainLine(e, parts[0])] + PlainLines(e, parts[1..]);
    FirstLineShows(PlainLines(e, parts));
  }

  lemma {:induction false} FirstLink(actions: seq<Action>)
    requires actions != []
    ensures LinksOf(actions)[0] == LinkOf(actions[0])
  {
    if |actions| > 1 { FirstLink(actions[..|actions| - 1]); }
  }

  lemma FirstLineShows(lines: seq<string>)
    requires lines != [] && !Blank(lines[0])
    ensures !Blank(Join(lines, "\n\n"))
  {
    if |lines| > 1 {
      BlankConcat(lines[0], "\n\n");
      BlankConcat(lines[0] + "\n\n", Join(lines[1..], "\n\n"));
    }
  }

  lemma AppendedIsVisible(base: string, extra: string)
    requires !Blank(extra)
    ensures !Blank(AppendSection(base, extra))
  {
    TrimEmpty(extra);
    TrimIdempotent(extra);
    TrimEmpty(Trim(extra));
    BlankConcat(Trim(base) + "\n\n", Trim(extra));
  }

  /** A body that coercion has nothing more to do for. */
  predicate Settled(e: Env, caps: Capabilities, m: Body) {
    && (m.parts != [] ==> caps.richText && Blank(m.text))
    && (m.format.Unset? ==> m.parts == [] && Blank(m.text))
    && (m.format.Rich? && !caps.richText ==> Blank(m.text))
    && (m.format.Markdown? && !caps.markdown ==> caps.richText && Blank(m.text))
    && !Downgraded(e, caps, m)
  }

  lemma SettledStays(e: Env, caps: Capabilities, m: Body)
    requires Settled(e, caps, m)
    ensures Fit(e, caps, m) == m
  {
  }

  /** The one family that a single pass does not settle: rich text without any text, links to be shown as
      text, on a channel without rich text. */
  predicate Unsettled(e: Env, caps: Capabilities, m: Body) {
    !caps.richText && RichAndBare(m) && Downgraded(e, caps, m)
  }

  /** Everything but the actions is settled before they are looked at. */
  lemma ShownIsSettled(e: Env, caps: Capabilities, m: Body)
    ensures var n := Normalize(e, m);
      var m1 := if !caps.richText then NormalizeTextOnlyRich(e, n) else n;
      var shown := CoerceParts(e, caps, CoerceMarkdown(caps, m1));
      && shown.actions == m.actions
      && Settled(e, caps, shown.(actions := []))
      && (!caps.richText && shown.format.Rich? <==> !caps.richText && RichAndBare(m))
  {
  }

  lemma ShownLinksSettle(e: Env, caps: Capabilities, m: Body, parts: seq<Part>)
    requires m.actions == [] && Settled(e, caps, m) && parts != []
    ensures caps.richText || !m.format.Rich? ==> Settled(e, caps, ShowLinks(e, caps, m, parts))
    ensures !caps.richText ==> (ShowLinks(e, caps, m, parts).format.Rich? <==> m.format.Rich?)
    ensures !caps.richText && m.format.Rich? ==>
        ShowLinks(e, caps, m, parts).text == AppendSection(m.text, RenderPlain(e, parts))
  {
  }

  lemma CoerceActionsIs(e: Env, caps: Capabilities, m: Body, parts: seq<Part>)
    requires parts == LinksOf(m.actions)
    ensures CoerceActions(e, caps, m)
         == if Downgraded(e, caps, m) then ShowLinks(e, caps, m.(actions := []), parts) else m
  {
  }

  /** Marked as rich, on a channel without rich text: a first pass leaves this so only for bare bodies. */
  predicate StillRich(caps: Capabilities, m: Body) { !caps.richText && m.format.Rich? }

  lemma LinksSettle(e: Env, caps: Capabilities, m: Body)
    requires Settled(e, caps, m.(actions := []))
    ensures StillRich(caps, CoerceActions(e, caps, m)) <==> StillRich(caps, m)
    ensures !(StillRich(caps, m) && Downgraded(e, caps, m)) ==> Settled(e, caps, CoerceActions(e, caps, m))
    ensures StillRich(caps, m) && Downgraded(e, caps, m) ==> !Blank(CoerceActions(e, caps, m).text)
  {
    var parts, bare := LinksOf(m.actions), m.(actions := []);
    CoerceActionsIs(e, caps, m, parts);
    if Downgraded(e, caps, m) {
      LinksAreVisible(e, m.actions);
      AppendedIsVisible(m.text, RenderPlain(e, parts));
      ShownLinksSettle(e, caps, bare, parts);
    }
  }

  lemma OnePassSettles(e: Env, caps: Capabilities, m: Body)
    ensures StillRich(caps, Fit(e, caps, m)) <==> !caps.richText && RichAndBare(m)
    ensures !Unsettled(e, caps, m) ==> Settled(e, caps, Fit(e, caps, m))
    ensures Unsettled(e, caps, m) ==> !Blank(Fit(e, caps, m).text)
  {
    ShownIsSettled(e, caps, m);
    var n := Normalize(e, m);
    var m1 := if !caps.richText then NormalizeTextOnlyRich(e, n) else n;
    LinksSettle(e, caps, CoerceParts(e, caps, CoerceMarkdown(caps, m1)));
  }

  /** The second pass changes a body exactly when it is in that family; it then retypes the text of the links. */
  lemma FitTwice(e: Env, caps: Capabilities, m: Body)
    ensures Fit(e, caps, Fit(e, caps, m)) == Fit(e, caps, m) <==> !Unsettled(e, caps, m)
  {
    OnePassSettles(e, caps, m);
    OnePassSettles(e, caps, Fit(e, caps, m));
    if !Unsettled(e, caps, m) { SettledStays(e, caps, Fit(e, caps, m)); }
  }

  /** A third pass never changes anything. */
  lemma FitThrice(e: Env, caps: Capabilities, m: Body)
    ensures Fit(e, caps, Fit(e, caps, Fit(e, caps, m))) == Fit(e, caps, Fit(e, caps, m))
  {
    FitTwice(e, caps, Fit(e, caps, m));
    OnePassSettles(e, caps, m);
  }

  /** On a channel that shows text, a message is rejected for its format or parts after coercion exactly when
      it is marked as rich without having any text, on a channel without rich text. */
  lemma FormatIsAllowed(e: Env, caps: Capabilities, m: Body)
    requires caps.text
    ensures FormatAllowed(caps, Fit(e, caps, m)) <==> (caps.richText || !RichAndBare(m))
  {
    OnePassSettles(e, caps, m);
  }
}
