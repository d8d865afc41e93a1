/** Matching model ids against the registry: the canonical form of an id, and the index of registry keys.  An id is
    reduced to a bare slug by dropping its route, unifying its separators, stripping dates from its end and leading vendor
    words from its front; the index holds one key for each exact form and one for each canonical form, so that a lookup
    does not depend on the order of the keys. */
module ModelIndex {
  import opened Chunkers
  import opened Seqs
  import opened Text
  import opened Wrappers

  /** The two word lists: gateway, vendor and region words, and those of them that can begin a model's name. */
  datatype Words = Words(prefix: string -> bool, family: string -> bool)

  // ----- canonical -----

  /** What follows the last slash, if there is one. */
  function AfterSlash(s: string): (r: string)
    ensures '/' !in r && |r| <= |s|
  {
    if s == [] then [] else if s[|s| - 1] == '/' then [] else AfterSlash(s[..|s| - 1]) + [s[|s| - 1]]
  }

  /** Dotted segments without the leading route words; the last one always stays. */
  function DropRoute(w: Words, segments: seq<string>): (r: seq<string>)
    ensures segments != [] ==> r != []
  {
    if |segments| > 1 && w.prefix(segments[0]) then DropRoute(w, segments[1..]) else segments
  }

  predicate IsSeparator(c: char) { c == '.' || c == '_' || c == ' ' || c == ':' || c == '@' }

  function Unify(s: string): (r: string)
    ensures |r| == |s| && forall i :: 0 <= i < |s| ==> r[i] == if IsSeparator(s[i]) then '-' else s[i]
  {
    seq(|s|, i requires 0 <= i < |s| => if IsSeparator(s[i]) then '-' else s[i])
  }

  /** strings.Trim(s, "-"). */
  function TrimDashes(s: string): (r: string)
    ensures |r| <= |s| && (r == s <==> s == [] || (s[0] != '-' && s[|s| - 1] != '-'))
    decreases |s|
  {
    if s != [] && s[0] == '-' then TrimDashes(s[1..])
    else if s != [] && s[|s| - 1] == '-' then TrimDashes(s[..|s| - 1])
    else s
  }

  predicate Digits(s: string) { forall i :: 0 <= i < |s| ==> '0' <= s[i] <= '9' }

  /** A trailing date without dashes, and one with them. */
  predicate EndsCompact(s: string) { |s| >= 9 && s[|s| - 9] == '-' && Digits(s[|s| - 8..]) }

  predicate EndsDashed(s: string) {
    |s| >= 11 && s[|s| - 11..|s| - 8] == "-20" && Digits(s[|s| - 8..|s| - 6]) && s[|s| - 6] == '-'
    && Digits(s[|s| - 5..|s| - 3]) && s[|s| - 3] == '-' && Digits(s[|s| - 2..])
  }

  /** One round of the loop that strips dates. */
  function StripOnce(s: string): (r: string)
    ensures |r| <= |s|
    ensures r == s <==> (!EndsCompact(s) && !EndsDashed(s) && TrimDashes(s) == s)
  {
    var a := if EndsCompact(s) then s[..|s| - 9] else s;
    var b := if EndsDashed(a) then a[..|a| - 11] else a;
    TrimDashes(b)
  }

  function StripDates(s: string): (r: string)
    ensures |r| <= |s| && StripOnce(r) == r
    decreases |s|
  {
    if StripOnce(s) == s then s else StripDates(StripOnce(s))
  }

  function NonEmpty(tokens: seq<string>): seq<string> {
    if tokens == [] then [] else (if tokens[0] == [] then [] else [tokens[0]]) + NonEmpty(tokens[1..])
  }

  /** Tokens without the leading vendor words; a word that can begin a model's name, and the last token, stay. */
  function DropVendors(w: Words, tokens: seq<string>): seq<string> {
    if |tokens| > 1 && w.prefix(tokens[0]) && !w.family(tokens[0]) then DropVendors(w, tokens[1..]) else tokens
  }

  function Bare(w: Words, s: string): string {
    if '/' in s then AfterSlash(s)
    else if '.' in s then Join(DropRoute(w, Split(s, ".")), ".")
    else s
  }

  function Slug(w: Words, s: string): string { Join(DropVendors(w, NonEmpty(Split(s, "-"))), "-") }

  function Canonical(w: Words, raw: string): string {
    var s := Lower(Trim(raw));
    if s == [] then [] else Slug(w, StripDates(TrimDashes(Unify(Bare(w, s)))))
  }

  // ----- canonical, step by step -----

  method DropRouteWords(w: Words, segments: seq<string>) returns (r: seq<string>)
    ensures r == DropRoute(w, segments)
  {
    var start := 0;
    while start < |segments| - 1 && w.prefix(segments[start])
      invariant 0 <= start <= |segments|
      invariant DropRoute(w, segments[start..]) == DropRoute(w, segments)
    {
      start := start + 1;
    }
    r := segments[start..];
  }

  method StripDateSuffixes(text: string) returns (s: string)
    ensures s == StripDates(text)
  {
    s := text;
    while true
      invariant StripDates(s) == StripDates(text)
      decreases |s|
    {
      var before := s;
      s := StripRound(s);
      if s == before { break; }
    }
  }

  /** One round of the loop. */
  method StripRound(text: string) returns (s: string)
    ensures s == StripOnce(text)
  {
    s := text;
    if EndsCompact(s) { s := s[..|s| - 9]; }
    if EndsDashed(s) { s := s[..|s| - 11]; }
    s := TrimDashes(s);
  }

  method CanonicalOf(w: Words, raw: string) returns (slug: string)
    ensures slug == Canonical(w, raw)
  {
    var s := Lower(Trim(raw));
    if s == [] { return []; }
    if '/' in s {
      s := AfterSlash(s);
    } else if '.' in s {
      var segments := DropRouteWords(w, Split(s, "."));
      s := Join(segments, ".");
    }
    s := TrimDashes(Unify(s));
    s := StripDateSuffixes(s);
    var tokens := NonEmpty(Split(s, "-"));
    ghost var all := tokens;
    while |tokens| > 1 && w.prefix(tokens[0]) && !w.family(tokens[0])
      invariant DropVendors(w, tokens) == DropVendors(w, all)
    {
      tokens := tokens[1..];
    }
    slug := Join(tokens, "-");
  }

  // ----- the index -----

  function ByteLength(s: string): nat {
    if s == [] then 0
    else
      ByteLength(s[1..])
      + if s[0] < '\U{80}' then 1 else if s[0] < '\U{800}' then 2 else if s[0] < '\U{10000}' then 3 else 4
  }

  /** The order of sort.Strings. */
  predicate Leq(a: string, b: string) {
    a == [] || (b != [] && (a[0] < b[0] || (a[0] == b[0] && Leq(a[1..], b[1..]))))
  }

  lemma {:induction false} LeqTotal(a: string, b: string)
    ensures Leq(a, b) || Leq(b, a)
    ensures Leq(a, b) && Leq(b, a) ==> a == b
  {
    if a != [] && b != [] && a[0] == b[0] {
      LeqTotal(a[1..], b[1..]);
      assert a == [a[0]] + a[1..] && b == [b[0]] + b[1..];
    }
  }

  lemma {:induction false} LeqTransitive(a: string, b: string, c: string)
    requires Leq(a, b) && Leq(b, c)
    ensures Leq(a, c)
  {
    if a != [] && a[0] == b[0] && b[0] == c[0] { LeqTransitive(a[1..], b[1..], c[1..]); }
  }

  function Exact(k: string): string { Lower(Trim(k)) }

  /** The order in which keys with the same canonical form are preferred: the shortest first, then as sorted. */
  predicate Before(a: string, b: string) { ByteLength(a) < ByteLength(b) || (ByteLength(a) == ByteLength(b) && Leq(a, b)) }

  /** k is the first of the keys with form v, in the given order. */
  ghost predicate Least(form: string -> string, order: (string, string) -> bool, keys: set<string>, v: string, k: string) {
    k in keys && form(k) == v && forall o :: o in keys && form(o) == v ==> order(k, o)
  }

  function CanonicalForm(w: Words): string -> string { k => Canonical(w, k) }

  ghost predicate FirstExact(keys: set<string>, exact: string, k: string) { Least(Exact, Leq, keys, exact, k) }

  ghost predicate ShortestCanonical(w: Words, keys: set<string>, slug: string, k: string) {
    Least(CanonicalForm(w), Before, keys, slug, k)
  }

  /** What a linear scan of the keys answers: the first key with the same exact form if there is one, otherwise
      the shortest with the same canonical form. */
  ghost predicate Answers(w: Words, keys: set<string>, raw: string, r: Option<string>) {
    var exact, slug := Exact(raw), Canonical(w, raw);
    if exact != [] && exists k :: k in keys && Exact(k) == exact then r.Some? && FirstExact(keys, exact, r.value)
    else if slug != [] && exists k :: k in keys && Canonical(w, k) == slug then
      r.Some? && ShortestCanonical(w, keys, slug, r.value)
    else r.None?
  }

  /** The answer is unique: it depends on the set of keys alone, not on the order they come in. */
  lemma AnswerIsUnique(w: Words, keys: set<string>, raw: string, r1: Option<string>, r2: Option<string>)
    requires Answers(w, keys, raw, r1) && Answers(w, keys, raw, r2)
    ensures r1 == r2
  {
    if r1.Some? && r2.Some? { LeqTotal(r1.value, r2.value); }
  }

  ghost predicate Sorted(keys: seq<string>) { forall i, j :: 0 <= i < j < |keys| ==> Leq(keys[i], keys[j]) }

  /** sort.Strings. */
  method SortStrings(keys: seq<string>) returns (sorted: seq<string>)
    ensures Sorted(sorted) && multiset(sorted) == multiset(keys)
  {
    sorted := [];
    for i := 0 to |keys|
      invariant Sorted(sorted) && multiset(sorted) == multiset(keys[..i])
    {
      assert keys[..i + 1] == keys[..i] + [keys[i]];
      sorted := Insert(sorted, keys[i]);
    }
    assert keys[..|keys|] == keys;
  }

  method Insert(sorted: seq<string>, key: string) returns (r: seq<string>)
    requires Sorted(sorted)
    ensures Sorted(r) && multiset(r) == multiset(sorted) + multiset{key}
  {
    var at := |sorted|;
    while at > 0 && !Leq(sorted[at - 1], key)
      invariant 0 <= at <= |sorted|
      invariant forall i :: at <= i < |sorted| ==> Leq(key, sorted[i])
    {
      LeqTotal(sorted[at - 1], key);
      at := at - 1;
    }
    r := sorted[..at] + [key] + sorted[at..];
    InsertedIsThere(sorted, key, at);
    InsertedIsSorted(sorted, key, at);
  }

  lemma InsertedIsThere(sorted: seq<string>, key: string, at: nat)
    requires at <= |sorted|
    ensures multiset(sorted[..at] + [key] + sorted[at..]) == multiset(sorted) + multiset{key}
  {
    Halves(sorted, at);
  }

  lemma InsertedIsSorted(sorted: seq<string>, key: string, at: nat)
    requires Sorted(sorted) && at <= |sorted| && (at > 0 ==> Leq(sorted[at - 1], key))
    requires forall i :: at <= i < |sorted| ==> Leq(key, sorted[i])
    ensures Sorted(sorted[..at] + [key] + sorted[at..])
  {
    forall i | 0 <= i < at ensures Leq(sorted[i], key) {
      if i < at - 1 { LeqTransitive(sorted[i], sorted[at - 1], key); }
    }
    var r := sorted[..at] + [key] + sorted[at..];
    forall i, j | 0 <= i < j < |r| ensures Leq(r[i], r[j]) {
      assert r[i] == (if i < at then sorted[i] else if i == at then key else sorted[i - 1]);
      assert r[j] == (if j < at then sorted[j] else if j == at then key else sorted[j - 1]);
    }
  }

  ghost function Elements(keys: seq<string>): set<string> { set k | k in keys }

  /** A table of the keys seen so far: each form that is not empty, with its first key. */
  ghost predicate Table(form: string -> string, order: (string, string) -> bool, seen: set<string>, table: map<string, string>) {
    && (forall v :: v in table ==> v != [] && Least(form, order, seen, v, table[v]))
    && (forall k :: k in seen && form(k) != [] ==> form(k) in table)
  }

  ghost predicate Preorder(order: (string, string) -> bool) {
    && (forall a :: order(a, a))
    && (forall a, b, c :: order(a, b) && order(b, c) ==> order(a, c))
  }

  /** Adding a key, which replaces the one that is there if it comes before it. */
  lemma AddToTable(form: string -> string, order: (string, string) -> bool, seen: set<string>, table: map<string, string>,
               k: string, better: bool)
    requires Table(form, order, seen, table) && Preorder(order)
    requires form(k) in table ==> if better then order(k, table[form(k)]) else order(table[form(k)], k)
    ensures Table(form, order, seen + {k},
                  if form(k) != [] && (form(k) !in table || better) then table[form(k) := k] else table)
  {
  }

  lemma Preorders()
    ensures Preorder(Leq) && Preorder(Before)
  {
    forall a: string ensures Leq(a, a) { LeqTotal(a, a); }
    forall a, b, c | Leq(a, b) && Leq(b, c) ensures Leq(a, c) { LeqTransitive(a, b, c); }
  }

  class KeyIndex {
    const words: Words
    var byExact: map<string, string>
    var byCanonical: map<string, string>

    /** The index answers for these keys. */
    ghost predicate Indexes(keys: set<string>)
      reads this
    {
      Table(Exact, Leq, keys, byExact) && Table(CanonicalForm(words), Before, keys, byCanonical)
    }

    /** buildIndex. */
    constructor (w: Words, keys: seq<string>)
      ensures words == w && Indexes(Elements(keys))
    {
      words, byExact, byCanonical := w, map[], map[];
      new;
      var sorted := SortStrings(keys);
      for i := 0 to |sorted|
        invariant words == w && Indexes(Elements(sorted[..i]))
      {
        assert sorted[..i + 1] == sorted[..i] + [sorted[i]];
        assert Elements(sorted[..i + 1]) == Elements(sorted[..i]) + {sorted[i]};
        AddKey(sorted[i], Elements(sorted[..i]));
      }
      SameElements(sorted, keys);
      assert sorted[..|sorted|] == sorted;
    }

    /** One key of buildIndex's loop, which comes after all seen ones in sorted order. */
    method AddKey(k: string, ghost seen: set<string>)
      requires Indexes(seen) && forall o :: o in seen ==> Leq(o, k)
      modifies this
      ensures Indexes(seen + {k})
    {
      Preorders();
      var exact := Exact(k);
      AddToTable(Exact, Leq, seen, byExact, k, false);
      if exact != [] && exact !in byExact { byExact := byExact[exact := k]; }
      var c := CanonicalOf(words, k);
      var shorter := c in byCanonical && ByteLength(k) < ByteLength(byCanonical[c]);
      AddToTable(CanonicalForm(words), Before, seen, byCanonical, k, shorter);
      if c != [] && (c !in byCanonical || shorter) { byCanonical := byCanonical[c := k]; }
    }

    /** match: the answer of a linear scan. */
    method Match(raw: string, ghost keys: set<string>) returns (key: Option<string>)
      requires Indexes(keys)
      ensures Answers(words, keys, raw, key)
    {
      var exact := Exact(raw);
      if exact != [] && exact in byExact { return Some(byExact[exact]); }
      var c := CanonicalOf(words, raw);
      if c != [] && c in byCanonical { return Some(byCanonical[c]); }
      return None;
    }
  }

  lemma SameElements(a: seq<string>, b: seq<string>)
    requires multiset(a) == multiset(b)
    ensures Elements(a) == Elements(b)
  {
    forall k ensures k in a <==> k in b {
      assert k in a <==> multiset(a)[k] > 0;
      assert k in b <==> multiset(b)[k] > 0;
    }
  }

  /** Two indexes over the same keys, listed in whatever order, answer alike. */
  lemma OrderOfKeysIsIrrelevant(w: Words, keys1: seq<string>, keys2: seq<string>, raw: string, r1: Option<string>, r2: Option<string>)
    requires multiset(keys1) == multiset(keys2)
    requires Answers(w, Elements(keys1), raw, r1) && Answers(w, Elements(keys2), raw, r2)
    ensures r1 == r2
  {
    SameElements(keys1, keys2);
    AnswerIsUnique(w, Elements(keys1), raw, r1, r2);
  }

  // ----- splitting and joining at dashes -----

  const DASH: string := "-"

  lemma {:induction false} FirstDash(a: string, rest: string)
    requires '-' !in a
    ensures Index(a + DASH + rest, DASH) == Some(|a|)
  {
    var s := a + DASH + rest;
    if a == [] {
      assert s[..1] == DASH;
    } else {
      assert a[0] in a && s[..1] == [a[0]] != DASH by { assert s[..1][0] == a[0] != '-'; }
      assert s[1..] == a[1..] + DASH + rest;
      FirstDash(a[1..], rest);
    }
  }

  lemma {:induction false} NoDash(s: string)
    requires '-' !in s
    ensures Index(s, DASH).None?
  {
    if s != [] {
      assert s[..1][0] == s[0] && s[0] in s;
      NoDash(s[1..]);
    }
  }

  lemma {:induction false} DashFree(s: string)
    ensures match Index(s, DASH) case Some(k) => '-' !in s[..k] case None => '-' !in s
  {
    if s != [] {
      DashFree(s[1..]);
      if s[..1] != DASH {
        assert s[..1] == [s[0]];
        match Index(s[1..], DASH)
        case Some(k) => assert s[..k + 1] == [s[0]] + s[1..][..k];
        case None => assert s == [s[0]] + s[1..];
      }
    }
  }

  ghost predicate Tokens(tokens: seq<string>) { forall i :: 0 <= i < |tokens| ==> tokens[i] != [] && '-' !in tokens[i] }

  lemma {:induction false} SplitIsDashFree(s: string, i: nat)
    requires i < |Split(s, DASH)|
    ensures '-' !in Split(s, DASH)[i]
  {
    DashFree(s);
    match Index(s, DASH)
    case None =>
    case Some(k) => if i > 0 { SplitIsDashFree(s[k + 1..], i - 1); }
  }

  lemma {:induction false} SplitJoin(tokens: seq<string>)
    requires Tokens(tokens) && tokens != []
    ensures Split(Join(tokens, DASH), DASH) == tokens
  {
    var s := Join(tokens, DASH);
    if |tokens| == 1 {
      NoDash(s);
    } else {
      var rest := Join(tokens[1..], DASH);
      FirstDash(tokens[0], rest);
      assert s == tokens[0] + DASH + rest;
      assert s[..|tokens[0]|] == tokens[0] && s[|tokens[0]| + 1..] == rest;
      SplitJoin(tokens[1..]);
    }
  }

  lemma {:induction false} NonEmptyTokens(tokens: seq<string>)
    requires forall i :: 0 <= i < |tokens| ==> '-' !in tokens[i]
    ensures Tokens(NonEmpty(tokens))
  {
    if tokens != [] { NonEmptyTokens(tokens[1..]); }
  }

  lemma {:induction false} NonEmptyIs(tokens: seq<string>)
    requires Tokens(tokens)
    ensures NonEmpty(tokens) == tokens
  {
    if tokens != [] {
      NonEmptyIs(tokens[1..]);
      assert tokens == [tokens[0]] + tokens[1..];
    }
  }

  lemma {:induction false} DropVendorsIs(w: Words, tokens: seq<string>) returns (k: nat)
    ensures k <= |tokens| && DropVendors(w, tokens) == tokens[k..] && (tokens != [] ==> k < |tokens|)
    ensures DropVendors(w, tokens[k..]) == tokens[k..]
  {
    k := 0;
    if |tokens| > 1 && w.prefix(tokens[0]) && !w.family(tokens[0]) {
      var j := DropVendorsIs(w, tokens[1..]);
      k := j + 1;
      assert tokens[1..][j..] == tokens[k..];
    } else {
      assert tokens[0..] == tokens;
    }
  }

  // ----- the canonical form of a canonical form -----

  /** The tokens of a slug. */
  function SlugTokens(w: Words, s: string): seq<string> { DropVendors(w, NonEmpty(Split(s, DASH))) }

  lemma SlugTokensAre(w: Words, s: string)
    ensures Tokens(SlugTokens(w, s)) && DropVendors(w, SlugTokens(w, s)) == SlugTokens(w, s)
  {
    forall i | 0 <= i < |Split(s, DASH)| ensures '-' !in Split(s, DASH)[i] { SplitIsDashFree(s, i); }
    NonEmptyTokens(Split(s, DASH));
    var k := DropVendorsIs(w, NonEmpty(Split(s, DASH)));
  }

  /** A slug is split into its own tokens again. */
  lemma SlugTwice(w: Words, s: string)
    ensures Slug(w, Slug(w, s)) == Slug(w, s)
  {
    SlugTokensAre(w, s);
    var tokens := SlugTokens(w, s);
    assert Slug(w, s) == Join(tokens, DASH);
    if tokens != [] {
      SplitJoin(tokens);
      NonEmptyIs(tokens);
    } else {
      assert Split("", DASH) == [""] && NonEmpty([""][1..]) == [];
    }
  }

  lemma {:induction false} JoinEnds(tokens: seq<string>)
    requires Tokens(tokens) && tokens != []
    ensures var s := Join(tokens, DASH); s != [] && s[0] != '-' && s[|s| - 1] != '-'
  {
    var s := Join(tokens, DASH);
    assert tokens[0][0] in tokens[0];
    if |tokens| == 1 {
      assert s[|s| - 1] in tokens[0];
    } else {
      JoinEnds(tokens[1..]);
      var rest := Join(tokens[1..], DASH);
      assert s == tokens[0] + DASH + rest;
      assert s[|s| - 1] == rest[|rest| - 1];
    }
  }

  lemma SlugHasNoEndDashes(w: Words, s: string)
    ensures TrimDashes(Slug(w, s)) == Slug(w, s)
  {
    SlugTokensAre(w, s);
    if SlugTokens(w, s) != [] { JoinEnds(SlugTokens(w, s)); }
  }

  /** Lower case, and without slashes. */
  ghost predicate Lowered(s: string) { forall i :: 0 <= i < |s| ==> s[i] != '/' && LowerChar(s[i]) == s[i] }

  /** And without separators but dashes. */
  ghost predicate Clean(s: string) { Lowered(s) && forall i :: 0 <= i < |s| ==> !IsSeparator(s[i]) }

  lemma {:induction false} DropRouteIs(w: Words, tokens: seq<string>) returns (k: nat)
    ensures k <= |tokens| && DropRoute(w, tokens) == tokens[k..]
  {
    k := 0;
    if |tokens| > 1 && w.prefix(tokens[0]) {
      var j := DropRouteIs(w, tokens[1..]);
      k := j + 1;
      assert tokens[1..][j..] == tokens[k..];
    }
  }

  /** It is the whole text if there is no slash in it, and otherwise stands right behind the last one. */
  lemma {:induction false} AfterSlashIsTail(s: string)
    ensures var k := |s| - |AfterSlash(s)|;
      && '/' !in AfterSlash(s) && AfterSlash(s) == s[k..]
      && (k > 0 ==> s[k - 1] == '/') && (k > 0 <==> '/' in s)
  {
    if s != [] && s[|s| - 1] != '/' { AfterSlashIsTail(s[..|s| - 1]); }
  }

  lemma {:induction false} JoinTail(tokens: seq<string>, sep: string, k: nat)
    requires k <= |tokens|
    ensures var t := Join(tokens[k..], sep); var s := Join(tokens, sep); |t| <= |s| && t == s[|s| - |t|..]
  {
    if k == 0 {
      assert tokens[0..] == tokens;
    } else {
      JoinTail(tokens[1..], sep, k - 1);
      assert tokens[1..][k - 1..] == tokens[k..];
      if |tokens| > 1 { TailOfTail(tokens[0] + sep, Join(tokens[1..], sep), Join(tokens[k..], sep)); }
    }
  }

  lemma TailOfTail(a: string, b: string, t: string)
    requires |t| <= |b| && t == b[|b| - |t|..]
    ensures t == (a + b)[|a + b| - |t|..]
  {
  }

  /** What is left of an id without its route is its tail. */
  lemma BareIsTail(w: Words, s: string)
    ensures var b := Bare(w, s); |b| <= |s| && b == s[|s| - |b|..]
  {
    if '/' in s {
      AfterSlashIsTail(s);
    } else if '.' in s {
      RoutedIsTail(w, s);
    } else {
      assert s[0..] == s;
    }
  }

  lemma RoutedIsTail(w: Words, s: string)
    ensures var b := Join(DropRoute(w, Split(s, ".")), "."); |b| <= |s| && b == s[|s| - |b|..]
  {
    var segments := Split(s, ".");
    var k := DropRouteIs(w, segments);
    JoinTail(segments, ".", k);
    JoinSplit(s, ".");
  }

  lemma LoweredTail(s: string, t: string)
    requires |t| <= |s| && t == s[|s| - |t|..] && (forall i :: 0 <= i < |s| ==> LowerChar(s[i]) == s[i]) && '/' !in t
    ensures Lowered(t)
  {
    forall i | 0 <= i < |t| ensures t[i] != '/' && LowerChar(t[i]) == t[i] {
      assert t[i] == s[|s| - |t| + i] && t[i] in t;
    }
  }

  lemma BareHasNoSlash(w: Words, s: string)
    ensures '/' !in Bare(w, s)
  {
    BareIsTail(w, s);
    var b := Bare(w, s);
    if '/' !in s {
      forall i | 0 <= i < |b| ensures b[i] != '/' { assert b[i] == s[|s| - |b| + i] && b[i] in s; }
    }
  }

  lemma UnifiedIsClean(w: Words, s: string)
    requires forall i :: 0 <= i < |s| ==> LowerChar(s[i]) == s[i]
    ensures Clean(Unify(Bare(w, s)))
  {
    BareIsTail(w, s);
    BareHasNoSlash(w, s);
    LoweredTail(s, Bare(w, s));
  }

  // Trimming and stripping dates takes a slice.

  lemma {:induction false} TrimDashesIs(s: string) returns (a: nat, b: nat)
    ensures a <= b <= |s| && TrimDashes(s) == s[a..b]
    ensures TrimDashes(s) == s || |TrimDashes(s)| < |s|
    decreases |s|
  {
    a, b := 0, |s|;
    if s != [] && s[0] == '-' {
      var c, d := TrimDashesIs(s[1..]);
      a, b := c + 1, d + 1;
      assert s[1..][c..d] == s[a..b];
    } else if s != [] && s[|s| - 1] == '-' {
      var c, d := TrimDashesIs(s[..|s| - 1]);
      a, b := c, d;
      assert s[..|s| - 1][c..d] == s[a..b];
    }
  }

  lemma StripOnceIs(s: string) returns (a: nat, b: nat)
    ensures a <= b <= |s| && StripOnce(s) == s[a..b]
    ensures StripOnce(s) == s || |StripOnce(s)| < |s|
  {
    var x := if EndsCompact(s) then s[..|s| - 9] else s;
    var y := if EndsDashed(x) then x[..|x| - 11] else x;
    a, b := TrimDashesIs(y);
    IsFront(s, x, y);
    SliceOfFront(s, y, a, b);
  }

  lemma IsFront(s: string, x: string, y: string)
    requires |x| <= |s| && x == s[..|x|] && |y| <= |x| && y == x[..|y|]
    ensures y == s[..|y|]
  {
  }

  lemma SliceOfFront(s: string, y: string, a: nat, b: nat)
    requires |y| <= |s| && y == s[..|y|] && a <= b <= |y|
    ensures y[a..b] == s[a..b]
  {
    forall i | 0 <= i < b - a ensures y[a..b][i] == s[a..b][i] {}
  }

  lemma {:induction false} StripDatesIs(s: string) returns (a: nat, b: nat)
    ensures a <= b <= |s| && StripDates(s) == s[a..b]
    ensures StripDates(s) == s || |StripDates(s)| < |s|
    decreases |s|
  {
    a, b := 0, |s|;
    var once := StripOnce(s);
    if once != s {
      var c, d := StripOnceIs(s);
      var e, f := StripDatesIs(once);
      a, b := c + e, c + f;
      Slice(s, c, d, e, f);
    }
  }

  lemma CleanSlice(s: string, a: nat, b: nat)
    requires Clean(s) && a <= b <= |s|
    ensures Clean(s[a..b])
  {
  }

  lemma {:induction false} SplitClean(s: string, i: nat)
    requires Clean(s) && i < |Split(s, DASH)|
    ensures Clean(Split(s, DASH)[i])
  {
    match Chunkers.Index(s, DASH)
    case None =>
    case Some(k) => if i > 0 { SplitClean(s[k + 1..], i - 1); }
  }

  lemma {:induction false} NonEmptyClean(tokens: seq<string>)
    requires forall i :: 0 <= i < |tokens| ==> Clean(tokens[i])
    ensures forall i :: 0 <= i < |NonEmpty(tokens)| ==> Clean(NonEmpty(tokens)[i])
  {
    if tokens != [] { NonEmptyClean(tokens[1..]); }
  }

  lemma {:induction false} JoinClean(tokens: seq<string>)
    requires forall i :: 0 <= i < |tokens| ==> Clean(tokens[i])
    ensures Clean(Join(tokens, DASH))
  {
    if |tokens| > 1 { JoinClean(tokens[1..]); }
  }

  lemma SlugIsClean(w: Words, s: string)
    requires Clean(s)
    ensures Clean(Slug(w, s))
  {
    var all := Split(s, DASH);
    forall i | 0 <= i < |all| ensures Clean(all[i]) { SplitClean(s, i); }
    NonEmptyClean(all);
    VendorlessIsClean(w, NonEmpty(all));
  }

  lemma VendorlessIsClean(w: Words, tokens: seq<string>)
    requires forall i :: 0 <= i < |tokens| ==> Clean(tokens[i])
    ensures Clean(Join(DropVendors(w, tokens), DASH))
  {
    var k := DropVendorsIs(w, tokens);
    forall i | 0 <= i < |tokens[k..]| ensures Clean(tokens[k..][i]) { assert tokens[k..][i] == tokens[k + i]; }
    JoinClean(tokens[k..]);
  }

  /** The slug a canonical form is made of. */
  function Dated(w: Words, raw: string): string { TrimDashes(Unify(Bare(w, Lower(Trim(raw))))) }

  lemma LowerIsLower(s: string)
    ensures forall i :: 0 <= i < |s| ==> LowerChar(Lower(s)[i]) == Lower(s)[i]
  {
  }

  /** No two dashes side by side. */
  ghost predicate SingleDashes(s: string) { forall i :: 0 <= i < |s| - 1 ==> !(s[i] == '-' && s[i + 1] == '-') }

  lemma {:induction false} JoinSingleDashes(tokens: seq<string>)
    requires Tokens(tokens)
    ensures SingleDashes(Join(tokens, DASH))
  {
    if |tokens| == 1 {
      forall i | 0 <= i < |tokens[0]| ensures tokens[0][i] != '-' { assert tokens[0][i] in tokens[0]; }
    } else if tokens != [] {
      var rest := Join(tokens[1..], DASH);
      JoinSingleDashes(tokens[1..]);
      JoinEnds(tokens[1..]);
      SingleDashesJoined(tokens[0], rest);
    }
  }

  lemma SingleDashesJoined(a: string, rest: string)
    requires a != [] && '-' !in a && SingleDashes(rest) && rest != [] && rest[0] != '-'
    ensures SingleDashes(a + DASH + rest)
  {
    var s, n := a + DASH + rest, |a| + 1;
    forall i | 0 <= i < |s| - 1 ensures !(s[i] == '-' && s[i + 1] == '-') {
      assert i < |a| ==> s[i] == a[i] && a[i] in a;
      assert i >= n ==> s[i] == rest[i - n];
      assert i >= n - 1 ==> s[i + 1] == rest[i + 1 - n];
    }
  }

  /** A canonical form is in lower case, without slashes and separators but for single dashes between its tokens. */
  lemma CanonicalIsClean(w: Words, raw: string)
    ensures var c := Canonical(w, raw);
      && Clean(c) && SingleDashes(c) && (c != [] ==> c[0] != '-' && c[|c| - 1] != '-')
    ensures Canonical(w, raw) == Slug(w, StripDates(Dated(w, raw)))
  {
    var s := Lower(Trim(raw));
    LowerIsLower(Trim(raw));
    UnifiedIsClean(w, s);
    var u := Unify(Bare(w, s));
    var a, b := TrimDashesIs(u);
    CleanSlice(u, a, b);
    var c, d := StripDatesIs(TrimDashes(u));
    CleanSlice(TrimDashes(u), c, d);
    var dated := StripDates(TrimDashes(u));
    SlugIsClean(w, dated);
    SlugHasNoEndDashes(w, dated);
    SlugTokensAre(w, dated);
    JoinSingleDashes(SlugTokens(w, dated));
    if s == [] { assert Split("", DASH) == [""] && NonEmpty([""][1..]) == []; }
  }

  /** On a clean, trimmed text nothing is left to do but to strip dates. */
  lemma CanonicalOfClean(w: Words, c: string)
    requires Clean(c) && TrimDashes(c) == c && Trim(c) == c
    ensures Canonical(w, c) == if c == [] then [] else Slug(w, StripDates(c))
  {
    assert Lower(c) == c;
    assert '/' !in c && '.' !in c by {
      if '/' in c { assert false; }
    }
    assert Unify(c) == c;
  }

  lemma {:induction false} JoinNonEmptyShorter(tokens: seq<string>)
    ensures |Join(NonEmpty(tokens), DASH)| <= |Join(tokens, DASH)|
  {
    if tokens != [] {
      var first, rest := tokens[0], tokens[1..];
      JoinNonEmptyShorter(rest);
      assert tokens == [first] + rest;
      OneMoreShorter(first, rest, NonEmpty(rest));
      EmptyEnds(NonEmpty(rest));
    }
  }

  lemma OneMoreShorter(first: string, rest: seq<string>, kept: seq<string>)
    requires |Join(kept, DASH)| <= |Join(rest, DASH)| && (rest == [] ==> kept == [])
    ensures |Join(kept, DASH)| <= |Join([first] + rest, DASH)|
    ensures |Join([first] + kept, DASH)| <= |Join([first] + rest, DASH)|
  {
    JoinLength(first, rest);
    JoinLength(first, kept);
  }

  lemma JoinLength(first: string, rest: seq<string>)
    ensures |Join([first] + rest, DASH)| == |first| + if rest == [] then 0 else 1 + |Join(rest, DASH)|
  {
    assert ([first] + rest)[1..] == rest;
  }

  lemma SlugIsShorter(w: Words, s: string)
    ensures |Slug(w, s)| <= |s|
  {
    var tokens := NonEmpty(Split(s, DASH));
    var k := DropVendorsIs(w, tokens);
    JoinTail(tokens, DASH, k);
    JoinNonEmptyShorter(Split(s, DASH));
    JoinSplit(s, DASH);
  }

  lemma CanonicalIsShorter(w: Words, raw: string)
    ensures |Canonical(w, raw)| <= |Trim(raw)|
  {
    var s := Lower(Trim(raw));
    if s != [] {
      BareIsTail(w, s);
      SlugIsShorter(w, StripDates(Dated(w, raw)));
    }
  }

  lemma TrimIsShorter(s: string)
    ensures Trim(s) == s || |Trim(s)| < |s|
  {
    var l := TrimLeft(s);
    assert |l| == |s| ==> l == s;
    assert |Trim(s)| == |l| ==> Trim(s) == l;
  }

  /** canonical is idempotent at an id exactly if the canonical form is trimmed and ends in no date. */
  lemma CanonicalStays(w: Words, raw: string)
    ensures var c := Canonical(w, raw);
      Canonical(w, c) == c <==> (Trim(c) == c && StripDates(c) == c)
  {
    var c := Canonical(w, raw);
    CanonicalIsClean(w, raw);
    if Trim(c) == c {
      CanonicalOfClean(w, c);
      if StripDates(c) == c {
        SlugTwice(w, StripDates(Dated(w, raw)));
      } else {
        var a, b := StripDatesIs(c);
        SlugIsShorter(w, StripDates(c));
      }
    } else {
      TrimIsShorter(c);
      CanonicalIsShorter(w, c);
    }
  }

  // ----- which dates the joining of tokens shows -----

  predicate TwoDigits(t: string) { |t| == 2 && Digits(t) }

  predicate IsYear(t: string) { |t| == 4 && t[0] == '2' && t[1] == '0' && Digits(t[2..]) }

  /** The last three tokens read like a date, and another stands before them. */
  predicate DateAtEnd(tokens: seq<string>) {
    var n := |tokens|;
    n >= 4 && IsYear(tokens[n - 3]) && TwoDigits(tokens[n - 2]) && TwoDigits(tokens[n - 1])
  }

  predicate MonthAtEnd(tokens: seq<string>) {
    var n := |tokens|;
    n >= 3 && IsYear(tokens[n - 2]) && TwoDigits(tokens[n - 1])
  }

  /** Texts that end in a year and a month, and in a year, each behind a dash. */
  predicate EndsMonth(s: string) {
    |s| >= 8 && s[|s| - 8..|s| - 5] == "-20" && Digits(s[|s| - 5..|s| - 3]) && s[|s| - 3] == '-' && Digits(s[|s| - 2..])
  }

  predicate EndsYear(s: string) { |s| >= 5 && s[|s| - 5..|s| - 2] == "-20" && Digits(s[|s| - 2..]) }

  /** Where the last dash is. */
  lemma LastDash(f: string, t: string, k: nat)
    requires '-' !in t && k < |f + DASH + t|
    ensures var s := f + DASH + t;
      && (k > |f| ==> s[k] != '-') && (k == |f| ==> s[k] == '-') && (k < |f| ==> s[k] == f[k])
  {
    var s := f + DASH + t;
    if k > |f| { assert s[k] == t[k - |f| - 1] && s[k] in t; }
  }

  lemma DayEnds(f: string, t: string)
    requires '-' !in t
    ensures EndsDashed(f + DASH + t) <==> TwoDigits(t) && EndsMonth(f)
  {
    var s := f + DASH + t;
    var n := |s|;
    if n >= 11 && |t| != 2 {
      LastDash(f, t, if |t| > 2 then n - 3 else |f|);
      assert |t| < 2 ==> s[n - 2..][|f| - (n - 2)] == '-';
    }
    if |t| == 2 && n >= 11 {
      assert s[n - 2..] == t && s[n - 3] == '-' && n - 3 == |f|;
      assert s[n - 11..n - 8] == f[|f| - 8..|f| - 5] && s[n - 8..n - 6] == f[|f| - 5..|f| - 3];
      assert s[n - 6] == f[|f| - 3] && s[n - 5..n - 3] == f[|f| - 2..];
    }
  }

  lemma MonthEnds(f: string, t: string)
    requires '-' !in t
    ensures EndsMonth(f + DASH + t) <==> TwoDigits(t) && EndsYear(f)
  {
    var s := f + DASH + t;
    var n := |s|;
    if n >= 8 && |t| != 2 {
      LastDash(f, t, if |t| > 2 then n - 3 else |f|);
      assert |t| < 2 ==> s[n - 2..][|f| - (n - 2)] == '-';
    }
    if |t| == 2 && n >= 8 {
      assert s[n - 2..] == t && s[n - 3] == '-' && n - 3 == |f|;
      assert s[n - 8..n - 5] == f[|f| - 5..|f| - 2] && s[n - 5..n - 3] == f[|f| - 2..];
    }
  }

  lemma YearEnds(f: string, t: string)
    requires '-' !in t
    ensures EndsYear(f + DASH + t) <==> IsYear(t)
  {
    var s := f + DASH + t;
    var n := |s|;
    if n >= 5 {
      assert s[n - 5..n - 2][0] == s[n - 5] && s[n - 5..n - 2][1] == s[n - 4] && s[n - 5..n - 2][2] == s[n - 3];
      assert s[n - 2..][0] == s[n - 2] && s[n - 2..][1] == s[n - 1];
      LastDash(f, t, n - 5);
      LastDash(f, t, if |t| < 4 then |f| else n - 1);
    }
    if |t| == 4 { assert s[n - 2..] == t[2..] && s[n - 3] == t[1] && s[n - 4] == t[0]; }
  }

  lemma CompactEnds(f: string, t: string)
    requires '-' !in t
    ensures EndsCompact(f + DASH + t) <==> |t| == 8 && Digits(t)
  {
    var s := f + DASH + t;
    var n := |s|;
    if n >= 9 {
      LastDash(f, t, n - 9);
      LastDash(f, t, |f|);
      assert |t| < 8 ==> s[n - 8..][|f| - (n - 8)] == '-';
    }
    if |t| == 8 { assert s[n - 8..] == t; }
  }

  lemma NoDashNoDate(t: string)
    requires '-' !in t
    ensures !EndsCompact(t) && !EndsDashed(t) && !EndsMonth(t) && !EndsYear(t)
  {
    assert |t| >= 9 ==> t[|t| - 9] in t;
    assert |t| >= 11 ==> t[|t| - 3] in t;
    assert |t| >= 8 ==> t[|t| - 3] in t;
    if |t| >= 5 { assert t[|t| - 5..|t| - 2][0] == t[|t| - 5] && t[|t| - 5] in t; }
  }

  lemma JoinedLast(tokens: seq<string>)
    requires |tokens| >= 2
    ensures var n := |tokens| - 1; Join(tokens, DASH) == Join(tokens[..n], DASH) + DASH + tokens[n]
  {
    InitLast(tokens);
    JoinedOf(tokens[..|tokens| - 1], tokens[|tokens| - 1], tokens);
  }

  lemma JoinedOf(front: seq<string>, last: string, tokens: seq<string>)
    requires front != [] && tokens == front + [last]
    ensures Join(tokens, DASH) == Join(front, DASH) + DASH + last
  {
    JoinSnoc(front, DASH, last);
  }

  lemma JoinedYear(tokens: seq<string>)
    requires Tokens(tokens) && tokens != []
    ensures EndsYear(Join(tokens, DASH)) <==> |tokens| >= 2 && IsYear(tokens[|tokens| - 1])
  {
    var n := |tokens| - 1;
    if n == 0 {
      NoDashNoDate(tokens[0]);
    } else {
      JoinedLast(tokens);
      YearEnds(Join(tokens[..n], DASH), tokens[n]);
    }
  }

  lemma MonthBehind(front: seq<string>, t: string, c: string)
    requires Tokens(front) && front != [] && '-' !in t && c == Join(front, DASH) + DASH + t
    ensures EndsMonth(c) <==> |front| >= 2 && IsYear(front[|front| - 1]) && TwoDigits(t)
  {
    MonthEnds(Join(front, DASH), t);
    JoinedYear(front);
  }

  lemma JoinedMonth(tokens: seq<string>)
    requires Tokens(tokens) && tokens != []
    ensures EndsMonth(Join(tokens, DASH)) <==> MonthAtEnd(tokens)
  {
    var n := |tokens| - 1;
    if n == 0 {
      NoDashNoDate(tokens[0]);
    } else {
      JoinedLast(tokens);
      MonthBehind(tokens[..n], tokens[n], Join(tokens, DASH));
    }
  }

  lemma JoinedDate(tokens: seq<string>)
    requires Tokens(tokens) && tokens != []
    ensures EndsDashed(Join(tokens, DASH)) <==> DateAtEnd(tokens)
    ensures EndsCompact(Join(tokens, DASH)) <==> |tokens| >= 2 && |tokens[|tokens| - 1]| == 8 && Digits(tokens[|tokens| - 1])
  {
    var n := |tokens| - 1;
    if n == 0 {
      NoDashNoDate(tokens[0]);
    } else {
      JoinedLast(tokens);
      DayEnds(Join(tokens[..n], DASH), tokens[n]);
      CompactEnds(Join(tokens[..n], DASH), tokens[n]);
      JoinedMonth(tokens[..n]);
    }
  }

  lemma {:induction false} NonEmptyLast(tokens: seq<string>)
    requires tokens != [] && tokens[|tokens| - 1] != []
    ensures var kept := NonEmpty(tokens);
      kept != [] && |kept| <= |tokens| && kept[|kept| - 1] == tokens[|tokens| - 1]
  {
    if |tokens| > 1 { NonEmptyLast(tokens[1..]); }
  }

  /** The tokens kept end as the text they are taken from. */
  lemma LastTokenStays(w: Words, d: string)
    requires d != [] && d[|d| - 1] != '-'
    ensures var all, kept := Split(d, DASH), SlugTokens(w, d);
      kept != [] && |kept| <= |all| && kept[|kept| - 1] == all[|all| - 1] != []
  {
    var all := Split(d, DASH);
    JoinSplit(d, DASH);
    if |all| > 1 {
      JoinedLast(all);
    }
    NonEmptyLast(all);
    var k := DropVendorsIs(w, NonEmpty(all));
  }

  lemma CompactIsLastPiece(d: string)
    requires |Split(d, DASH)| >= 2
    ensures var all := Split(d, DASH); EndsCompact(d) <==> |all[|all| - 1]| == 8 && Digits(all[|all| - 1])
  {
    var all := Split(d, DASH);
    JoinSplit(d, DASH);
    JoinedLast(all);
    SplitIsDashFree(d, |all| - 1);
    CompactEnds(Join(all[..|all| - 1], DASH), all[|all| - 1]);
  }

  /** A date without dashes is stripped before the tokens are joined, and no other can appear. */
  lemma NoCompactAppears(w: Words, d: string)
    requires d != [] && d[|d| - 1] != '-' && !EndsCompact(d)
    ensures !EndsCompact(Slug(w, d))
  {
    LastTokenStays(w, d);
    SlugTokensAre(w, d);
    JoinedDate(SlugTokens(w, d));
    if |SlugTokens(w, d)| >= 2 { CompactIsLastPiece(d); }
  }

  /** No white space at either end. */
  predicate SolidAtEnds(tokens: seq<string>)
    requires forall i :: 0 <= i < |tokens| ==> tokens[i] != []
  {
    tokens != [] ==> var last := tokens[|tokens| - 1]; !IsSpace(tokens[0][0]) && !IsSpace(last[|last| - 1])
  }

  lemma {:induction false} JoinedEnds(tokens: seq<string>)
    requires Tokens(tokens) && tokens != []
    ensures var c, last := Join(tokens, DASH), tokens[|tokens| - 1];
      c != [] && c[0] == tokens[0][0] && c[|c| - 1] == last[|last| - 1]
  {
    if |tokens| > 1 { JoinedLast(tokens); }
  }

  lemma SolidIsTrimmed(c: string)
    requires c != []
    ensures Trim(c) == c <==> !IsSpace(c[0]) && !IsSpace(c[|c| - 1])
  {
    if !IsSpace(c[0]) && !IsSpace(c[|c| - 1]) { TrimFixed(c); }
  }

  lemma StripDatesStays(c: string)
    requires TrimDashes(c) == c
    ensures StripDates(c) == c <==> !EndsCompact(c) && !EndsDashed(c)
  {
    if StripDates(c) == c { assert StripOnce(c) == c; }
  }

  /** canonical is idempotent at an id exactly if, of the tokens it keeps of the unified id without its dates, neither the
      first begins nor the last ends in white space, and the last three do not read like a date behind another token. */
  lemma CanonicalTwice(w: Words, raw: string)
    ensures var kept := SlugTokens(w, StripDates(Dated(w, raw)));
      && Tokens(kept) && Canonical(w, raw) == Join(kept, DASH)
      && (Canonical(w, Canonical(w, raw)) == Canonical(w, raw) <==> SolidAtEnds(kept) && !DateAtEnd(kept))
  {
    var d := StripDates(Dated(w, raw));
    SlugTokensAre(w, d);
    CanonicalIsClean(w, raw);
    CanonicalStays(w, raw);
    SlugStays(w, d);
  }

  lemma SlugStays(w: Words, d: string)
    requires StripOnce(d) == d && Tokens(SlugTokens(w, d))
    ensures var c, kept := Slug(w, d), SlugTokens(w, d);
      Trim(c) == c && StripDates(c) == c <==> SolidAtEnds(kept) && !DateAtEnd(kept)
  {
    SlugHasNoEndDashes(w, d);
    if SlugTokens(w, d) == [] {
      NoDashNoDate("");
      StripDatesStays("");
    } else {
      DatelessEnds(w, d);
      NoCompactAppears(w, d);
      JoinedStays(SlugTokens(w, d), Slug(w, d));
    }
  }

  lemma JoinedStays(kept: seq<string>, c: string)
    requires Tokens(kept) && kept != [] && c == Join(kept, DASH) && TrimDashes(c) == c && !EndsCompact(c)
    ensures Trim(c) == c && StripDates(c) == c <==> SolidAtEnds(kept) && !DateAtEnd(kept)
  {
    JoinedEnds(kept);
    SolidIsTrimmed(c);
    JoinedDate(kept);
    StripDatesStays(c);
  }

  lemma DatelessEnds(w: Words, d: string)
    requires StripOnce(d) == d && SlugTokens(w, d) != []
    ensures d != [] && d[|d| - 1] != '-' && !EndsCompact(d) && TrimDashes(d) == d
  {
    NothingHasNoTokens(w);
  }

  lemma NothingHasNoTokens(w: Words)
    ensures SlugTokens(w, "") == []
  {
    assert Split("", DASH) == [""] && NonEmpty([""][1..]) == [];
  }

  /** Such a date was hidden by two dashes side by side. */
  lemma DashesHideDates(w: Words, raw: string)
    requires DateAtEnd(SlugTokens(w, StripDates(Dated(w, raw))))
    ensures !SingleDashes(StripDates(Dated(w, raw)))
  {
    var d := StripDates(Dated(w, raw));
    SlugTokensAre(w, d);
    JoinedDate(SlugTokens(w, d));
    DatelessEnds(w, d);
    if SingleDashes(d) {
      SlugIsTail(w, d);
      DashedTail(d, Slug(w, d));
    }
  }

  // ----- a condition on the id itself -----

  ghost predicate Separates(c: char) { IsSeparator(c) || c == '-' }

  /** An id without white space and without two separators side by side. */
  ghost predicate WellSpaced(s: string) {
    && (forall i :: 0 <= i < |s| ==> !IsSpace(s[i]))
    && (forall i :: 0 <= i < |s| - 1 ==> !(Separates(s[i]) && Separates(s[i + 1])))
  }

  lemma WellSpacedSlice(s: string, a: nat, b: nat)
    requires WellSpaced(s) && a <= b <= |s|
    ensures WellSpaced(s[a..b])
  {
    var t := s[a..b];
    forall i | 0 <= i < |t| - 1 ensures !(Separates(t[i]) && Separates(t[i + 1])) {
      assert t[i] == s[a + i] && t[i + 1] == s[a + i + 1];
    }
  }

  lemma WellSpacedIsTrimmed(s: string)
    requires WellSpaced(s)
    ensures Trim(s) == s
  {
    if s != [] { TrimFixed(s); }
  }

  lemma {:induction false} SingleDashTokens(s: string)
    requires SingleDashes(s) && s != [] && s[0] != '-' && s[|s| - 1] != '-'
    ensures Tokens(Split(s, DASH))
    decreases |s|
  {
    DashFree(s);
    match Chunkers.Index(s, DASH)
    case None =>
    case Some(k) =>
      assert s[k..k + 1][0] == s[k] == '-';
      assert k > 0 && k < |s| - 1;
      var rest := s[k + 1..];
      forall i | 0 <= i < |rest| - 1 ensures !(rest[i] == '-' && rest[i + 1] == '-') {
        assert rest[i] == s[k + 1 + i] && rest[i + 1] == s[k + 2 + i];
      }
      assert rest[0] == s[k + 1] && rest[|rest| - 1] == s[|s| - 1];
      SingleDashTokens(rest);
  }

  /** Without two dashes side by side, the slug of a text is its tail. */
  lemma SlugIsTail(w: Words, d: string)
    requires SingleDashes(d) && TrimDashes(d) == d
    ensures var c := Slug(w, d); |c| <= |d| && c == d[|d| - |c|..]
  {
    if d == [] {
      assert Split("", DASH) == [""] && NonEmpty([""][1..]) == [];
    } else {
      SingleDashTokens(d);
      var tokens := Split(d, DASH);
      NonEmptyIs(tokens);
      var k := DropVendorsIs(w, tokens);
      JoinTail(tokens, DASH, k);
      JoinSplit(d, DASH);
    }
  }

  lemma CompactTail(d: string, c: string)
    requires |c| <= |d| && c == d[|d| - |c|..]
    ensures EndsCompact(c) ==> EndsCompact(d)
  {
    if |c| >= 9 { assert c[|c| - 8..] == d[|d| - 8..] && c[|c| - 9] == d[|d| - 9]; }
  }

  lemma DashedTail(d: string, c: string)
    requires |c| <= |d| && c == d[|d| - |c|..]
    ensures EndsDashed(c) ==> EndsDashed(d)
  {
    if |c| >= 11 {
      assert c[|c| - 11..|c| - 8] == d[|d| - 11..|d| - 8] && c[|c| - 8..|c| - 6] == d[|d| - 8..|d| - 6];
      assert c[|c| - 5..|c| - 3] == d[|d| - 5..|d| - 3] && c[|c| - 2..] == d[|d| - 2..];
    }
  }

  lemma NoDateInTail(d: string, c: string)
    requires |c| <= |d| && c == d[|d| - |c|..] && StripOnce(d) == d && TrimDashes(c) == c
    ensures StripDates(c) == c
  {
    CompactTail(d, c);
    DashedTail(d, c);
  }

  lemma DatedIsWellSpaced(w: Words, raw: string)
    requires WellSpaced(raw)
    ensures WellSpaced(StripDates(Dated(w, raw)))
  {
    WellSpacedIsTrimmed(raw);
    LowerIsWellSpaced(raw);
    BareIsWellSpaced(w, Lower(raw));
    UnifyIsWellSpaced(Bare(w, Lower(raw)));
    TrimmingIsWellSpaced(Unify(Bare(w, Lower(raw))));
  }

  lemma BareIsWellSpaced(w: Words, s: string)
    requires WellSpaced(s)
    ensures WellSpaced(Bare(w, s))
  {
    BareIsTail(w, s);
    var n := |Bare(w, s)|;
    ToTheEnd(s, |s| - n);
    WellSpacedSlice(s, |s| - n, |s|);
  }

  lemma TrimmingIsWellSpaced(s: string)
    requires WellSpaced(s)
    ensures WellSpaced(StripDates(TrimDashes(s)))
  {
    var i, j := TrimDashesIs(s);
    WellSpacedSlice(s, i, j);
    var k, l := StripDatesIs(TrimDashes(s));
    WellSpacedSlice(TrimDashes(s), k, l);
  }

  lemma LowerIsWellSpaced(s: string)
    requires WellSpaced(s)
    ensures WellSpaced(Lower(s))
  {
    forall i | 0 <= i < |s| ensures IsSpace(Lower(s)[i]) == IsSpace(s[i]) && Separates(Lower(s)[i]) == Separates(s[i]) {}
  }

  lemma UnifyIsWellSpaced(s: string)
    requires WellSpaced(s)
    ensures WellSpaced(Unify(s))
  {
    forall i | 0 <= i < |s| ensures !IsSpace(Unify(s)[i]) && (Separates(Unify(s)[i]) ==> Separates(s[i])) {}
  }

  lemma SlugIsDateless(w: Words, d: string)
    requires WellSpaced(d) && StripOnce(d) == d
    ensures Trim(Slug(w, d)) == Slug(w, d) && StripDates(Slug(w, d)) == Slug(w, d)
  {
    var c := Slug(w, d);
    SlugIsTail(w, d);
    ToTheEnd(d, |d| - |c|);
    WellSpacedSlice(d, |d| - |c|, |d|);
    WellSpacedIsTrimmed(c);
    SlugHasNoEndDashes(w, d);
    NoDateInTail(d, c);
  }

  /** On ids without white space and adjacent separators canonical is idempotent. */
  lemma CanonicalIsIdempotent(w: Words, raw: string)
    requires WellSpaced(raw)
    ensures Canonical(w, Canonical(w, raw)) == Canonical(w, raw)
  {
    CanonicalStays(w, raw);
    DatedIsWellSpaced(w, raw);
    if Lower(Trim(raw)) == [] {
      assert StripOnce("") == "";
    } else {
      SlugIsDateless(w, StripDates(Dated(w, raw)));
    }
  }

  lemma SplitFirst(a: string, rest: string)
    requires '-' !in a
    ensures Split(a + DASH + rest, DASH) == [a] + Split(rest, DASH)
  {
    FirstDash(a, rest);
    var s := a + DASH + rest;
    assert s[..|a|] == a && s[|a| + 1..] == rest;
  }

  const HIDDEN: string := "foo-2024--01-01"
  const SHOWN: string := "foo-2024-01-01"

  lemma EndsStay(s: string)
    requires s != [] && s[0] == 'f' && s[|s| - 1] == '1'
    ensures Trim(s) == s && TrimDashes(s) == s
  {
    TrimFixed(s);
  }

  lemma HiddenEnds()
    ensures |HIDDEN| == 15 && HIDDEN[0] == 'f' && HIDDEN[14] == '1'
  {
  }

  lemma HiddenIsTrimmed()
    ensures Trim(HIDDEN) == HIDDEN && TrimDashes(HIDDEN) == HIDDEN
  {
    HiddenEnds();
    EndsStay(HIDDEN);
  }

  lemma HiddenIsClean()
    ensures Clean(HIDDEN)
  {
    CleanConcat("01" + DASH, "01");
    CleanConcat("2024" + DASH + DASH, "01" + DASH + "01");
    CleanConcat("foo" + DASH, "2024" + DASH + DASH + ("01" + DASH + "01"));
    assert HIDDEN == "foo" + DASH + ("2024" + DASH + DASH + ("01" + DASH + "01"));
  }

  lemma CleanConcat(a: string, b: string)
    requires Clean(a) && Clean(b)
    ensures Clean(a + b)
  {
  }

  lemma HiddenHasNoDate()
    ensures StripDates(HIDDEN) == HIDDEN
  {
    var n := |HIDDEN|;
    assert n == 15 && HIDDEN[6] == '2' && HIDDEN[4] == '2';
    assert HIDDEN[n - 9] != '-' && HIDDEN[n - 11..n - 8][0] == HIDDEN[4];
    HiddenIsTrimmed();
  }

  lemma ShownHasDate()
    ensures StripDates(SHOWN) != SHOWN
  {
    var n := |SHOWN|;
    assert n == 14 && SHOWN[n - 11..n - 8] == "-20";
    assert SHOWN[n - 6] == '-' && SHOWN[n - 3] == '-' && EndsDashed(SHOWN);
  }

  lemma SplitHidden()
    ensures Split(HIDDEN, DASH) == ["foo"] + (["2024"] + ([""] + (["01"] + ["01"])))
  {
    assert HIDDEN == "foo" + DASH + "2024--01-01";
    SplitFirst("foo", "2024--01-01");
    SplitYear();
  }

  lemma SplitYear()
    ensures Split("2024--01-01", DASH) == ["2024"] + ([""] + (["01"] + ["01"]))
  {
    assert "2024--01-01" == "2024" + DASH + "-01-01";
    SplitFirst("2024", "-01-01");
    SplitGap();
  }

  lemma SplitGap()
    ensures Split("-01-01", DASH) == [""] + (["01"] + ["01"])
  {
    assert "-01-01" == "" + DASH + "01-01";
    SplitFirst("", "01-01");
    SplitDay();
  }

  lemma SplitDay()
    ensures Split("01-01", DASH) == ["01"] + ["01"]
  {
    assert "01-01" == "01" + DASH + "01";
    SplitFirst("01", "01");
    NoDash("01");
  }

  lemma NonEmptyCons(first: string, rest: seq<string>)
    ensures NonEmpty([first] + rest) == (if first == [] then [] else [first]) + NonEmpty(rest)
  {
    assert ([first] + rest)[1..] == rest;
  }

  lemma TokensOfHidden()
    ensures NonEmpty(Split(HIDDEN, DASH)) == ["foo"] + (["2024"] + (["01"] + ["01"]))
  {
    SplitHidden();
    NonEmptyCons("foo", ["2024"] + ([""] + (["01"] + ["01"])));
    NonEmptyCons("2024", [""] + (["01"] + ["01"]));
    NonEmptyCons("", ["01"] + ["01"]);
    NonEmptyCons("01", ["01"]);
    NonEmptyCons("01", []);
    assert ["01"] + [] == ["01"];
  }

  lemma JoinCons(first: string, rest: seq<string>)
    requires rest != []
    ensures Join([first] + rest, DASH) == first + DASH + Join(rest, DASH)
  {
    assert ([first] + rest)[1..] == rest;
  }

  lemma JoinShown()
    ensures Join(["foo"] + (["2024"] + (["01"] + ["01"])), DASH) == SHOWN
  {
    JoinCons("foo", ["2024"] + (["01"] + ["01"]));
    JoinCons("2024", ["01"] + ["01"]);
    JoinCons("01", ["01"]);
    assert SHOWN == "foo" + DASH + ("2024" + DASH + ("01" + DASH + "01"));
  }

  lemma ShownAfterJoining(w: Words, raw: string, tokens: seq<string>, c: string)
    requires Clean(raw) && TrimDashes(raw) == raw && Trim(raw) == raw && raw != [] && StripDates(raw) == raw
    requires NonEmpty(Split(raw, DASH)) == tokens && tokens != [] && !w.prefix(tokens[0]) && Join(tokens, DASH) == c
    requires StripDates(c) != c
    ensures Canonical(w, raw) == c && Canonical(w, c) != c
  {
    CanonicalOfClean(w, raw);
    CanonicalStays(w, raw);
  }

  /** With two dashes side by side it need not be: a date appears when they have become one. */
  lemma TwoDashesHideADate(w: Words)
    requires !w.prefix("foo")
    ensures Canonical(w, HIDDEN) == SHOWN && Canonical(w, SHOWN) != SHOWN
  {
    HiddenIsTrimmed();
    HiddenIsClean();
    HiddenHasNoDate();
    TokensOfHidden();
    JoinShown();
    ShownHasDate();
    ShownAfterJoining(w, HIDDEN, ["foo"] + (["2024"] + (["01"] + ["01"])), SHOWN);
  }
}
