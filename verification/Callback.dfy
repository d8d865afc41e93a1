/** Interactive callbacks: callback_data strings printed and parsed under a 64-byte limit, with arguments that do not fit
    kept in a bounded first-in first-out table.  Printers and parser are functions of the table, so that the round trips
    say in which states a button still works; the class keeps the table as the source does. */
module Callback {
  import opened Wrappers
  import opened QueryEscape
  import opened Seqs

  const LIST: Bytes := "m~lp~"
  const PROVIDER: Bytes := "m~mpl~"
  const SELECT: Bytes := "m~ms~"
  const RANGE: Bytes := "m~rg~"
  const CONFIRM: Bytes := "m~cn~"
  const SKILL: Bytes := "m~sk~"
  const DISMISS: Bytes := "m~x"
  const NOOP: Bytes := "m~noop"

  const DATA_LIMIT := 64
  const STASH_LIMIT := 256

  datatype Parsed =
    | Dismiss
    | Noop
    | ListPage(resource: Bytes, action: Bytes, page: int, args: seq<Bytes>)
    | ModelProvider(provider: int, page: int)
    | ModelSelect(id: Bytes)
    | Range(resource: Bytes, action: Bytes, key: Bytes)
    | ConfirmNew(mode: Bytes)
    | SkillActivate(name: Bytes)

  // ----- shortHash: FNV-1a on 64 bits, in base 36 -----

  const TWO_64 := 0x1_0000_0000_0000_0000
  const FNV_OFFSET := 0xcbf2_9ce4_8422_2325
  const FNV_PRIME := 0x100_0000_01b3

  /** Xor of two bytes, bit by bit. */
  function XorBits(a: nat, b: nat, bits: nat): nat {
    if bits == 0 then 0 else (if a % 2 == b % 2 then 0 else 1) + 2 * XorBits(a / 2, b / 2, bits - 1)
  }

  function Fnv(s: Bytes): (h: nat)
    ensures h < TWO_64
  {
    if s == [] then FNV_OFFSET
    else
      var h := Fnv(s[..|s| - 1]);
      ((h - h % 256 + XorBits(h % 256, s[|s| - 1] as int, 8)) * FNV_PRIME) % TWO_64
  }

  function Digit36(d: nat): Byte
    requires d < 36
  {
    if d < 10 then ('0' as int + d) as char else ('a' as int + d - 10) as char
  }

  function Base36(n: nat): (r: Bytes)
    ensures r != []
  {
    if n < 36 then [Digit36(n)] else Base36(n / 36) + [Digit36(n % 36)]
  }

  function Pow36(k: nat): nat { if k == 0 then 1 else 36 * Pow36(k - 1) }

  lemma {:induction false} Base36Length(n: nat, k: nat)
    requires k > 0 && n < Pow36(k)
    ensures |Base36(n)| <= k
  {
    if n >= 36 {
      assert k > 1;
      Base36Length(n / 36, k - 1);
    }
  }

  function ShortHash(s: Bytes): Bytes { Base36(Fnv(s)) }

  lemma ShortHashLength(s: Bytes)
    ensures 1 <= |ShortHash(s)| <= 13
  {
    assert Pow36(4) == 1679616 && Pow36(8) == 2821109907456 && Pow36(12) == 4738381338321616896;
    assert Pow36(13) > TWO_64;
    Base36Length(Fnv(s), 13);
  }

  // ----- the stash -----

  datatype Stash = Stash(table: map<Bytes, Bytes>, order: seq<Bytes>)

  const EMPTY_STASH := Stash(map[], [])

  /** stashArgs: a token that is already there keeps what it stands for. */
  function PutStash(st: Stash, args: Bytes): Stash {
    var token := ShortHash(args);
    if token in st.table then st
    else
      var table, order := st.table[token := args], st.order + [token];
      if |order| > STASH_LIMIT then Stash(table - {order[0]}, order[1..]) else Stash(table, order)
  }

  // ----- printers -----

  function TrimAll(args: seq<Bytes>): (r: seq<Bytes>)
    ensures |r| == |args| && forall i :: 0 <= i < |r| ==> r[i] == Trim(args[i])
  {
    seq(|args|, i requires 0 <= i < |args| => Trim(args[i]))
  }

  function NonEmpty(words: seq<Bytes>): seq<Bytes> {
    if words == [] then [] else (if words[0] == [] then [] else [words[0]]) + NonEmpty(words[1..])
  }

  /** Arguments as they are encoded: trimmed, blank ones dropped. */
  function Cleaned(args: seq<Bytes>): seq<Bytes> { NonEmpty(TrimAll(args)) }

  function EscapeAll(args: seq<Bytes>): (r: seq<Bytes>)
    ensures |r| == |args| && forall i :: 0 <= i < |r| ==> r[i] == Escape(args[i])
  {
    seq(|args|, i requires 0 <= i < |args| => Escape(args[i]))
  }

  /** encodeArgs: each argument is trimmed, dropped if blank, escaped, and joined by spaces. */
  function EncodeArgs(args: seq<Bytes>): Bytes { JoinWords(EscapeAll(Cleaned(args))) }

  function ListBase(resource: Bytes, action: Bytes, page: int): Bytes {
    LIST + (resource + "~" + (action + "~" + (Itoa(page) + "~")))
  }

  predicate Inlined(base: Bytes, payload: Bytes) { |base + payload| <= DATA_LIMIT }

  /** base followed by the payload, or by a token for it when that would be too long. */
  function WithPayload(st: Stash, base: Bytes, payload: Bytes): (Bytes, Stash) {
    if Inlined(base, payload) then (base + payload, st)
    else (base + ("#" + ShortHash(payload)), PutStash(st, payload))
  }

  function EncodeList(st: Stash, resource: Bytes, action: Bytes, args: seq<Bytes>, page: int): (Bytes, Stash) {
    var base := ListBase(resource, action, page);
    if EncodeArgs(args) == [] then (base, st) else WithPayload(st, base, EncodeArgs(args))
  }

  function EncodeModelProvider(provider: int, page: int): Bytes { PROVIDER + (Itoa(provider) + "~" + Itoa(page)) }

  function EncodeModelSelect(id: Bytes): Bytes { SELECT + Escape(Trim(id)) }

  function EncodeRange(resource: Bytes, action: Bytes, key: Bytes): Bytes {
    RANGE + (resource + "~" + (action + "~" + key))
  }

  function EncodeSkillActivate(st: Stash, name: Bytes): (Bytes, Stash) {
    WithPayload(st, SKILL, Escape(Trim(name)))
  }

  function EncodeConfirmNew(mode: Bytes): Bytes { CONFIRM + mode }

  // ----- parser -----

  /** A field that does not unescape is kept as it is. */
  function UnescapeField(f: Bytes): Bytes {
    match Unescape(f) case Some(d) => d case None => f
  }

  function UnescapeAll(fields: seq<Bytes>): (r: seq<Bytes>)
    ensures |r| == |fields| && forall i :: 0 <= i < |r| ==> r[i] == UnescapeField(fields[i])
  {
    seq(|fields|, i requires 0 <= i < |fields| => UnescapeField(fields[i]))
  }

  function DecodeArgs(s: Bytes): seq<Bytes> { Cleaned(UnescapeAll(Fields(s))) }

  /** What a token or an inlined payload stands for; an unknown token stands for nothing. */
  function Resolve(table: map<Bytes, Bytes>, payload: Bytes): Bytes {
    if payload != [] && payload[0] == '#' then (if payload[1..] in table then table[payload[1..]] else [])
    else payload
  }

  function DecodeList(table: map<Bytes, Bytes>, body: Bytes): Option<Parsed> {
    var parts := SplitN(body, 4);
    if |parts| < 3 then None
    else
      match Atoi(parts[2])
      case None => None
      case Some(page) =>
        if page < 0 then None
        else Some(ListPage(parts[0], parts[1], page, if |parts| == 4 then DecodeArgs(Resolve(table, parts[3])) else []))
  }

  function DecodeModelProvider(body: Bytes): Option<Parsed> {
    var parts := SplitN(body, 2);
    if |parts| != 2 || Atoi(parts[0]).None? || Atoi(parts[1]).None? then None
    else
      var provider, page := Atoi(parts[0]).value, Atoi(parts[1]).value;
      if provider < 0 || page < 0 then None else Some(ModelProvider(provider, page))
  }

  /** An escaped, non-blank name. */
  function DecodeName(s: Bytes): Option<Bytes> {
    match Unescape(s)
    case None => None
    case Some(name) => if Trim(name) == [] then None else Some(Trim(name))
  }

  function DecodeRange(body: Bytes): Option<Parsed> {
    var parts := SplitN(body, 3);
    if |parts| != 3 || parts[2] == [] then None else Some(Range(parts[0], parts[1], parts[2]))
  }

  /** DecodeCallback, reading the stash's table. */
  function Decode(table: map<Bytes, Bytes>, data: Bytes): Option<Parsed> {
    if data == DISMISS then Some(Dismiss)
    else if data == NOOP then Some(Noop)
    else if LIST <= data then DecodeList(table, data[5..])
    else if PROVIDER <= data then DecodeModelProvider(data[6..])
    else if SELECT <= data then DecodeSelect(data[5..])
    else if RANGE <= data then DecodeRange(data[5..])
    else if CONFIRM <= data then (if data[5..] == [] then None else Some(ConfirmNew(data[5..])))
    else if SKILL <= data then DecodeSkill(Resolve(table, data[5..]))
    else None
  }

  function DecodeSkill(payload: Bytes): Option<Parsed> {
    match DecodeName(payload) case None => None case Some(name) => Some(SkillActivate(name))
  }

  function DecodeSelect(payload: Bytes): Option<Parsed> {
    match DecodeName(payload) case None => None case Some(id) => Some(ModelSelect(id))
  }

  // ----- arguments -----

  lemma UnescapeOfEscape(args: seq<Bytes>)
    ensures UnescapeAll(EscapeAll(args)) == args
  {
    forall i | 0 <= i < |args| ensures UnescapeField(Escape(args[i])) == args[i] { UnescapeEscape(args[i]); }
  }

  lemma FieldsOfEncoded(words: seq<Bytes>)
    requires forall i :: 0 <= i < |words| ==> words[i] != []
    ensures Fields(JoinWords(EscapeAll(words))) == EscapeAll(words)
  {
    forall i | 0 <= i < |words| ensures EscapeAll(words)[i] != [] && Plain(EscapeAll(words)[i]) { EscapeIsPlain(words[i]); }
    FieldsOfJoin(EscapeAll(words));
  }

  lemma FirstOfEncoded(words: seq<Bytes>)
    requires forall i :: 0 <= i < |words| ==> words[i] != []
    ensures JoinWords(EscapeAll(words)) == [] <==> words == []
    ensures words != [] ==> JoinWords(EscapeAll(words))[0] != '#'
  {
    if words != [] { EscapeIsPlain(words[0]); }
  }

  lemma {:induction false} NonEmptyIn(words: seq<Bytes>, i: nat)
    requires i < |NonEmpty(words)|
    ensures NonEmpty(words)[i] in words && NonEmpty(words)[i] != []
  {
    if words[0] == [] { NonEmptyIn(words[1..], i); } else if i > 0 { NonEmptyIn(words[1..], i - 1); }
  }

  lemma {:induction false} NonEmptyAll(words: seq<Bytes>)
    requires forall i :: 0 <= i < |words| ==> words[i] != []
    ensures NonEmpty(words) == words
  {
    if words != [] {
      NonEmptyAll(words[1..]);
      assert words == [words[0]] + words[1..];
    }
  }

  lemma CleanedWords(args: seq<Bytes>)
    ensures forall i :: 0 <= i < |Cleaned(args)| ==> Cleaned(args)[i] != [] && Trim(Cleaned(args)[i]) == Cleaned(args)[i]
  {
    forall i | 0 <= i < |Cleaned(args)| ensures Cleaned(args)[i] != [] && Trim(Cleaned(args)[i]) == Cleaned(args)[i] {
      NonEmptyIn(TrimAll(args), i);
      var k :| 0 <= k < |args| && TrimAll(args)[k] == Cleaned(args)[i];
      TrimIdempotent(args[k]);
    }
  }

  /** Cleaning twice is cleaning once. */
  lemma CleanedTwice(args: seq<Bytes>)
    ensures Cleaned(Cleaned(args)) == Cleaned(args)
  {
    CleanedWords(args);
    assert TrimAll(Cleaned(args)) == Cleaned(args);
    NonEmptyAll(Cleaned(args));
  }

  lemma DecodeJoined(words: seq<Bytes>)
    requires forall i :: 0 <= i < |words| ==> words[i] != []
    ensures DecodeArgs(JoinWords(EscapeAll(words))) == Cleaned(words)
  {
    FieldsOfEncoded(words);
    UnescapeOfEscape(words);
  }

  /** Arguments come back trimmed and without blank ones; spaces inside an argument are kept. */
  lemma ArgsRoundTrip(args: seq<Bytes>)
    ensures DecodeArgs(EncodeArgs(args)) == Cleaned(args)
  {
    CleanedWords(args);
    DecodeJoined(Cleaned(args));
    CleanedTwice(args);
  }

  /** The table gives payload back for its own token: no other payload with the same hash is in it. */
  predicate NoCollision(st: Stash, payload: Bytes) {
    ShortHash(payload) in st.table ==> st.table[ShortHash(payload)] == payload
  }

  /** The order list holds the keys of the table, each once, and no more than the limit. */
  ghost predicate StashSound(st: Stash) {
    && (forall t :: t in st.table <==> t in st.order)
    && (forall i, j :: 0 <= i < j < |st.order| ==> st.order[i] != st.order[j])
    && |st.order| <= STASH_LIMIT
  }

  /** A payload that has just been stashed can be looked up. */
  lemma PutThenGet(st: Stash, payload: Bytes)
    requires StashSound(st)
    ensures StashSound(PutStash(st, payload))
    ensures ShortHash(payload) in PutStash(st, payload).table
    ensures PutStash(st, payload).table[ShortHash(payload)] == payload <==> NoCollision(st, payload)
  {
    var token := ShortHash(payload);
    if token !in st.table {
      var order := st.order + [token];
      assert order[0] in order;
      if |order| > STASH_LIMIT {
        assert st.order[0] in st.order && order[0] == st.order[0] && order[0] != token;
        forall t ensures t in order[1..] <==> t in order && t != order[0] {
          if t in order && t != order[0] {
            var i :| 0 <= i < |order| && order[i] == t;
            assert order[1..][i - 1] == t;
          }
        }
      }
    }
  }

  lemma ResolvePayload(st: Stash, base: Bytes, payload: Bytes)
    requires StashSound(st) && NoCollision(st, payload) && (payload != [] ==> payload[0] != '#')
    ensures var (data, st') := WithPayload(st, base, payload);
      base <= data && Resolve(st'.table, data[|base|..]) == payload && StashSound(st')
  {
    PutThenGet(st, payload);
    if !Inlined(base, payload) {
      var token: Bytes := "#" + ShortHash(payload);
      assert token[1..] == ShortHash(payload);
    }
  }

  // ----- round trips -----

  lemma ListBody(resource: Bytes, action: Bytes, page: int, payload: Bytes)
    requires '~' !in resource && '~' !in action
    ensures ListBase(resource, action, page) + payload
         == LIST + (resource + "~" + (action + "~" + (Itoa(page) + "~" + payload)))
    ensures SplitN(resource + "~" + (action + "~" + (Itoa(page) + "~" + payload)), 4) == [resource, action, Itoa(page), payload]
  {
    ListFields(resource, action, Itoa(page), payload);
    BasePayload(resource, action, Itoa(page), payload);
  }

  lemma ListFields(resource: Bytes, action: Bytes, page: Bytes, payload: Bytes)
    requires '~' !in resource && '~' !in action && '~' !in page
    ensures SplitN(resource + "~" + (action + "~" + (page + "~" + payload)), 4) == [resource, action, page, payload]
  {
    SplitNFirst(resource, action + "~" + (page + "~" + payload), 4);
    SplitNFirst(action, page + "~" + payload, 3);
    SplitNFirst(page, payload, 2);
  }

  lemma BasePayload(resource: Bytes, action: Bytes, page: Bytes, payload: Bytes)
    ensures LIST + (resource + "~" + (action + "~" + (page + "~"))) + payload
         == LIST + (resource + "~" + (action + "~" + (page + "~" + payload)))
  {
    Assoc(action + "~", page + "~", payload);
    Assoc(resource + "~", action + "~" + (page + "~"), payload);
    Assoc(LIST, resource + "~" + (action + "~" + (page + "~")), payload);
  }

  // Which parser a prefix selects.

  lemma DecodeOfList(table: map<Bytes, Bytes>, body: Bytes)
    ensures Decode(table, LIST + body) == DecodeList(table, body)
  {
    var data := LIST + body;
    assert data[5..] == body && data[2] == 'l';
  }

  lemma DecodeOfProvider(table: map<Bytes, Bytes>, body: Bytes)
    ensures Decode(table, PROVIDER + body) == DecodeModelProvider(body)
  {
    var data := PROVIDER + body;
    assert data[6..] == body && data[2] == 'm' && data[3] == 'p';
  }

  lemma DecodeOfSelect(table: map<Bytes, Bytes>, body: Bytes)
    ensures Decode(table, SELECT + body) == DecodeSelect(body)
  {
    var data := SELECT + body;
    assert data[5..] == body && data[2] == 'm' && data[3] == 's';
  }

  lemma DecodeOfRange(table: map<Bytes, Bytes>, body: Bytes)
    ensures Decode(table, RANGE + body) == DecodeRange(body)
  {
    var data := RANGE + body;
    assert data[5..] == body && data[2] == 'r';
  }

  lemma DecodeOfSkill(table: map<Bytes, Bytes>, body: Bytes)
    ensures Decode(table, SKILL + body) == DecodeSkill(Resolve(table, body))
  {
    var data := SKILL + body;
    assert data[5..] == body && data[2] == 's' && data[3] == 'k';
    assert Resolve(table, data[5..]) == Resolve(table, body);
  }

  lemma DecodeListBody(table: map<Bytes, Bytes>, resource: Bytes, action: Bytes, page: int, payload: Bytes)
    requires '~' !in resource && '~' !in action && 0 <= page <= MAX_INT
    ensures DecodeList(table, resource + "~" + (action + "~" + (Itoa(page) + "~" + payload)))
         == Some(ListPage(resource, action, page, DecodeArgs(Resolve(table, payload))))
  {
    ListBody(resource, action, page, payload);
    AtoiItoa(page);
  }

  lemma DecodedListIsProper(table: map<Bytes, Bytes>, data: Bytes)
    requires Decode(table, data).Some? && Decode(table, data).value.ListPage?
    ensures '~' !in Decode(table, data).value.resource && '~' !in Decode(table, data).value.action
    ensures Decode(table, data).value.page >= 0
  {
  }

  /** What a list button decodes to, whatever its payload. */
  lemma DecodeListData(table: map<Bytes, Bytes>, resource: Bytes, action: Bytes, page: int, payload: Bytes)
    requires '~' !in resource && '~' !in action && 0 <= page <= MAX_INT
    ensures Decode(table, ListBase(resource, action, page) + payload)
         == Some(ListPage(resource, action, page, DecodeArgs(Resolve(table, payload))))
  {
    ListBody(resource, action, page, payload);
    DecodeOfList(table, resource + "~" + (action + "~" + (Itoa(page) + "~" + payload)));
    DecodeListBody(table, resource, action, page, payload);
  }

  lemma DecodeEncodedList(st: Stash, resource: Bytes, action: Bytes, args: seq<Bytes>, page: int)
    requires StashSound(st) && NoCollision(st, EncodeArgs(args)) && 0 <= page <= MAX_INT
    requires '~' !in resource && '~' !in action
    ensures var (data, st') := EncodeList(st, resource, action, args, page);
      Decode(st'.table, data) == Some(ListPage(resource, action, page, Cleaned(args)))
  {
    var payload, table := EncodedListPayload(st, resource, action, args, page);
    DecodeListData(table, resource, action, page, payload);
    ArgsRoundTrip(args);
  }

  lemma EncodedListPayload(st: Stash, resource: Bytes, action: Bytes, args: seq<Bytes>, page: int)
      returns (payload: Bytes, table: map<Bytes, Bytes>)
    requires StashSound(st) && NoCollision(st, EncodeArgs(args))
    ensures table == EncodeList(st, resource, action, args, page).1.table
    ensures EncodeList(st, resource, action, args, page).0 == ListBase(resource, action, page) + payload
    ensures Resolve(table, payload) == EncodeArgs(args)
  {
    CleanedWords(args);
    FirstOfEncoded(Cleaned(args));
    var base := ListBase(resource, action, page);
    ResolvePayload(st, base, EncodeArgs(args));
    var (data, st') := EncodeList(st, resource, action, args, page);
    payload, table := data[|base|..], st'.table;
  }

  /** A list button comes back with its resource, action, page and cleaned arguments exactly when the
      page is not negative and neither resource nor action contains the separator '~'. */
  lemma ListRoundTrip(st: Stash, resource: Bytes, action: Bytes, args: seq<Bytes>, page: int)
    requires StashSound(st) && NoCollision(st, EncodeArgs(args)) && IsInt(page)
    ensures var (data, st') := EncodeList(st, resource, action, args, page);
      (Decode(st'.table, data) == Some(ListPage(resource, action, page, Cleaned(args))))
      <==> (page >= 0 && '~' !in resource && '~' !in action)
  {
    var (data, st') := EncodeList(st, resource, action, args, page);
    if page < 0 || '~' in resource || '~' in action {
      if Decode(st'.table, data) == Some(ListPage(resource, action, page, Cleaned(args))) {
        DecodedListIsProper(st'.table, data);
      }
    } else {
      DecodeEncodedList(st, resource, action, args, page);
    }
  }

  lemma ModelProviderRoundTrip(table: map<Bytes, Bytes>, provider: int, page: int)
    requires IsInt(provider) && IsInt(page)
    ensures Decode(table, EncodeModelProvider(provider, page))
         == if provider < 0 || page < 0 then None else Some(ModelProvider(provider, page))
  {
    PrintedInt(provider);
    PrintedInt(page);
    ProviderData(table, Itoa(provider), Itoa(page), provider, page);
  }

  lemma PrintedInt(n: int)
    requires IsInt(n)
    ensures '~' !in Itoa(n) && Atoi(Itoa(n)) == Some(n)
  {
    AtoiItoa(n);
  }

  lemma ProviderData(table: map<Bytes, Bytes>, first: Bytes, second: Bytes, provider: int, page: int)
    requires '~' !in first && Atoi(first) == Some(provider) && Atoi(second) == Some(page)
    ensures Decode(table, PROVIDER + (first + "~" + second))
         == if provider < 0 || page < 0 then None else Some(ModelProvider(provider, page))
  {
    DecodeOfProvider(table, first + "~" + second);
    ProviderFields(first, second, provider, page);
  }

  lemma ProviderFields(first: Bytes, second: Bytes, provider: int, page: int)
    requires '~' !in first && Atoi(first) == Some(provider) && Atoi(second) == Some(page)
    ensures DecodeModelProvider(first + "~" + second)
         == if provider < 0 || page < 0 then None else Some(ModelProvider(provider, page))
  {
    SplitNFirst(first, second, 2);
  }

  lemma NameRoundTrip(name: Bytes)
    ensures DecodeName(Escape(Trim(name))) == if Trim(name) == [] then None else Some(Trim(name))
  {
    UnescapeEscape(Trim(name));
    TrimIdempotent(name);
  }

  /** A model id comes back trimmed; a blank one makes a button that is not ours. */
  lemma ModelSelectRoundTrip(table: map<Bytes, Bytes>, id: Bytes)
    ensures Decode(table, EncodeModelSelect(id)) == if Trim(id) == [] then None else Some(ModelSelect(Trim(id)))
  {
    DecodeOfSelect(table, Escape(Trim(id)));
    NameRoundTrip(id);
  }

  /** A range button comes back exactly when the key is not empty and nothing before it contains '~'. */
  lemma RangeRoundTrip(table: map<Bytes, Bytes>, resource: Bytes, action: Bytes, key: Bytes)
    ensures (Decode(table, EncodeRange(resource, action, key)) == Some(Range(resource, action, key)))
      <==> ('~' !in resource && '~' !in action && key != [])
  {
    DecodeOfRange(table, resource + "~" + (action + "~" + key));
    RangeFields(resource, action, key);
  }

  lemma RangeFields(resource: Bytes, action: Bytes, key: Bytes)
    ensures DecodeRange(resource + "~" + (action + "~" + key)) == Some(Range(resource, action, key))
      <==> ('~' !in resource && '~' !in action && key != [])
  {
    if '~' !in resource && '~' !in action {
      SplitNFirst(resource, action + "~" + key, 3);
      SplitNFirst(action, key, 2);
    }
  }

  lemma ConfirmNewRoundTrip(table: map<Bytes, Bytes>, mode: Bytes)
    ensures Decode(table, EncodeConfirmNew(mode)) == if mode == [] then None else Some(ConfirmNew(mode))
  {
    var data := EncodeConfirmNew(mode);
    assert data[5..] == mode && data[2] == 'c';
  }

  lemma SkillPayload(st: Stash, name: Bytes)
    requires StashSound(st) && NoCollision(st, Escape(name))
    ensures var (data, st') := WithPayload(st, SKILL, Escape(name));
      Decode(st'.table, data) == DecodeSkill(Escape(name))
  {
    var (data, st') := WithPayload(st, SKILL, Escape(name));
    EscapeIsPlain(name);
    ResolvePayload(st, SKILL, Escape(name));
    assert data == SKILL + data[|SKILL|..];
    DecodeOfSkill(st'.table, data[|SKILL|..]);
  }

  /** A skill name comes back trimmed, inlined or stashed. */
  lemma SkillRoundTrip(st: Stash, name: Bytes)
    requires StashSound(st) && NoCollision(st, Escape(Trim(name)))
    ensures var (data, st') := EncodeSkillActivate(st, name);
      Decode(st'.table, data) == if Trim(name) == [] then None else Some(SkillActivate(Trim(name)))
  {
    SkillPayload(st, Trim(name));
    NameRoundTrip(name);
  }

  lemma FixedRoundTrip(table: map<Bytes, Bytes>)
    ensures Decode(table, DISMISS) == Some(Dismiss) && Decode(table, NOOP) == Some(Noop)
  {
  }

  // ----- which encoder made a button -----

  datatype Button =
    | DismissButton
    | NoopButton
    | ListButton(resource: Bytes, action: Bytes, args: seq<Bytes>, page: int)
    | ProviderButton(provider: int, page: int)
    | SelectButton(id: Bytes)
    | RangeButton(resource: Bytes, action: Bytes, key: Bytes)
    | ConfirmButton(mode: Bytes)
    | SkillButton(name: Bytes)

  /** The data each encoder gives to its button, whatever the stash holds. */
  function Print(st: Stash, b: Button): Bytes {
    match b
    case DismissButton => DISMISS
    case NoopButton => NOOP
    case ListButton(resource, action, args, page) => EncodeList(st, resource, action, args, page).0
    case ProviderButton(provider, page) => EncodeModelProvider(provider, page)
    case SelectButton(id) => EncodeModelSelect(id)
    case RangeButton(resource, action, key) => EncodeRange(resource, action, key)
    case ConfirmButton(mode) => EncodeConfirmNew(mode)
    case SkillButton(name) => EncodeSkillActivate(st, name).0
  }

  /** The first bytes of a button: those that tell its encoder from all others. */
  function Mark(b: Button): Bytes {
    match b
    case DismissButton => DISMISS
    case NoopButton => NOOP
    case ListButton(_, _, _, _) => LIST
    case ProviderButton(_, _) => PROVIDER
    case SelectButton(_) => SELECT
    case RangeButton(_, _, _) => RANGE
    case ConfirmButton(_) => CONFIRM
    case SkillButton(_) => SKILL
  }

  lemma PrintHasMark(st: Stash, b: Button)
    ensures Mark(b) <= Print(st, b)
  {
    match b
    case ListButton(resource, action, args, page) =>
      assert LIST <= ListBase(resource, action, page);
      if EncodeArgs(args) != [] { WithPayloadStarts(st, ListBase(resource, action, page), EncodeArgs(args)); }
    case SkillButton(name) => WithPayloadStarts(st, SKILL, Escape(Trim(name)));
    case _ =>
  }

  lemma WithPayloadStarts(st: Stash, base: Bytes, payload: Bytes)
    ensures base <= WithPayload(st, base, payload).0
  {
  }

  /** No two encoders ever print the same data. */
  lemma ImagesAreDisjoint(st1: Stash, b1: Button, st2: Stash, b2: Button)
    requires Print(st1, b1) == Print(st2, b2)
    ensures Mark(b1) == Mark(b2)
  {
    PrintHasMark(st1, b1);
    PrintHasMark(st2, b2);
    MarksDiffer(Mark(b1), Mark(b2), Print(st1, b1));
  }

  predicate IsMark(m: Bytes) {
    m == DISMISS || m == NOOP || m == LIST || m == PROVIDER || m == SELECT || m == RANGE || m == CONFIRM || m == SKILL
  }

  lemma MarksDiffer(m1: Bytes, m2: Bytes, data: Bytes)
    requires IsMark(m1) && IsMark(m2) && m1 <= data && m2 <= data
    ensures m1 == m2
  {
    assert m1[2] == data[2] == m2[2];
    assert |m1| > 3 && |m2| > 3 ==> m1[3] == data[3] == m2[3];
  }

  // ----- sizes -----

  lemma WithPayloadFits(st: Stash, base: Bytes, payload: Bytes)
    requires |base| <= 50
    ensures |WithPayload(st, base, payload).0| <= DATA_LIMIT
  {
    ShortHashLength(payload);
  }

  /** Skill buttons always fit. */
  lemma SkillFits(st: Stash, name: Bytes)
    ensures |EncodeSkillActivate(st, name).0| <= DATA_LIMIT
  {
    WithPayloadFits(st, SKILL, Escape(Trim(name)));
  }

  /** List buttons fit whenever resource, action and page take no more than 42 bytes. */
  lemma ListFits(st: Stash, resource: Bytes, action: Bytes, args: seq<Bytes>, page: int)
    requires |resource| + |action| + |Itoa(page)| <= 42
    ensures |EncodeList(st, resource, action, args, page).0| <= DATA_LIMIT
  {
    var base := ListBase(resource, action, page);
    assert |base| == |resource| + |action| + |Itoa(page)| + 8;
    WithPayloadFits(st, base, EncodeArgs(args));
  }

  // ----- eviction -----

  /** A run of stashArgs calls. */
  function PutAll(st: Stash, payloads: seq<Bytes>): Stash {
    if payloads == [] then st else PutStash(PutAll(st, payloads[..|payloads| - 1]), payloads[|payloads| - 1])
  }

  /** What one stashArgs call inserts. */
  function InsertedBy(st: Stash, next: Bytes): seq<Bytes> {
    if ShortHash(next) in st.table then [] else [ShortHash(next)]
  }

  /** The tokens that such a run inserts: those that are not in the table when their turn comes. */
  function Inserted(st: Stash, payloads: seq<Bytes>): seq<Bytes> {
    if payloads == [] then []
    else
      var init := payloads[..|payloads| - 1];
      Inserted(st, init) + InsertedBy(PutAll(st, init), payloads[|payloads| - 1])
  }

  function LastOf(s: seq<Bytes>, n: nat): seq<Bytes> { if |s| <= n then s else s[|s| - n..] }

  lemma PutKeepsTheNewest(st: Stash, all: seq<Bytes>, next: Bytes)
    requires st.order == LastOf(all, STASH_LIMIT)
    ensures PutStash(st, next).order == LastOf(all + InsertedBy(st, next), STASH_LIMIT)
  {
    if ShortHash(next) in st.table { assert all + InsertedBy(st, next) == all; }
  }

  /** In every reachable state the order list is sound, and it is the last 256 tokens ever inserted. */
  lemma {:induction false} StashHoldsTheNewest(payloads: seq<Bytes>)
    ensures StashSound(PutAll(EMPTY_STASH, payloads))
    ensures PutAll(EMPTY_STASH, payloads).order == LastOf(Inserted(EMPTY_STASH, payloads), STASH_LIMIT)
  {
    if payloads != [] {
      var init, last := payloads[..|payloads| - 1], payloads[|payloads| - 1];
      StashHoldsTheNewest(init);
      PutThenGet(PutAll(EMPTY_STASH, init), last);
      PutKeepsTheNewest(PutAll(EMPTY_STASH, init), Inserted(EMPTY_STASH, init), last);
    }
  }

  /** args is in the table, and the tokens inserted after it are exactly newer. */
  ghost predicate Keeps(st: Stash, args: Bytes, newer: seq<Bytes>) {
    && ShortHash(args) in st.table && st.table[ShortHash(args)] == args
    && |newer| < |st.order| && st.order[|st.order| - |newer| - 1..] == [ShortHash(args)] + newer
  }

  lemma OldestIs(st: Stash, args: Bytes, newer: seq<Bytes>)
    requires StashSound(st) && Keeps(st, args, newer)
    ensures st.order[0] == ShortHash(args) <==> |newer| + 1 == |st.order|
  {
    var k := |st.order| - |newer| - 1;
    assert st.order[k] == st.order[k..][0];
  }

  lemma PutKeeps(st: Stash, args: Bytes, newer: seq<Bytes>, next: Bytes)
    requires StashSound(st) && Keeps(st, args, newer) && ShortHash(next) !in st.table && |newer| < STASH_LIMIT
    ensures |newer| + 1 < STASH_LIMIT ==> Keeps(PutStash(st, next), args, newer + [ShortHash(next)])
    ensures |newer| + 1 == STASH_LIMIT ==> ShortHash(args) !in PutStash(st, next).table
  {
    OldestIs(st, args, newer);
    var k := |st.order| - |newer| - 1;
    var order := st.order + [ShortHash(next)];
    assert order[k..] == [ShortHash(args)] + (newer + [ShortHash(next)]);
    if |order| > STASH_LIMIT && k > 0 { assert order[1..][k - 1..] == order[k..]; }
  }

  /** args is kept while fewer than 256 tokens are newer, and gone at the 256th. */
  ghost predicate Standing(st: Stash, args: Bytes, newer: seq<Bytes>) {
    StashSound(st) && if |newer| < STASH_LIMIT then Keeps(st, args, newer) else ShortHash(args) !in st.table
  }

  lemma PutKeepsStanding(st: Stash, args: Bytes, newer: seq<Bytes>, next: Bytes)
    requires Standing(st, args, newer) && |newer + InsertedBy(st, next)| <= STASH_LIMIT
    ensures Standing(PutStash(st, next), args, newer + InsertedBy(st, next))
  {
    PutThenGet(st, next);
    if ShortHash(next) !in st.table {
      PutKeeps(st, args, newer, next);
    } else {
      assert newer + [] == newer;
    }
  }

  /** A stashed payload can be looked up until 256 newer tokens have been inserted, and no longer. */
  lemma {:induction false} StashedUntilEvicted(st: Stash, args: Bytes, payloads: seq<Bytes>)
    requires StashSound(st) && ShortHash(args) !in st.table
    requires |Inserted(PutStash(st, args), payloads)| <= STASH_LIMIT
    ensures Standing(PutAll(PutStash(st, args), payloads), args, Inserted(PutStash(st, args), payloads))
  {
    var st1 := PutStash(st, args);
    if payloads == [] {
      PutThenGet(st, args);
    } else {
      var init, last := payloads[..|payloads| - 1], payloads[|payloads| - 1];
      StashedUntilEvicted(st, args, init);
      PutKeepsStanding(PutAll(st1, init), args, Inserted(st1, init), last);
    }
  }

  /** What its token resolves to until then, and after. */
  lemma TokenResolvesUntilEvicted(st: Stash, args: Bytes, payloads: seq<Bytes>)
    requires StashSound(st) && ShortHash(args) !in st.table
    requires |Inserted(PutStash(st, args), payloads)| <= STASH_LIMIT
    ensures Resolve(PutAll(PutStash(st, args), payloads).table, "#" + ShortHash(args))
         == if |Inserted(PutStash(st, args), payloads)| < STASH_LIMIT then args else []
  {
    StashedUntilEvicted(st, args, payloads);
    var token: Bytes := "#" + ShortHash(args);
    assert token[1..] == ShortHash(args);
  }

  // ----- reading a callback step by step -----

  const NAMESPACE: Bytes := "m~"

  predicate Begins(body: Bytes, mark: Bytes) { mark <= body }

  /** Data that begins with whole, which is the name space and a mark, has the mark behind the name space. */
  ghost predicate MarkAt(data: Bytes, whole: Bytes, mark: Bytes) {
    if NAMESPACE <= data then
      && |whole| == 2 + |mark| && (data == whole <==> data[2..] == mark) && (whole <= data <==> Begins(data[2..], mark))
      && (Begins(data[2..], mark) ==> data[2..][|mark|..] == data[|whole|..])
    else !(whole <= data) && data != whole
  }

  lemma MarkBehind(data: Bytes, whole: Bytes, mark: Bytes)
    requires whole == NAMESPACE + mark
    ensures MarkAt(data, whole, mark)
  {
    if NAMESPACE <= data {
      assert data == NAMESPACE + data[2..];
      if whole <= data { assert data[2..][..|mark|] == whole[2..]; }
      if Begins(data[2..], mark) { assert data[..2 + |mark|] == NAMESPACE + data[2..][..|mark|]; }
    }
  }

  lemma ListsAndProviders(data: Bytes)
    ensures MarkAt(data, LIST, "lp~") && MarkAt(data, PROVIDER, "mpl~") && MarkAt(data, SELECT, "ms~")
  {
    MarkBehind(data, LIST, "lp~");
    MarkBehind(data, PROVIDER, "mpl~");
    MarkBehind(data, SELECT, "ms~");
  }

  lemma RangesAndSkills(data: Bytes)
    ensures MarkAt(data, RANGE, "rg~") && MarkAt(data, CONFIRM, "cn~") && MarkAt(data, SKILL, "sk~")
  {
    MarkBehind(data, RANGE, "rg~");
    MarkBehind(data, CONFIRM, "cn~");
    MarkBehind(data, SKILL, "sk~");
  }

  lemma FixedMarks(data: Bytes)
    ensures MarkAt(data, DISMISS, "x") && MarkAt(data, NOOP, "noop")
  {
    MarkBehind(data, DISMISS, "x");
    MarkBehind(data, NOOP, "noop");
  }

  lemma {:induction false} NonEmptySnoc(words: seq<Bytes>, i: nat)
    requires i < |words|
    ensures NonEmpty(words[..i + 1]) == NonEmpty(words[..i]) + if words[i] == [] then [] else [words[i]]
    decreases |words|
  {
    assert words[..i + 1][0] == words[0];
    if i > 0 {
      NonEmptySnoc(words[1..], i - 1);
      assert words[..i + 1][1..] == words[1..][..i] && words[..i][1..] == words[1..][..i - 1];
      assert words[..i][0] == words[0];
    }
  }

  lemma WholeSpace(s: Bytes)
    requires s != [] && SpaceAtEnd(s) == |s|
    ensures SpaceAtStart(s) > 0
  {
    assert s[|s| - SpaceAtEnd(s)..] == s;
    CodeAtStart(s, |s|);
  }

  lemma CodeAtStart(s: Bytes, n: nat)
    requires n == |s| && IsSpaceCode(s)
    ensures SpaceAtStart(s) > 0
  {
    assert s[..n] == s;
  }

  /** A text that starts with something other than white space is not all white space. */
  lemma {:induction false} SolidStartStays(s: Bytes)
    requires s != [] && SpaceAtStart(s) == 0
    ensures TrimEnd(s) != []
    decreases |s|
  {
    if SpaceAtEnd(s) == |s| { WholeSpace(s); }
    if 0 < SpaceAtEnd(s) < |s| {
      var front := s[..|s| - SpaceAtEnd(s)];
      PrefixStartsAlike(front, s);
      SolidStartStays(front);
    }
  }

  lemma {:induction false} BlankHasNoFields(s: Bytes)
    requires Trim(s) == []
    ensures DecodeArgs(s) == []
    decreases |s|
  {
    if s != [] {
      if SpaceAtStart(s) > 0 {
        BlankHasNoFields(s[SpaceAtStart(s)..]);
      } else {
        SolidStartStays(s);
      }
    }
  }

  // ----- the table the process keeps -----

  class ArgsStash {
    var table: map<Bytes, Bytes>
    var order: seq<Bytes>

    constructor ()
      ensures View() == EMPTY_STASH
    {
      table, order := map[], [];
    }

    ghost function View(): Stash
      reads this
    {
      Stash(table, order)
    }

    method StashArgs(args: Bytes) returns (token: Bytes)
      modifies this
      ensures token == ShortHash(args) && View() == PutStash(old(View()), args)
    {
      token := ShortHash(args);
      if token !in table {
        table, order := table[token := args], order + [token];
        if |order| > STASH_LIMIT {
          var oldest := order[0];
          order := order[1..];
          table := table - {oldest};
        }
      }
    }

    method EncodeListCallback(resource: Bytes, action: Bytes, args: seq<Bytes>, page: int) returns (data: Bytes)
      modifies this
      ensures (data, View()) == EncodeList(old(View()), resource, action, args, page)
    {
      var base := ListBase(resource, action, page);
      var encoded := EncodeArgs(args);
      if encoded == [] { return base; }
      data := AddPayload(base, encoded);
    }

    /** The payload itself behind base if it fits, and else a token for it. */
    method AddPayload(base: Bytes, payload: Bytes) returns (data: Bytes)
      modifies this
      ensures (data, View()) == WithPayload(old(View()), base, payload)
    {
      if |base + payload| <= DATA_LIMIT { return base + payload; }
      var token := StashArgs(payload);
      return base + ("#" + token);
    }

    method EncodeSkillActivateCallback(name: Bytes) returns (data: Bytes)
      modifies this
      ensures (data, View()) == EncodeSkillActivate(old(View()), name)
    {
      data := AddPayload(SKILL, Escape(Trim(name)));
    }

    // ----- DecodeCallback -----

    /** decodeArgs: the fields unescaped where they can be, trimmed, and the blank ones left out. */
    static method DecodeFields(s: Bytes) returns (out: seq<Bytes>)
      ensures out == DecodeArgs(s)
    {
      if Trim(s) == [] {
        BlankHasNoFields(s);
        return [];
      }
      var fields := Fields(s);
      ghost var plain := TrimAll(UnescapeAll(fields));
      out := [];
      for i := 0 to |fields|
        invariant out == NonEmpty(plain[..i])
      {
        var unescaped := Unescape(fields[i]);
        var word := if unescaped.Some? then unescaped.value else fields[i];
        word := Trim(word);
        NonEmptySnoc(plain, i);
        if word == [] { continue; }
        out := out + [word];
      }
      assert plain[..|fields|] == plain;
    }

    /** What is stashed under a token, or nothing. */
    method LookUp(token: Bytes) returns (stored: Bytes)
      ensures stored == Resolve(table, "#" + token)
    {
      assert ("#" + token)[1..] == token;
      return if token in table then table[token] else [];
    }

    method DecodeArgsToken(token: Bytes) returns (args: seq<Bytes>)
      ensures args == DecodeArgs(Resolve(table, token))
    {
      if token == [] { return []; }
      var payload := token;
      if token[0] == '#' {
        assert token == "#" + token[1..];
        payload := LookUp(token[1..]);
      }
      args := DecodeFields(payload);
    }

    method DecodeListBody(body: Bytes) returns (parsed: Option<Parsed>)
      ensures parsed == DecodeList(table, body)
    {
      var parts := SplitN(body, 4);
      if |parts| < 3 { return None; }
      var page := Atoi(parts[2]);
      if page.None? || page.value < 0 { return None; }
      var args: seq<Bytes> := [];
      if |parts| == 4 { args := DecodeArgsToken(parts[3]); }
      return Some(ListPage(parts[0], parts[1], page.value, args));
    }

    method DecodeProviderBody(body: Bytes) returns (parsed: Option<Parsed>)
      ensures parsed == DecodeModelProvider(body)
    {
      var parts := SplitN(body, 2);
      if |parts| != 2 { return None; }
      var provider, page := Atoi(parts[0]), Atoi(parts[1]);
      if provider.None? || page.None? || provider.value < 0 || page.value < 0 { return None; }
      return Some(ModelProvider(provider.value, page.value));
    }

    method DecodeSkillBody(body: Bytes) returns (parsed: Option<Parsed>)
      ensures parsed == DecodeSkill(Resolve(table, body))
    {
      var token := body;
      if token != [] && token[0] == '#' {
        assert token == "#" + token[1..];
        token := LookUp(token[1..]);
      }
      var name := Unescape(token);
      if name.None? || Trim(name.value) == [] { return None; }
      return Some(SkillActivate(Trim(name.value)));
    }

    /** DecodeCallback: the name space and the kind's mark are cut off, and the rest is parsed. */
    method DecodeCallback(data: Bytes) returns (parsed: Option<Parsed>)
      ensures parsed == Decode(table, data)
    {
      FixedMarks(data);
      ListsAndProviders(data);
      RangesAndSkills(data);
      if !(NAMESPACE <= data) { return None; }
      var body := data[2..];
      if body == "x" { return Some(Dismiss); }
      if body == "noop" { return Some(Noop); }
      if Begins(body, "lp~") {
        parsed := DecodeListBody(body[3..]);
      } else if Begins(body, "mpl~") {
        parsed := DecodeProviderBody(body[4..]);
      } else if Begins(body, "ms~") {
        var id := Unescape(body[3..]);
        if id.None? || Trim(id.value) == [] { return None; }
        parsed := Some(ModelSelect(Trim(id.value)));
      } else if Begins(body, "rg~") {
        var parts := SplitN(body[3..], 3);
        if |parts| != 3 || parts[2] == [] { return None; }
        parsed := Some(Range(parts[0], parts[1], parts[2]));
      } else if Begins(body, "cn~") {
        if body[3..] == [] { return None; }
        parsed := Some(ConfirmNew(body[3..]));
      } else if Begins(body, "sk~") {
        parsed := DecodeSkillBody(body[3..]);
      } else {
        parsed := None;
      }
    }
  }
}
