/** What the store of channel configs writes: identities, discovered or remembered. */
module ConfigStore {
  import opened Text
  import opened Wrappers

  // Store.UpsertConfig asks the channel's platform for the identity of the bot on every write, and so does the write by
  // which a failed upsert is rolled back.  What is stored depends on the answer, and for strict channel types on the row
  // that is stored at that moment.

  type Identity = map<string, string>

  /** What a stored config says besides its key: credentials in their normal form, the identity of the bot on its
      platform, an external id that is empty if there is none, and the rest, which is only copied. */
  datatype Content = Content(credentials: string, self: Identity, external: string, rest: string)

  /** What an upsert asks for. */
  datatype Request = Request(credentials: string, self: Option<Identity>, external: string, rest: string)

  /** What DiscoverSelf answers: an error, or an identity and an external id; an adapter that cannot discover
      anything answers no identity. */
  datatype Discovery = DiscoveryFailed | Discovered(self: Option<Identity>, external: string)

  /** SelfIdentityPolicy: whether enabling requires a discovered identity, and under which key; and whether an
      identity is dropped when the credentials change. */
  datatype Policy = Policy(strict: bool, refresh: bool, key: string)

  /** What the registry knows of channel types: the normal form of credentials, which may be an error, and the
      identity policy. */
  datatype Registry = Registry(normalize: (string, string) -> Option<string>, policy: string -> Policy)

  // ----- what one write stores -----

  /** readAnyMapString. */
  function ReadKey(self: Identity, key: string): string {
    if key in self then Trim(self[key]) else ""
  }

  function Found(found: Discovery): Identity { if found.Discovered? && found.self.Some? then found.self.value else map[] }

  function Named(found: Discovery): string { if found.Discovered? then Trim(found.external) else "" }

  /** UpsertConfig for an ordinary channel type: what is discovered fills gaps, and an error is ignored. */
  function BestEffort(credentials: string, req: Request, found: Discovery): Content {
    var self := if req.self.Some? then req.self.value else map[];
    var external := Trim(req.external);
    if found.DiscoveryFailed? || found.self.None? then Content(credentials, self, external, req.rest)
    else Content(credentials, found.self.value + self, if external == "" then Named(found) else external, req.rest)
  }

  /** prepareSelfIdentity, before it asks: what is known when the row stored now is previous. */
  function KnownBefore(policy: Policy, credentials: string, req: Request, previous: Option<Content>): (Identity, string) {
    if policy.refresh && (previous.None? || credentials != previous.value.credentials) then (map[], "")
    else
      var self := if req.self.Some? then req.self.value else if previous.Some? then previous.value.self else map[];
      var external := Trim(req.external);
      (self, if external != "" || previous.None? then external else Trim(previous.value.external))
  }

  /** The external id: as discovered, or else as known, or else as the identity has it. */
  function ExternalOf(named: string, known: string, asked: string): string {
    if named != "" then named else if known != "" then known else asked
  }

  /** prepareSelfIdentity: what is discovered wins, and enabling needs an identity. */
  function Strictly(policy: Policy, credentials: string, req: Request, disabled: bool, previous: Option<Content>,
                    found: Discovery): Option<Content> {
    var (known, external) := KnownBefore(policy, credentials, req, previous);
    if found.DiscoveryFailed? then
      if disabled then Some(Content(credentials, known, external, req.rest)) else None
    else
      var self := known + Found(found);
      var asked := ReadKey(self, policy.key);
      var ext := ExternalOf(Named(found), external, asked);
      if !disabled && (asked == "" || Trim(ext) == "") then None else Some(Content(credentials, self, ext, req.rest))
  }

  /** What UpsertConfig stores over previous; None for an error. */
  function Stored(r: Registry, channelType: string, req: Request, disabled: bool, previous: Option<Content>, found: Discovery):
      Option<Content> {
    match r.normalize(channelType, req.credentials)
    case None => None
    case Some(credentials) =>
      if r.policy(channelType).strict then
        Strictly(r.policy(channelType), credentials, req, disabled, previous, found)
      else Some(BestEffort(credentials, req, found))
  }

  /** upsertRequestFromConfig. */
  function RequestFor(c: Content): Request { Request(c.credentials, Some(c.self), Trim(c.external), c.rest) }

  // ----- the methods -----

  /** What is discovered goes under the keys that are not there. */
  method FillGaps(self: Identity, discovered: Identity) returns (r: Identity)
    ensures r == discovered + self
  {
    r := self;
    var todo := discovered.Keys;
    GapEnds(self, discovered);
    while todo != {}
      invariant todo <= discovered.Keys && r == (discovered - todo) + self
      decreases |todo|
    {
      var k :| k in todo;
      GapStep(self, discovered, todo, k, r);
      if k !in r { r := r[k := discovered[k]]; }
      todo := todo - {k};
    }
  }

  lemma GapEnds(self: Identity, discovered: Identity)
    ensures (discovered - discovered.Keys) + self == self
    ensures (discovered - {}) + self == discovered + self
  {
    assert discovered - {} == discovered;
  }

  lemma GapStep(self: Identity, discovered: Identity, todo: set<string>, k: string, r: Identity)
    requires k in todo && k in discovered && r == (discovered - todo) + self
    ensures (if k in r then r else r[k := discovered[k]]) == (discovered - (todo - {k})) + self
  {
  }

  /** What is discovered goes over what is there. */
  method Overwrite(self: Identity, discovered: Identity) returns (r: Identity)
    ensures r == self + discovered
  {
    r := self;
    var todo := discovered.Keys;
    OverEnds(self, discovered);
    while todo != {}
      invariant todo <= discovered.Keys && r == self + (discovered - todo)
      decreases |todo|
    {
      var k :| k in todo;
      OverStep(self, discovered, todo, k, r);
      r := r[k := discovered[k]];
      todo := todo - {k};
    }
  }

  lemma OverEnds(self: Identity, discovered: Identity)
    ensures self + (discovered - discovered.Keys) == self
    ensures self + (discovered - {}) == self + discovered
  {
    assert discovered - {} == discovered;
  }

  lemma OverStep(self: Identity, discovered: Identity, todo: set<string>, k: string, r: Identity)
    requires k in todo && k in discovered && r == self + (discovered - todo)
    ensures r[k := discovered[k]] == self + (discovered - (todo - {k}))
  {
  }

  method PrepareSelfIdentity(policy: Policy, credentials: string, req: Request, disabled: bool, previous: Option<Content>,
                             found: Discovery) returns (content: Option<Content>)
    ensures content == Strictly(policy, credentials, req, disabled, previous, found)
  {
    var credsChanged := policy.refresh && (previous.None? || credentials != previous.value.credentials);
    var self: Identity := if req.self.Some? then req.self.value else map[];
    var external := Trim(req.external);
    if credsChanged {
      self, external := map[], "";
    } else if previous.Some? {
      if req.self.None? { self := previous.value.self; }
      if external == "" { external := Trim(previous.value.external); }
    }
    assert (self, external) == KnownBefore(policy, credentials, req, previous);
    if found.DiscoveryFailed? {
      return if disabled then Some(Content(credentials, self, external, req.rest)) else None;
    }
    self := Overwrite(self, Found(found));
    var named, asked := Trim(found.external), ReadKey(self, policy.key);
    if named != "" { external := named; }
    if external == "" { external := asked; }
    if !disabled && (asked == "" || Trim(external) == "") { return None; }
    return Some(Content(credentials, self, external, req.rest));
  }

  /** Store.UpsertConfig up to the write: the content to store, or an error. */
  method UpsertConfig(r: Registry, channelType: string, req: Request, disabled: bool, previous: Option<Content>, found: Discovery)
      returns (content: Option<Content>)
    ensures content == Stored(r, channelType, req, disabled, previous, found)
  {
    var normalized := r.normalize(channelType, req.credentials);
    if normalized.None? { return None; }
    var policy := r.policy(channelType);
    if policy.strict {
      content := PrepareSelfIdentity(policy, normalized.value, req, disabled, previous, found);
      return;
    }
    var self: Identity := if req.self.Some? then req.self.value else map[];
    var external := Trim(req.external);
    if found.Discovered? && found.self.Some? {
      self := FillGaps(self, found.self.value);
      var named := Trim(found.external);
      if external == "" && named != "" { external := named; }
    }
    return Some(Content(normalized.value, self, external, req.rest));
  }

  // ----- what a write stores, and when -----

  /** The credentials have changed, and the identity is dropped with them. */
  predicate Forgets(policy: Policy, credentials: string, previous: Option<Content>) {
    policy.refresh && (previous.None? || previous.value.credentials != credentials)
  }

  /** The identity that is known when a strict write asks: that of the request, or else of the row that is there. */
  function Remembered(policy: Policy, credentials: string, req: Request, previous: Option<Content>): Identity {
    if Forgets(policy, credentials, previous) then map[]
    else match req.self
      case Some(self) => self
      case None => if previous.Some? then previous.value.self else map[]
  }

  /** A write is refused for its credentials; and for a strict channel type, unless it disables, for lack of an identity
      under the type's key, or of an answer. */
  lemma StoredIff(r: Registry, channelType: string, req: Request, disabled: bool, previous: Option<Content>, found: Discovery)
    ensures var policy, credentials := r.policy(channelType), r.normalize(channelType, req.credentials);
      Stored(r, channelType, req, disabled, previous, found).Some? <==>
        && credentials.Some?
        && (policy.strict && !disabled ==>
              found.Discovered? && ReadKey(Remembered(policy, credentials.value, req, previous) + Found(found), policy.key) != "")
  {
    if r.policy(channelType).strict && r.normalize(channelType, req.credentials).Some? {
      StrictlyIff(r.policy(channelType), r.normalize(channelType, req.credentials).value, req, disabled, previous, found);
    }
  }

  lemma StrictlyIff(policy: Policy, credentials: string, req: Request, disabled: bool, previous: Option<Content>, found: Discovery)
    ensures Strictly(policy, credentials, req, disabled, previous, found).Some? <==>
      disabled || (found.Discovered? && ReadKey(Remembered(policy, credentials, req, previous) + Found(found), policy.key) != "")
  {
    if found.Discovered? {
      var (known, external) := KnownBefore(policy, credentials, req, previous);
      KnownSelf(policy, credentials, req, previous);
      KnownIsTrimmed(policy, credentials, req, previous);
      NamedIsTrimmed(found);
      ReadIsTrimmed(known + Found(found), policy.key);
      TrimmedExternal(Named(found), external, ReadKey(known + Found(found), policy.key));
    }
  }

  lemma TrimmedExternal(named: string, known: string, asked: string)
    requires Trim(named) == named && Trim(known) == known && Trim(asked) == asked
    ensures Trim(ExternalOf(named, known, asked)) == ExternalOf(named, known, asked)
    ensures asked != "" ==> ExternalOf(named, known, asked) != ""
  {
  }

  /** What a strict write stores: what is discovered over what is remembered, and as external id what was discovered, or asked
      for, or stored before, or else what the identity says. */
  lemma StrictStores(r: Registry, channelType: string, req: Request, disabled: bool, previous: Option<Content>, found: Discovery)
    requires r.policy(channelType).strict && Stored(r, channelType, req, disabled, previous, found).Some?
    ensures var policy := r.policy(channelType); var c := Stored(r, channelType, req, disabled, previous, found).value;
      && c.self == Remembered(policy, c.credentials, req, previous) + Found(found)
      && c.external ==
           if Named(found) != "" then Named(found)
           else if !Forgets(policy, c.credentials, previous) && Trim(req.external) != "" then Trim(req.external)
           else if !Forgets(policy, c.credentials, previous) && previous.Some? && Trim(previous.value.external) != "" then Trim(previous.value.external)
           else if found.Discovered? then ReadKey(c.self, policy.key) else ""
  {
    var credentials := r.normalize(channelType, req.credentials).value;
    StrictSelf(r.policy(channelType), credentials, req, disabled, previous, found);
    StrictExternal(r.policy(channelType), credentials, req, disabled, previous, found);
  }

  lemma StrictSelf(policy: Policy, credentials: string, req: Request, disabled: bool, previous: Option<Content>, found: Discovery)
    requires Strictly(policy, credentials, req, disabled, previous, found).Some?
    ensures var c := Strictly(policy, credentials, req, disabled, previous, found).value;
      c.credentials == credentials && c.self == Remembered(policy, credentials, req, previous) + Found(found)
  {
    var known := KnownBefore(policy, credentials, req, previous).0;
    KnownSelf(policy, credentials, req, previous);
    if found.DiscoveryFailed? {
      NothingAdded(known);
    } else {
      StrictFound(policy, credentials, req, disabled, previous, found, known);
    }
  }

  lemma KnownSelf(policy: Policy, credentials: string, req: Request, previous: Option<Content>)
    ensures KnownBefore(policy, credentials, req, previous).0 == Remembered(policy, credentials, req, previous)
  {
  }

  lemma NothingAdded(self: Identity)
    ensures self + map[] == self
  {
  }

  lemma StrictFound(policy: Policy, credentials: string, req: Request, disabled: bool, previous: Option<Content>, found: Discovery,
                    known: Identity)
    requires found.Discovered? && known == KnownBefore(policy, credentials, req, previous).0
    requires Strictly(policy, credentials, req, disabled, previous, found).Some?
    ensures var c := Strictly(policy, credentials, req, disabled, previous, found).value;
      c.credentials == credentials && c.self == known + Found(found)
  {
  }

  lemma StrictExternal(policy: Policy, credentials: string, req: Request, disabled: bool, previous: Option<Content>, found: Discovery)
    requires Strictly(policy, credentials, req, disabled, previous, found).Some?
    ensures var c := Strictly(policy, credentials, req, disabled, previous, found).value;
      c.external == ExternalOf(Named(found), KnownBefore(policy, credentials, req, previous).1,
                               if found.Discovered? then ReadKey(c.self, policy.key) else "")
  {
  }

  /** What an ordinary write stores: what it asks for, with the gaps filled by what is discovered. */
  lemma OrdinaryStores(r: Registry, channelType: string, req: Request, disabled: bool, previous: Option<Content>, found: Discovery)
    requires !r.policy(channelType).strict && Stored(r, channelType, req, disabled, previous, found).Some?
    ensures var c := Stored(r, channelType, req, disabled, previous, found).value;
      var asked := if req.self.Some? then req.self.value else map[];
      && c.self.Keys == asked.Keys + Found(found).Keys
      && (forall k :: k in c.self ==> c.self[k] == if k in asked then asked[k] else Found(found)[k])
      && c.external == if Trim(req.external) != "" then Trim(req.external)
                       else if found.Discovered? && found.self.Some? then Named(found) else ""
  {
  }

  // ----- what writing an old content back restores -----

  /** Normalizing is a projection. */
  ghost predicate Normalizes(r: Registry) {
    forall ty, p, q :: r.normalize(ty, p) == Some(q) ==> r.normalize(ty, q) == Some(q)
  }

  /** Stored credentials have been normalized, and stored external ids trimmed. */
  predicate Normal(r: Registry, channelType: string, c: Content) {
    r.normalize(channelType, c.credentials) == Some(c.credentials) && Trim(c.external) == c.external
  }

  /** Whether an ordinary channel type gets its old content back: what is discovered has no key that was not known,
      and no external id if there was none. */
  predicate Unsurprising(before: Content, found: Discovery) {
    found.DiscoveryFailed? || found.self.None?
    || (found.self.value.Keys <= before.self.Keys && (before.external != "" || Named(found) == ""))
  }

  /** The same for a strict one.  If the credentials change back, nothing is remembered: what is discovered now
      must be the old identity.  Otherwise what is discovered must be part of it.  An external id that was empty
      is taken from what is discovered, from the row that is there now, or from the identity: all must be empty. */
  predicate Confirmed(policy: Policy, before: Content, now: Content, found: Discovery) {
    var forgotten := policy.refresh && before.credentials != now.credentials;
    var asked := if found.Discovered? then ReadKey(before.self, policy.key) else "";
    SameIdentity(forgotten, before.self, Found(found)) && SameExternal(forgotten, before.external, now.external, Named(found), asked)
  }

  predicate SameIdentity(forgotten: bool, self: Identity, discovered: Identity) {
    if forgotten then discovered == self else forall k :: k in discovered ==> k in self && self[k] == discovered[k]
  }

  predicate SameExternal(forgotten: bool, external: string, now: string, named: string, asked: string) {
    if named != "" then named == external
    else if forgotten then external == asked
    else external != "" || (now == "" && asked == "")
  }

  predicate Recovers(r: Registry, channelType: string, before: Content, now: Content, found: Discovery) {
    if r.policy(channelType).strict then Confirmed(r.policy(channelType), before, now, found)
    else Unsurprising(before, found)
  }

  lemma OverwriteKeeps(self: Identity, discovered: Identity)
    ensures self + discovered == self <==> SameIdentity(false, self, discovered)
  {
    if self + discovered == self {
      forall k | k in discovered ensures k in self && self[k] == discovered[k] {
        assert (self + discovered)[k] == discovered[k];
      }
    }
  }

  lemma FillingKeeps(self: Identity, discovered: Identity)
    ensures discovered + self == self <==> discovered.Keys <= self.Keys
  {
    if discovered + self == self {
      forall k | k in discovered ensures k in self {
        assert k in discovered + self;
      }
    }
  }

  lemma WritesBackOrdinary(r: Registry, channelType: string, before: Content, disabled: bool, now: Content, found: Discovery)
    requires !r.policy(channelType).strict && Normal(r, channelType, before)
    ensures var stored := Stored(r, channelType, RequestFor(before), disabled, Some(now), found);
      stored.Some? && (stored.value == before <==> Unsurprising(before, found))
  {
    if found.Discovered? && found.self.Some? { FillingKeeps(before.self, found.self.value); }
  }

  /** The identity and the external id, given what was known and what is discovered. */
  lemma SettledIff(forgotten: bool, before: Content, now: string, discovered: Identity, named: string, ask: Identity -> string)
    ensures var known := if forgotten then map[] else before.self;
      var external := if forgotten then "" else if before.external != "" then before.external else now;
      (known + discovered == before.self && ExternalOf(named, external, ask(known + discovered)) == before.external)
      <==> (SameIdentity(forgotten, before.self, discovered)
            && SameExternal(forgotten, before.external, now, named, ask(before.self)))
  {
    OverwriteKeeps(before.self, discovered);
    assert map[] + discovered == discovered;
  }

  lemma KnownOfOld(r: Registry, channelType: string, before: Content, now: Content)
    requires Normal(r, channelType, before) && Normal(r, channelType, now)
    ensures var policy := r.policy(channelType); var forgotten := policy.refresh && before.credentials != now.credentials;
      KnownBefore(policy, before.credentials, RequestFor(before), Some(now))
      == (if forgotten then map[] else before.self,
          if forgotten then "" else if before.external != "" then before.external else now.external)
  {
  }

  lemma WritesBackStrict(r: Registry, channelType: string, before: Content, disabled: bool, now: Content, found: Discovery)
    requires r.policy(channelType).strict && Normal(r, channelType, before) && Normal(r, channelType, now)
    requires Stored(r, channelType, RequestFor(before), disabled, Some(now), found).Some?
    ensures Stored(r, channelType, RequestFor(before), disabled, Some(now), found) == Some(before)
       <==> Confirmed(r.policy(channelType), before, now, found)
  {
    var policy := r.policy(channelType);
    var forgotten := policy.refresh && before.credentials != now.credentials;
    KnownOfOld(r, channelType, before, now);
    if found.DiscoveryFailed? {
      SettledIff(forgotten, before, now.external, map[], "", _ => "");
    } else {
      SettledIff(forgotten, before, now.external, Found(found), Named(found), self => ReadKey(self, policy.key));
    }
  }

  /** A write of the old content over the one that is there restores it in exactly these cases. */
  lemma WritesBackIff(r: Registry, channelType: string, before: Content, disabled: bool, now: Content, found: Discovery)
    requires Normal(r, channelType, before) && Normal(r, channelType, now)
    requires Stored(r, channelType, RequestFor(before), disabled, Some(now), found).Some?
    ensures var stored := Stored(r, channelType, RequestFor(before), disabled, Some(now), found).value;
      && stored.credentials == before.credentials && stored.rest == before.rest
      && (stored == before <==> Recovers(r, channelType, before, now, found))
  {
    if r.policy(channelType).strict {
      WritesBackStrict(r, channelType, before, disabled, now, found);
    } else {
      WritesBackOrdinary(r, channelType, before, disabled, now, found);
    }
  }

  lemma ReadIsTrimmed(self: Identity, key: string)
    ensures Trim(ReadKey(self, key)) == ReadKey(self, key)
  {
    if key in self { TrimIdempotent(self[key]); }
  }

  lemma NamedIsTrimmed(found: Discovery)
    ensures Trim(Named(found)) == Named(found)
  {
    if found.Discovered? { TrimIdempotent(found.external); }
  }

  lemma OrdinaryIsTrimmed(credentials: string, req: Request, found: Discovery)
    ensures var c := BestEffort(credentials, req, found); c.credentials == credentials && Trim(c.external) == c.external
  {
    TrimIdempotent(req.external);
    NamedIsTrimmed(found);
  }

  lemma KnownIsTrimmed(policy: Policy, credentials: string, req: Request, previous: Option<Content>)
    ensures var external := KnownBefore(policy, credentials, req, previous).1; Trim(external) == external
  {
    TrimIdempotent(req.external);
    if previous.Some? { TrimIdempotent(previous.value.external); }
  }

  lemma StrictIsTrimmed(policy: Policy, credentials: string, req: Request, disabled: bool, previous: Option<Content>,
                        found: Discovery)
    requires Strictly(policy, credentials, req, disabled, previous, found).Some?
    ensures var c := Strictly(policy, credentials, req, disabled, previous, found).value;
      c.credentials == credentials && Trim(c.external) == c.external
  {
    KnownIsTrimmed(policy, credentials, req, previous);
    NamedIsTrimmed(found);
    ReadIsTrimmed(KnownBefore(policy, credentials, req, previous).0 + Found(found), policy.key);
  }

  /** Whatever a write stores is normal. */
  lemma StoredIsNormal(r: Registry, channelType: string, req: Request, disabled: bool, previous: Option<Content>, found: Discovery)
    requires Normalizes(r) && Stored(r, channelType, req, disabled, previous, found).Some?
    ensures Normal(r, channelType, Stored(r, channelType, req, disabled, previous, found).value)
  {
    var credentials := r.normalize(channelType, req.credentials).value;
    if r.policy(channelType).strict {
      StrictIsTrimmed(r.policy(channelType), credentials, req, disabled, previous, found);
    } else {
      OrdinaryIsTrimmed(credentials, req, found);
    }
  }
}
