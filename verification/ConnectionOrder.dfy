/** Which config a slot holds. */
module ConnectionOrder {
  import opened ConnectionProtocol
  import opened Wrappers

  // Runs in which ensure calls for one config id never overlap and find the outside world willing.  Calls for other ids,
  // and every way of taking connections out, interleave with them as they like.

  // ----- ensure calls for an id -----

  /** An ensure call for id that can still change its slot. */
  predicate Ensures(call: Call, id: Id) {
    match call
    case EnsureBegin(cfg) => cfg.id == id
    case EnsureEnter(cfg) => cfg.id == id
    case EnsureStopOld(cfg, _) => cfg.id == id
    case EnsureReinsert(cfg, _) => cfg.id == id
    case EnsureReceiver(cfg) => cfg.id == id
    case EnsureRecheck(cfg) => cfg.id == id
    case EnsureConnect(cfg) => cfg.id == id
    case EnsureInstall(cfg, _) => cfg.id == id
    case EnsureDiscard(cfg, _) => cfg.id == id
    case _ => false
  }

  predicate InFlight(s: State, t: nat, id: Id) { t in s.calls && Ensures(s.calls[t], id) }

  /** A new ensure call for id begins only when no other is in flight. */
  ghost predicate Apart(s: State, a: Action, id: Id) {
    a.Invoke? && Ensures(a.call, id) ==> forall t :: !InFlight(s, t, id)
  }

  /** The adapter answers an ensure call for id as it hopes: there is a receiver, the old connection stops, and the new
      one connects. */
  ghost predicate Willing(s: State, a: Action, id: Id)
    requires Enabled(s, a)
  {
    a.Advance? && Ensures(s.calls[a.t], id) ==>
      match s.calls[a.t]
      case EnsureBegin(cfg) => cfg.channelType in s.core.receivers
      case EnsureReceiver(cfg) => cfg.channelType in s.core.receivers
      case EnsureStopOld(_, _) => a.env.stop.Stopped?
      case EnsureConnect(_) => a.env.connected.Some?
      case _ => true
  }

  ghost predicate Orderly(s: State, actions: seq<Action>, id: Id)
    requires IsRun(s, actions)
    decreases |actions|
  {
    actions == [] || (&& Apart(s, actions[0], id) && Willing(s, actions[0], id)
                      && Orderly(Step(s, actions[0]), actions[1..], id))
  }

  // ----- the newest config ensured -----

  function Later(newest: Option<Time>, time: Time): Time {
    if newest.Some? && newest.value > time then newest.value else time
  }

  /** The latest change among the configs ensured by calls that have returned, since the slot was last taken out; it
      starts afresh whenever something other than an ensure call for id empties the slot. */
  ghost function NewestNext(s: State, a: Action, id: Id, newest: Option<Time>): Option<Time>
    requires Enabled(s, a)
  {
    if a.Advance? && Ensures(s.calls[a.t], id) then
      if a.t in Step(s, a).calls then newest else Some(Later(newest, s.calls[a.t].cfg.updatedAt))
    else if id in s.core.connections && id !in Step(s, a).core.connections then None
    else newest
  }

  ghost function Newest(s: State, actions: seq<Action>, id: Id, newest: Option<Time>): Option<Time>
    requires IsRun(s, actions)
    decreases |actions|
  {
    if actions == [] then newest
    else Newest(Step(s, actions[0]), actions[1..], id, NewestNext(s, actions[0], id, newest))
  }

  // ----- the invariant -----

  /** The call has found the slot empty, or taken out what was older than its config. */
  predicate PastEnter(call: Call) {
    call.EnsureStopOld? || call.EnsureReceiver? || call.EnsureRecheck? || call.EnsureConnect? || call.EnsureInstall?
  }

  ghost predicate OneCall(s: State, id: Id) {
    && (forall t, u :: InFlight(s, t, id) && InFlight(s, u, id) ==> t == u)
    && forall t :: InFlight(s, t, id) ==> s.calls[t].EnsureBegin? || s.calls[t].EnsureEnter? || PastEnter(s.calls[t])
  }

  ghost predicate SlotEmptied(s: State, id: Id, newest: Option<Time>) {
    forall t :: InFlight(s, t, id) && PastEnter(s.calls[t]) ==>
      id !in s.core.connections && (newest.Some? ==> newest.value < s.calls[t].cfg.updatedAt)
  }

  ghost predicate SlotNewest(s: State, id: Id, newest: Option<Time>) {
    if id in s.core.connections then newest == Some(s.core.connections[id].config.updatedAt)
    else newest.Some? ==> exists t :: InFlight(s, t, id) && PastEnter(s.calls[t])
  }

  ghost predicate Ordered(s: State, id: Id, newest: Option<Time>) {
    OneCall(s, id) && SlotEmptied(s, id, newest) && SlotNewest(s, id, newest)
  }

  // ----- every step keeps it -----

  /** A call that does not ensure id can empty its slot, and not fill it. */
  lemma OthersOnlyEmpty(m: Core, call: Call, env: Env, id: Id)
    requires Possible(m, call, env) && !Ensures(call, id)
    ensures var (m', next) := CallStep(m, call, env);
      && (id in m'.connections ==> id in m.connections && m'.connections[id] == m.connections[id])
      && (next.Some? ==> !Ensures(next.value, id))
  {
  }

  /** One step of the one ensure call for id. */
  lemma EnsureStep(m: Core, call: Call, env: Env, id: Id, newest: Option<Time>)
    requires Possible(m, call, env) && Ensures(call, id)
    requires call.EnsureBegin? || call.EnsureEnter? || PastEnter(call)
    requires call.EnsureBegin? || call.EnsureReceiver? ==> call.cfg.channelType in m.receivers
    requires call.EnsureStopOld? ==> env.stop.Stopped?
    requires call.EnsureConnect? ==> env.connected.Some?
    requires PastEnter(call) ==> id !in m.connections && (newest.Some? ==> newest.value < call.cfg.updatedAt)
    requires id in m.connections ==> newest == Some(m.connections[id].config.updatedAt)
    requires id !in m.connections && newest.Some? ==> PastEnter(call)
    ensures var (m', next) := CallStep(m, call, env);
      match next
      case None => id in m'.connections && m'.connections[id].config.updatedAt == Later(newest, call.cfg.updatedAt)
      case Some(c) =>
        && Ensures(c, id) && c.cfg == call.cfg && (c.EnsureEnter? || PastEnter(c))
        && (if PastEnter(c) then id !in m'.connections && (newest.Some? ==> newest.value < c.cfg.updatedAt)
            else m' == m && !PastEnter(call))
  {
  }

  lemma InFlightAfter(s: State, a: Action, id: Id, u: nat)
    requires Enabled(s, a)
    requires a.Advance? && !Ensures(s.calls[a.t], id) ==>
      var next := CallStep(s.core, s.calls[a.t], a.env).1; next.Some? ==> !Ensures(next.value, id)
    requires a.Invoke? ==> !Ensures(a.call, id)
    requires a.Advance? ==> !Ensures(s.calls[a.t], id)
    ensures InFlight(Step(s, a), u, id) <==> InFlight(s, u, id)
    ensures InFlight(s, u, id) ==> Step(s, a).calls[u] == s.calls[u]
  {
  }

  /** Whatever is not an ensure call for id leaves the slot as it is or empties it. */
  lemma OthersKeepOrder(s: State, a: Action, id: Id, newest: Option<Time>)
    requires Ordered(s, id, newest) && Enabled(s, a)
    requires !(a.Advance? && Ensures(s.calls[a.t], id)) && !(a.Invoke? && Ensures(a.call, id))
    ensures Ordered(Step(s, a), id, NewestNext(s, a, id, newest))
  {
    if a.Advance? { OthersOnlyEmpty(s.core, s.calls[a.t], a.env, id); }
    var s' := Step(s, a);
    forall u ensures (InFlight(s', u, id) <==> InFlight(s, u, id)) && (InFlight(s, u, id) ==> s'.calls[u] == s.calls[u]) {
      InFlightAfter(s, a, id, u);
    }
    assert id in s'.core.connections ==> id in s.core.connections && s'.core.connections[id] == s.core.connections[id];
    if id !in s.core.connections && newest.Some? {
      var t :| InFlight(s, t, id) && PastEnter(s.calls[t]);
      assert InFlight(s', t, id) && PastEnter(s'.calls[t]);
    }
  }

  lemma EnsureKeepsOrder(s: State, t: nat, env: Env, id: Id, newest: Option<Time>)
    requires Ordered(s, id, newest) && Enabled(s, Advance(t, env)) && Ensures(s.calls[t], id)
    requires Willing(s, Advance(t, env), id)
    ensures Ordered(Step(s, Advance(t, env)), id, NewestNext(s, Advance(t, env), id, newest))
  {
    assert InFlight(s, t, id);
    EnsureStep(s.core, s.calls[t], env, id, newest);
    var s' := Step(s, Advance(t, env));
    forall u | u != t ensures !InFlight(s', u, id) { assert InFlight(s', u, id) ==> InFlight(s, u, id); }
    if t in s'.calls { assert InFlight(s', t, id); }
  }

  lemma BeginKeepsOrder(s: State, t: nat, call: Call, id: Id, newest: Option<Time>)
    requires Ordered(s, id, newest) && Enabled(s, Invoke(t, call)) && Ensures(call, id)
    requires Apart(s, Invoke(t, call), id)
    ensures Ordered(Step(s, Invoke(t, call)), id, NewestNext(s, Invoke(t, call), id, newest))
  {
    var s' := Step(s, Invoke(t, call));
    forall u | u != t ensures !InFlight(s', u, id) { assert InFlight(s', u, id) ==> InFlight(s, u, id); }
  }

  lemma StepKeepsOrder(s: State, a: Action, id: Id, newest: Option<Time>)
    requires Ordered(s, id, newest) && Enabled(s, a) && Apart(s, a, id) && Willing(s, a, id)
    ensures Ordered(Step(s, a), id, NewestNext(s, a, id, newest))
  {
    if a.Advance? && Ensures(s.calls[a.t], id) {
      EnsureKeepsOrder(s, a.t, a.env, id, newest);
    } else if a.Invoke? && Ensures(a.call, id) {
      BeginKeepsOrder(s, a.t, a.call, id, newest);
    } else {
      OthersKeepOrder(s, a, id, newest);
    }
  }

  lemma {:induction false} RunKeepsOrder(s: State, actions: seq<Action>, id: Id, newest: Option<Time>)
    requires Ordered(s, id, newest) && IsRun(s, actions) && Orderly(s, actions, id)
    ensures Ordered(After(s, actions), id, Newest(s, actions, id, newest))
    decreases |actions|
  {
    if actions != [] {
      StepKeepsOrder(s, actions[0], id, newest);
      RunKeepsOrder(Step(s, actions[0]), actions[1..], id, NewestNext(s, actions[0], id, newest));
    }
  }

  // ----- main result -----

  /** If ensure calls for an id never overlap, and find the adapter willing, then a slot always holds the newest config
      ensured since it was last taken out; and it is empty, with no such call in flight, only if none has been ensured
      since.  Calls for other ids and removals of any kind may interleave. */
  lemma SlotHoldsTheNewest(actions: seq<Action>, id: Id)
    requires IsRun(INIT, actions) && Orderly(INIT, actions, id)
    ensures var s := After(INIT, actions); var newest := Newest(INIT, actions, id, None);
      && (id in s.core.connections ==> newest == Some(s.core.connections[id].config.updatedAt))
      && ((forall t :: !InFlight(s, t, id)) ==> (id in s.core.connections <==> newest.Some?))
  {
    RunKeepsOrder(INIT, actions, id, None);
  }
}
