/** The connection manager's steps. */
module ConnectionProtocol {
  import opened Text
  import opened Wrappers

  // The channel connection manager as a transition system.
  //
  // Every stretch of code that runs under Manager.mu is one step, and so is every call of Connection.Stop or
  // Receiver.Connect made with the lock released.  Any number of calls may be in flight; their steps interleave freely.
  // What the adapters answer is an Env chosen afresh for each step.

  type Id = string
  type Conn = nat
  type Time = int

  datatype Config = Config(id: Id, bot: string, channelType: string, updatedAt: Time, disabled: bool)
  datatype Entry = Entry(config: Config, conn: Conn)
  datatype Status = Status(config: Id, bot: string, channelType: string, running: bool, failed: bool)

  /** Stop returns nil, ErrStopNotSupported, or another error. */
  datatype StopResult = Stopped | StopUnsupported | StopFailed

  /** The answers of the outside world to one step: what Stop returns, what Connect returns
      (None for an error), what Running reports, and the order in which a map is iterated. */
  datatype Env = Env(stop: StopResult, connected: Option<Conn>, running: bool, order: seq<Id>)

  /** Where an in-flight call stands: each constructor names the step it takes next. */
  datatype Call =
    | EnsureBegin(cfg: Config)                  // first receiver lookup
    | EnsureEnter(cfg: Config)                  // first critical section
    | EnsureStopOld(cfg: Config, prev: Entry)    // Stop of the replaced connection
    | EnsureReinsert(cfg: Config, prev: Entry)   // Stop was not supported
    | EnsureReceiver(cfg: Config)               // second receiver lookup
    | EnsureRecheck(cfg: Config)                // second critical section
    | EnsureConnect(cfg: Config)                // Connect
    | EnsureInstall(cfg: Config, conn: Conn)    // last critical section
    | EnsureDiscard(cfg: Config, conn: Conn)    // Stop of a connection that lost the race
    | EnsureMark(cfg: Config)                   // markConnectionStatus after a failure
    | RemoveBegin(id: Id)                       // removeConnection
    | StopBegin(id: Id)                         // Manager.Stop
    | StopByBotBegin(bot: string)               // Manager.StopByBot
    | Stopping(entries: seq<Entry>)             // entries taken out, still to be stopped

  /** Which slots a section that stops connections while holding the lock takes out. */
  datatype Sweep =
    | SweepPair(bot: string, channelType: string)  // RemoveConnection
    | SweepType(channelType: string)               // RemoveAdapter
    | SweepAll                                     // stopAll
    | SweepInactive(active: set<Id>)               // the tail of reconcile

  datatype Action =
    | Invoke(t: nat, call: Call)
    | Advance(t: nat, env: Env)
    | Swept(sweep: Sweep, results: map<Conn, StopResult>)
    | Register(channelType: string)
    | Unregister(channelType: string)

  /** The manager's own fields, and what has happened to connections so far. */
  datatype Core = Core(
    connections: map<Id, Entry>,
    meta: map<Id, Status>,
    receivers: set<string>,
    created: map<Conn, Config>,  // every connection Connect returned, with the config it was for
    stopped: set<Conn>,          // those a Stop has stopped
    stopErrors: set<Conn>)       // those some Stop has returned an error for

  datatype State = State(core: Core, calls: map<nat, Call>)

  const INIT := State(Core(map[], map[], {}, map[], {}, {}), map[])

  // ----- steps -----

  predicate IsEntryPoint(c: Call) {
    match c
    case EnsureBegin(cfg) => cfg.id != "" && !cfg.disabled
    case RemoveBegin(_) => true
    case StopBegin(id) => id != "" && Trim(id) == id
    case StopByBotBegin(bot) => bot != "" && Trim(bot) == bot
    case EnsureMark(cfg) => cfg.id != "" && !cfg.disabled  // reconcile marks once more when an ensure call has failed
    case _ => false
  }

  /** setConnectionStatusLocked: a blank id is ignored. */
  function SetStatus(m: Core, cfg: Config, running: bool, failed: bool): Core {
    if Blank(cfg.id) then m
    else m.(meta := m.meta[cfg.id := Status(cfg.id, cfg.bot, cfg.channelType, running, failed)])
  }

  function RecordStop(m: Core, c: Conn, r: StopResult): Core {
    if r.Stopped? then m.(stopped := m.stopped + {c}) else m.(stopErrors := m.stopErrors + {c})
  }

  function TakeOut(m: Core, ids: set<Id>): Core {
    m.(connections := m.connections - ids, meta := m.meta - ids)
  }

  function IdsOfBot(m: Core, bot: string): set<Id> {
    set id | id in m.connections && m.connections[id].config.bot == bot
  }

  ghost predicate Enumerates(order: seq<Id>, ids: set<Id>) {
    (forall id :: id in order <==> id in ids) && forall i, j :: 0 <= i < j < |order| ==> order[i] != order[j]
  }

  /** The answers env the world may give to call's next step: Connect returns new connections,
      and a map is iterated over each of its keys once. */
  ghost predicate Possible(m: Core, call: Call, env: Env) {
    && (call.EnsureConnect? && env.connected.Some? ==> env.connected.value !in m.created)
    && (call.StopByBotBegin? ==> Enumerates(env.order, IdsOfBot(m, call.bot)))
    && (call.Stopping? ==> call.entries != [])
  }

  /** The next step of one call: its effect on the manager, and where the call then stands. */
  ghost function CallStep(m: Core, call: Call, env: Env): (Core, Option<Call>)
    requires Possible(m, call, env)
  {
    match call
    case EnsureBegin(cfg) =>
      (m, Some(if cfg.channelType in m.receivers then EnsureEnter(cfg) else EnsureMark(cfg)))
    case EnsureEnter(cfg) =>
      if cfg.id !in m.connections then
        (m, Some(EnsureReceiver(cfg)))
      else
        var e := m.connections[cfg.id];
        if e.config.updatedAt >= cfg.updatedAt then
          (SetStatus(m, e.config, env.running, false), None)
        else
          (m.(connections := m.connections - {cfg.id}), Some(EnsureStopOld(cfg, e)))
    case EnsureStopOld(cfg, prev) =>
      (RecordStop(m, prev.conn, env.stop),
       Some(match env.stop
            case Stopped => EnsureReceiver(cfg)
            case StopUnsupported => EnsureReinsert(cfg, prev)
            case StopFailed => EnsureMark(cfg)))
    case EnsureReinsert(cfg, prev) =>
      if cfg.id in m.connections then (m, None)
      else (SetStatus(m.(connections := m.connections[cfg.id := prev]), prev.config, env.running, false), None)
    case EnsureReceiver(cfg) =>
      (m, Some(if cfg.channelType in m.receivers then EnsureRecheck(cfg) else EnsureMark(cfg)))
    case EnsureRecheck(cfg) =>
      if cfg.id in m.connections then
        (SetStatus(m, m.connections[cfg.id].config, env.running, false), None)
      else (m, Some(EnsureConnect(cfg)))
    case EnsureConnect(cfg) =>
      (match env.connected
       case None => (m, Some(EnsureMark(cfg)))
       case Some(c) => (m.(created := m.created[c := cfg]), Some(EnsureInstall(cfg, c))))
    case EnsureInstall(cfg, c) =>
      if cfg.id in m.connections then
        (SetStatus(m, m.connections[cfg.id].config, env.running, false), Some(EnsureDiscard(cfg, c)))
      else
        (SetStatus(m.(connections := m.connections[cfg.id := Entry(cfg, c)]), cfg, true, false), None)
    case EnsureDiscard(_, c) => (RecordStop(m, c, env.stop), None)
    case EnsureMark(cfg) => (SetStatus(m, cfg, false, true), None)
    case RemoveBegin(id) =>
      (TakeOut(m, {id}), if id in m.connections then Some(Stopping([m.connections[id]])) else None)
    case StopBegin(id) =>
      if id in m.connections then (TakeOut(m, {id}), Some(Stopping([m.connections[id]]))) else (m, None)
    case StopByBotBegin(bot) =>
      (TakeOut(m, IdsOfBot(m, bot)), if env.order == [] then None else Some(Stopping(EntriesAt(m, env.order))))
    case Stopping(entries) =>
      (RecordStop(m, entries[0].conn, env.stop), if |entries| == 1 then None else Some(Stopping(entries[1..])))
  }

  function EntriesAt(m: Core, order: seq<Id>): (entries: seq<Entry>)
    requires forall id :: id in order ==> id in m.connections
  {
    seq(|order|, i requires 0 <= i < |order| => assert order[i] in order; m.connections[order[i]])
  }

  function Selected(sweep: Sweep, id: Id, e: Entry): bool {
    match sweep
    case SweepPair(bot, ty) => !Blank(bot) && e.config.bot == Trim(bot) && e.config.channelType == ty
    case SweepType(ty) => e.config.channelType == ty
    case SweepAll => true
    case SweepInactive(active) => id !in active
  }

  function SweptIds(m: Core, sweep: Sweep): set<Id> {
    set id | id in m.connections && Selected(sweep, id, m.connections[id])
  }

  function ConnsAt(m: Core, ids: set<Id>): set<Conn> {
    set id | id in ids && id in m.connections :: m.connections[id].conn
  }

  /** The connections that a Stop of every slot in ids stops. */
  function StoppedAmong(m: Core, ids: set<Id>, results: map<Conn, StopResult>): set<Conn> {
    set c | c in ConnsAt(m, ids) && c in results && results[c].Stopped?
  }

  /** Stop the connections of the slots ids and take them out. */
  function TakeOutStopped(m: Core, ids: set<Id>, results: map<Conn, StopResult>): Core {
    TakeOut(m, ids).(
      stopped := m.stopped + StoppedAmong(m, ids, results),
      stopErrors := m.stopErrors + (ConnsAt(m, ids) - StoppedAmong(m, ids, results)))
  }

  function SweepStep(m: Core, sweep: Sweep, results: map<Conn, StopResult>): Core {
    var m1 := TakeOutStopped(m, SweptIds(m, sweep), results);
    if sweep.SweepInactive? then m1.(meta := m1.meta - (m1.meta.Keys - sweep.active)) else m1
  }

  ghost predicate Enabled(s: State, a: Action) {
    match a
    case Invoke(t, call) => t !in s.calls && IsEntryPoint(call)
    case Advance(t, env) => t in s.calls && Possible(s.core, s.calls[t], env)
    case Swept(_, _) => true
    case Register(_) => true
    case Unregister(_) => true
  }

  ghost function Step(s: State, a: Action): State
    requires Enabled(s, a)
  {
    match a
    case Invoke(t, call) => s.(calls := s.calls[t := call])
    case Advance(t, env) =>
      var (m, next) := CallStep(s.core, s.calls[t], env);
      State(m, if next.Some? then s.calls[t := next.value] else s.calls - {t})
    case Swept(sweep, results) => s.(core := SweepStep(s.core, sweep, results))
    case Register(ty) => s.(core := s.core.(receivers := s.core.receivers + {ty}))
    case Unregister(ty) => s.(core := s.core.(receivers := s.core.receivers - {ty}))
  }

  ghost predicate IsRun(s: State, actions: seq<Action>)
    decreases |actions|
  {
    actions == [] || (Enabled(s, actions[0]) && IsRun(Step(s, actions[0]), actions[1..]))
  }

  ghost function After(s: State, actions: seq<Action>): State
    requires IsRun(s, actions)
    decreases |actions|
  {
    if actions == [] then s else After(Step(s, actions[0]), actions[1..])
  }

  // ----- ownership -----

  /** A connection is tracked by a slot of the connections map or by an in-flight call. */
  datatype Owner = Slot(id: Id) | InCall(t: nat, i: nat)

  /** The entries an in-flight call holds outside the map. */
  function Held(c: Call): seq<Entry> {
    match c
    case EnsureStopOld(_, prev) => [prev]
    case EnsureReinsert(_, prev) => [prev]
    case EnsureInstall(cfg, conn) => [Entry(cfg, conn)]
    case EnsureDiscard(cfg, conn) => [Entry(cfg, conn)]
    case Stopping(entries) => entries
    case _ => []
  }

  predicate IsOwner(s: State, o: Owner) {
    match o
    case Slot(id) => id in s.core.connections
    case InCall(t, i) => t in s.calls && i < |Held(s.calls[t])|
  }

  function OwnedEntry(s: State, o: Owner): Entry
    requires IsOwner(s, o)
  {
    match o
    case Slot(id) => s.core.connections[id]
    case InCall(t, i) => Held(s.calls[t])[i]
  }

  predicate Owns(s: State, o: Owner, c: Conn) {
    IsOwner(s, o) && OwnedEntry(s, o).conn == c
  }

  /** Connect returned c and no Stop has stopped it. */
  predicate Live(m: Core, c: Conn) {
    c in m.created && c !in m.stopped
  }

  ghost predicate Tracked(s: State, c: Conn) {
    exists o :: Owns(s, o, c)
  }

  /** Owned connections are live and belong to the config they were connected for. */
  ghost predicate OwnersLive(s: State) {
    forall o :: IsOwner(s, o) ==>
      Live(s.core, OwnedEntry(s, o).conn) && s.core.created[OwnedEntry(s, o).conn] == OwnedEntry(s, o).config
  }

  /** No connection has two owners. */
  ghost predicate OwnersDistinct(s: State) {
    forall o, p :: IsOwner(s, o) && IsOwner(s, p) && OwnedEntry(s, o).conn == OwnedEntry(s, p).conn ==> o == p
  }

  /** Only a failed Stop can lose a connection. */
  ghost predicate NothingLost(s: State) {
    forall c :: Live(s.core, c) && c !in s.core.stopErrors ==> Tracked(s, c)
  }

  /** Facts a call in flight relies on. */
  ghost predicate CallSound(m: Core, call: Call) {
    && (call.EnsureStopOld? || call.EnsureReinsert? ==> call.prev.config.id == call.cfg.id)
    && (call.EnsureReinsert? ==> call.prev.conn in m.stopErrors)
    && (call.Stopping? ==> call.entries != [])
  }

  /** Slots are filed under their own config id. */
  ghost predicate Filed(m: Core) {
    forall id :: id in m.connections ==> m.connections[id].config.id == id
  }

  /** A slot has a status exactly when its id is not blank; no blank id ever has one. */
  ghost predicate StatusKept(m: Core) {
    && (forall id :: id in m.connections && !Blank(id) ==> id in m.meta)
    && (forall id :: id in m.meta ==> !Blank(id) && m.meta[id].config == id)
  }

  /** Stop is only ever called on connections that Connect returned. */
  ghost predicate StopsAreReal(m: Core) {
    m.stopped + m.stopErrors <= m.created.Keys
  }

  ghost predicate Inv(s: State) {
    && StopsAreReal(s.core) && OwnersLive(s) && OwnersDistinct(s) && NothingLost(s)
    && Filed(s.core) && StatusKept(s.core)
    && forall t :: t in s.calls ==> CallSound(s.core, s.calls[t])
  }

  // ----- one call's step -----

  lemma SetStatusKeeps(m: Core, cfg: Config, running: bool, failed: bool)
    requires (forall id :: id in m.connections && !Blank(id) ==> id in m.meta || id == cfg.id)
    requires (forall id :: id in m.meta ==> !Blank(id) && m.meta[id].config == id)
    ensures StatusKept(SetStatus(m, cfg, running, failed))
  {
  }

  lemma ReinsertStatus(m: Core, call: Call, env: Env)
    requires call.EnsureReinsert? && Possible(m, call, env) && CallSound(m, call) && Filed(m) && StatusKept(m)
    ensures StatusKept(CallStep(m, call, env).0)
  {
    SetStatusKeeps(m.(connections := m.connections[call.cfg.id := call.prev]), call.prev.config, env.running, false);
  }

  lemma InstallStatus(m: Core, call: Call, env: Env)
    requires call.EnsureInstall? && Possible(m, call, env) && CallSound(m, call) && Filed(m) && StatusKept(m)
    ensures StatusKept(CallStep(m, call, env).0)
  {
    if call.cfg.id !in m.connections {
      SetStatusKeeps(m.(connections := m.connections[call.cfg.id := Entry(call.cfg, call.conn)]), call.cfg, true, false);
    }
  }

  lemma TakeOutStatus(m: Core, call: Call, env: Env)
    requires (call.RemoveBegin? || call.StopBegin? || call.StopByBotBegin?) && Possible(m, call, env) && StatusKept(m)
    ensures StatusKept(CallStep(m, call, env).0)
  {
  }

  lemma MarkStatus(m: Core, call: Call, env: Env)
    requires call.EnsureEnter? || call.EnsureRecheck? || call.EnsureMark?
    requires Possible(m, call, env) && Filed(m) && StatusKept(m)
    ensures StatusKept(CallStep(m, call, env).0)
  {
  }

  lemma CallStepStatus(m: Core, call: Call, env: Env)
    requires Possible(m, call, env) && CallSound(m, call) && Filed(m) && StatusKept(m)
    ensures StatusKept(CallStep(m, call, env).0)
  {
    if call.EnsureReinsert? {
      ReinsertStatus(m, call, env);
    } else if call.EnsureInstall? {
      InstallStatus(m, call, env);
    } else if call.RemoveBegin? || call.StopBegin? || call.StopByBotBegin? {
      TakeOutStatus(m, call, env);
    } else if call.EnsureEnter? || call.EnsureRecheck? || call.EnsureMark? {
      MarkStatus(m, call, env);
    } else {
      assert CallStep(m, call, env).0.connections == m.connections && CallStep(m, call, env).0.meta == m.meta;
    }
  }

  lemma CallStepSound(m: Core, call: Call, env: Env)
    requires Possible(m, call, env) && CallSound(m, call) && Filed(m)
    ensures var (m', next) := CallStep(m, call, env);
      Filed(m') && (next.Some? ==> CallSound(m', next.value)) && m.stopErrors <= m'.stopErrors
  {
  }

  /** Where an owner of the state after t's step got its entry from. */
  ghost function Origin(s: State, t: nat, env: Env, o: Owner): Owner
    requires Enabled(s, Advance(t, env))
  {
    match s.calls[t]
    case EnsureEnter(cfg) => if o == InCall(t, 0) then Slot(cfg.id) else o
    case EnsureReinsert(cfg, _) => if o == Slot(cfg.id) && cfg.id !in s.core.connections then InCall(t, 0) else o
    case EnsureInstall(cfg, _) => if o == Slot(cfg.id) && cfg.id !in s.core.connections then InCall(t, 0) else o
    case RemoveBegin(id) => if o == InCall(t, 0) then Slot(id) else o
    case StopBegin(id) => if o == InCall(t, 0) then Slot(id) else o
    case StopByBotBegin(_) => if o.InCall? && o.t == t && o.i < |env.order| then Slot(env.order[o.i]) else o
    case Stopping(_) => if o.InCall? && o.t == t then InCall(t, o.i + 1) else o
    case _ => o
  }

  /** A step fills a slot only when it was empty, and only from the call's own hand. */
  lemma CallStepSlot(m: Core, call: Call, env: Env, id: Id)
    requires Possible(m, call, env)
    requires id in CallStep(m, call, env).0.connections
    ensures if id in m.connections then CallStep(m, call, env).0.connections[id] == m.connections[id]
            else (call.EnsureReinsert? || call.EnsureInstall?) && id == call.cfg.id
                 && CallStep(m, call, env).0.connections[id] == Held(call)[0] && CallStep(m, call, env).1.None?
  {
  }

  lemma OriginOfSlot(s: State, t: nat, env: Env, id: Id)
    requires Enabled(s, Advance(t, env))
    requires IsOwner(Step(s, Advance(t, env)), Slot(id))
    ensures IsOwner(s, Origin(s, t, env, Slot(id)))
    ensures OwnedEntry(Step(s, Advance(t, env)), Slot(id)) == OwnedEntry(s, Origin(s, t, env, Slot(id)))
  {
    CallStepSlot(s.core, s.calls[t], env, id);
  }

  lemma OriginOfCall(s: State, t: nat, env: Env, u: nat, i: nat)
    requires Enabled(s, Advance(t, env)) && !s.calls[t].EnsureConnect?
    requires IsOwner(Step(s, Advance(t, env)), InCall(u, i))
    ensures IsOwner(s, Origin(s, t, env, InCall(u, i)))
    ensures OwnedEntry(Step(s, Advance(t, env)), InCall(u, i)) == OwnedEntry(s, Origin(s, t, env, InCall(u, i)))
  {
    if t == u && s.calls[t].StopByBotBegin? { assert env.order[i] in env.order; }
  }

  lemma OriginInjective(s: State, t: nat, env: Env, o: Owner, p: Owner)
    requires Enabled(s, Advance(t, env)) 
    requires IsOwner(Step(s, Advance(t, env)), o) && IsOwner(Step(s, Advance(t, env)), p)
    requires Origin(s, t, env, o) == Origin(s, t, env, p)
    ensures o == p
  {
  }

  /** The connection a step calls Stop on leaves the hands of the call unless Stop was not supported. */
  lemma StopConsumes(s: State, t: nat, env: Env, o: Owner)
    requires Enabled(s, Advance(t, env)) && IsOwner(Step(s, Advance(t, env)), o)
    requires CallStep(s.core, s.calls[t], env).0.stopped != s.core.stopped
    ensures IsOwner(s, InCall(t, 0)) && Origin(s, t, env, o) != InCall(t, 0)
    ensures CallStep(s.core, s.calls[t], env).0.stopped == s.core.stopped + {OwnedEntry(s, InCall(t, 0)).conn}
  {
  }

  lemma CallStepCreates(m: Core, call: Call, env: Env)
    requires Possible(m, call, env)
    ensures if call.EnsureConnect? && env.connected.Some?
            then CallStep(m, call, env) == (m.(created := m.created[env.connected.value := call.cfg]),
                                            Some(EnsureInstall(call.cfg, env.connected.value)))
            else CallStep(m, call, env).0.created == m.created
  {
  }

  lemma AdvanceOwner(s: State, t: nat, env: Env, o: Owner)
    requires Inv(s) && Enabled(s, Advance(t, env)) && !s.calls[t].EnsureConnect?
    requires IsOwner(Step(s, Advance(t, env)), o)
    ensures var s' := Step(s, Advance(t, env)); var e := OwnedEntry(s', o);
      && IsOwner(s, Origin(s, t, env, o)) && e == OwnedEntry(s, Origin(s, t, env, o))
      && Live(s'.core, e.conn) && s'.core.created[e.conn] == e.config
  {
    match o { case Slot(id) => OriginOfSlot(s, t, env, id); case InCall(u, i) => OriginOfCall(s, t, env, u, i); }
    if CallStep(s.core, s.calls[t], env).0.stopped != s.core.stopped { StopConsumes(s, t, env, o); }
    CallStepCreates(s.core, s.calls[t], env);
  }

  lemma AdvanceOwners(s: State, t: nat, env: Env)
    requires Inv(s) && Enabled(s, Advance(t, env)) && !s.calls[t].EnsureConnect?
    ensures OwnersLive(Step(s, Advance(t, env))) && OwnersDistinct(Step(s, Advance(t, env)))
  {
    var s' := Step(s, Advance(t, env));
    forall o | IsOwner(s', o)
      ensures Live(s'.core, OwnedEntry(s', o).conn) && s'.core.created[OwnedEntry(s', o).conn] == OwnedEntry(s', o).config
    {
      AdvanceOwner(s, t, env, o);
    }
    forall o, p | IsOwner(s', o) && IsOwner(s', p) && OwnedEntry(s', o).conn == OwnedEntry(s', p).conn
      ensures o == p
    {
      AdvanceOwner(s, t, env, o);
      AdvanceOwner(s, t, env, p);
      OriginInjective(s, t, env, o, p);
    }
  }

  /** A step that empties a slot takes its entry into the hand of the call. */
  lemma SlotHeir(m: Core, call: Call, env: Env, id: Id) returns (i: nat)
    requires Possible(m, call, env) && id in m.connections
    ensures var (m', next) := CallStep(m, call, env);
      if id in m'.connections then m'.connections[id] == m.connections[id]
      else next.Some? && i < |Held(next.value)| && Held(next.value)[i] == m.connections[id]
  {
    i := 0;
    if call.StopByBotBegin? && id in IdsOfBot(m, call.bot) {
      assert id in env.order;
      i :| 0 <= i < |env.order| && env.order[i] == id;
    }
  }

  /** An entry leaves the hand of a call for the call's own slot, or because it was stopped. */
  lemma HandHeir(m: Core, call: Call, env: Env, i: nat)
    requires Possible(m, call, env) && CallSound(m, call) && i < |Held(call)|
    ensures var (m', next) := CallStep(m, call, env); var e := Held(call)[i];
      || e.conn in m'.stopped || e.conn in m'.stopErrors
      || (call.EnsureInstall? && call.cfg.id in m'.connections && m'.connections[call.cfg.id] == e)
      || (next.Some? && var j := if call.Stopping? then i - 1 else i;
                        0 <= j < |Held(next.value)| && Held(next.value)[j] == e)
  {
  }

  lemma AdvanceNothingLost(s: State, t: nat, env: Env)
    requires Inv(s) && Enabled(s, Advance(t, env))
    ensures NothingLost(Step(s, Advance(t, env)))
  {
    var s' := Step(s, Advance(t, env));
    var call := s.calls[t];
    CallStepSound(s.core, call, env);
    CallStepCreates(s.core, call, env);
    forall c | Live(s'.core, c) && c !in s'.core.stopErrors ensures Tracked(s', c) {
      if c !in s.core.created {
        assert Owns(s', InCall(t, 0), c);
      } else {
        assert c !in s.core.stopped by { CallStepStops(s.core, call, env); }
        var o :| Owns(s, o, c);
        match o {
          case Slot(id) =>
            var i := SlotHeir(s.core, call, env, id);
            assert Owns(s', Slot(id), c) || Owns(s', InCall(t, i), c);
          case InCall(u, i) =>
            if u != t {
              assert Owns(s', o, c);
            } else {
              HandHeir(s.core, call, env, i);
              if call.EnsureInstall? && Owns(s', Slot(call.cfg.id), c) {
              } else {
                assert Owns(s', InCall(t, if call.Stopping? then i - 1 else i), c);
              }
            }
        }
      }
    }
  }

  /** A step calls Stop on the first entry in its call's hand, or on nothing. */
  lemma CallStepStops(m: Core, call: Call, env: Env)
    requires Possible(m, call, env)
    ensures var m' := CallStep(m, call, env).0;
      && m.stopped <= m'.stopped
      && ((m'.stopped == m.stopped && m'.stopErrors == m.stopErrors)
          || (Held(call) != [] && m' == RecordStop(m, Held(call)[0].conn, env.stop)))
  {
  }

  /** Connect hands a call a connection nobody else has. */
  lemma ConnectOwners(s: State, t: nat, env: Env)
    requires Inv(s) && Enabled(s, Advance(t, env)) && s.calls[t].EnsureConnect?
    ensures OwnersLive(Step(s, Advance(t, env))) && OwnersDistinct(Step(s, Advance(t, env)))
  {
    var s' := Step(s, Advance(t, env));
    CallStepCreates(s.core, s.calls[t], env);
    CallStepStops(s.core, s.calls[t], env);
    forall o | IsOwner(s', o) && o != InCall(t, 0)
      ensures IsOwner(s, o) && OwnedEntry(s, o) == OwnedEntry(s', o) && OwnedEntry(s, o).conn in s.core.created
      ensures s'.core.created[OwnedEntry(s, o).conn] == OwnedEntry(s, o).config
    {
      if env.connected.Some? { assert OwnedEntry(s, o).conn != env.connected.value; }
    }
    assert IsOwner(s', InCall(t, 0)) ==> OwnedEntry(s', InCall(t, 0)).conn !in s.core.created;
  }

  lemma AdvanceKeepsInv(s: State, t: nat, env: Env)
    requires Inv(s) && Enabled(s, Advance(t, env))
    ensures Inv(Step(s, Advance(t, env)))
  {
    if s.calls[t].EnsureConnect? { ConnectOwners(s, t, env); } else { AdvanceOwners(s, t, env); }
    AdvanceNothingLost(s, t, env);
    CallStepStops(s.core, s.calls[t], env);
    CallStepCreates(s.core, s.calls[t], env);
    if Held(s.calls[t]) != [] { assert IsOwner(s, InCall(t, 0)); }
    CallStepStatus(s.core, s.calls[t], env);
    CallStepSound(s.core, s.calls[t], env);
  }

  lemma SweepOwner(s: State, sweep: Sweep, results: map<Conn, StopResult>, o: Owner)
    requires Inv(s)
    ensures var s' := Step(s, Swept(sweep, results));
      if IsOwner(s', o)
      then IsOwner(s, o) && OwnedEntry(s, o) == OwnedEntry(s', o)
           && OwnedEntry(s, o).conn !in ConnsAt(s.core, SweptIds(s.core, sweep))
      else IsOwner(s, o) ==> OwnedEntry(s, o).conn in s'.core.stopped + s'.core.stopErrors
  {
    forall id | id in SweptIds(s.core, sweep) && IsOwner(s, o) && o != Slot(id)
      ensures s.core.connections[id].conn != OwnedEntry(s, o).conn
    {
      assert IsOwner(s, Slot(id));
    }
  }

  lemma SweepKeepsInv(s: State, sweep: Sweep, results: map<Conn, StopResult>)
    requires Inv(s)
    ensures Inv(Step(s, Swept(sweep, results)))
  {
    var s' := Step(s, Swept(sweep, results));
    forall o { SweepOwner(s, sweep, results, o); }
    forall id | id in s.core.connections ensures s.core.connections[id].conn in s.core.created {
      assert IsOwner(s, Slot(id));
    }
    assert OwnersLive(s') && OwnersDistinct(s');
    forall c | Live(s'.core, c) && c !in s'.core.stopErrors ensures Tracked(s', c) {
      var o :| Owns(s, o, c);
      assert Owns(s', o, c);
    }
  }

  lemma StepKeepsInv(s: State, a: Action)
    requires Inv(s) && Enabled(s, a)
    ensures Inv(Step(s, a))
  {
    match a
    case Advance(t, env) => AdvanceKeepsInv(s, t, env);
    case Swept(sweep, results) => SweepKeepsInv(s, sweep, results);
    case _ =>
      var s' := Step(s, a);
      forall o ensures IsOwner(s', o) <==> IsOwner(s, o) {}
      forall c | Tracked(s, c) ensures Tracked(s', c) {
        var o :| Owns(s, o, c);
        assert Owns(s', o, c);
      }
  }

  lemma {:induction false} RunKeepsInv(s: State, actions: seq<Action>)
    requires Inv(s) && IsRun(s, actions)
    ensures Inv(After(s, actions))
    decreases |actions|
  {
    if actions != [] {
      StepKeepsInv(s, actions[0]);
      RunKeepsInv(Step(s, actions[0]), actions[1..]);
    }
  }

  // ----- main results -----

  /** In every interleaving of any number of calls: a stopped connection is tracked nowhere; a tracked
      one has exactly one owner, and if that is a slot it is the slot of its own config; and a live
      connection nobody tracks is one whose Stop returned an error. */
  lemma ExactlyOneOwner(actions: seq<Action>, c: Conn)
    requires IsRun(INIT, actions) && c in After(INIT, actions).core.created
    ensures var s := After(INIT, actions);
      && (c in s.core.stopped ==> !Tracked(s, c))
      && (forall o, p :: Owns(s, o, c) && Owns(s, p, c) ==> o == p)
      && (forall id :: Owns(s, Slot(id), c) ==> id == s.core.created[c].id)
      && (Live(s.core, c) && !Tracked(s, c) ==> c in s.core.stopErrors)
  {
    RunKeepsInv(INIT, actions);
  }

  /** With no call in flight, and up to connections whose Stop failed, the map is exactly the live
      connections, one per config id. */
  lemma QuiescentMapIsExact(actions: seq<Action>)
    requires IsRun(INIT, actions) && After(INIT, actions).calls == map[]
    ensures var m := After(INIT, actions).core;
      && (forall id :: id in m.connections ==>
            Live(m, m.connections[id].conn) && m.created[m.connections[id].conn] == m.connections[id].config
            && m.connections[id].config.id == id)
      && (forall c :: Live(m, c) && c !in m.stopErrors ==>
            m.created[c].id in m.connections && m.connections[m.created[c].id] == Entry(m.created[c], c))
  {
    RunKeepsInv(INIT, actions);
    var s := After(INIT, actions);
    forall id | id in s.core.connections
      ensures Live(s.core, s.core.connections[id].conn)
      ensures s.core.created[s.core.connections[id].conn] == s.core.connections[id].config
    {
      assert IsOwner(s, Slot(id));
    }
    forall c | Live(s.core, c) && c !in s.core.stopErrors
      ensures s.core.created[c].id in s.core.connections
      ensures s.core.connections[s.core.created[c].id] == Entry(s.core.created[c], c)
    {
      var o :| Owns(s, o, c);
    }
  }

  /** Whenever the lock is free, a slot has a status exactly when its config id is not blank. */
  lemma SlotHasStatus(actions: seq<Action>, id: Id)
    requires IsRun(INIT, actions) && id in After(INIT, actions).core.connections
    ensures id in After(INIT, actions).core.meta <==> !Blank(id)
  {
    RunKeepsInv(INIT, actions);
  }

  lemma {:induction false} RunAppend(s: State, actions: seq<Action>, a: Action)
    requires IsRun(s, actions) && Enabled(After(s, actions), a)
    ensures IsRun(s, actions + [a]) && After(s, actions + [a]) == Step(After(s, actions), a)
    decreases |actions|
  {
    if actions != [] {
      RunAppend(Step(s, actions[0]), actions[1..], a);
      assert (actions + [a])[1..] == actions[1..] + [a];
    }
  }

  lemma Extend(actions: seq<Action>, a: Action) returns (longer: seq<Action>)
    requires IsRun(INIT, actions) && Enabled(After(INIT, actions), a)
    ensures longer == actions + [a] && IsRun(INIT, longer) && After(INIT, longer) == Step(After(INIT, actions), a)
  {
    longer := actions + [a];
    RunAppend(INIT, actions, a);
  }

  /** With its slot empty, a call gets as far as Connect. */
  lemma ReachConnect(actions: seq<Action>, t: nat, cfg: Config) returns (longer: seq<Action>)
    requires IsRun(INIT, actions) && var s := After(INIT, actions);
      && t in s.calls && s.calls[t] == EnsureBegin(cfg)
      && cfg.channelType in s.core.receivers && cfg.id !in s.core.connections
    ensures actions <= longer && IsRun(INIT, longer)
    ensures var s := After(INIT, actions); After(INIT, longer) == s.(calls := s.calls[t := EnsureConnect(cfg)])
  {
    var env := Env(Stopped, None, true, []);
    longer := Extend(actions, Advance(t, env));
    assert After(INIT, longer).calls[t] == EnsureEnter(cfg);
    longer := Extend(longer, Advance(t, env));
    assert After(INIT, longer).calls[t] == EnsureReceiver(cfg);
    longer := Extend(longer, Advance(t, env));
    assert After(INIT, longer).calls[t] == EnsureRecheck(cfg);
    longer := Extend(longer, Advance(t, env));
  }

  /** Two calls for the same id reach Connect together. */
  lemma BothReachConnect(older: Config, newer: Config) returns (actions: seq<Action>)
    requires older.id == newer.id != "" && older.channelType == newer.channelType
    requires !older.disabled && !newer.disabled
    ensures IsRun(INIT, actions) && Invoke(1, EnsureBegin(newer)) in actions
    ensures After(INIT, actions) == State(INIT.core.(receivers := {newer.channelType}),
                                          map[0 := EnsureConnect(older), 1 := EnsureConnect(newer)])
  {
    var m := INIT.core.(receivers := {newer.channelType});
    actions := Extend([], Register(newer.channelType));
    actions := Extend(actions, Invoke(0, EnsureBegin(older)));
    actions := Extend(actions, Invoke(1, EnsureBegin(newer)));
    var invoked := actions;
    assert After(INIT, actions) == State(m, map[0 := EnsureBegin(older), 1 := EnsureBegin(newer)]);
    actions := ReachConnect(actions, 0, older);
    assert After(INIT, actions) == State(m, map[0 := EnsureConnect(older), 1 := EnsureBegin(newer)]);
    actions := ReachConnect(actions, 1, newer);
    assert Invoke(1, EnsureBegin(newer)) in invoked && invoked <= actions;
  }

  /** Both then connect. */
  lemma BothConnect(older: Config, newer: Config) returns (actions: seq<Action>)
    requires older.id == newer.id != "" && older.channelType == newer.channelType
    requires !older.disabled && !newer.disabled
    ensures IsRun(INIT, actions) && Invoke(1, EnsureBegin(newer)) in actions
    ensures After(INIT, actions) == State(Core(map[], map[], {newer.channelType}, map[0 := older, 1 := newer], {}, {}),
                                          map[0 := EnsureInstall(older, 0), 1 := EnsureInstall(newer, 1)])
  {
    actions := BothReachConnect(older, newer);
    actions := Extend(actions, Advance(0, Env(Stopped, Some(0), true, [])));
    actions := Extend(actions, Advance(1, Env(Stopped, Some(1), true, [])));
  }

  /** Calls that race can leave the older of two configs installed, with nothing having failed and
      nothing left in flight: the newer call finds the slot taken and discards its own connection. */
  lemma OlderConfigCanWin(older: Config, newer: Config) returns (actions: seq<Action>)
    requires older.id == newer.id != "" && older.channelType == newer.channelType
    requires !older.disabled && !newer.disabled && older.updatedAt < newer.updatedAt
    ensures IsRun(INIT, actions) && Invoke(1, EnsureBegin(newer)) in actions
    ensures var s := After(INIT, actions);
      && s.calls == map[] && s.core.stopErrors == {}
      && newer.id in s.core.connections && s.core.connections[newer.id].config.updatedAt < newer.updatedAt
  {
    var env := Env(Stopped, None, true, []);
    actions := BothConnect(older, newer);
    actions := Extend(actions, Advance(0, env));
    var m := After(INIT, actions).core;
    assert m.connections == map[newer.id := Entry(older, 0)] && m.stopErrors == {};
    assert After(INIT, actions).calls == map[1 := EnsureInstall(newer, 1)];
    actions := Extend(actions, Advance(1, env));
    assert After(INIT, actions).calls == map[1 := EnsureDiscard(newer, 1)];
    assert After(INIT, actions).core.connections == m.connections && After(INIT, actions).core.stopErrors == {};
    actions := Extend(actions, Advance(1, env));
  }
}
