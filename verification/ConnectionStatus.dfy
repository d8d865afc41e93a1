/** What the statuses say. */
module ConnectionStatus {
  import opened Text
  import opened Wrappers
  import opened ConnectionManager
  import opened ConnectionProtocol

  // Which status a step writes, over every interleaving, and which one a call that runs alone leaves behind.

  /** The status of a config that is not marked as failed. */
  function Up(cfg: Config, running: bool): Status { Status(cfg.id, cfg.bot, cfg.channelType, running, false) }

  function Down(cfg: Config): Status { Status(cfg.id, cfg.bot, cfg.channelType, false, true) }

  // ----- one step -----

  /** A connection that has just been made and goes into its slot is reported as running. */
  lemma InstalledIsRunning(m: Core, call: Call, env: Env, id: Id)
    requires Possible(m, call, env) && !Blank(id) && call.EnsureInstall? && call.cfg.id == id && id !in m.connections
    ensures var m' := CallStep(m, call, env).0;
      && id in m'.connections && m'.connections[id] == Entry(call.cfg, call.conn)
      && id in m'.meta && m'.meta[id] == Up(call.cfg, true)
  {
  }

  /** A call that finds a slot it leaves alone reports the config in that slot, as running as the adapter says: a slot that
      is not older, one that another call has filled meanwhile, or one into which the old connection goes back. */
  lemma KeptIsReported(m: Core, call: Call, env: Env, id: Id)
    requires Possible(m, call, env) && CallSound(m, call) && Filed(m) && !Blank(id)
    requires call.EnsureEnter? || call.EnsureRecheck? || call.EnsureInstall? || call.EnsureReinsert?
    requires call.cfg.id == id && (id in m.connections <==> !call.EnsureReinsert?)
    ensures var m' := CallStep(m, call, env).0;
      id in m'.connections ==> id in m'.meta && m'.meta[id] == Up(m'.connections[id].config, env.running)
    ensures call.EnsureRecheck? || call.EnsureInstall? || call.EnsureReinsert? ==> id in CallStep(m, call, env).0.connections
  {
  }

  /** A status that a step writes is that of the slot, unless the step marks a failure; and only a mark says failed. */
  lemma StatusTellsTheSlot(m: Core, call: Call, env: Env, id: Id)
    requires Possible(m, call, env) && CallSound(m, call) && Filed(m)
    ensures var m' := CallStep(m, call, env).0;
      id in m'.meta && (id !in m.meta || m'.meta[id] != m.meta[id]) ==>
        !Blank(id)
        && if call.EnsureMark? then id == call.cfg.id && m'.meta[id] == Down(call.cfg)
           else id in m'.connections && m'.meta[id].running == (env.running || (call.EnsureInstall? && id !in m.connections))
                && m'.meta[id] == Up(m'.connections[id].config, m'.meta[id].running)
  {
  }

  /** A mark reaches every config with an id. */
  lemma MarkIsSeen(m: Core, cfg: Config, env: Env)
    requires !Blank(cfg.id)
    ensures var m' := CallStep(m, EnsureMark(cfg), env).0;
      m'.meta == m.meta[cfg.id := Down(cfg)] && m'.connections == m.connections
  {
  }

  /** Whoever takes slots out takes their statuses with them, and leaves all others as they are. */
  lemma TakenOutHasNoStatus(m: Core, call: Call, env: Env, id: Id)
    requires Possible(m, call, env) && (call.RemoveBegin? || call.StopBegin? || call.StopByBotBegin?)
    ensures var m' := CallStep(m, call, env).0;
      && (id in m.connections && id !in m'.connections ==> id !in m'.meta)
      && (call.RemoveBegin? && call.id == id ==> id !in m'.connections && id !in m'.meta)
      && (id in m'.meta ==> id in m.meta && m'.meta[id] == m.meta[id])
      && (id in m.meta && id !in m'.meta ==> (id in m.connections && id !in m'.connections) || (call.RemoveBegin? && call.id == id))
  {
  }

  lemma SweptHasNoStatus(m: Core, sweep: Sweep, results: map<Conn, StopResult>, id: Id)
    ensures var m' := SweepStep(m, sweep, results);
      && (id in m.connections && id !in m'.connections ==> id !in m'.meta)
      && (id in m'.meta ==> id in m.meta && m'.meta[id] == m.meta[id])
      && (id in m.meta && id !in m'.meta ==> (id in m.connections && id !in m'.connections) || sweep.SweepInactive?)
      && (sweep.SweepInactive? ==> (id in m'.meta <==> id in m.meta && id in sweep.active))
  {
  }

  // ----- every run -----

  /** In every run, a status that is not failed is that of the config it was written for, which at that moment was the one in
      the slot. */
  ghost predicate OwnStatus(m: Core) {
    forall id :: id in m.meta ==> m.meta[id].config == id && !(m.meta[id].running && m.meta[id].failed)
  }

  lemma StepKeepsOwnStatus(s: State, a: Action)
    requires Inv(s) && OwnStatus(s.core) && Enabled(s, a)
    ensures OwnStatus(Step(s, a).core)
  {
    match a
    case Advance(t, env) =>
      forall id | id in Step(s, a).core.meta
        ensures Step(s, a).core.meta[id].config == id
        ensures !(Step(s, a).core.meta[id].running && Step(s, a).core.meta[id].failed)
      {
        StatusTellsTheSlot(s.core, s.calls[t], env, id);
        CallStepSound(s.core, s.calls[t], env);
      }
    case _ =>
  }

  /** No status says running and failed at once. */
  lemma {:induction false} RunKeepsOwnStatus(s: State, actions: seq<Action>)
    requires Inv(s) && OwnStatus(s.core) && IsRun(s, actions)
    ensures OwnStatus(After(s, actions).core)
    decreases |actions|
  {
    if actions != [] {
      StepKeepsOwnStatus(s, actions[0]);
      StepKeepsInv(s, actions[0]);
      RunKeepsOwnStatus(Step(s, actions[0]), actions[1..]);
    }
  }

  // ----- a call that runs alone -----

  /** What an ensure that runs alone leaves behind: the slot, and the status that goes with it. */
  datatype Outcome = Outcome(slot: Option<Entry>, status: Status)

  function SlotOf(m: Core, id: Id): Option<Entry> { if id in m.connections then Some(m.connections[id]) else None }

  /** By case: no receiver; a slot that is not older; a Stop that is not supported, or fails; and a connect, or none. */
  function Expected(m: Core, cfg: Config, env: Env): Outcome {
    var had := SlotOf(m, cfg.id);
    if cfg.channelType !in m.receivers then Outcome(had, Down(cfg))
    else if had.Some? && had.value.config.updatedAt >= cfg.updatedAt then Outcome(had, Up(had.value.config, env.running))
    else if had.Some? && env.stop.StopUnsupported? then Outcome(had, Up(had.value.config, env.running))
    else if had.Some? && env.stop.StopFailed? then Outcome(None, Down(cfg))
    else
      match env.connected
      case None => Outcome(None, Down(cfg))
      case Some(c) => Outcome(Some(Entry(cfg, c)), Up(cfg, true))
  }

  predicate EndsAs(m: Core, id: Id, e: Outcome) {
    SlotOf(m, id) == e.slot && (!Blank(id) ==> id in m.meta && m.meta[id] == e.status)
  }

  lemma ConnectEndsAs(m: Core, cfg: Config, env: Env)
    requires Answers(m, EnsureReceiver(cfg), env) && cfg.channelType in m.receivers && cfg.id !in m.connections
    ensures EndsAs(Alone(m, EnsureReceiver(cfg), env), cfg.id,
                   match env.connected case None => Outcome(None, Down(cfg)) case Some(c) => Outcome(Some(Entry(cfg, c)), Up(cfg, true)))
  {
    assert Alone(m, EnsureReceiver(cfg), env) == Alone(m, EnsureRecheck(cfg), env) == Alone(m, EnsureConnect(cfg), env);
    match env.connected
    case None => assert Alone(m, EnsureConnect(cfg), env) == Alone(m, EnsureMark(cfg), env);
    case Some(c) =>
      var m1 := m.(created := m.created[c := cfg]);
      assert Alone(m, EnsureConnect(cfg), env) == Alone(m1, EnsureInstall(cfg, c), env);
      if !Blank(cfg.id) { InstalledIsRunning(m1, EnsureInstall(cfg, c), env, cfg.id); }
  }

  /** An ensure that runs alone ends as expected in each case; a connection that is replaced has been stopped. */
  lemma AloneEndsAs(m: Core, cfg: Config, env: Env)
    requires Answers(m, EnsureBegin(cfg), env) && Filed(m)
    ensures EndsAs(Alone(m, EnsureBegin(cfg), env), cfg.id, Expected(m, cfg, env))
    ensures cfg.id in m.connections && Expected(m, cfg, env).slot.Some? && Expected(m, cfg, env).slot != SlotOf(m, cfg.id) ==>
      m.connections[cfg.id].conn in Alone(m, EnsureBegin(cfg), env).stopped
  {
    if cfg.channelType !in m.receivers {
      assert Alone(m, EnsureBegin(cfg), env) == Alone(m, EnsureMark(cfg), env);
    } else {
      assert Alone(m, EnsureBegin(cfg), env) == Alone(m, EnsureEnter(cfg), env);
      if cfg.id !in m.connections {
        assert Alone(m, EnsureEnter(cfg), env) == Alone(m, EnsureReceiver(cfg), env);
        ConnectEndsAs(m, cfg, env);
      } else if m.connections[cfg.id].config.updatedAt < cfg.updatedAt {
        ReplaceEndsAs(m, cfg, env);
      }
    }
  }

  lemma ReplaceEndsAs(m: Core, cfg: Config, env: Env)
    requires Answers(m, EnsureEnter(cfg), env) && Filed(m) && cfg.channelType in m.receivers
    requires cfg.id in m.connections && m.connections[cfg.id].config.updatedAt < cfg.updatedAt
    ensures EndsAs(Alone(m, EnsureEnter(cfg), env), cfg.id, Expected(m, cfg, env))
    ensures env.stop.Stopped? ==> m.connections[cfg.id].conn in Alone(m, EnsureEnter(cfg), env).stopped
  {
    var had := m.connections[cfg.id];
    var m1 := m.(connections := m.connections - {cfg.id});
    var m2 := RecordStop(m1, had.conn, env.stop);
    assert Alone(m, EnsureEnter(cfg), env) == Alone(m1, EnsureStopOld(cfg, had), env);
    match env.stop
    case Stopped =>
      assert Alone(m1, EnsureStopOld(cfg, had), env) == Alone(m2, EnsureReceiver(cfg), env);
      ConnectEndsAs(m2, cfg, env);
      StoppedStays(m2, EnsureReceiver(cfg), env, had.conn);
    case StopUnsupported => assert Alone(m1, EnsureStopOld(cfg, had), env) == Alone(m2, EnsureReinsert(cfg, had), env);
    case StopFailed => assert Alone(m1, EnsureStopOld(cfg, had), env) == Alone(m2, EnsureMark(cfg), env);
  }

  lemma {:induction false} StoppedStays(m: Core, call: Call, env: Env, c: Conn)
    requires Answers(m, call, env) && c in m.stopped
    ensures c in Alone(m, call, env).stopped
    decreases Rank(call)
  {
    CallStepStops(m, call, env);
    var (m', next) := CallStep(m, call, env);
    if next.Some? { StoppedStays(m', next.value, env, c); }
  }

  /** It returns an error exactly if the type has a receiver and the config ends without a connection. */
  lemma FailsIffDown(m: Core, cfg: Config, env: Env)
    requires Answers(m, EnsureBegin(cfg), env) && Filed(m)
    ensures EnsureFails(m, cfg, env) <==> cfg.channelType in m.receivers && cfg.id !in Alone(m, EnsureBegin(cfg), env).connections
  {
    AloneEndsAs(m, cfg, env);
  }

  /** In particular a successful ensure of a config that is newer than its slot installs it, and reports it as running. */
  lemma SuccessIsReported(m: Core, cfg: Config, env: Env)
    requires Answers(m, EnsureBegin(cfg), env) && Filed(m)
    requires Succeeds(env) && cfg.channelType in m.receivers
    requires cfg.id in m.connections ==> m.connections[cfg.id].config.updatedAt < cfg.updatedAt
    ensures var m' := Alone(m, EnsureBegin(cfg), env);
      && cfg.id in m'.connections && m'.connections[cfg.id] == Entry(cfg, env.connected.value)
      && (!Blank(cfg.id) ==> cfg.id in m'.meta && m'.meta[cfg.id] == Status(cfg.id, cfg.bot, cfg.channelType, true, false))
      && (cfg.id in m.connections ==> m.connections[cfg.id].conn in m'.stopped)
  {
    AloneEndsAs(m, cfg, env);
  }
}
