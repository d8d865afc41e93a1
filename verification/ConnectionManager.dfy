/** The connection manager, one call alone. */
module ConnectionManager {
  import opened Text
  import opened Wrappers
  import opened ConnectionProtocol

  // The manager's methods as the source writes them, each running with no other call in flight, and what a reconcile that
  // runs alone converges to.  The protocol's own steps, taken one after another by a single call, are the specification.

  // ----- one call running alone -----

  function Rank(call: Call): nat {
    match call
    case EnsureBegin(_) => 9
    case EnsureEnter(_) => 8
    case EnsureStopOld(_, _) => 7
    case EnsureReinsert(_, _) => 6
    case EnsureReceiver(_) => 6
    case EnsureRecheck(_) => 5
    case EnsureConnect(_) => 4
    case EnsureInstall(_, _) => 3
    case EnsureDiscard(_, _) => 2
    case EnsureMark(_) => 1
    case RemoveBegin(_) => 2
    case StopBegin(_) => 2
    case StopByBotBegin(_) => 1
    case Stopping(_) => 1
  }

  /** env can answer every step call still has to take. */
  ghost predicate Answers(m: Core, call: Call, env: Env) {
    && !call.StopByBotBegin?
    && (call.Stopping? ==> |call.entries| == 1)
    && (Rank(call) >= 4 && env.connected.Some? ==> env.connected.value !in m.created)
  }

  /** The manager after call has taken all its steps, uninterrupted, with the answers env. */
  ghost function Alone(m: Core, call: Call, env: Env): Core
    requires Answers(m, call, env)
    decreases Rank(call)
  {
    var (m', next) := CallStep(m, call, env);
    if next.None? then m' else Alone(m', next.value, env)
  }

  /** Running alone is one of the protocol's interleavings: the one that lets nobody else move. */
  lemma {:induction false} AloneIsARun(s: State, t: nat, env: Env) returns (actions: seq<Action>)
    requires t in s.calls && Answers(s.core, s.calls[t], env)
    ensures IsRun(s, actions)
    ensures After(s, actions) == State(Alone(s.core, s.calls[t], env), s.calls - {t})
    decreases Rank(s.calls[t])
  {
    var a := Advance(t, env);
    var s' := Step(s, a);
    assert [a][1..] == [];
    if CallStep(s.core, s.calls[t], env).1.None? {
      actions := [a];
      assert After(s, actions) == After(s', []);
    } else {
      var rest := AloneIsARun(s', t, env);
      actions := [a] + rest;
      assert actions[1..] == rest;
      assert s'.calls - {t} == s.calls - {t};
    }
  }

  predicate IsEnsure(call: Call) {
    !call.RemoveBegin? && !call.StopBegin? && !call.StopByBotBegin? && !call.Stopping?
  }

  /** Nothing failed: Stop stops, Connect connects. */
  predicate Succeeds(env: Env) {
    env.stop.Stopped? && env.connected.Some?
  }

  /** On its way to connect, an ensureConnection that runs alone has an empty slot before it. */
  ghost predicate OnTheWay(m: Core, call: Call) {
    match call
    case EnsureBegin(_) => true
    case EnsureEnter(_) => true
    case EnsureStopOld(cfg, _) => cfg.id !in m.connections
    case EnsureReceiver(cfg) => cfg.id !in m.connections
    case EnsureRecheck(cfg) => cfg.id !in m.connections
    case EnsureConnect(cfg) => cfg.id !in m.connections
    case EnsureInstall(cfg, _) => cfg.id !in m.connections
    case _ => false
  }

  /** What the slot of call's config may hold once call is through. */
  ghost predicate SlotOutcome(m: Core, call: Call, env: Env, m': Core)
    requires IsEnsure(call)
  {
    var id := call.cfg.id;
    id in m'.connections ==>
      || (id in m.connections && m'.connections[id] == m.connections[id])
      || m'.connections[id] in Held(call)
      || (env.connected.Some? && m'.connections[id] == Entry(call.cfg, env.connected.value))
  }

  /** One step touches only the call's own slot, and keeps working for the same config. */
  lemma EnsureStep(m: Core, call: Call, env: Env)
    requires Answers(m, call, env) && IsEnsure(call)
    ensures var (m', next) := CallStep(m, call, env);
      && m'.connections - {call.cfg.id} == m.connections - {call.cfg.id} && m'.receivers == m.receivers
      && (next.Some? ==> IsEnsure(next.value) && next.value.cfg == call.cfg)
  {
  }

  lemma EnsureStepHolds(m: Core, call: Call, env: Env)
    requires Answers(m, call, env) && IsEnsure(call)
    ensures var (m', next) := CallStep(m, call, env); var id := call.cfg.id;
      && SlotOutcome(m, call, env, m')
      && (next.Some? ==> forall e :: e in Held(next.value) ==>
            || e in Held(call) || (id in m.connections && e == m.connections[id])
            || (env.connected.Some? && e == Entry(call.cfg, env.connected.value)))
  {
  }

  lemma {:induction false} AloneSlots(m: Core, call: Call, env: Env)
    requires Answers(m, call, env) && IsEnsure(call)
    ensures var m' := Alone(m, call, env);
      m'.connections - {call.cfg.id} == m.connections - {call.cfg.id} && m'.receivers == m.receivers
    ensures SlotOutcome(m, call, env, Alone(m, call, env))
    decreases Rank(call)
  {
    var next := CallStep(m, call, env).1;
    EnsureStep(m, call, env);
    EnsureStepHolds(m, call, env);
    if next.Some? { AloneSlots(CallStep(m, call, env).0, next.value, env); }
  }

  lemma {:induction false} AloneCreates(m: Core, call: Call, env: Env)
    requires Answers(m, call, env)
    ensures forall c :: c in Alone(m, call, env).created ==> c in m.created || env.connected == Some(c)
    decreases Rank(call)
  {
    CallStepCreates(m, call, env);
    var next := CallStep(m, call, env).1;
    if next.Some? { AloneCreates(CallStep(m, call, env).0, next.value, env); }
  }

  lemma {:induction false} AloneFills(m: Core, call: Call, env: Env)
    requires Answers(m, call, env) && IsEnsure(call) && OnTheWay(m, call)
    requires Succeeds(env) && call.cfg.channelType in m.receivers
    ensures var m' := Alone(m, call, env);
      call.cfg.id in m'.connections && m'.connections[call.cfg.id].config.updatedAt >= call.cfg.updatedAt
    decreases Rank(call)
  {
    var (m', next) := CallStep(m, call, env);
    if next.Some? { AloneFills(m', next.value, env); }
  }

  // ----- reconcile -----

  predicate Wanted(cfg: Config) { cfg.id != "" && !cfg.disabled }

  function ActiveIds(configs: seq<Config>): set<Id> {
    set cfg | cfg in configs && Wanted(cfg) :: cfg.id
  }

  /** Connect never returns the same connection twice. */
  ghost predicate FreshAnswers(m: Core, envs: seq<Env>) {
    && (forall env :: env in envs && env.connected.Some? ==> env.connected.value !in m.created)
    && (forall i, j :: 0 <= i < j < |envs| && envs[i].connected.Some? && envs[j].connected.Some? ==>
          envs[i].connected.value != envs[j].connected.value)
  }

  ghost function EnsureOne(m: Core, cfg: Config, env: Env): Core
    requires env.connected.Some? ==> env.connected.value !in m.created
  {
    if Wanted(cfg) then Alone(m, EnsureBegin(cfg), env) else m
  }

  /** reconcile's first loop. */
  ghost function EnsureAll(m: Core, configs: seq<Config>, envs: seq<Env>): (m': Core)
    requires |envs| == |configs| && FreshAnswers(m, envs)
    ensures forall c :: c in m'.created ==> c in m.created || exists e :: e in envs && e.connected == Some(c)
    decreases |configs|
  {
    if configs == [] then m
    else
      var n := |configs| - 1;
      var m1 := EnsureAll(m, configs[..n], envs[..n]);
      EnsureOneFresh(m, m1, envs, configs[n]);
      EnsureOne(m1, configs[n], envs[n])
  }

  lemma EnsureOneFresh(m: Core, m1: Core, envs: seq<Env>, cfg: Config)
    requires envs != [] && FreshAnswers(m, envs)
    requires forall c :: c in m1.created ==> c in m.created || exists e :: e in envs[..|envs| - 1] && e.connected == Some(c)
    ensures var env := envs[|envs| - 1];
      && (env.connected.Some? ==> env.connected.value !in m1.created)
      && (forall c :: c in EnsureOne(m1, cfg, env).created ==> c in m1.created || env.connected == Some(c))
  {
    var env := envs[|envs| - 1];
    assert env in envs;
    if Wanted(cfg) { AloneCreates(m1, EnsureBegin(cfg), env); }
  }

  /** A reconcile that runs alone. */
  ghost function ReconcileAlone(m: Core, configs: seq<Config>, envs: seq<Env>, results: map<Conn, StopResult>): Core
    requires |envs| == |configs| && FreshAnswers(m, envs)
  {
    SweepStep(EnsureAll(m, configs, envs), SweepInactive(ActiveIds(configs)), results)
  }

  /** A type without a receiver, or a slot that is up to date, is left alone. */
  lemma AloneLeaves(m: Core, cfg: Config, env: Env)
    requires Answers(m, EnsureBegin(cfg), env)
    requires cfg.channelType !in m.receivers
             || (cfg.id in m.connections && m.connections[cfg.id].config.updatedAt >= cfg.updatedAt)
    ensures Alone(m, EnsureBegin(cfg), env).connections == m.connections
  {
    var next := CallStep(m, EnsureBegin(cfg), env).1.value;
    assert Alone(m, EnsureBegin(cfg), env) == Alone(m, next, env);
    assert Alone(m, next, env) == CallStep(m, next, env).0;
  }

  /** Ensuring one more config never replaces a slot by an older one. */
  lemma EnsureOneKeeps(m: Core, cfg: Config, env: Env, id: Id, at: Time)
    requires Succeeds(env) && env.connected.value !in m.created
    requires id in m.connections && m.connections[id].config.updatedAt >= at
    ensures var m' := EnsureOne(m, cfg, env); id in m'.connections && m'.connections[id].config.updatedAt >= at
  {
    if Wanted(cfg) {
      AloneSlots(m, EnsureBegin(cfg), env);
      if id != cfg.id {
        var m' := EnsureOne(m, cfg, env);
        assert id in m.connections - {cfg.id};
      } else if cfg.channelType in m.receivers && m.connections[id].config.updatedAt < cfg.updatedAt {
        AloneFills(m, EnsureBegin(cfg), env);
      } else {
        AloneLeaves(m, cfg, env);
      }
    }
  }

  lemma {:induction false} EnsureAllReceivers(m: Core, configs: seq<Config>, envs: seq<Env>)
    requires |envs| == |configs| && FreshAnswers(m, envs)
    ensures EnsureAll(m, configs, envs).receivers == m.receivers
    decreases |configs|
  {
    if configs != [] {
      var n := |configs| - 1;
      EnsureAllReceivers(m, configs[..n], envs[..n]);
      var m1 := EnsureAll(m, configs[..n], envs[..n]);
      EnsureOneFresh(m, m1, envs, configs[n]);
      if Wanted(configs[n]) { AloneSlots(m1, EnsureBegin(configs[n]), envs[n]); }
    }
  }

  lemma {:induction false} EnsureAllCovers(m: Core, configs: seq<Config>, envs: seq<Env>, k: nat)
    requires |envs| == |configs| && FreshAnswers(m, envs) && k < |configs|
    requires forall env :: env in envs ==> Succeeds(env)
    requires Wanted(configs[k]) && configs[k].channelType in m.receivers
    ensures var m' := EnsureAll(m, configs, envs);
      configs[k].id in m'.connections && m'.connections[configs[k].id].config.updatedAt >= configs[k].updatedAt
    decreases |configs|
  {
    var n := |configs| - 1;
    var m1 := EnsureAll(m, configs[..n], envs[..n]);
    EnsureOneFresh(m, m1, envs, configs[n]);
    assert envs[n] in envs;
    if k == n {
      EnsureAllReceivers(m, configs[..n], envs[..n]);
      AloneFills(m1, EnsureBegin(configs[n]), envs[n]);
    } else {
      EnsureAllCovers(m, configs[..n], envs[..n], k);
      EnsureOneKeeps(m1, configs[n], envs[n], configs[k].id, configs[k].updatedAt);
    }
  }

  /** After a reconcile, whatever the adapters answered, only enabled configs of the list have slots or statuses. */
  lemma ReconcileOnlyEnabled(m: Core, configs: seq<Config>, envs: seq<Env>, results: map<Conn, StopResult>)
    requires |envs| == |configs| && FreshAnswers(m, envs)
    ensures var m' := ReconcileAlone(m, configs, envs, results);
      forall id :: id in m'.connections || id in m'.meta ==> id != "" && exists cfg :: cfg in configs && cfg.id == id && !cfg.disabled
  {
    var m' := ReconcileAlone(m, configs, envs, results);
    forall id | id in m'.connections || id in m'.meta ensures id != "" && exists cfg :: cfg in configs && cfg.id == id && !cfg.disabled {
      assert id in ActiveIds(configs);
    }
  }

  /** If in addition every Stop and Connect succeeded, every enabled config whose type has a receiver
      is covered by a slot that is not older than it. */
  lemma ReconcileConverges(m: Core, configs: seq<Config>, envs: seq<Env>, results: map<Conn, StopResult>)
    requires |envs| == |configs| && FreshAnswers(m, envs)
    requires forall env :: env in envs ==> Succeeds(env)
    ensures var m' := ReconcileAlone(m, configs, envs, results);
      forall cfg :: cfg in configs && cfg.id != "" && !cfg.disabled && cfg.channelType in m.receivers ==>
        cfg.id in m'.connections && m'.connections[cfg.id].config.updatedAt >= cfg.updatedAt
  {
    var m1 := EnsureAll(m, configs, envs);
    forall cfg | cfg in configs && Wanted(cfg) && cfg.channelType in m.receivers
      ensures cfg.id in m1.connections && m1.connections[cfg.id].config.updatedAt >= cfg.updatedAt
    {
      var k :| 0 <= k < |configs| && configs[k] == cfg;
      EnsureAllCovers(m, configs, envs, k);
    }
  }

  // ----- the methods -----

  /** ensureConnection returns an error: the old connection would not stop, or the new one not connect. */
  predicate EnsureFails(m: Core, cfg: Config, env: Env) {
    && cfg.channelType in m.receivers
    && (cfg.id in m.connections ==>
          m.connections[cfg.id].config.updatedAt < cfg.updatedAt && !env.stop.StopUnsupported?)
    && ((cfg.id in m.connections && env.stop.StopFailed?) || env.connected.None?)
  }

  /** The answers with which a call on its way ends without a connection. */
  ghost predicate GoesWrong(m: Core, call: Call, env: Env) {
    match call
    case EnsureBegin(cfg) => EnsureFails(m, cfg, env)
    case EnsureEnter(cfg) => EnsureFails(m, cfg, env)
    case EnsureStopOld(cfg, _) => cfg.id !in m.connections && !env.stop.StopUnsupported? && (env.stop.StopFailed? || env.connected.None?)
    case EnsureReceiver(cfg) => cfg.id !in m.connections && env.connected.None?
    case EnsureRecheck(cfg) => cfg.id !in m.connections && env.connected.None?
    case EnsureConnect(cfg) => cfg.id !in m.connections && env.connected.None?
    case EnsureMark(cfg) => cfg.id !in m.connections
    case _ => false
  }

  /** After an error the slot of the config is empty. */
  lemma {:induction false} FailureIsDown(m: Core, call: Call, env: Env)
    requires Answers(m, call, env) && IsEnsure(call) && GoesWrong(m, call, env)
    ensures call.cfg.id !in Alone(m, call, env).connections
    decreases Rank(call)
  {
    var (m', next) := CallStep(m, call, env);
    if next.Some? { FailureIsDown(m', next.value, env); }
  }

  class Manager {
    var connections: map<Id, Entry>
    var meta: map<Id, Status>
    var receivers: set<string>
    ghost var created: map<Conn, Config>
    ghost var stopped: set<Conn>
    ghost var stopErrors: set<Conn>

    ghost function View(): Core
      reads this
    {
      Core(connections, meta, receivers, created, stopped, stopErrors)
    }

    /** NewManager: the registry may have receivers already. */
    constructor (registry: set<string>)
      ensures View() == INIT.core.(receivers := registry)
    {
      connections, meta, receivers := map[], map[], registry;
      created, stopped, stopErrors := map[], {}, {};
    }

    method SetConnectionStatusLocked(cfg: Config, running: bool, failed: bool)
      modifies `meta
      ensures View() == SetStatus(old(View()), cfg, running, failed)
    {
      if !Blank(cfg.id) {
        meta := meta[cfg.id := Status(cfg.id, cfg.bot, cfg.channelType, running, failed)];
      }
    }

    /** A call of Connection.Stop that answers r. */
    ghost method CallStop(c: Conn, r: StopResult)
      modifies `stopped, `stopErrors
      ensures View() == RecordStop(old(View()), c, r)
    {
      if r.Stopped? { stopped := stopped + {c}; } else { stopErrors := stopErrors + {c}; }
    }

    /** ensureConnection. */
    method EnsureConnectionOf(cfg: Config, env: Env) returns (failed: bool)
      requires Answers(View(), EnsureBegin(cfg), env)
      modifies this
      ensures View() == Alone(old(View()), EnsureBegin(cfg), env)
      ensures failed == EnsureFails(old(View()), cfg, env)
    {
      ghost var m := View();
      if cfg.channelType !in receivers {
        assert Alone(m, EnsureBegin(cfg), env) == Alone(m, EnsureMark(cfg), env);
        SetConnectionStatusLocked(cfg, false, true);
        return false;
      }
      assert Alone(m, EnsureBegin(cfg), env) == Alone(m, EnsureEnter(cfg), env);
      if cfg.id !in connections {
        assert Alone(m, EnsureEnter(cfg), env) == Alone(m, EnsureReceiver(cfg), env);
        failed := Connect(cfg, env);
        return;
      }
      var entry := connections[cfg.id];
      if entry.config.updatedAt >= cfg.updatedAt {
        SetConnectionStatusLocked(entry.config, env.running, false);
        return false;
      }
      connections := connections - {cfg.id};
      assert Alone(m, EnsureEnter(cfg), env) == Alone(View(), EnsureStopOld(cfg, entry), env);
      failed := Restart(cfg, entry, env);
    }

    /** ensureConnection from the Stop of the connection it replaces. */
    method Restart(cfg: Config, entry: Entry, env: Env) returns (failed: bool)
      requires Answers(View(), EnsureStopOld(cfg, entry), env)
      requires cfg.id !in connections && cfg.channelType in receivers
      modifies this
      ensures View() == Alone(old(View()), EnsureStopOld(cfg, entry), env)
      ensures failed == (!env.stop.StopUnsupported? && (env.stop.StopFailed? || env.connected.None?))
    {
      ghost var m := View();
      CallStop(entry.conn, env.stop);
      match env.stop {
        case Stopped =>
          assert Alone(m, EnsureStopOld(cfg, entry), env) == Alone(View(), EnsureReceiver(cfg), env);
          failed := Connect(cfg, env);
        case StopUnsupported =>
          assert Alone(m, EnsureStopOld(cfg, entry), env) == Alone(View(), EnsureReinsert(cfg, entry), env);
          connections := connections[cfg.id := entry];
          SetConnectionStatusLocked(entry.config, env.running, false);
          failed := false;
        case StopFailed =>
          assert Alone(m, EnsureStopOld(cfg, entry), env) == Alone(View(), EnsureMark(cfg), env);
          SetConnectionStatusLocked(cfg, false, true);
          failed := true;
      }
    }

    /** ensureConnection from its second receiver lookup. */
    method Connect(cfg: Config, env: Env) returns (failed: bool)
      requires Answers(View(), EnsureReceiver(cfg), env)
      requires cfg.id !in connections && cfg.channelType in receivers
      modifies this
      ensures View() == Alone(old(View()), EnsureReceiver(cfg), env)
      ensures failed == env.connected.None?
    {
      ghost var m := View();
      assert Alone(m, EnsureReceiver(cfg), env) == Alone(m, EnsureRecheck(cfg), env) == Alone(m, EnsureConnect(cfg), env);
      match env.connected {
        case None =>
          assert Alone(m, EnsureConnect(cfg), env) == Alone(m, EnsureMark(cfg), env);
          SetConnectionStatusLocked(cfg, false, true);
          failed := true;
        case Some(conn) =>
          created := created[conn := cfg];
          assert Alone(m, EnsureConnect(cfg), env) == Alone(View(), EnsureInstall(cfg, conn), env);
          connections := connections[cfg.id := Entry(cfg, conn)];
          SetConnectionStatusLocked(cfg, true, false);
          failed := false;
      }
    }

    /** removeConnection. */
    method RemoveConfig(id: Id, env: Env) returns (failed: bool)
      modifies this
      ensures View() == Alone(old(View()), RemoveBegin(id), env)
      ensures failed == (id in old(connections) && env.stop.StopFailed?)
    {
      if id !in connections {
        meta := meta - {id};
        assert View() == CallStep(old(View()), RemoveBegin(id), env).0;
        return false;
      }
      var entry := connections[id];
      connections, meta := connections - {id}, meta - {id};
      assert Alone(old(View()), RemoveBegin(id), env) == Alone(View(), Stopping([entry]), env);
      CallStop(entry.conn, env.stop);
      return env.stop.StopFailed?;
    }

    /** EnsureConnection; an empty config id is an error and changes nothing. */
    method EnsureConnection(cfg: Config, env: Env) returns (failed: bool)
      requires Answers(View(), EnsureBegin(cfg), env)
      modifies this
      ensures View() == if cfg.id == "" then old(View())
                        else Alone(old(View()), if cfg.disabled then RemoveBegin(cfg.id) else EnsureBegin(cfg), env)
      ensures failed == (cfg.id == ""
                         || if cfg.disabled then cfg.id in old(connections) && env.stop.StopFailed?
                            else EnsureFails(old(View()), cfg, env))
    {
      if cfg.id == "" { return true; }
      if cfg.disabled {
        failed := RemoveConfig(cfg.id, env);
      } else {
        failed := EnsureConnectionOf(cfg, env);
      }
    }

    method StopSlot(id: Id, r: StopResult)
      requires id in connections
      modifies this
      ensures View() == TakeOut(RecordStop(old(View()), old(connections)[id].conn, r), {id})
    {
      CallStop(connections[id].conn, r);
      connections, meta := connections - {id}, meta - {id};
    }

    /** The loop of RemoveConnection, RemoveAdapter, stopAll and the tail of reconcile: stop and take
        out every selected slot, in whatever order the map is iterated. */
    method TakeOutSelected(sweep: Sweep, results: map<Conn, StopResult>)
      modifies this
      ensures View() == TakeOutStopped(old(View()), SweptIds(old(View()), sweep), results)
    {
      ghost var m := View();
      ghost var taken: set<Id> := {};
      var todo := connections.Keys;
      TakeOutNone(m, results);
      while todo != {}
        invariant taken <= SweptIds(m, sweep) <= taken + todo && todo <= m.connections.Keys && todo !! taken
        invariant View() == TakeOutStopped(m, taken, results)
        decreases todo
      {
        var id :| id in todo;
        todo := todo - {id};
        var entry := connections[id];
        TakeOutOneMore(m, taken, id, results);
        if Selected(sweep, id, entry) {
          StopSlot(id, if entry.conn in results then results[entry.conn] else StopFailed);
          taken := taken + {id};
        }
      }
      assert taken == SweptIds(m, sweep);
    }

    /** RemoveConnection; a blank bot id removes nothing. */
    method RemoveConnection(bot: string, channelType: string, results: map<Conn, StopResult>)
      modifies this
      ensures View() == SweepStep(old(View()), SweepPair(bot, channelType), results)
    {
      if Blank(bot) {
        assert SweptIds(View(), SweepPair(bot, channelType)) == {};
        TakeOutNone(View(), results);
        return;
      }
      TakeOutSelected(SweepPair(bot, channelType), results);
    }

    /** RemoveAdapter. */
    method RemoveAdapter(channelType: string, results: map<Conn, StopResult>)
      modifies this
      ensures var m := SweepStep(old(View()), SweepType(channelType), results);
        View() == m.(receivers := m.receivers - {channelType})
    {
      TakeOutSelected(SweepType(channelType), results);
      receivers := receivers - {channelType};
    }

    /** reconcile.  On an error the status is marked a second time, which changes nothing. */
    method Reconcile(configs: seq<Config>, envs: seq<Env>, results: map<Conn, StopResult>)
      requires |envs| == |configs| && FreshAnswers(View(), envs)
      modifies this
      ensures View() == ReconcileAlone(old(View()), configs, envs, results)
    {
      var active := EnsureWanted(configs, envs);
      SweepIdle(active, results);
    }

    /** The first loop of reconcile. */
    method EnsureWanted(configs: seq<Config>, envs: seq<Env>) returns (active: map<Id, Config>)
      requires |envs| == |configs| && FreshAnswers(View(), envs)
      modifies this
      ensures View() == EnsureAll(old(View()), configs, envs) && active.Keys == ActiveIds(configs)
    {
      active := map[];
      for i := 0 to |configs|
        invariant View() == EnsureAll(old(View()), configs[..i], envs[..i])
        invariant active.Keys == ActiveIds(configs[..i])
      {
        var cfg := configs[i];
        EnsureAllSnoc(old(View()), configs, envs, i);
        ActiveSnoc(configs, i);
        if Wanted(cfg) {
          active := active[cfg.id := cfg];
          EnsureMarked(cfg, envs[i]);
        }
      }
      assert configs[..|configs|] == configs && envs[..|envs|] == envs;
    }

    /** One ensure of reconcile's loop. */
    method EnsureMarked(cfg: Config, env: Env)
      requires Answers(View(), EnsureBegin(cfg), env)
      modifies this
      ensures View() == Alone(old(View()), EnsureBegin(cfg), env)
    {
      ghost var m := View();
      var failed := EnsureConnectionOf(cfg, env);
      if failed {
        FailureIsMarked(m, cfg, env);
        SetConnectionStatusLocked(cfg, false, true);
      }
    }

    /** The tail of reconcile: the slots and statuses of all other configs go. */
    method SweepIdle(active: map<Id, Config>, results: map<Conn, StopResult>)
      modifies this
      ensures View() == SweepStep(old(View()), SweepInactive(active.Keys), results)
    {
      TakeOutSelected(SweepInactive(active.Keys), results);
      var idle := meta.Keys - active.Keys;
      meta := meta - idle;
    }
  }

  lemma ActiveSnoc(configs: seq<Config>, i: nat)
    requires i < |configs|
    ensures ActiveIds(configs[..i + 1]) == ActiveIds(configs[..i]) + if Wanted(configs[i]) then {configs[i].id} else {}
  {
    assert configs[..i + 1] == configs[..i] + [configs[i]];
  }

  lemma EnsureAllSnoc(m: Core, configs: seq<Config>, envs: seq<Env>, i: nat)
    requires |envs| == |configs| && FreshAnswers(m, envs) && i < |configs|
    ensures FreshAnswers(m, envs[..i]) && FreshAnswers(m, envs[..i + 1])
    ensures var m1 := EnsureAll(m, configs[..i], envs[..i]);
      && (envs[i].connected.Some? ==> envs[i].connected.value !in m1.created)
      && EnsureAll(m, configs[..i + 1], envs[..i + 1]) == EnsureOne(m1, configs[i], envs[i])
  {
    assert configs[..i + 1][..i] == configs[..i] && envs[..i + 1][..i] == envs[..i];
    EnsureOneFresh(m, EnsureAll(m, configs[..i], envs[..i]), envs[..i + 1], configs[i]);
  }

  /** After an error the status already reads "not running, failed". */
  lemma FailureIsMarked(m: Core, cfg: Config, env: Env)
    requires Answers(m, EnsureBegin(cfg), env) && EnsureFails(m, cfg, env)
    ensures var m' := Alone(m, EnsureBegin(cfg), env); SetStatus(m', cfg, false, true) == m'
  {
    assert Alone(m, EnsureBegin(cfg), env) == Alone(m, EnsureEnter(cfg), env);
    if cfg.id in m.connections {
      var e := m.connections[cfg.id];
      var m1 := m.(connections := m.connections - {cfg.id});
      var m2 := RecordStop(m1, e.conn, env.stop);
      assert Alone(m, EnsureEnter(cfg), env) == Alone(m1, EnsureStopOld(cfg, e), env);
      if env.stop.StopFailed? {
        assert Alone(m1, EnsureStopOld(cfg, e), env) == Alone(m2, EnsureMark(cfg), env);
      } else {
        assert Alone(m1, EnsureStopOld(cfg, e), env) == Alone(m2, EnsureReceiver(cfg), env);
        ConnectFailureIsMarked(m2, cfg, env);
      }
    } else {
      assert Alone(m, EnsureEnter(cfg), env) == Alone(m, EnsureReceiver(cfg), env);
      ConnectFailureIsMarked(m, cfg, env);
    }
  }

  lemma ConnectFailureIsMarked(m: Core, cfg: Config, env: Env)
    requires cfg.id !in m.connections && cfg.channelType in m.receivers && env.connected.None?
    ensures Alone(m, EnsureReceiver(cfg), env) == SetStatus(m, cfg, false, true)
  {
    assert Alone(m, EnsureReceiver(cfg), env) == Alone(m, EnsureRecheck(cfg), env) == Alone(m, EnsureConnect(cfg), env);
    assert Alone(m, EnsureConnect(cfg), env) == Alone(m, EnsureMark(cfg), env);
  }

  lemma TakeOutNone(m: Core, results: map<Conn, StopResult>)
    ensures TakeOutStopped(m, {}, results) == m
  {
    assert ConnsAt(m, {}) == {} && m.connections - {} == m.connections && m.meta - {} == m.meta;
  }

  lemma TakeOutOneMore(m: Core, taken: set<Id>, id: Id, results: map<Conn, StopResult>)
    requires id in m.connections && id !in taken
    ensures var c := m.connections[id].conn; var m1 := TakeOutStopped(m, taken, results);
      && id in m1.connections && m1.connections[id] == m.connections[id]
      && TakeOutStopped(m, taken + {id}, results)
           == TakeOut(RecordStop(m1, c, if c in results then results[c] else StopFailed), {id})
  {
    OneMoreStopped(m, taken, id, results);
    WithoutOneMore(m.connections, taken, id);
    WithoutOneMore(m.meta, taken, id);
  }

  lemma OneMoreStopped(m: Core, taken: set<Id>, id: Id, results: map<Conn, StopResult>)
    requires id in m.connections && id !in taken
    ensures var c := m.connections[id].conn;
      && ConnsAt(m, taken + {id}) == ConnsAt(m, taken) + {c}
      && StoppedAmong(m, taken + {id}, results)
           == StoppedAmong(m, taken, results) + if c in results && results[c].Stopped? then {c} else {}
  {
    assert ConnsAt(m, taken + {id}) == ConnsAt(m, taken) + {m.connections[id].conn};
  }

  lemma WithoutOneMore<T>(table: map<Id, T>, taken: set<Id>, id: Id)
    ensures table - (taken + {id}) == (table - taken) - {id}
  {
  }
}
