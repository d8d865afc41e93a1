/** What the calls and sweeps that take connections out take out. */
module ConnectionEffects {
  import opened Text
  import opened Wrappers
  import opened ConnectionProtocol

  /** The slots that are left behind, and what has become of the connections of the others. */
  ghost predicate Leaves(m: Core, m': Core, results: map<Conn, StopResult>, stays: Entry -> bool) {
    && (forall id :: id in m'.connections <==> id in m.connections && stays(m.connections[id]))
    && (forall id :: id in m'.connections ==> m'.connections[id] == m.connections[id])
    && (forall id :: id in m.connections && !stays(m.connections[id]) ==>
          var c := m.connections[id].conn; if c in results && results[c].Stopped? then c in m'.stopped else c in m'.stopErrors)
    && m'.created == m.created && m'.receivers == m.receivers && m.stopped <= m'.stopped && m.stopErrors <= m'.stopErrors
  }

  lemma SweepLeaves(m: Core, sweep: Sweep, results: map<Conn, StopResult>, stays: Entry -> bool)
    requires forall id :: id in m.connections ==> (stays(m.connections[id]) <==> !Selected(sweep, id, m.connections[id]))
    ensures Leaves(m, SweepStep(m, sweep, results), results, stays)
  {
    var m' := SweepStep(m, sweep, results);
    assert m'.connections == m.connections - SweptIds(m, sweep);
    forall id | id in m.connections && !stays(m.connections[id])
      ensures var c := m.connections[id].conn; if c in results && results[c].Stopped? then c in m'.stopped else c in m'.stopErrors
    {
      var c := m.connections[id].conn;
      assert id in SweptIds(m, sweep) && c in ConnsAt(m, SweptIds(m, sweep));
    }
  }

  /** RemoveConnection: the slots of one bot and channel type; a blank bot id takes none out. */
  lemma PairIsSwept(m: Core, bot: string, channelType: string, results: map<Conn, StopResult>)
    ensures Leaves(m, SweepStep(m, SweepPair(bot, channelType), results), results,
                   (e: Entry) => Blank(bot) || e.config.bot != Trim(bot) || e.config.channelType != channelType)
  {
    SweepLeaves(m, SweepPair(bot, channelType), results, (e: Entry) => Blank(bot) || e.config.bot != Trim(bot) || e.config.channelType != channelType);
  }

  /** RemoveAdapter: those of one channel type. */
  lemma TypeIsSwept(m: Core, channelType: string, results: map<Conn, StopResult>)
    ensures Leaves(m, SweepStep(m, SweepType(channelType), results), results, (e: Entry) => e.config.channelType != channelType)
  {
    SweepLeaves(m, SweepType(channelType), results, (e: Entry) => e.config.channelType != channelType);
  }

  /** stopAll: all of them. */
  lemma AllAreSwept(m: Core, results: map<Conn, StopResult>)
    ensures Leaves(m, SweepStep(m, SweepAll, results), results, (e: Entry) => false)
    ensures SweepStep(m, SweepAll, results).connections == map[]
  {
    SweepLeaves(m, SweepAll, results, (e: Entry) => false);
  }

  /** The tail of reconcile: those of configs that are not active. */
  lemma InactiveAreSwept(m: Core, active: set<Id>, results: map<Conn, StopResult>)
    requires Filed(m)
    ensures Leaves(m, SweepStep(m, SweepInactive(active), results), results, (e: Entry) => e.config.id in active)
  {
    SweepLeaves(m, SweepInactive(active), results, (e: Entry) => e.config.id in active);
  }

  /** StopByBot: exactly the slots of the bot, each to be stopped once, in the order in which the map is iterated. */
  lemma BotIsTakenOut(m: Core, bot: string, env: Env)
    requires Possible(m, StopByBotBegin(bot), env)
    ensures var (m', next) := CallStep(m, StopByBotBegin(bot), env);
      && (forall id :: id in m'.connections <==> id in m.connections && m.connections[id].config.bot != bot)
      && (forall id :: id in m'.connections ==> m'.connections[id] == m.connections[id])
      && (next.None? <==> forall id :: id in m.connections ==> m.connections[id].config.bot != bot)
      && (next.Some? ==>
            && next.value.Stopping? && |next.value.entries| == |env.order|
            && (forall i :: 0 <= i < |env.order| ==> env.order[i] in m.connections && next.value.entries[i] == m.connections[env.order[i]])
            && forall e :: e in m.connections.Values && e.config.bot == bot ==> e in next.value.entries)
  {
    var (m', next) := CallStep(m, StopByBotBegin(bot), env);
    assert m'.connections == m.connections - IdsOfBot(m, bot);
    if next.None? {
      forall id | id in m.connections ensures m.connections[id].config.bot != bot { assert id !in env.order && id !in IdsOfBot(m, bot); }
    } else {
      assert env.order[0] in env.order && env.order[0] in IdsOfBot(m, bot);
      assert forall i :: 0 <= i < |env.order| ==> env.order[i] in env.order;
      forall e | e in m.connections.Values && e.config.bot == bot ensures e in next.value.entries {
        var id :| id in m.connections && m.connections[id] == e;
        assert id in IdsOfBot(m, bot) && id in env.order;
        var i :| 0 <= i < |env.order| && env.order[i] == id;
        assert next.value.entries[i] == e;
      }
    }
  }

  /** Stop and the removal of one config: its slot, if it has one, which is then to be stopped. */
  lemma OneIsTakenOut(m: Core, call: Call, env: Env, id: Id)
    requires call == RemoveBegin(id) || call == StopBegin(id)
    ensures var (m', next) := CallStep(m, call, env);
      && m'.connections == m.connections - {id}
      && next == (if id in m.connections then Some(Stopping([m.connections[id]])) else None)
  {
  }

  /** A receiver is looked up as registered last. */
  lemma ReceiversAre(s: State, ty: string, other: string)
    ensures ty in Step(s, Register(ty)).core.receivers && ty !in Step(s, Unregister(ty)).core.receivers
    ensures other != ty ==> (other in Step(s, Register(ty)).core.receivers <==> other in s.core.receivers)
    ensures other != ty ==> (other in Step(s, Unregister(ty)).core.receivers <==> other in s.core.receivers)
    ensures Step(s, Register(ty)).core.connections == s.core.connections == Step(s, Unregister(ty)).core.connections
  {
  }

  /** The calls that can be made: an ensure of an enabled config with an id, the removal of any config, a stop of a trimmed id
      or of all slots of a trimmed bot id, and the mark that a reconcile adds after a failure. */
  lemma CallsAre(s: State, t: nat, call: Call)
    requires t !in s.calls
    ensures call.EnsureBegin? || call.EnsureMark? ==> (Enabled(s, Invoke(t, call)) <==> call.cfg.id != "" && !call.cfg.disabled)
    ensures call.RemoveBegin? ==> Enabled(s, Invoke(t, call))
    ensures call.StopBegin? ==> (Enabled(s, Invoke(t, call)) <==> Trim(call.id) == call.id != "")
    ensures call.StopByBotBegin? ==> (Enabled(s, Invoke(t, call)) <==> Trim(call.bot) == call.bot != "")
    ensures Enabled(s, Invoke(t, call)) ==> Held(call) == [] && Step(s, Invoke(t, call)).calls == s.calls[t := call]
  {
  }
}
