/** Lost connections. */
module ConnectionLosses {
  import opened ConnectionProtocol
  import opened Wrappers

  // Which connections nobody tracks any more although they are live, in every interleaving: those that a step has let go
  // after a Stop that did not stop them.

  // ----- stops, and what is let go -----

  /** The answers to the Stop calls that a step makes; a sweep makes one for each slot it takes out. */
  function StopsOf(m: Core, call: Call, env: Env): map<Conn, StopResult> {
    match call
    case EnsureStopOld(_, prev) => map[prev.conn := env.stop]
    case EnsureDiscard(_, c) => map[c := env.stop]
    case Stopping(entries) => if entries == [] then map[] else map[entries[0].conn := env.stop]
    case _ => map[]
  }

  /** What a step of a call lets go: a connection whose Stop failed; one that cannot be stopped and has been taken out for
      good, or has lost the race for its slot; and one that cannot be stopped and was to go back into its slot, but found
      that taken. */
  function LetGo(m: Core, call: Call, env: Env): set<Conn> {
    match call
    case EnsureStopOld(_, prev) => if env.stop.StopFailed? then {prev.conn} else {}
    case EnsureReinsert(cfg, prev) => if cfg.id in m.connections then {prev.conn} else {}
    case EnsureDiscard(_, c) => if env.stop.Stopped? then {} else {c}
    case Stopping(entries) => if entries == [] || env.stop.Stopped? then {} else {entries[0].conn}
    case _ => {}
  }

  function SweptStops(m: Core, sweep: Sweep, results: map<Conn, StopResult>): map<Conn, StopResult> {
    map c | c in ConnsAt(m, SweptIds(m, sweep)) :: if c in results then results[c] else StopFailed
  }

  function SweptAway(m: Core, sweep: Sweep, results: map<Conn, StopResult>): set<Conn> {
    ConnsAt(m, SweptIds(m, sweep)) - StoppedAmong(m, SweptIds(m, sweep), results)
  }

  /** The last answer to a Stop of each connection, and the connections let go. */
  datatype Record = Record(last: map<Conn, StopResult>, lost: set<Conn>)

  const NOTHING := Record(map[], {})

  ghost function RecordNext(s: State, a: Action, r: Record): Record
    requires Enabled(s, a)
  {
    match a
    case Advance(t, env) => Record(r.last + StopsOf(s.core, s.calls[t], env), r.lost + LetGo(s.core, s.calls[t], env))
    case Swept(sweep, results) => Record(r.last + SweptStops(s.core, sweep, results), r.lost + SweptAway(s.core, sweep, results))
    case _ => r
  }

  ghost function Recorded(s: State, actions: seq<Action>, r: Record): Record
    requires IsRun(s, actions)
    decreases |actions|
  {
    if actions == [] then r else Recorded(Step(s, actions[0]), actions[1..], RecordNext(s, actions[0], r))
  }

  // ----- the invariant -----

  /** The connections let go are live, tracked by nobody, and their last Stop did not stop them. */
  ghost predicate LostAreLoose(s: State, r: Record) {
    forall c :: c in r.lost ==> Live(s.core, c) && !Tracked(s, c) && c in r.last && !r.last[c].Stopped?
  }

  /** And no other live connection is tracked by nobody. */
  ghost predicate LooseAreLost(s: State, r: Record) {
    forall c :: Live(s.core, c) && c !in r.lost ==> Tracked(s, c)
  }

  /** An entry on its way back into its slot could not be stopped. */
  ghost predicate ReturnsUnsupported(s: State, r: Record) {
    forall t :: t in s.calls && s.calls[t].EnsureReinsert? ==>
      s.calls[t].prev.conn in r.last && r.last[s.calls[t].prev.conn] == StopUnsupported
  }

  ghost predicate Accounted(s: State, r: Record) {
    Inv(s) && LostAreLoose(s, r) && LooseAreLost(s, r) && ReturnsUnsupported(s, r)
  }

  // ----- one call's step -----

  /** An entry leaves the hand of a call because it was stopped or let go, or for its slot. */
  lemma HandGoes(m: Core, call: Call, env: Env, i: nat)
    requires Possible(m, call, env) && CallSound(m, call) && i < |Held(call)|
    ensures var (m', next) := CallStep(m, call, env); var e := Held(call)[i];
      || e.conn in m'.stopped || e.conn in LetGo(m, call, env)
      || ((call.EnsureInstall? || call.EnsureReinsert?) && call.cfg.id in m'.connections && m'.connections[call.cfg.id] == e)
      || (next.Some? && var j := if call.Stopping? then i - 1 else i;
                        0 <= j < |Held(next.value)| && Held(next.value)[j] == e)
  {
  }

  /** What is let go was the first entry held, and is not stopped by the step. */
  lemma LetGoIsHeld(m: Core, call: Call, env: Env, c: Conn)
    requires Possible(m, call, env) && c in LetGo(m, call, env)
    ensures Held(call) != [] && Held(call)[0].conn == c
    ensures !(c in CallStep(m, call, env).0.stopped) || c in m.stopped
    ensures call.EnsureReinsert? || (c in StopsOf(m, call, env) && !StopsOf(m, call, env)[c].Stopped?)
  {
  }

  lemma StopsAreHeld(m: Core, call: Call, env: Env, c: Conn)
    requires Possible(m, call, env) && (c in StopsOf(m, call, env) || c in CallStep(m, call, env).0.stopped - m.stopped)
    ensures Held(call) != [] && Held(call)[0].conn == c
  {
  }

  /** No owner after the step has what was let go. */
  lemma LetGoIsNoOrigin(s: State, t: nat, env: Env, o: Owner, c: Conn)
    requires Enabled(s, Advance(t, env)) && !s.calls[t].EnsureConnect? && c in LetGo(s.core, s.calls[t], env)
    requires IsOwner(Step(s, Advance(t, env)), o)
    ensures Origin(s, t, env, o) != InCall(t, 0)
  {
  }

  /** A connection that is neither let go nor stopped stays tracked. */
  lemma StaysTracked(s: State, t: nat, env: Env, c: Conn)
    requires Inv(s) && Enabled(s, Advance(t, env)) && Tracked(s, c)
    requires c !in LetGo(s.core, s.calls[t], env) && c !in Step(s, Advance(t, env)).core.stopped
    ensures Tracked(Step(s, Advance(t, env)), c)
  {
    var s', call := Step(s, Advance(t, env)), s.calls[t];
    var o :| Owns(s, o, c);
    match o
    case Slot(id) =>
      var i := SlotHeir(s.core, call, env, id);
      assert Owns(s', Slot(id), c) || Owns(s', InCall(t, i), c);
    case InCall(u, i) =>
      if u != t {
        assert Owns(s', o, c);
      } else {
        HandGoes(s.core, call, env, i);
        var j := if call.Stopping? then i - 1 else i;
        if (call.EnsureInstall? || call.EnsureReinsert?) && Owns(s', Slot(call.cfg.id), c) {
        } else {
          assert Owns(s', InCall(t, j), c);
        }
      }
  }

  lemma AdvanceLoosesLost(s: State, t: nat, env: Env, r: Record)
    requires Accounted(s, r) && Enabled(s, Advance(t, env))
    ensures LooseAreLost(Step(s, Advance(t, env)), RecordNext(s, Advance(t, env), r))
  {
    var s' := Step(s, Advance(t, env));
    CallStepCreates(s.core, s.calls[t], env);
    CallStepStops(s.core, s.calls[t], env);
    forall c | Live(s'.core, c) && c !in RecordNext(s, Advance(t, env), r).lost ensures Tracked(s', c) {
      if c in s.core.created {
        StaysTracked(s, t, env, c);
      } else {
        assert Owns(s', InCall(t, 0), c);
      }
    }
  }

  /** Whoever owns a connection after the step owned it before, unless the step has just connected it. */
  lemma OwnedBefore(s: State, t: nat, env: Env, o: Owner) returns (p: Owner)
    requires Inv(s) && Enabled(s, Advance(t, env)) && IsOwner(Step(s, Advance(t, env)), o)
    requires OwnedEntry(Step(s, Advance(t, env)), o).conn in s.core.created
    ensures Owns(s, p, OwnedEntry(Step(s, Advance(t, env)), o).conn)
    ensures !s.calls[t].EnsureConnect? ==> p == Origin(s, t, env, o)
  {
    if s.calls[t].EnsureConnect? {
      p := o;
    } else {
      AdvanceOwner(s, t, env, o);
      p := Origin(s, t, env, o);
    }
  }

  lemma LostStays(s: State, t: nat, env: Env, r: Record, c: Conn)
    requires Accounted(s, r) && Enabled(s, Advance(t, env)) && c in r.lost
    ensures var s' := Step(s, Advance(t, env)); var r' := RecordNext(s, Advance(t, env), r);
      Live(s'.core, c) && !Tracked(s', c) && c in r'.last && !r'.last[c].Stopped?
  {
    var s', call := Step(s, Advance(t, env)), s.calls[t];
    CallStepCreates(s.core, call, env);
    if c in StopsOf(s.core, call, env) || c in s'.core.stopped - s.core.stopped {
      StopsAreHeld(s.core, call, env, c);
      assert Owns(s, InCall(t, 0), c);
    }
    if o :| Owns(s', o, c) { var p := OwnedBefore(s, t, env, o); }
  }

  lemma LetGoIsLoose(s: State, t: nat, env: Env, r: Record, c: Conn)
    requires Accounted(s, r) && Enabled(s, Advance(t, env)) && c in LetGo(s.core, s.calls[t], env)
    ensures var s' := Step(s, Advance(t, env)); var r' := RecordNext(s, Advance(t, env), r);
      Live(s'.core, c) && !Tracked(s', c) && c in r'.last && !r'.last[c].Stopped?
  {
    var s', call := Step(s, Advance(t, env)), s.calls[t];
    LetGoIsHeld(s.core, call, env, c);
    CallStepCreates(s.core, call, env);
    assert Owns(s, InCall(t, 0), c);
    if o :| Owns(s', o, c) {
      var p := OwnedBefore(s, t, env, o);
      LetGoIsNoOrigin(s, t, env, o, c);
    }
  }

  lemma ReturnsStay(s: State, t: nat, env: Env, r: Record)
    requires Accounted(s, r) && Enabled(s, Advance(t, env))
    ensures ReturnsUnsupported(Step(s, Advance(t, env)), RecordNext(s, Advance(t, env), r))
  {
    var s' := Step(s, Advance(t, env));
    forall u | u in s'.calls && s'.calls[u].EnsureReinsert? && u != t
      ensures s.calls[u] == s'.calls[u] && s.calls[u].prev.conn !in StopsOf(s.core, s.calls[t], env)
    {
      var c := s.calls[u].prev.conn;
      assert Owns(s, InCall(u, 0), c);
      if c in StopsOf(s.core, s.calls[t], env) {
        StopsAreHeld(s.core, s.calls[t], env, c);
        assert Owns(s, InCall(t, 0), c);
      }
    }
  }

  lemma AdvanceKeepsAccount(s: State, t: nat, env: Env, r: Record)
    requires Accounted(s, r) && Enabled(s, Advance(t, env))
    ensures Accounted(Step(s, Advance(t, env)), RecordNext(s, Advance(t, env), r))
  {
    AdvanceKeepsInv(s, t, env);
    AdvanceLoosesLost(s, t, env, r);
    ReturnsStay(s, t, env, r);
    forall c | c in RecordNext(s, Advance(t, env), r).lost
      ensures var s' := Step(s, Advance(t, env)); var r' := RecordNext(s, Advance(t, env), r);
        Live(s'.core, c) && !Tracked(s', c) && c in r'.last && !r'.last[c].Stopped?
    {
      if c in r.lost { LostStays(s, t, env, r, c); } else { LetGoIsLoose(s, t, env, r, c); }
    }
  }

  // ----- sweeps -----

  /** What a sweep stops is owned by slots alone. */
  lemma SweptAreInSlots(s: State, sweep: Sweep, o: Owner, c: Conn)
    requires Inv(s) && Owns(s, o, c)
    ensures c in ConnsAt(s.core, SweptIds(s.core, sweep)) <==> o.Slot? && o.id in SweptIds(s.core, sweep)
  {
    forall id | id in SweptIds(s.core, sweep) && o != Slot(id) ensures s.core.connections[id].conn != c {
      assert IsOwner(s, Slot(id));
    }
  }

  lemma UntrackedIsNotSwept(s: State, sweep: Sweep, c: Conn)
    requires !Tracked(s, c)
    ensures c !in ConnsAt(s.core, SweptIds(s.core, sweep))
  {
    forall id | id in SweptIds(s.core, sweep) ensures s.core.connections[id].conn != c { assert !Owns(s, Slot(id), c); }
  }

  /** What it takes out is tracked no more, and nothing else becomes tracked. */
  lemma TrackedAfterSweep(s: State, sweep: Sweep, results: map<Conn, StopResult>, c: Conn)
    requires Inv(s)
    ensures var s' := Step(s, Swept(sweep, results));
      Tracked(s', c) <==> Tracked(s, c) && c !in ConnsAt(s.core, SweptIds(s.core, sweep))
  {
    var s' := Step(s, Swept(sweep, results));
    if o :| Owns(s', o, c) {
      SweepOwner(s, sweep, results, o);
      assert Owns(s, o, c);
    }
    if o :| Owns(s, o, c) {
      SweptAreInSlots(s, sweep, o, c);
      assert o.InCall? || o.id !in SweptIds(s.core, sweep) ==> Owns(s', o, c);
    }
  }

  lemma SweepKeepsLost(s: State, sweep: Sweep, results: map<Conn, StopResult>, r: Record, c: Conn)
    requires Accounted(s, r)
    ensures var s' := Step(s, Swept(sweep, results)); var r' := RecordNext(s, Swept(sweep, results), r);
      && (c in r'.lost ==> Live(s'.core, c) && !Tracked(s', c) && c in r'.last && !r'.last[c].Stopped?)
      && (Live(s'.core, c) && c !in r'.lost ==> Tracked(s', c))
  {
    TrackedAfterSweep(s, sweep, results, c);
    if Tracked(s, c) {
      var o :| Owns(s, o, c);
      assert Live(s.core, c);
    } else {
      UntrackedIsNotSwept(s, sweep, c);
    }
  }

  lemma SweepKeepsAccount(s: State, sweep: Sweep, results: map<Conn, StopResult>, r: Record)
    requires Accounted(s, r)
    ensures Accounted(Step(s, Swept(sweep, results)), RecordNext(s, Swept(sweep, results), r))
  {
    SweepKeepsInv(s, sweep, results);
    var s', r' := Step(s, Swept(sweep, results)), RecordNext(s, Swept(sweep, results), r);
    forall c
      ensures c in r'.lost ==> Live(s'.core, c) && !Tracked(s', c) && c in r'.last && !r'.last[c].Stopped?
      ensures Live(s'.core, c) && c !in r'.lost ==> Tracked(s', c)
    {
      SweepKeepsLost(s, sweep, results, r, c);
    }
    SweepKeepsReturns(s, sweep, results, r);
  }

  lemma SweepKeepsReturns(s: State, sweep: Sweep, results: map<Conn, StopResult>, r: Record)
    requires Accounted(s, r)
    ensures ReturnsUnsupported(Step(s, Swept(sweep, results)), RecordNext(s, Swept(sweep, results), r))
  {
    forall t | t in s.calls && s.calls[t].EnsureReinsert?
      ensures s.calls[t].prev.conn !in ConnsAt(s.core, SweptIds(s.core, sweep))
    {
      SweptAreInSlots(s, sweep, InCall(t, 0), s.calls[t].prev.conn);
    }
  }

  // ----- every run -----

  lemma StepKeepsAccount(s: State, a: Action, r: Record)
    requires Accounted(s, r) && Enabled(s, a)
    ensures Accounted(Step(s, a), RecordNext(s, a, r))
  {
    match a
    case Advance(t, env) => AdvanceKeepsAccount(s, t, env, r);
    case Swept(sweep, results) => SweepKeepsAccount(s, sweep, results, r);
    case _ =>
      StepKeepsInv(s, a);
      OwnersStay(s, a);
  }

  /** A call that begins, and a change of the registry, leave all owners as they are. */
  lemma OwnersStay(s: State, a: Action)
    requires Enabled(s, a) && !a.Advance? && !a.Swept?
    ensures forall c :: Tracked(s, c) <==> Tracked(Step(s, a), c)
  {
    var s' := Step(s, a);
    forall c ensures Tracked(s, c) <==> Tracked(s', c) {
      if o :| Owns(s, o, c) { assert Owns(s', o, c); }
      if o :| Owns(s', o, c) { assert Owns(s, o, c); }
    }
  }

  lemma {:induction false} RunKeepsAccount(s: State, actions: seq<Action>, r: Record)
    requires Accounted(s, r) && IsRun(s, actions)
    ensures Accounted(After(s, actions), Recorded(s, actions, r))
    decreases |actions|
  {
    if actions != [] {
      StepKeepsAccount(s, actions[0], r);
      RunKeepsAccount(Step(s, actions[0]), actions[1..], RecordNext(s, actions[0], r));
    }
  }

  /** In every interleaving, the live connections that nobody tracks are exactly those that have been let go, and the last
      Stop of each of them failed or was not supported. */
  lemma LooseIffLetGo(actions: seq<Action>, c: Conn)
    requires IsRun(INIT, actions)
    ensures var s, r := After(INIT, actions), Recorded(INIT, actions, NOTHING);
      && (Live(s.core, c) && !Tracked(s, c) <==> c in r.lost)
      && (c in r.lost ==> c in r.last && !r.last[c].Stopped?)
  {
    RunKeepsAccount(INIT, actions, NOTHING);
  }
}
