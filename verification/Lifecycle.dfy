/** Lifecycle: persisted channel configs and runtime connections, changed together.
    Calls are serialized; the store and the adapters may fail at any point. */
module Lifecycle {
  import opened Text
  import opened Wrappers
  import opened ConfigStore
  import opened ConnectionProtocol
  import opened ConnectionManager

  type Key = (string, string)  // canonical bot id, channel type

  datatype Row = Row(config: Config, content: Content)

  datatype Op =
    | Upsert(bot: string, channelType: string, req: Request, wantDisabled: Option<bool>)
    | SetStatus(bot: string, channelType: string, disabled: bool)
    | Delete(bot: string, channelType: string)

  /** What happens around one call: which store operations succeed, what DiscoverSelf answers to the first and
      the second write, the id and times the store would assign, and the answers of the adapters to the first
      and second connection change. */
  datatype World = World(lookup: bool, write: bool, undo: bool, found: Discovery, foundAgain: Discovery,
                         id: Id, now: Time, later: Time, first: Env, second: Env, stops: map<Conn, StopResult>)

  datatype Result = Done | Rejected | EnableFailed(rolledBack: bool)

  /** The store's own reading of its inputs: the canonical form of a bot id, which may be an error, and what the
      registry says about channel types. */
  datatype Store = Store(parse: string -> Option<string>, registry: Registry)

  datatype Deployment = Deployment(rows: map<Key, Row>, core: Core)

  /** What Stop and Connect answer is fresh, and so is the id of a new row. */
  ghost predicate Plausible(s: Deployment, w: World) {
    && (w.first.connected.Some? ==> w.first.connected.value !in s.core.created)
    && (w.second.connected.Some? ==> w.second.connected.value !in s.core.created)
    && (w.first.connected.Some? && w.second.connected.Some? ==> w.first.connected.value != w.second.connected.value)
    && w.id != "" && (forall k :: k in s.rows ==> s.rows[k].config.id != w.id)
  }

  function ContentAt(rows: map<Key, Row>, key: Key): Option<Content> {
    if key in rows then Some(rows[key].content) else None
  }

  // ----- the calls -----

  /** EnsureConnection for an enabled config. */
  ghost function Enable(m: Core, cfg: Config, env: Env): (m': Core)
    requires Answers(m, EnsureBegin(cfg), env)
    ensures forall c :: c in m'.created ==> c in m.created || env.connected == Some(c)
  {
    AloneCreates(m, EnsureBegin(cfg), env);
    Alone(m, EnsureBegin(cfg), env)
  }

  function Disconnect(m: Core, bot: string, channelType: string, w: World): Core {
    SweepStep(m, SweepPair(bot, channelType), w.stops)
  }

  function NewRow(s: Deployment, key: Key, content: Content, disabled: bool, w: World): Row {
    var id := if key in s.rows then s.rows[key].config.id else w.id;
    Row(Config(id, key.0, key.1, w.now, disabled), content)
  }

  /** The row an upsert writes first, if its inputs and the store allow it to write any. */
  function FirstWrite(db: Store, s: Deployment, op: Op, w: World): Option<(Key, Row)>
    requires op.Upsert?
  {
    if db.parse(op.bot).None? || !w.lookup || !w.write then None
    else
      var key := (db.parse(op.bot).value, op.channelType);
      var disabled := op.wantDisabled.Some? && op.wantDisabled.value;
      match Stored(db.registry, op.channelType, op.req, disabled, ContentAt(s.rows, key), w.found)
      case None => None
      case Some(content) => Some((key, NewRow(s, key, content, disabled, w)))
  }

  ghost function ApplyUpsert(db: Store, s: Deployment, op: Op, w: World): (Deployment, Result)
    requires op.Upsert? && Plausible(s, w)
  {
    match FirstWrite(db, s, op, w)
    case None => (s, Rejected)
    case Some((key, row)) =>
      var rows := s.rows[key := row];
      if row.config.disabled then
        (Deployment(rows, Disconnect(s.core, op.bot, op.channelType, w)), Done)
      else
        StartOrRollback(db, s, rows, op, key, w)
  }

  /** The enabling half of an upsert, once the row is written. */
  ghost function StartOrRollback(db: Store, before: Deployment, rows: map<Key, Row>, op: Op, key: Key, w: World): (Deployment, Result)
    requires op.Upsert? && Plausible(before, w) && key in rows
  {
    var cfg := rows[key].config;
    var s := Deployment(rows, Enable(before.core, cfg, w.first));
    if EnsureFails(before.core, cfg, w.first) then Rollback(db, before, s, op, key, w) else (s, Done)
  }

  /** rollbackUpsert: before is the state the call found, s the one with the upsert applied.  The restoring write
      goes the way of every write: it compares with the row that is stored now, and asks for the identity again. */
  ghost function Rollback(db: Store, before: Deployment, s: Deployment, op: Op, key: Key, w: World): (Deployment, Result)
    requires op.Upsert? && key in s.rows && (w.second.connected.Some? ==> w.second.connected.value !in s.core.created)
  {
    if !w.undo then
      (s, EnableFailed(false))
    else if key !in before.rows then
      (Deployment(s.rows - {key}, Disconnect(s.core, op.bot, op.channelType, w)), EnableFailed(true))
    else
      match RestoringRow(db, op.channelType, before.rows[key], s.rows[key], w)
      case None => (s, EnableFailed(false))
      case Some(restored) =>
        var rows := s.rows[key := restored];
        if restored.config.disabled then
          (Deployment(rows, Disconnect(s.core, op.bot, op.channelType, w)), EnableFailed(true))
        else
          (Deployment(rows, Enable(s.core, restored.config, w.second)),
           EnableFailed(!EnsureFails(s.core, restored.config, w.second)))
  }

  /** UpdateConfigDisabled: a strict channel type is enabled by a write that asks for the identity. */
  function StatusContent(db: Store, channelType: string, content: Content, disabled: bool, found: Discovery): Option<Content> {
    if disabled || !db.registry.policy(channelType).strict then Some(content)
    else Stored(db.registry, channelType, RequestFor(content), false, Some(content), found)
  }

  /** The row that a status change writes first, if there is one. */
  function StatusWrite(db: Store, s: Deployment, op: Op, w: World): Option<(Key, Row)>
    requires op.SetStatus?
  {
    if db.parse(op.bot).None? || !w.write || (db.parse(op.bot).value, op.channelType) !in s.rows then None
    else
      var key := (db.parse(op.bot).value, op.channelType);
      match StatusContent(db, op.channelType, s.rows[key].content, op.disabled, w.found)
      case None => None
      case Some(content) => Some((key, Row(s.rows[key].config.(disabled := op.disabled, updatedAt := w.now), content)))
  }

  ghost function ApplySetStatus(db: Store, s: Deployment, op: Op, w: World): (Deployment, Result)
    requires op.SetStatus? && Plausible(s, w)
  {
    match StatusWrite(db, s, op, w)
    case None => (s, Rejected)
    case Some((key, row)) =>
      var rows := s.rows[key := row];
      if op.disabled then
        (Deployment(rows, Disconnect(s.core, op.bot, op.channelType, w)), Done)
      else
        var started := Deployment(rows, Enable(s.core, row.config, w.first));
        if EnsureFails(s.core, row.config, w.first) then UndoEnable(started, op, key, w) else (started, Done)
  }

  function UndoEnable(s: Deployment, op: Op, key: Key, w: World): (Deployment, Result)
    requires op.SetStatus? && key in s.rows
  {
    if !w.undo then
      (s, EnableFailed(false))
    else
      var cfg := s.rows[key].config.(disabled := true, updatedAt := w.later);
      (Deployment(s.rows[key := s.rows[key].(config := cfg)], Disconnect(s.core, op.bot, op.channelType, w)),
       EnableFailed(true))
  }

  ghost function ApplyDelete(db: Store, s: Deployment, op: Op, w: World): (Deployment, Result)
    requires op.Delete?
  {
    if db.parse(op.bot).None? || !w.write then (s, Rejected)
    else (Deployment(s.rows - {(db.parse(op.bot).value, op.channelType)}, Disconnect(s.core, op.bot, op.channelType, w)), Done)
  }

  ghost function Apply(db: Store, s: Deployment, op: Op, w: World): (Deployment, Result)
    requires Plausible(s, w)
  {
    match op
    case Upsert(_, _, _, _) => ApplyUpsert(db, s, op, w)
    case SetStatus(_, _, _) => ApplySetStatus(db, s, op, w)
    case Delete(_, _) => ApplyDelete(db, s, op, w)
  }

  // ----- the invariant -----

  function KeyOf(cfg: Config): Key { (cfg.bot, cfg.channelType) }

  /** Rows are filed under their own key and have ids of their own. */
  ghost predicate RowsSound(rows: map<Key, Row>) {
    && (forall k :: k in rows ==> KeyOf(rows[k].config) == k && rows[k].config.id != "")
    && (forall j, k :: j in rows && k in rows && rows[j].config.id == rows[k].config.id ==> j == k)
  }

  /** Every connection belongs to a stored, enabled config, and sits in that config's slot. */
  ghost predicate ConnectionsBacked(s: Deployment) {
    forall id :: id in s.core.connections ==>
      var key := KeyOf(s.core.connections[id].config);
      key in s.rows && !s.rows[key].config.disabled && s.rows[key].config.id == id
  }

  ghost predicate Consistent(s: Deployment) {
    RowsSound(s.rows) && ConnectionsBacked(s)
  }

  /** Calls whose purpose is to turn a channel off. */
  predicate TurnsOff(op: Op) {
    op.Delete? || (op.SetStatus? && op.disabled) || (op.Upsert? && op.wantDisabled == Some(true))
  }

  function OpKey(db: Store, op: Op): Key
    requires db.parse(op.bot).Some?
  {
    (db.parse(op.bot).value, op.channelType)
  }

  /** Some slot holds a connection of this bot and channel type. */
  ghost predicate Connected(m: Core, key: Key) {
    exists id :: id in m.connections && KeyOf(m.connections[id].config) == key
  }

  /** The bot id of the call is spelled as the store spells it, up to surrounding white space. */
  predicate SpelledAsStored(db: Store, op: Op)
    requires db.parse(op.bot).Some?
  {
    !Blank(op.bot) && Trim(op.bot) == db.parse(op.bot).value
  }

  /** The store takes the call up: it reads the bot id and, where it looks for a row or computes one to write, it gets
      there, and the write succeeds. */
  predicate Accepted(db: Store, s: Deployment, op: Op, w: World) {
    match op
    case Upsert(_, _, _, _) => FirstWrite(db, s, op, w).Some?
    case SetStatus(_, _, _) => StatusWrite(db, s, op, w).Some?
    case Delete(bot, _) => db.parse(bot).Some? && w.write
  }

  /** The one way to leave a connection up: the channel is turned off under another spelling of the bot's id. */
  ghost predicate LeavesUp(db: Store, s: Deployment, op: Op, w: World) {
    TurnsOff(op) && Accepted(db, s, op, w) && Connected(s.core, OpKey(db, op)) && !SpelledAsStored(db, op)
  }

  lemma SetRow(s: Deployment, key: Key, row: Row)
    requires RowsSound(s.rows) && KeyOf(row.config) == key && row.config.id != ""
    requires if key in s.rows then row.config.id == s.rows[key].config.id
             else forall k :: k in s.rows ==> s.rows[k].config.id != row.config.id
    ensures RowsSound(s.rows[key := row]) && s.rows[key := row] - {key} == s.rows - {key}
  {
  }

  /** Stopping by bot and type takes out a slot exactly if the bot id, trimmed, is the one of its config. */
  lemma DisconnectIff(m: Core, id: Id, bot: string, channelType: string, w: World)
    requires id in m.connections
    ensures var m' := Disconnect(m, bot, channelType, w); var cfg := m.connections[id].config;
      && (id in m'.connections <==> cfg.channelType != channelType || Blank(bot) || Trim(bot) != cfg.bot)
      && (id in m'.connections ==> m'.connections[id] == m.connections[id])
  {
  }

  /** A channel that is turned off is disconnected exactly if it was not connected, or its bot is spelled as stored. */
  lemma TurnedOffIff(s: Deployment, rows: map<Key, Row>, key: Key, bot: string, w: World)
    requires Consistent(s) && RowsSound(rows) && rows - {key} == s.rows - {key}
    requires key in rows ==> rows[key].config.disabled
    ensures Consistent(Deployment(rows, Disconnect(s.core, bot, key.1, w)))
       <==> !Connected(s.core, key) || (!Blank(bot) && Trim(bot) == key.0)
  {
    var m' := Disconnect(s.core, bot, key.1, w);
    if !Connected(s.core, key) || (!Blank(bot) && Trim(bot) == key.0) {
      forall id | id in m'.connections
        ensures var k := KeyOf(m'.connections[id].config); k in rows && !rows[k].config.disabled && rows[k].config.id == id
      {
        DisconnectIff(s.core, id, bot, key.1, w);
        var k := KeyOf(s.core.connections[id].config);
        assert k in s.rows - {key};
      }
    } else {
      var id :| id in s.core.connections && KeyOf(s.core.connections[id].config) == key;
      DisconnectIff(s.core, id, bot, key.1, w);
    }
  }

  lemma EnableKeeps(s: Deployment, rows: map<Key, Row>, key: Key, env: Env)
    requires RowsSound(rows) && Consistent(s) && key in rows && !rows[key].config.disabled
    requires rows - {key} == s.rows - {key} && (key in s.rows ==> s.rows[key].config.id == rows[key].config.id)
    requires key !in s.rows ==> forall k :: k in s.rows ==> s.rows[k].config.id != rows[key].config.id
    requires Answers(s.core, EnsureBegin(rows[key].config), env)
    ensures Consistent(Deployment(rows, Enable(s.core, rows[key].config, env)))
  {
    var cfg := rows[key].config;
    var m' := Enable(s.core, cfg, env);
    AloneSlots(s.core, EnsureBegin(cfg), env);
    forall id | id in m'.connections
      ensures var k := KeyOf(m'.connections[id].config); k in rows && !rows[k].config.disabled && rows[k].config.id == id
    {
      var k := KeyOf(m'.connections[id].config);
      if id != cfg.id {
        assert id in m'.connections - {cfg.id};
        assert s.core.connections[id] == m'.connections[id];
        assert k in s.rows - {key};
      } else {
        assert k == key;
      }
    }
  }

  /** A config that could not be enabled has no connection. */
  lemma FailedIsDown(m: Core, cfg: Config, env: Env)
    requires Answers(m, EnsureBegin(cfg), env) && EnsureFails(m, cfg, env)
    ensures cfg.id !in Enable(m, cfg, env).connections
  {
    FailureIsDown(m, EnsureBegin(cfg), env);
  }

  /** So once enabling has failed nothing of this bot and channel type is connected, whatever its spelling. */
  lemma NothingLeftToStop(s: Deployment, rows: map<Key, Row>, key: Key, env: Env)
    requires RowsSound(rows) && Consistent(s) && key in rows && !rows[key].config.disabled
    requires rows - {key} == s.rows - {key} && (key in s.rows ==> s.rows[key].config.id == rows[key].config.id)
    requires key !in s.rows ==> forall k :: k in s.rows ==> s.rows[k].config.id != rows[key].config.id
    requires Answers(s.core, EnsureBegin(rows[key].config), env) && EnsureFails(s.core, rows[key].config, env)
    ensures !Connected(Enable(s.core, rows[key].config, env), key)
  {
    EnableKeeps(s, rows, key, env);
    FailedIsDown(s.core, rows[key].config, env);
  }

  lemma RollbackKeeps(db: Store, before: Deployment, s: Deployment, op: Op, key: Key, w: World)
    requires op.Upsert? && (w.second.connected.Some? ==> w.second.connected.value !in s.core.created)
    requires db.parse(op.bot).Some? && key == OpKey(db, op)
    requires Consistent(before) && Consistent(s) && key in s.rows && before.rows - {key} == s.rows - {key}
    requires key in before.rows ==> before.rows[key].config.id == s.rows[key].config.id
    requires !Connected(s.core, key)
    ensures Consistent(Rollback(db, before, s, op, key, w).0)
  {
    var after := Rollback(db, before, s, op, key, w).0;
    if !w.undo || after == s {
    } else if key !in before.rows {
      assert after.rows - {key} == s.rows - {key};
      TurnedOffIff(s, after.rows, key, op.bot, w);
    } else {
      SetRow(s, key, after.rows[key]);
      if before.rows[key].config.disabled {
        TurnedOffIff(s, after.rows, key, op.bot, w);
      } else {
        EnableKeeps(s, after.rows, key, w.second);
      }
    }
  }

  lemma StartOrRollbackKeeps(db: Store, before: Deployment, rows: map<Key, Row>, op: Op, key: Key, w: World)
    requires op.Upsert? && Plausible(before, w) && Consistent(before)
    requires db.parse(op.bot).Some? && key == OpKey(db, op)
    requires RowsSound(rows) && key in rows && !rows[key].config.disabled && rows - {key} == before.rows - {key}
    requires rows[key].config.id == if key in before.rows then before.rows[key].config.id else w.id
    ensures Consistent(StartOrRollback(db, before, rows, op, key, w).0)
  {
    EnableKeeps(before, rows, key, w.first);
    if EnsureFails(before.core, rows[key].config, w.first) {
      NothingLeftToStop(before, rows, key, w.first);
      RollbackKeeps(db, before, Deployment(rows, Enable(before.core, rows[key].config, w.first)), op, key, w);
    }
  }

  lemma UpsertKeeps(db: Store, s: Deployment, op: Op, w: World)
    requires op.Upsert? && Plausible(s, w) && Consistent(s)
    ensures Consistent(ApplyUpsert(db, s, op, w).0) <==> !LeavesUp(db, s, op, w)
  {
    var write := FirstWrite(db, s, op, w);
    if write.Some? {
      var (key, row) := write.value;
      SetRow(s, key, row);
      if row.config.disabled {
        TurnedOffIff(s, s.rows[key := row], key, op.bot, w);
      } else {
        StartOrRollbackKeeps(db, s, s.rows[key := row], op, key, w);
      }
    }
  }

  lemma UndoKeeps(s: Deployment, op: Op, key: Key, w: World)
    requires op.SetStatus? && Consistent(s) && key in s.rows && key.1 == op.channelType && !Connected(s.core, key)
    ensures Consistent(UndoEnable(s, op, key, w).0)
  {
    if w.undo {
      var rows := UndoEnable(s, op, key, w).0.rows;
      SetRow(s, key, rows[key]);
      TurnedOffIff(s, rows, key, op.bot, w);
    }
  }

  lemma SetStatusKeeps(db: Store, s: Deployment, op: Op, w: World)
    requires op.SetStatus? && Plausible(s, w) && Consistent(s)
    ensures Consistent(ApplySetStatus(db, s, op, w).0) <==> !LeavesUp(db, s, op, w)
  {
    var write := StatusWrite(db, s, op, w);
    if write.Some? {
      var (key, row) := write.value;
      var rows := s.rows[key := row];
      SetRow(s, key, row);
      if op.disabled {
        TurnedOffIff(s, rows, key, op.bot, w);
      } else {
        EnableKeeps(s, rows, key, w.first);
        if EnsureFails(s.core, row.config, w.first) {
          NothingLeftToStop(s, rows, key, w.first);
          UndoKeeps(Deployment(rows, Enable(s.core, row.config, w.first)), op, key, w);
        }
      }
    }
  }

  lemma DeleteKeeps(db: Store, s: Deployment, op: Op, w: World)
    requires op.Delete? && Plausible(s, w) && Consistent(s)
    ensures Consistent(ApplyDelete(db, s, op, w).0) <==> !LeavesUp(db, s, op, w)
  {
    if ApplyDelete(db, s, op, w).1 == Done {
      var key := OpKey(db, op);
      assert (s.rows - {key}) - {key} == s.rows - {key};
      TurnedOffIff(s, s.rows - {key}, key, op.bot, w);
    }
  }

  /** Each call, with failures anywhere and under any spelling of the bot id, keeps stored configs and connections
      consistent, except exactly where it turns a connected channel off under a spelling that is not the stored
      one.  A rollback needs no exception: what could not be enabled is not connected. */
  lemma ApplyKeeps(db: Store, s: Deployment, op: Op, w: World)
    requires Plausible(s, w) && Consistent(s)
    ensures Consistent(Apply(db, s, op, w).0) <==> !LeavesUp(db, s, op, w)
  {
    match op {
      case Upsert(_, _, _, _) => UpsertKeeps(db, s, op, w);
      case SetStatus(_, _, _) => SetStatusKeeps(db, s, op, w);
      case Delete(_, _) => DeleteKeeps(db, s, op, w);
    }
  }

  /** A call that turns a channel off succeeds exactly if the store takes it up. */
  lemma TurningOffSucceedsIff(db: Store, s: Deployment, op: Op, w: World)
    requires Plausible(s, w) && TurnsOff(op)
    ensures Apply(db, s, op, w).1 == (if Accepted(db, s, op, w) then Done else Rejected)
  {
  }

  /** So a caller who spells the bot id as the store does, up to white space, never leaves a connection up. */
  lemma SpelledAsStoredKeeps(db: Store, s: Deployment, op: Op, w: World)
    requires Plausible(s, w) && Consistent(s)
    requires TurnsOff(op) && db.parse(op.bot).Some? ==> SpelledAsStored(db, op)
    ensures Consistent(Apply(db, s, op, w).0)
  {
    ApplyKeeps(db, s, op, w);
  }

  // ----- main results -----

  ghost predicate IsHistory(db: Store, s: Deployment, calls: seq<(Op, World)>)
    decreases |calls|
  {
    calls == [] ||
    (Plausible(s, calls[0].1) && !LeavesUp(db, s, calls[0].0, calls[0].1)
     && IsHistory(db, Apply(db, s, calls[0].0, calls[0].1).0, calls[1..]))
  }

  ghost function AfterHistory(db: Store, s: Deployment, calls: seq<(Op, World)>): Deployment
    requires IsHistory(db, s, calls)
    decreases |calls|
  {
    if calls == [] then s else AfterHistory(db, Apply(db, s, calls[0].0, calls[0].1).0, calls[1..])
  }

  lemma {:induction false} HistoryKeeps(db: Store, s: Deployment, calls: seq<(Op, World)>)
    requires IsHistory(db, s, calls) && Consistent(s)
    ensures Consistent(AfterHistory(db, s, calls))
    decreases |calls|
  {
    if calls != [] {
      ApplyKeeps(db, s, calls[0].0, calls[0].1);
      HistoryKeeps(db, Apply(db, s, calls[0].0, calls[0].1).0, calls[1..]);
    }
  }

  /** After any sequence of calls, with failures anywhere, a bot and channel type whose stored config is
      absent or disabled has no connection, in any slot; an enabled one has at most its own slot. */
  lemma OffMeansDisconnected(db: Store, s: Deployment, calls: seq<(Op, World)>, key: Key)
    requires IsHistory(db, s, calls) && Consistent(s)
    ensures var t := AfterHistory(db, s, calls);
      forall id :: id in t.core.connections && KeyOf(t.core.connections[id].config) == key ==>
        key in t.rows && !t.rows[key].config.disabled && t.rows[key].config.id == id
  {
    HistoryKeeps(db, s, calls);
  }

  /** Turning a channel off takes a connection of it down exactly if the bot id is spelled as it is stored. */
  lemma TurningOffDisconnectsIff(db: Store, s: Deployment, op: Op, w: World, id: Id)
    requires Plausible(s, w) && TurnsOff(op) && Accepted(db, s, op, w)
    requires id in s.core.connections && KeyOf(s.core.connections[id].config) == OpKey(db, op)
    ensures id !in Apply(db, s, op, w).0.core.connections <==> SpelledAsStored(db, op)
  {
    DisconnectIff(s.core, id, op.bot, op.channelType, w);
  }

  /** The slot of a config that could not be enabled is empty; any other slot of the bot and channel type goes
      exactly if the bot id is spelled as it is stored. */
  lemma DisconnectAfterFailureIff(db: Store, s: Deployment, op: Op, cfg: Config, w: World, id: Id)
    requires Plausible(s, w) && db.parse(op.bot).Some? && KeyOf(cfg) == OpKey(db, op)
    requires EnsureFails(s.core, cfg, w.first)
    requires id in s.core.connections && KeyOf(s.core.connections[id].config) == OpKey(db, op)
    ensures id !in Disconnect(Enable(s.core, cfg, w.first), op.bot, op.channelType, w).connections
       <==> SpelledAsStored(db, op) || id == cfg.id
  {
    var m := Enable(s.core, cfg, w.first);
    FailedIsDown(s.core, cfg, w.first);
    AloneSlots(s.core, EnsureBegin(cfg), w.first);
    if id != cfg.id {
      assert id in s.core.connections - {cfg.id};
      assert id in m.connections - {cfg.id} && m.connections[id] == s.core.connections[id];
      DisconnectIff(m, id, op.bot, op.channelType, w);
    }
  }

  /** So it is after a rollback that ends with the channel off, and after a status change that is undone. */
  lemma RollingBackDisconnectsIff(db: Store, s: Deployment, op: Op, w: World, id: Id)
    requires Plausible(s, w) && RowsSound(s.rows) && !op.Delete? && Apply(db, s, op, w).1 == EnableFailed(true)
    requires var rows := Apply(db, s, op, w).0.rows; OpKey(db, op) in rows ==> rows[OpKey(db, op)].config.disabled
    requires id in s.core.connections && KeyOf(s.core.connections[id].config) == OpKey(db, op)
    ensures id !in Apply(db, s, op, w).0.core.connections
       <==> SpelledAsStored(db, op) || id == FirstRow(db, s, op, w).config.id
  {
    DisconnectAfterFailureIff(db, s, op, FirstRow(db, s, op, w).config, w, id);
  }

  /** The row that a call which fails to enable has written first. */
  ghost function FirstRow(db: Store, s: Deployment, op: Op, w: World): Row
    requires Plausible(s, w) && !op.Delete? && Apply(db, s, op, w).1.EnableFailed?
  {
    if op.Upsert? then FirstWrite(db, s, op, w).value.1 else StatusWrite(db, s, op, w).value.1
  }

  const LOWER := "a0eebc99-9c0b-4ef8-bb6d-6bb9bd380a11"
  const UPPER := "A0EEBC99-9C0B-4EF8-BB6D-6BB9BD380A11"

  lemma OtherSpellingLeavesUp(db: Store, s: Deployment, bot: string, key: Key, w: World)
    requires db.parse(bot) == Some(key.0) && Trim(bot) != key.0 && Plausible(s, w) && w.write
    requires Consistent(s) && Connected(s.core, key)
    ensures var t := Apply(db, s, Delete(bot, key.1), w).0; key !in t.rows && Connected(t.core, key)
  {
    StaysConnected(s.core, bot, key, w);
  }

  lemma StaysConnected(m: Core, bot: string, key: Key, w: World)
    requires Connected(m, key) && Trim(bot) != key.0
    ensures Connected(Disconnect(m, bot, key.1, w), key)
  {
    var id :| id in m.connections && KeyOf(m.connections[id].config) == key;
    DisconnectIff(m, id, bot, key.1, w);
    assert id in Disconnect(m, bot, key.1, w).connections;
  }

  /** One such spelling: a store that reads upper-case digits deletes the config, and the connection stays up. */
  lemma UpperCaseLeavesUp(db: Store, s: Deployment, channelType: string, w: World)
    requires db.parse(UPPER) == Some(LOWER) && Plausible(s, w) && w.write
    requires Consistent(s) && Connected(s.core, (LOWER, channelType))
    ensures var t := Apply(db, s, Delete(UPPER, channelType), w).0;
      (LOWER, channelType) !in t.rows && Connected(t.core, (LOWER, channelType))
  {
    SpelledDifferently();
    OtherSpellingLeavesUp(db, s, UPPER, (LOWER, channelType), w);
  }

  lemma SpelledDifferently()
    ensures Trim(UPPER) != LOWER
  {
    assert |UPPER| == 36 && UPPER[0] == 'A' && UPPER[35] == '1' && LOWER[0] == 'a';
    TrimFixed(UPPER);
  }

  // ----- what a rollback restores -----

  /** Normalizing is a projection, and every stored content is normal. */
  ghost predicate ContentsNormal(db: Store, rows: map<Key, Row>) {
    Normalizes(db.registry) && forall k :: k in rows ==> Normal(db.registry, k.1, rows[k].content)
  }

  /** Two rows that differ in nothing but the time of their last update. */
  predicate SameBut(a: Row, b: Row) {
    a.content == b.content && a.config == b.config.(updatedAt := a.config.updatedAt)
  }

  /** An upsert that failed to enable, and whose rollback did not fail, touches no other stored config.  A config
      that was absent is absent again.  One that was there has its id, its status, its credentials and the rest
      back, and all of its identity exactly if what is discovered at that moment bears it out. */
  lemma RollbackRestoresIff(db: Store, s: Deployment, op: Op, w: World)
    requires op.Upsert? && Plausible(s, w) && ContentsNormal(db, s.rows)
    requires Apply(db, s, op, w).1 == EnableFailed(true)
    ensures var rows := Apply(db, s, op, w).0.rows; var (key, failed) := FirstWrite(db, s, op, w).value;
      && rows.Keys == s.rows.Keys && rows - {key} == s.rows - {key}
      && (key in s.rows ==> RestoredIff(db, key.1, s.rows[key], failed.content, rows[key], w.foundAgain))
  {
    UpsertRows(db, s, op, w);
    FirstIsNormal(db, s, op, w);
    var (key, failed) := FirstWrite(db, s, op, w).value;
    var after := Apply(db, s, op, w).0.rows;
    RolledBackIff(db, s.rows, key, failed, op, w, after);
  }

  lemma RolledBackIff(db: Store, before: map<Key, Row>, key: Key, failed: Row, op: Op, w: World, after: map<Key, Row>)
    requires key.1 == op.channelType && Normal(db.registry, key.1, failed.content)
    requires key in before ==> Normal(db.registry, key.1, before[key].content)
    requires RolledBack(db, before, before[key := failed], op, key, w, after)
    ensures after.Keys == before.Keys && after - {key} == before - {key}
    ensures key in before ==> RestoredIff(db, key.1, before[key], failed.content, after[key], w.foundAgain)
  {
    if key in before {
      var restored := RestoringRow(db, key.1, before[key], failed, w).value;
      ReplacedTwice(before, key, failed, restored);
      RestoringIff(db, key.1, before[key], failed, w);
    } else {
      AddedAndRemoved(before, key, failed);
    }
  }

  lemma ReplacedTwice(rows: map<Key, Row>, key: Key, first: Row, second: Row)
    requires key in rows
    ensures var after := rows[key := first][key := second]; after.Keys == rows.Keys && after - {key} == rows - {key}
  {
  }

  lemma AddedAndRemoved(rows: map<Key, Row>, key: Key, row: Row)
    requires key !in rows
    ensures rows[key := row] - {key} == rows && rows - {key} == rows
  {
  }

  /** What a rollback does to the stored configs. */
  ghost predicate RolledBack(db: Store, before: map<Key, Row>, rows: map<Key, Row>, op: Op, key: Key, w: World, after: map<Key, Row>)
    requires key in rows
  {
    if key !in before then after == rows - {key}
    else
      var restored := RestoringRow(db, op.channelType, before[key], rows[key], w);
      restored.Some? && after == rows[key := restored.value]
  }

  lemma RollbackRows(db: Store, before: Deployment, s: Deployment, op: Op, key: Key, w: World)
    requires op.Upsert? && key in s.rows && (w.second.connected.Some? ==> w.second.connected.value !in s.core.created)
    ensures var (t, result) := Rollback(db, before, s, op, key, w);
      && (t.rows == s.rows || RolledBack(db, before.rows, s.rows, op, key, w, t.rows))
      && (result == EnableFailed(true) ==> RolledBack(db, before.rows, s.rows, op, key, w, t.rows))
  {
  }

  /** What an upsert does to the stored configs. */
  lemma UpsertRows(db: Store, s: Deployment, op: Op, w: World)
    requires op.Upsert? && Plausible(s, w)
    ensures var (t, result) := ApplyUpsert(db, s, op, w); var write := FirstWrite(db, s, op, w);
      && (write.None? ==> t == s && result == Rejected)
      && (write.Some? ==>
            var (key, row) := write.value; var rows := s.rows[key := row];
            && (t.rows == rows || RolledBack(db, s.rows, rows, op, key, w, t.rows))
            && (result == EnableFailed(true) ==> RolledBack(db, s.rows, rows, op, key, w, t.rows)))
  {
    var write := FirstWrite(db, s, op, w);
    if write.Some? {
      var (key, row) := write.value;
      var rows := s.rows[key := row];
      if !row.config.disabled && EnsureFails(s.core, row.config, w.first) {
        RollbackRows(db, s, Deployment(rows, Enable(s.core, row.config, w.first)), op, key, w);
      }
    }
  }

  /** How a restored row stands to the row before. */
  ghost predicate RestoredIff(db: Store, channelType: string, before: Row, failed: Content, after: Row, found: Discovery) {
    && after.config == before.config.(updatedAt := after.config.updatedAt)
    && after.content.credentials == before.content.credentials && after.content.rest == before.content.rest
    && (SameBut(after, before) <==> Recovers(db.registry, channelType, before.content, failed, found))
  }

  /** The row that a rollback writes over the one that could not be enabled. */
  function RestoringRow(db: Store, channelType: string, before: Row, failed: Row, w: World): Option<Row> {
    match Stored(db.registry, channelType, RequestFor(before.content), before.config.disabled, Some(failed.content), w.foundAgain)
    case None => None
    case Some(content) => Some(Row(before.config.(updatedAt := w.later), content))
  }

  lemma RestoringIff(db: Store, channelType: string, before: Row, failed: Row, w: World)
    requires Normal(db.registry, channelType, before.content) && Normal(db.registry, channelType, failed.content)
    ensures var row := RestoringRow(db, channelType, before, failed, w);
      row.Some? ==> RestoredIff(db, channelType, before, failed.content, row.value, w.foundAgain)
  {
    if RestoringRow(db, channelType, before, failed, w).Some? {
      WritesBackIff(db.registry, channelType, before.content, before.config.disabled, failed.content, w.foundAgain);
    }
  }

  lemma FirstIsNormal(db: Store, s: Deployment, op: Op, w: World)
    requires op.Upsert? && ContentsNormal(db, s.rows) && FirstWrite(db, s, op, w).Some?
    ensures var (key, row) := FirstWrite(db, s, op, w).value; Normal(db.registry, key.1, row.content)
  {
    var disabled := op.wantDisabled.Some? && op.wantDisabled.value;
    StoredIsNormal(db.registry, op.channelType, op.req, disabled, ContentAt(s.rows, OpKey(db, op)), w.found);
  }

  /** Stored contents stay normal, so the previous result keeps applying. */
  lemma ApplyKeepsNormal(db: Store, s: Deployment, op: Op, w: World)
    requires Plausible(s, w) && ContentsNormal(db, s.rows)
    ensures ContentsNormal(db, Apply(db, s, op, w).0.rows)
  {
    match op
    case Upsert(_, _, _, _) => UpsertKeepsNormal(db, s, op, w);
    case SetStatus(_, _, _) => StatusKeepsNormal(db, s, op, w);
    case Delete(_, _) =>
  }

  lemma UpsertKeepsNormal(db: Store, s: Deployment, op: Op, w: World)
    requires op.Upsert? && Plausible(s, w) && ContentsNormal(db, s.rows)
    ensures ContentsNormal(db, ApplyUpsert(db, s, op, w).0.rows)
  {
    UpsertRows(db, s, op, w);
    if FirstWrite(db, s, op, w).None? { return; }
    FirstIsNormal(db, s, op, w);
    var (key, failed) := FirstWrite(db, s, op, w).value;
    var after := ApplyUpsert(db, s, op, w).0.rows;
    if RolledBack(db, s.rows, s.rows[key := failed], op, key, w, after) { RolledBackIsNormal(db, s.rows, key, failed, op, w, after); }
  }

  lemma RolledBackIsNormal(db: Store, before: map<Key, Row>, key: Key, failed: Row, op: Op, w: World, after: map<Key, Row>)
    requires key.1 == op.channelType && ContentsNormal(db, before) && RolledBack(db, before, before[key := failed], op, key, w, after)
    ensures ContentsNormal(db, after)
  {
    if key in before { RestoringIsNormal(db, key.1, before[key], failed, w); }
  }

  lemma RestoringIsNormal(db: Store, channelType: string, before: Row, failed: Row, w: World)
    requires Normalizes(db.registry) && RestoringRow(db, channelType, before, failed, w).Some?
    ensures Normal(db.registry, channelType, RestoringRow(db, channelType, before, failed, w).value.content)
  {
    StoredIsNormal(db.registry, channelType, RequestFor(before.content), before.config.disabled, Some(failed.content), w.foundAgain);
  }

  /** What a status change does to the stored configs: nothing but the status of a row changes after the first write. */
  lemma StatusRows(db: Store, s: Deployment, op: Op, w: World)
    requires op.SetStatus? && Plausible(s, w)
    ensures var rows := ApplySetStatus(db, s, op, w).0.rows; var write := StatusWrite(db, s, op, w);
      && (write.None? ==> rows == s.rows)
      && (write.Some? ==>
            var (key, row) := write.value;
            && rows.Keys == s.rows.Keys + {key} && rows - {key} == s.rows - {key} && rows[key].content == row.content)
  {
  }

  lemma StatusKeepsNormal(db: Store, s: Deployment, op: Op, w: World)
    requires op.SetStatus? && Plausible(s, w) && ContentsNormal(db, s.rows)
    ensures ContentsNormal(db, ApplySetStatus(db, s, op, w).0.rows)
  {
    StatusRows(db, s, op, w);
    if StatusWrite(db, s, op, w).Some? {
      StatusIsNormal(db, s, op, w);
      var rows, key := ApplySetStatus(db, s, op, w).0.rows, OpKey(db, op);
      forall k | k in rows ensures Normal(db.registry, k.1, rows[k].content) {
        assert k != key ==> k in rows - {key} && rows[k] == (s.rows - {key})[k];
      }
    }
  }

  lemma StatusIsNormal(db: Store, s: Deployment, op: Op, w: World)
    requires op.SetStatus? && ContentsNormal(db, s.rows) && StatusWrite(db, s, op, w).Some?
    ensures var (key, row) := StatusWrite(db, s, op, w).value; Normal(db.registry, key.1, row.content)
  {
    var content := s.rows[OpKey(db, op)].content;
    if !op.disabled && db.registry.policy(op.channelType).strict {
      StoredIsNormal(db.registry, op.channelType, RequestFor(content), false, Some(content), w.found);
    }
  }

  /** An ordinary row without an identity gets one from its own rollback. */
  lemma RollbackAdoptsIdentity(db: Store, s: Deployment, op: Op, w: World)
    requires op.Upsert? && Plausible(s, w) && ContentsNormal(db, s.rows)
    requires Apply(db, s, op, w).1 == EnableFailed(true) && OpKey(db, op) in s.rows
    requires !db.registry.policy(op.channelType).strict
    requires s.rows[OpKey(db, op)].content.self == map[] && w.foundAgain == Discovered(Some(map["username" := "bot"]), "42")
    ensures var rows := Apply(db, s, op, w).0.rows;
      OpKey(db, op) in rows && rows[OpKey(db, op)].content.self == map["username" := "bot"]
  {
    UpsertRows(db, s, op, w);
    var (key, failed) := FirstWrite(db, s, op, w).value;
    Adopts(db, op.channelType, s.rows[key], failed, w);
  }

  lemma Adopts(db: Store, channelType: string, before: Row, failed: Row, w: World)
    requires !db.registry.policy(channelType).strict && RestoringRow(db, channelType, before, failed, w).Some?
    requires before.content.self == map[] && w.foundAgain == Discovered(Some(map["username" := "bot"]), "42")
    ensures RestoringRow(db, channelType, before, failed, w).value.content.self == map["username" := "bot"]
  {
    assert map["username" := "bot"] + map[] == map["username" := "bot"];
  }

  /** A strict row that is disabled loses its identity in a rollback of changed credentials, if discovery fails. */
  lemma RollbackLosesIdentity(db: Store, s: Deployment, op: Op, w: World)
    requires op.Upsert? && Plausible(s, w) && ContentsNormal(db, s.rows)
    requires Apply(db, s, op, w).1 == EnableFailed(true) && OpKey(db, op) in s.rows
    requires db.registry.policy(op.channelType).strict && db.registry.policy(op.channelType).refresh && w.foundAgain.DiscoveryFailed?
    requires db.registry.normalize(op.channelType, op.req.credentials) != Some(s.rows[OpKey(db, op)].content.credentials)
    ensures var rows := Apply(db, s, op, w).0.rows;
      && OpKey(db, op) in rows
      && rows[OpKey(db, op)].content.self == map[] && rows[OpKey(db, op)].content.external == ""
  {
    UpsertRows(db, s, op, w);
    var (key, failed) := FirstWrite(db, s, op, w).value;
    FirstHasCredentials(db, s, op, w);
    Loses(db, op.channelType, s.rows[key], failed, w);
  }

  lemma FirstHasCredentials(db: Store, s: Deployment, op: Op, w: World)
    requires op.Upsert? && FirstWrite(db, s, op, w).Some?
    ensures var (key, failed) := FirstWrite(db, s, op, w).value;
      key == OpKey(db, op) && db.registry.normalize(op.channelType, op.req.credentials) == Some(failed.content.credentials)
  {
  }

  lemma Loses(db: Store, channelType: string, before: Row, failed: Row, w: World)
    requires db.registry.policy(channelType).strict && db.registry.policy(channelType).refresh && w.foundAgain.DiscoveryFailed?
    requires Normal(db.registry, channelType, before.content) && failed.content.credentials != before.content.credentials
    requires RestoringRow(db, channelType, before, failed, w).Some?
    ensures var content := RestoringRow(db, channelType, before, failed, w).value.content;
      content.self == map[] && content.external == ""
  {
  }

  // ----- the methods -----

  class Coordinator {
    const db: Store
    const manager: Manager
    var rows: map<Key, Row>

    constructor (db: Store, manager: Manager)
      ensures this.db == db && this.manager == manager && rows == map[]
    {
      this.db, this.manager, this.rows := db, manager, map[];
    }

    ghost function View(): Deployment
      reads this, manager
    {
      Deployment(rows, manager.View())
    }

    method UpsertBotChannelConfig(bot: string, channelType: string, req: Request, wantDisabled: Option<bool>, w: World)
      returns (result: Result)
      requires Plausible(View(), w) && RowsSound(rows)
      modifies this, manager
      ensures (View(), result) == Apply(db, old(View()), Upsert(bot, channelType, req, wantDisabled), w)
    {
      ghost var before := View();
      var disabled := if wantDisabled.Some? then wantDisabled.value else false;
      var parsed := db.parse(bot);
      if parsed.None? || !w.lookup { return Rejected; }  // getPreviousConfig
      var key := (parsed.value, channelType);
      var hadPrevious := key in rows;
      var previous := if hadPrevious then Some(rows[key]) else None;
      if !w.write { return Rejected; }
      var content := UpsertConfig(db.registry, channelType, req, disabled, ContentAt(rows, key), w.found);
      if content.None? { return Rejected; }
      var row := Row(Config(if hadPrevious then previous.value.config.id else w.id, key.0, channelType, w.now, disabled),
                     content.value);
      rows := rows[key := row];
      if disabled {
        manager.RemoveConnection(bot, channelType, w.stops);
        return Done;
      }
      AloneCreates(before.core, EnsureBegin(row.config), w.first);
      var failed := manager.EnsureConnection(row.config, w.first);
      if !failed { return Done; }
      var rolledBack := RollbackUpsert(before, Upsert(bot, channelType, req, wantDisabled), key, previous, w);
      return EnableFailed(rolledBack);
    }

    method RollbackUpsert(ghost before: Deployment, op: Op, key: Key, previous: Option<Row>, w: World)
      returns (rolledBack: bool)
      requires op.Upsert? && (w.second.connected.Some? ==> w.second.connected.value !in manager.created)
      requires previous == if key in before.rows then Some(before.rows[key]) else None
      requires previous.Some? ==> previous.value.config.id != ""
      requires key.1 == op.channelType && key in rows
      modifies this, manager
      ensures (View(), EnableFailed(rolledBack)) == Rollback(db, before, old(View()), op, key, w)
    {
      if !w.undo { return false; }
      if previous.None? {
        rows := rows - {key};
        manager.RemoveConnection(op.bot, op.channelType, w.stops);
        return true;
      }
      var content := UpsertConfig(db.registry, key.1, RequestFor(previous.value.content), previous.value.config.disabled,
                                  ContentAt(rows, key), w.foundAgain);
      if content.None? { return false; }
      var restored := Row(previous.value.config.(updatedAt := w.later), content.value);
      rows := rows[key := restored];
      if restored.config.disabled {
        manager.RemoveConnection(op.bot, op.channelType, w.stops);
        return true;
      }
      var failed := manager.EnsureConnection(restored.config, w.second);
      return !failed;
    }

    /** UpdateConfigDisabled: the row that is written, or an error. */
    method UpdateConfigDisabled(bot: string, channelType: string, disabled: bool, w: World) returns (write: Option<(Key, Row)>)
      ensures write == StatusWrite(db, View(), SetStatus(bot, channelType, disabled), w)
    {
      var parsed := db.parse(bot);
      if parsed.None? || !w.write || (parsed.value, channelType) !in rows { return None; }
      var key := (parsed.value, channelType);
      var content := Some(rows[key].content);
      if !disabled && db.registry.policy(channelType).strict {
        content := UpsertConfig(db.registry, channelType, RequestFor(rows[key].content), false, Some(rows[key].content), w.found);
        if content.None? { return None; }
      }
      return Some((key, Row(rows[key].config.(disabled := disabled, updatedAt := w.now), content.value)));
    }

    method SetBotChannelStatus(bot: string, channelType: string, disabled: bool, w: World) returns (result: Result)
      requires Plausible(View(), w) && RowsSound(rows)
      modifies this, manager
      ensures (View(), result) == Apply(db, old(View()), SetStatus(bot, channelType, disabled), w)
    {
      var write := UpdateConfigDisabled(bot, channelType, disabled, w);
      if write.None? { return Rejected; }
      var (key, row) := write.value;
      rows := rows[key := row];
      if disabled {
        manager.RemoveConnection(bot, channelType, w.stops);
        return Done;
      }
      var failed := manager.EnsureConnection(row.config, w.first);
      if !failed { return Done; }
      var rolledBack := UndoStatus(SetStatus(bot, channelType, disabled), key, w);
      return EnableFailed(rolledBack);
    }

    method UndoStatus(op: Op, key: Key, w: World) returns (rolledBack: bool)
      requires op.SetStatus? && key in rows
      modifies this, manager
      ensures (View(), EnableFailed(rolledBack)) == UndoEnable(old(View()), op, key, w)
    {
      if !w.undo { return false; }
      rows := rows[key := rows[key].(config := rows[key].config.(disabled := true, updatedAt := w.later))];
      manager.RemoveConnection(op.bot, op.channelType, w.stops);
      return true;
    }

    method DeleteBotChannelConfig(bot: string, channelType: string, w: World) returns (result: Result)
      requires Plausible(View(), w)
      modifies this, manager
      ensures (View(), result) == Apply(db, old(View()), Delete(bot, channelType), w)
    {
      var parsed := db.parse(bot);
      if parsed.None? || !w.write { return Rejected; }
      rows := rows - {(parsed.value, channelType)};
      manager.RemoveConnection(bot, channelType, w.stops);
      return Done;
    }
  }
}
