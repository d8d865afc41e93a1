/** What turning a channel on achieves. */
module EnabledChannels {
  import opened Text
  import opened Wrappers
  import opened ConfigStore
  import opened ConnectionProtocol
  import opened ConnectionManager
  import opened ConnectionStatus
  import opened Lifecycle

  // The row that an enabling call leaves in the store, and the connection it leaves behind: after a success, and after a
  // failure that was rolled back.

  predicate TurnsOn(op: Op) { !op.Delete? && !TurnsOff(op) }

  /** The row that an enabling call writes first: under its old id or a new one, not disabled, with the time of the write. */
  ghost predicate WrittenOn(db: Store, s: Deployment, op: Op, w: World, row: Row)
    requires db.parse(op.bot).Some?
  {
    var key := OpKey(db, op);
    && KeyOf(row.config) == key && !row.config.disabled && row.config.updatedAt == w.now
    && row.config.id == (if key in s.rows then s.rows[key].config.id else w.id)
    && ContentWritten(db, s.rows, op, key, row.content)
  }

  /** An upsert stores what it asks for, the credentials in their normal form.  A status change keeps what is stored; for a
      strict channel type the credentials are normalized again, and the identity is asked for again. */
  ghost predicate ContentWritten(db: Store, rows: map<Key, Row>, op: Op, key: Key, content: Content) {
    match op
    case Upsert(_, ty, req, _) => db.registry.normalize(ty, req.credentials) == Some(content.credentials) && content.rest == req.rest
    case SetStatus(_, ty, _) =>
      && key in rows && content.rest == rows[key].content.rest
      && (if db.registry.policy(ty).strict then db.registry.normalize(ty, rows[key].content.credentials) == Some(content.credentials)
          else content == rows[key].content)
    case Delete(_, _) => false
  }

  function FirstOf(db: Store, s: Deployment, op: Op, w: World): Option<(Key, Row)>
    requires !op.Delete?
  {
    if op.Upsert? then FirstWrite(db, s, op, w) else StatusWrite(db, s, op, w)
  }

  lemma FirstIsWrittenOn(db: Store, s: Deployment, op: Op, w: World)
    requires RowsSound(s.rows) && TurnsOn(op) && FirstOf(db, s, op, w).Some?
    ensures db.parse(op.bot).Some? && FirstOf(db, s, op, w).value.0 == OpKey(db, op)
    ensures WrittenOn(db, s, op, w, FirstOf(db, s, op, w).value.1)
  {
  }

  /** The call ends in success exactly if its first write succeeds and the connection is ensured without an error. */
  lemma DoneIff(db: Store, s: Deployment, op: Op, w: World)
    requires Plausible(s, w) && TurnsOn(op)
    ensures var first := FirstOf(db, s, op, w); var (t, result) := Apply(db, s, op, w);
      && (result == Rejected <==> first.None?)
      && (result == Done <==> first.Some? && !EnsureFails(s.core, first.value.1.config, w.first))
      && (result == Rejected ==> t == s)
      && (result == Done ==> t.rows == s.rows[first.value.0 := first.value.1]
                             && t.core == Alone(s.core, EnsureBegin(first.value.1.config), w.first))
  {
  }

  /** The store takes an upsert up if it can read the bot id and look for the row, the write succeeds, and the content is not
      refused, in view of the row that is there; that content is written. */
  lemma UpsertTakenUpIff(db: Store, s: Deployment, op: Op, w: World)
    requires op.Upsert?
    ensures FirstWrite(db, s, op, w).Some? <==>
      && db.parse(op.bot).Some? && w.lookup && w.write
      && Stored(db.registry, op.channelType, op.req, op.wantDisabled == Some(true),
                if OpKey(db, op) in s.rows then Some(s.rows[OpKey(db, op)].content) else None, w.found).Some?
    ensures FirstWrite(db, s, op, w).Some? ==>
      Some(FirstWrite(db, s, op, w).value.1.content)
      == Stored(db.registry, op.channelType, op.req, op.wantDisabled == Some(true),
                if OpKey(db, op) in s.rows then Some(s.rows[OpKey(db, op)].content) else None, w.found)
  {
  }

  /** A status change is taken up for a row that is there; enabling a strict channel type is a write like any other. */
  lemma StatusTakenUpIff(db: Store, s: Deployment, op: Op, w: World)
    requires op.SetStatus?
    ensures StatusWrite(db, s, op, w).Some? <==>
      && db.parse(op.bot).Some? && w.write && OpKey(db, op) in s.rows
      && (!op.disabled && db.registry.policy(op.channelType).strict ==>
            var content := s.rows[OpKey(db, op)].content;
            Stored(db.registry, op.channelType, RequestFor(content), false, Some(content), w.found).Some?)
    ensures StatusWrite(db, s, op, w).Some? ==>
      var (key, row) := StatusWrite(db, s, op, w).value;
      && key == OpKey(db, op) && row.config == s.rows[key].config.(disabled := op.disabled, updatedAt := w.now)
      && (op.disabled || !db.registry.policy(op.channelType).strict ==> row.content == s.rows[key].content)
      && (!op.disabled && db.registry.policy(op.channelType).strict ==>
            Some(row.content) == Stored(db.registry, op.channelType, RequestFor(s.rows[key].content), false, Some(s.rows[key].content), w.found))
  {
  }

  /** A success leaves the row just written in the store, and its config with the slot and the status that an ensure of it
      ends with. */
  lemma EnabledRow(db: Store, s: Deployment, op: Op, w: World)
    requires Plausible(s, w) && RowsSound(s.rows) && Filed(s.core) && TurnsOn(op) && Apply(db, s, op, w).1 == Done
    ensures db.parse(op.bot).Some?
    ensures var t := Apply(db, s, op, w).0; var key := OpKey(db, op);
      && key in t.rows && WrittenOn(db, s, op, w, t.rows[key]) && t.rows - {key} == s.rows - {key}
      && EndsAs(t.core, t.rows[key].config.id, Expected(s.core, t.rows[key].config, w.first))
  {
    DoneIff(db, s, op, w);
    FirstIsWrittenOn(db, s, op, w);
    var row := FirstOf(db, s, op, w).value.1;
    AloneEndsAs(s.core, row.config, w.first);
  }

  /** If the adapter stops and connects, the type has a receiver, and the slot is not newer than the write, an enabling call
      that the store takes up succeeds: the slot holds the config as it is stored now, with the connection just made, which
      is reported as running; and a connection that was there has been stopped. */
  lemma EnablingConnects(db: Store, s: Deployment, op: Op, w: World)
    requires Plausible(s, w) && RowsSound(s.rows) && Filed(s.core) && TurnsOn(op) && FirstOf(db, s, op, w).Some?
    requires Succeeds(w.first) && op.channelType in s.core.receivers
    requires forall id :: id in s.core.connections ==> s.core.connections[id].config.updatedAt < w.now
    ensures Apply(db, s, op, w).1 == Done && db.parse(op.bot).Some? && OpKey(db, op) in Apply(db, s, op, w).0.rows
    ensures var t := Apply(db, s, op, w).0; var row := t.rows[OpKey(db, op)];
      && WrittenOn(db, s, op, w, row)
      && row.config.id in t.core.connections && t.core.connections[row.config.id] == Entry(row.config, w.first.connected.value)
      && (!Blank(row.config.id) ==> row.config.id in t.core.meta && t.core.meta[row.config.id] == Up(row.config, true))
      && (row.config.id in s.core.connections ==> s.core.connections[row.config.id].conn in t.core.stopped)
  {
    DoneIff(db, s, op, w);
    FirstIsWrittenOn(db, s, op, w);
    EnabledRow(db, s, op, w);
    SuccessIsReported(s.core, FirstOf(db, s, op, w).value.1.config, w.first);
  }

  // ----- after a failure -----

  /** After an enabling call that failed to connect the slot of the config is empty, and the config is reported as failed. */
  lemma FailedEndsAs(m: Core, cfg: Config, env: Env)
    requires Answers(m, EnsureBegin(cfg), env) && Filed(m) && EnsureFails(m, cfg, env)
    ensures EndsAs(Enable(m, cfg, env), cfg.id, Outcome(None, Down(cfg)))
    ensures Filed(Enable(m, cfg, env)) && Enable(m, cfg, env).receivers == m.receivers
  {
    AloneEndsAs(m, cfg, env);
    AloneSlots(m, EnsureBegin(cfg), env);
    var m' := Enable(m, cfg, env);
    forall id | id in m'.connections ensures m'.connections[id].config.id == id {
      assert id in m'.connections - {cfg.id} && m'.connections[id] == (m'.connections - {cfg.id})[id];
    }
  }

  /** A call that could not connect says so, and whether it was rolled back: a status change if the store allows, and an upsert
      if the store takes the old content back, and the old connection, if there was to be one, is there again. */
  lemma RolledBackIffSo(db: Store, s: Deployment, op: Op, w: World)
    requires Plausible(s, w) && RowsSound(s.rows) && Filed(s.core) && TurnsOn(op) && FirstOf(db, s, op, w).Some?
    requires EnsureFails(s.core, FirstOf(db, s, op, w).value.1.config, w.first)
    ensures Apply(db, s, op, w).1.EnableFailed? && db.parse(op.bot).Some?
    ensures var key := OpKey(db, op);
      Apply(db, s, op, w).1.rolledBack <==>
        && w.undo
        && (op.Upsert? && key in s.rows ==>
              && Stored(db.registry, op.channelType, RequestFor(s.rows[key].content), s.rows[key].config.disabled,
                        Some(FirstOf(db, s, op, w).value.1.content), w.foundAgain).Some?
              && (s.rows[key].config.disabled || w.second.connected.Some?))
  {
    FirstIsWrittenOn(db, s, op, w);
    var (key, row) := FirstOf(db, s, op, w).value;
    FailedEndsAs(s.core, row.config, w.first);
  }

  /** A rollback of an upsert that finds the old config enabled has connected it again, under its old id. */
  lemma RollbackReconnects(db: Store, s: Deployment, op: Op, w: World)
    requires op.Upsert? && Plausible(s, w) && RowsSound(s.rows) && Filed(s.core) && Apply(db, s, op, w).1 == EnableFailed(true)
    requires OpKey(db, op) in s.rows && !s.rows[OpKey(db, op)].config.disabled
    ensures var (t, key) := (Apply(db, s, op, w).0, OpKey(db, op));
      && key in t.rows && t.rows[key].config == s.rows[key].config.(updatedAt := w.later)
      && w.second.connected.Some?
      && EndsAs(t.core, t.rows[key].config.id, Outcome(Some(Entry(t.rows[key].config, w.second.connected.value)), Up(t.rows[key].config, true)))
  {
    var row := FirstOf(db, s, op, w).value.1;
    var key := OpKey(db, op);
    var started := Deployment(s.rows[key := row], Enable(s.core, row.config, w.first));
    FailedEndsAs(s.core, row.config, w.first);
    var restored := RestoringRow(db, op.channelType, s.rows[key], row, w).value;
    assert Apply(db, s, op, w).0 == Deployment(started.rows[key := restored], Enable(started.core, restored.config, w.second));
    AloneEndsAs(started.core, restored.config, w.second);
  }

  /** A status change that is undone leaves the channel off: the row it wrote, disabled again, and no slot for it. */
  lemma UndoneIsOff(db: Store, s: Deployment, op: Op, w: World)
    requires op.SetStatus? && !op.disabled && Plausible(s, w) && RowsSound(s.rows) && Filed(s.core)
    requires Apply(db, s, op, w).1 == EnableFailed(true)
    ensures db.parse(op.bot).Some?
    ensures var (t, key) := (Apply(db, s, op, w).0, OpKey(db, op));
      && key in t.rows && key in s.rows && t.rows - {key} == s.rows - {key}
      && t.rows[key].config == s.rows[key].config.(disabled := true, updatedAt := w.later)
      && ContentWritten(db, s.rows, op, key, t.rows[key].content)
      && t.rows[key].config.id !in t.core.connections
  {
    FirstIsWrittenOn(db, s, op, w);
    var (key, row) := FirstOf(db, s, op, w).value;
    FailedEndsAs(s.core, row.config, w.first);
  }

  /** If a failure is not rolled back, the row stays as it was written, and its slot empty. */
  lemma NotRolledBack(db: Store, s: Deployment, op: Op, w: World)
    requires TurnsOn(op) && Plausible(s, w) && RowsSound(s.rows) && Filed(s.core) && !w.undo && Apply(db, s, op, w).1.EnableFailed?
    ensures Apply(db, s, op, w).1 == EnableFailed(false) && db.parse(op.bot).Some?
    ensures var (t, key) := (Apply(db, s, op, w).0, OpKey(db, op));
      && key in t.rows && WrittenOn(db, s, op, w, t.rows[key]) && t.rows - {key} == s.rows - {key}
      && EndsAs(t.core, t.rows[key].config.id, Outcome(None, Down(t.rows[key].config)))
  {
    FirstIsWrittenOn(db, s, op, w);
    var row := FirstOf(db, s, op, w).value.1;
    FailedEndsAs(s.core, row.config, w.first);
  }
}
