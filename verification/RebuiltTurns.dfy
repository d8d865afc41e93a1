/** The rebuild of conversation turns against the database, which has one message per turn and number. */
module RebuiltTurns {
  import opened HistoryTurns
  import opened Wrappers

  // rebuildRestoredHistoryTurns makes the calls of HistoryTurns.Rebuild one by one and stops at the first that fails.  A
  // call fails when the database does, and when the unique index over turn and number is against it.  Binding a reply also
  // fails, by its own query, when an assistant's message has number 2 already; the index is against it then as well.

  // ----- the turn columns -----

  /** Where a message is: its turn, named by its session and its position there, and its number. */
  datatype Place = Place(session: Id, position: nat, number: nat)

  /** The message that a call puts somewhere, and where. */
  function Target(places: map<Id, Place>, op: Op): Option<(Id, Place)> {
    match op
    case CreateTurn(session, position, request, assistant) =>
      if request.Some? then Some((request.value, Place(session, position, 1)))
      else if assistant.Some? then Some((assistant.value, Place(session, position, 2)))
      else None
    case BindAssistant(session, asked, reply) =>
      if asked in places && places[asked].session == session then Some((reply, Place(session, places[asked].position, 2))) else None
    case Link(session, position, message, number) =>
      if exists m :: m in places && InTurn(places[m], session, position) then Some((message, Place(session, position, number))) else None
  }

  predicate InTurn(at: Place, session: Id, position: nat) { at.session == session && at.position == position }

  /** No other message is there. */
  predicate Free(places: map<Id, Place>, m: Id, at: Place) {
    forall o :: o in places && o != m ==> places[o] != at
  }

  predicate Accepts(places: map<Id, Place>, op: Op) {
    Target(places, op).Some? && Free(places, Target(places, op).value.0, Target(places, op).value.1)
  }

  function Put(places: map<Id, Place>, op: Op): map<Id, Place> {
    match Target(places, op) case None => places case Some((m, at)) => places[m := at]
  }

  /** What the database says to a call, and what the call does. */
  datatype Index = Index(accepts: (map<Id, Place>, Op) -> bool, put: (map<Id, Place>, Op) -> map<Id, Place>)

  function TurnIndex(): Index { Index(Accepts, Put) }

  function PlacesAfter(index: Index, places: map<Id, Place>, ops: seq<Op>): map<Id, Place> {
    if ops == [] then places else index.put(PlacesAfter(index, places, ops[..|ops| - 1]), ops[|ops| - 1])
  }

  predicate AllAccepted(index: Index, places: map<Id, Place>, ops: seq<Op>) {
    ops == [] || (&& AllAccepted(index, places, ops[..|ops| - 1])
                  && index.accepts(PlacesAfter(index, places, ops[..|ops| - 1]), ops[|ops| - 1]))
  }

  lemma {:induction false} AcceptedConcat(index: Index, places: map<Id, Place>, a: seq<Op>, b: seq<Op>)
    ensures PlacesAfter(index, places, a + b) == PlacesAfter(index, PlacesAfter(index, places, a), b)
    ensures AllAccepted(index, places, a + b) <==>
      AllAccepted(index, places, a) && AllAccepted(index, PlacesAfter(index, places, a), b)
  {
    if b == [] {
      assert a + b == a;
    } else {
      assert (a + b)[..|a + b| - 1] == a + b[..|b| - 1];
      AcceptedConcat(index, places, a, b[..|b| - 1]);
    }
  }

  lemma AcceptedOne(index: Index, places: map<Id, Place>, op: Op)
    ensures PlacesAfter(index, places, [op]) == index.put(places, op)
    ensures AllAccepted(index, places, [op]) <==> index.accepts(places, op)
  {
    assert [op][..0] == [];
  }

  // ----- how far the calls get -----

  /** The calls made of a list: all of them, or those before the first that the budget or the index forbids. */
  ghost predicate Went(index: Index, places: map<Id, Place>, budget: nat, ops: seq<Op>, made: seq<Op>, ok: bool) {
    && made <= ops && |made| <= budget && AllAccepted(index, places, made)
    && (if ok then made == ops
        else |made| < |ops| && (|made| == budget || !index.accepts(PlacesAfter(index, places, made), ops[|made|])))
  }

  lemma WentOn(index: Index, places: map<Id, Place>, budget: nat, a: seq<Op>, b: seq<Op>, made: seq<Op>, ok: bool)
    requires |a| <= budget && AllAccepted(index, places, a) && Went(index, PlacesAfter(index, places, a), budget - |a|, b, made, ok)
    ensures Went(index, places, budget, a + b, a + made, ok)
  {
    AcceptedConcat(index, places, a, made);
    assert a + b[..|made|] == (a + b)[..|a + made|];
  }

  lemma WentNoFurther(index: Index, places: map<Id, Place>, budget: nat, some: seq<Op>, all: seq<Op>, made: seq<Op>)
    requires Went(index, places, budget, some, made, false) && some <= all
    ensures Went(index, places, budget, all, made, false)
  {
  }

  /** Without failures of the database, all calls are made exactly if the index accepts them. */
  lemma WentAll(index: Index, places: map<Id, Place>, budget: nat, ops: seq<Op>, made: seq<Op>, ok: bool)
    requires Went(index, places, budget, ops, made, ok) && budget >= |ops|
    ensures ok <==> AllAccepted(index, places, ops)
  {
    if !ok {
      var n := |made|;
      AcceptedConcat(index, places, ops[..n + 1], ops[n + 1..]);
      assert ops == ops[..n + 1] + ops[n + 1..] && ops[..n + 1][..n] == made;
    }
  }

  // ----- the methods -----

  /** The database, as the rebuild sees it: a position counter per session, the turn columns of the messages, and
      calls that can succeed budget times before one fails. */
  class HistoryDb {
    const index: Index
    var next: map<Id, nat>
    var places: map<Id, Place>
    var budget: nat
    var log: seq<Op>

    constructor (next: map<Id, nat>, places: map<Id, Place>, budget: nat)
      ensures index == TurnIndex() && this.next == next && this.places == places && this.budget == budget && log == []
    {
      index := TurnIndex();
      this.next, this.places, this.budget, this.log := next, places, budget, [];
    }

    /** Calls were made, one after the other. */
    twostate predicate Made(ops: seq<Op>)
      reads this
    {
      places == PlacesAfter(index, old(places), ops) && budget + |ops| == old(budget) && log == old(log) + ops
    }

    /** CreateHistoryTurn takes the session's next position and advances it. */
    method CreateHistoryTurn(session: Id, request: Option<Id>, assistant: Option<Id>) returns (position: Option<nat>)
      modifies this
      ensures var op := CreateTurn(session, NextPosition(old(next), session), request, assistant);
        && position == (if old(budget) > 0 && index.accepts(old(places), op) then Some(op.position) else None)
        && (position.None? ==> unchanged(this))
        && (position.Some? ==> Made([op]) && next == old(next)[session := op.position + 1])
    {
      var p := NextPosition(next, session);
      var op := CreateTurn(session, p, request, assistant);
      if budget == 0 || !index.accepts(places, op) { return None; }
      AcceptedOne(index, places, op);
      next, places, budget, log := next[session := p + 1], index.put(places, op), budget - 1, log + [op];
      return Some(p);
    }

    /** BindHistoryTurnAssistantByRequest and LinkMessageToHistoryTurn. */
    method Call(op: Op) returns (ok: bool)
      modifies this
      ensures ok == (old(budget) > 0 && index.accepts(old(places), op)) && next == old(next)
      ensures if ok then Made([op]) else unchanged(this)
    {
      if budget == 0 || !index.accepts(places, op) { return false; }
      AcceptedOne(index, places, op);
      places, budget, log := index.put(places, op), budget - 1, log + [op];
      return true;
    }
  }

  datatype RawMessage = RawMessage(id: Option<Id>, session: Option<Id>, role: string)

  function ReadOne(raw: RawMessage): Message {
    Message(raw.id, raw.session, ReadRole(raw.role))
  }

  function Read(messages: seq<RawMessage>): (r: seq<Message>)
    ensures |r| == |messages| && forall i :: 0 <= i < |r| ==> r[i] == ReadOne(messages[i])
  {
    seq(|messages|, i requires 0 <= i < |messages| => ReadOne(messages[i]))
  }

  /** One call after another: the first is made, and then the second is tried. */
  lemma WentTwo(index: Index, places: map<Id, Place>, budget: nat, first: Op, second: Op, ok: bool)
    requires budget > 0 && index.accepts(places, first)
    requires ok == (budget > 1 && index.accepts(index.put(places, first), second))
    ensures Went(index, places, budget, [first, second], if ok then [first, second] else [first], ok)
    ensures PlacesAfter(index, places, [first, second]) == index.put(index.put(places, first), second)
  {
    AcceptedOne(index, places, first);
    AcceptedOne(index, index.put(places, first), second);
    AcceptedConcat(index, places, [first], [second]);
    assert [first] + [second] == [first, second];
  }

  /** The loop body, for a message whose id and session are valid. */
  method RestoreMessage(db: HistoryDb, state0: Option<TurnState>, m: Message)
    returns (ok: bool, state: TurnState, ghost made: seq<Op>)
    requires Valid(m)
    modifies db
    ensures var session := m.session.value; var position := NextPosition(old(db.next), session);
      var (after, ops) := MessageOps(position, state0, m);
      && Went(db.index, old(db.places), old(db.budget), ops, made, ok) && db.Made(made)
      && (ok ==> state == after
                 && db.next == if CreatesTurn(state0, m) then old(db.next)[session := position + 1] else old(db.next))
  {
    var session, id, role := m.session.value, m.id.value, m.role;
    state, made := TurnState(0, None, false, 0), [];
    if role.User? || state0.None? {
      ghost var op := CreateTurn(session, NextPosition(db.next, session), if role.User? then Some(id) else None,
                                 if role.User? then None else Some(id));
      var position := db.CreateHistoryTurn(session, if role.User? then Some(id) else None, if role.User? then None else Some(id));
      if position.None? { return false, state, []; }
      AcceptedOne(db.index, old(db.places), op);
      state := if role.User? then TurnState(position.value, Some(id), false, 1)
               else TurnState(position.value, None, true, 2);
      ok := LinkBehind(db, op, session, state, id, old(db.places), old(db.budget));
      made := if ok then [op, Link(session, state.position, id, state.number)] else [op];
    } else if role.Assistant? && !state0.value.assistantBound && state0.value.request.Some? {
      state := state0.value.(assistantBound := true, number := state0.value.number + 1);
      ghost var op := BindAssistant(session, state.request.value, id);
      var bound := db.Call(BindAssistant(session, state.request.value, id));
      if !bound { return false, state, []; }
      AcceptedOne(db.index, old(db.places), op);
      ok := LinkBehind(db, op, session, state, id, old(db.places), old(db.budget));
      made := if ok then [op, Link(session, state.position, id, state.number)] else [op];
    } else {
      state := state0.value.(number := state0.value.number + 1);
      AcceptedOne(db.index, db.places, Link(session, state.position, id, state.number));
      ok := db.Call(Link(session, state.position, id, state.number));
      made := if ok then [Link(session, state.position, id, state.number)] else [];
    }
  }

  /** The link behind a call that has created a turn or bound a reply. */
  method LinkBehind(db: HistoryDb, ghost first: Op, session: Id, state: TurnState, id: Id,
                    ghost places0: map<Id, Place>, ghost budget0: nat) returns (ok: bool)
    requires budget0 > 0 && db.index.accepts(places0, first) && db.places == db.index.put(places0, first) && db.budget == budget0 - 1
    modifies db
    ensures var link := Link(session, state.position, id, state.number);
      && Went(db.index, places0, budget0, [first, link], if ok then [first, link] else [first], ok) && db.next == old(db.next)
      && db.Made(if ok then [link] else []) && (ok ==> db.places == PlacesAfter(db.index, places0, [first, link]))
  {
    ghost var link := Link(session, state.position, id, state.number);
    ok := db.Call(Link(session, state.position, id, state.number));
    WentTwo(db.index, places0, budget0, first, link, ok);
    AcceptedOne(db.index, old(db.places), link);
  }

  /** What the database looks like after some calls. */
  ghost predicate HasMade(db: HistoryDb, places: map<Id, Place>, budget: nat, log: seq<Op>, made: seq<Op>)
    reads db
  {
    db.places == PlacesAfter(db.index, places, made) && db.budget + |made| == budget && db.log == log + made
  }

  /** One turn of the loop, after the calls of p. */
  method RestoreNext(db: HistoryDb, states0: map<Id, TurnState>, m: Message, ghost places0: map<Id, Place>,
                     ghost budget0: nat, ghost log0: seq<Op>, ghost p: Progress, ghost step: (Progress, Message) -> Progress)
    returns (ok: bool, states: map<Id, TurnState>, ghost made: seq<Op>)
    requires step == Step && AllAccepted(db.index, places0, p.ops) && Valid(m)
    requires db.next == p.next && states0 == p.states && HasMade(db, places0, budget0, log0, p.ops)
    modifies db
    ensures var p' := step(p, m);
      && Went(db.index, places0, budget0, p'.ops, made, ok) && HasMade(db, places0, budget0, log0, made)
      && (ok ==> db.next == p'.next && states == p'.states)
  {
    var session := m.session.value;
    var state: TurnState;
    ok, state, made := RestoreMessage(db, StateOf(states0, session), m);
    MessageMade(db.index, places0, budget0, step, p, m, made, ok);
    states, made := states0[session := state], p.ops + made;
  }

  lemma MessageMade(index: Index, places: map<Id, Place>, budget: nat, step: (Progress, Message) -> Progress, p: Progress, m: Message,
                    made: seq<Op>, ok: bool)
    requires step == Step && Valid(m) && AllAccepted(index, places, p.ops) && |p.ops| <= budget
    requires var ops := MessageOps(NextPosition(p.next, m.session.value), StateOf(p.states, m.session.value), m).1;
      Went(index, PlacesAfter(index, places, p.ops), budget - |p.ops|, ops, made, ok)
    ensures Went(index, places, budget, step(p, m).ops, p.ops + made, ok)
    ensures PlacesAfter(index, places, p.ops + made) == PlacesAfter(index, PlacesAfter(index, places, p.ops), made)
  {
    var ops := MessageOps(NextPosition(p.next, m.session.value), StateOf(p.states, m.session.value), m).1;
    WentOn(index, places, budget, p.ops, ops, made, ok);
    AcceptedConcat(index, places, p.ops, made);
  }

  /** rebuildRestoredHistoryTurns: exactly the calls of Rebuild, up to the first that fails. */
  method RebuildRestoredHistoryTurns(db: HistoryDb, botValid: bool, messages: seq<RawMessage>) returns (ok: bool, ghost made: seq<Op>)
    modifies db
    ensures !botValid ==> ok && unchanged(db)
    ensures botValid ==>
      var p := Rebuild(old(db.next), Read(messages));
      && Went(db.index, old(db.places), old(db.budget), p.ops, made, ok) && db.Made(made) && (ok ==> db.next == p.next)
  {
    if !botValid { return true, []; }
    RebuildIsFold(db.next, Read(messages));
    ok, made := RestoreAll(db, messages, Read(messages), Step);
  }

  /** The loop over the messages. */
  method RestoreAll(db: HistoryDb, messages: seq<RawMessage>, ghost all: seq<Message>,
                    ghost step: (Progress, Message) -> Progress) returns (ok: bool, ghost made: seq<Op>)
    requires |all| == |messages| && forall i :: 0 <= i < |all| ==> all[i] == ReadOne(messages[i])
    requires step == Step
    modifies db
    ensures var p := Fold(step, Progress(old(db.next), map[], []), all);
      && Went(db.index, old(db.places), old(db.budget), p.ops, made, ok) && db.Made(made) && (ok ==> db.next == p.next)
  {
    ghost var start, places0, budget0, log0 := Progress(db.next, map[], []), db.places, db.budget, db.log;
    ghost var p := start;
    made := [];
    var states: map<Id, TurnState> := map[];
    for i := 0 to |messages|
      invariant p == Fold(step, start, all[..i]) && AllAccepted(db.index, places0, p.ops)
      invariant db.next == p.next && states == p.states && HasMade(db, places0, budget0, log0, p.ops)
    {
      assert all[..i + 1][..i] == all[..i];
      if messages[i].id.None? || messages[i].session.None? { continue; }
      ok, states, made := RestoreNext(db, states, ReadOne(messages[i]), places0, budget0, log0, p, step);
      p := step(p, all[i]);
      if !ok {
        FoldGrows(start, all, i + 1);
        WentNoFurther(db.index, places0, budget0, p.ops, Fold(Step, start, all).ops, made);
        return;
      }
    }
    assert all[..|messages|] == all;
    return true, p.ops;
  }

  /** The progress after some messages, step by step. */
  ghost function Fold(step: (Progress, Message) -> Progress, start: Progress, messages: seq<Message>): Progress {
    if messages == [] then start else step(Fold(step, start, messages[..|messages| - 1]), messages[|messages| - 1])
  }

  lemma {:induction false} RebuildIsFold(next: map<Id, nat>, messages: seq<Message>)
    ensures Rebuild(next, messages) == Fold(Step, Progress(next, map[], []), messages)
  {
    if messages != [] { RebuildIsFold(next, messages[..|messages| - 1]); }
  }

  lemma {:induction false} FoldGrows(start: Progress, messages: seq<Message>, n: nat)
    requires n <= |messages|
    ensures Fold(Step, start, messages[..n]).ops <= Fold(Step, start, messages).ops
    decreases |messages|
  {
    if n < |messages| {
      var init := messages[..|messages| - 1];
      FoldGrows(start, init, n);
      assert init[..n] == messages[..n];
    } else {
      assert messages[..n] == messages;
    }
  }

  // ----- which lists the index accepts -----

  /** The turns there are lie behind their session's position counter. */
  ghost predicate TurnsBehind(next: map<Id, nat>, places: map<Id, Place>) {
    forall o :: o in places ==> places[o].position < NextPosition(next, places[o].session)
  }

  ghost predicate DistinctIds(messages: seq<Message>) {
    forall i, j :: 0 <= i < j < |messages| ==> messages[i].id != messages[j].id
  }

  ghost predicate NonePlaced(places: map<Id, Place>, messages: seq<Message>) {
    forall m :: m in messages && Valid(m) ==> m.id.value !in places
  }

  function FirstNumber(state: TurnState): nat { if state.request.Some? then 1 else 2 }

  ghost predicate Taken(places: map<Id, Place>, session: Id, position: nat, number: nat) {
    exists o :: o in places && places[o] == Place(session, position, number)
  }

  lemma TakenPut(places: map<Id, Place>, m: Id, at: Place, session: Id, position: nat, number: nat)
    requires m !in places
    ensures Taken(places[m := at], session, position, number) <==>
      Taken(places, session, position, number) || at == Place(session, position, number)
  {
    if Taken(places, session, position, number) {
      var o :| o in places && places[o] == Place(session, position, number);
      assert o in places[m := at] && places[m := at][o] == places[o];
    }
    assert m in places[m := at];
  }

  /** The numbers taken in a session's last turn are those up to the last, from 1 with a user message and from 2 without. */
  ghost predicate NumbersTaken(places: map<Id, Place>, session: Id, state: TurnState) {
    && FirstNumber(state) <= state.number
    && (forall n: nat :: Taken(places, session, state.position, n) <==> FirstNumber(state) <= n <= state.number)
    && (state.request.Some? ==>
          state.request.value in places && places[state.request.value] == Place(session, state.position, 1))
  }

  ghost predicate TurnsStand(p: Progress, places: map<Id, Place>) {
    && TurnsBehind(p.next, places)
    && forall s :: s in p.states ==> NumbersTaken(places, s, p.states[s])
  }

  /** The message is a first reply, and another message of its turn has number 2. */
  predicate Late(state: Option<TurnState>, m: Message) {
    m.role.Assistant? && state.Some? && !state.value.assistantBound && state.value.request.Some? && state.value.number > 1
  }

  /** A call that puts a message where no message has been before. */
  lemma Puts(places: map<Id, Place>, op: Op, m: Id, at: Place)
    requires Target(places, op) == Some((m, at))
    ensures PlacesAfter(TurnIndex(), places, [op]) == places[m := at]
    ensures AllAccepted(TurnIndex(), places, [op]) <==> Free(places, m, at)
  {
    AcceptedOne(TurnIndex(), places, op);
  }

  /** A message that opens a turn. */
  lemma Opens(next: map<Id, nat>, places: map<Id, Place>, session: Id, request: bool, m: Id)
    requires TurnsBehind(next, places) && m !in places
    ensures var position, number := NextPosition(next, session), if request then 1 else 2;
      var create := CreateTurn(session, position, if request then Some(m) else None, if request then None else Some(m));
      && AllAccepted(TurnIndex(), places, [create, Link(session, position, m, number)])
      && PlacesAfter(TurnIndex(), places, [create, Link(session, position, m, number)]) == places[m := Place(session, position, number)]
  {
    var position, number := NextPosition(next, session), if request then 1 else 2;
    var create := CreateTurn(session, position, if request then Some(m) else None, if request then None else Some(m));
    var link, at := Link(session, position, m, number), Place(session, position, number);
    Puts(places, create, m, at);
    assert places[m := at][m] == at;
    Puts(places[m := at], link, m, at);
    AcceptedConcat(TurnIndex(), places, [create], [link]);
    assert [create] + [link] == [create, link] && places[m := at][m := at] == places[m := at];
  }

  /** A message that continues a turn, without a reply to bind. */
  lemma Continues(places: map<Id, Place>, session: Id, state: TurnState, m: Id)
    requires NumbersTaken(places, session, state) && m !in places
    ensures var link := Link(session, state.position, m, state.number + 1);
      && AllAccepted(TurnIndex(), places, [link])
      && PlacesAfter(TurnIndex(), places, [link]) == places[m := Place(session, state.position, state.number + 1)]
  {
    var link, at := Link(session, state.position, m, state.number + 1), Place(session, state.position, state.number + 1);
    assert Taken(places, session, state.position, state.number);
    var o :| o in places && places[o] == Place(session, state.position, state.number);
    assert InTurn(places[o], session, state.position);
    assert !Taken(places, session, state.position, state.number + 1);
    Puts(places, link, m, at);
  }

  /** A reply is bound to its question unless number 2 is taken. */
  lemma Binds(places: map<Id, Place>, session: Id, state: TurnState, m: Id)
    requires NumbersTaken(places, session, state) && m !in places && state.request.Some?
    ensures var bind, link := BindAssistant(session, state.request.value, m), Link(session, state.position, m, state.number + 1);
      && (AllAccepted(TurnIndex(), places, [bind, link]) <==> state.number == 1)
      && (state.number == 1 ==>
            PlacesAfter(TurnIndex(), places, [bind, link]) == places[m := Place(session, state.position, 2)])
  {
    var bind, link := BindAssistant(session, state.request.value, m), Link(session, state.position, m, state.number + 1);
    var at := Place(session, state.position, 2);
    assert Free(places, m, at) <==> !Taken(places, session, state.position, 2);
    Puts(places, bind, m, at);
    AcceptedConcat(TurnIndex(), places, [bind], [link]);
    assert [bind] + [link] == [bind, link];
    if state.number == 1 {
      assert InTurn(places[m := at][m], session, state.position);
      Puts(places[m := at], link, m, at);
      assert places[m := at][m := at] == places[m := at];
    }
  }

  /** The new place, at the number given by the state, becomes the last of the session's last turn. */
  ghost predicate Extends(p: Progress, p': Progress, m: Id, session: Id, state: TurnState) {
    && p'.states == p.states[session := state]
    && if state.position == NextPosition(p.next, session)
       then p'.next == p.next[session := state.position + 1] && state.number == FirstNumber(state)
            && (state.request.Some? ==> state.request.value == m)
       else p'.next == p.next && session in p.states
            && p.states[session].position == state.position && p.states[session].request == state.request
            && p.states[session].number + 1 == state.number
  }

  lemma StandsAfter(p: Progress, places: map<Id, Place>, p': Progress, m: Id, session: Id, state: TurnState)
    requires TurnsStand(p, places) && m !in places && Extends(p, p', m, session, state)
    ensures TurnsStand(p', places[m := Place(session, state.position, state.number)])
  {
    var at := Place(session, state.position, state.number);
    if state.position != NextPosition(p.next, session) {
      assert Taken(places, session, state.position, p.states[session].number);
      assert NextPosition(p'.next, session) > state.position;
    }
    forall s | s in p'.states ensures NumbersTaken(places[m := at], s, p'.states[s]) {
      if s == session {
        ExtendedTurn(p, places, p', m, session, state);
      } else {
        var st := p.states[s];
        var after := places[m := at];
        forall n: nat ensures Taken(after, s, st.position, n) <==> FirstNumber(st) <= n <= st.number {
          TakenPut(places, m, at, s, st.position, n);
        }
      }
    }
  }

  lemma ExtendedTurn(p: Progress, places: map<Id, Place>, p': Progress, m: Id, session: Id, state: TurnState)
    requires TurnsStand(p, places) && m !in places && Extends(p, p', m, session, state)
    ensures NumbersTaken(places[m := Place(session, state.position, state.number)], session, state)
  {
    var at := Place(session, state.position, state.number);
    var after := places[m := at];
    forall n: nat ensures Taken(after, session, state.position, n) <==> FirstNumber(state) <= n <= state.number {
      TakenPut(places, m, at, session, state.position, n);
    }
  }

  /** The index rejects late replies, and nothing else. */
  lemma LateIsRejected(next: map<Id, nat>, places: map<Id, Place>, state: Option<TurnState>, m: Message)
    requires TurnsBehind(next, places) && Valid(m) && m.id.value !in places
    requires state.Some? ==> NumbersTaken(places, m.session.value, state.value)
    ensures var s := m.session.value;
      var (after, ops) := MessageOps(NextPosition(next, s), state, m);
      && (AllAccepted(TurnIndex(), places, ops) <==> !Late(state, m))
      && (!Late(state, m) ==>
            PlacesAfter(TurnIndex(), places, ops) == places[m.id.value := Place(s, after.position, after.number)])
  {
    var s, id := m.session.value, m.id.value;
    if CreatesTurn(state, m) {
      Opens(next, places, s, m.role.User?, id);
    } else if m.role.Assistant? && !state.value.assistantBound && state.value.request.Some? {
      Binds(places, s, state.value, id);
    } else {
      Continues(places, s, state.value, id);
    }
  }

  lemma StepStands(p: Progress, places: map<Id, Place>, m: Message)
    requires TurnsStand(p, places) && Valid(m) && m.id.value !in places
    ensures var s := m.session.value; var after := Step(p, m).states[s];
      TurnsStand(Step(p, m), places[m.id.value := Place(s, after.position, after.number)])
  {
    var s := m.session.value;
    if s in p.states { assert Taken(places, s, p.states[s].position, p.states[s].number); }
    StandsAfter(p, places, Step(p, m), m.id.value, m.session.value, Step(p, m).states[m.session.value]);
  }

  /** The state of a session after its messages: it waits for a reply to the message that opened the last turn, with as
      many numbers taken as there are messages from that one on; or it waits for none. */
  ghost predicate Waits(state: Option<TurnState>, mine: seq<Message>) {
    && (forall i: nat :: Awaiting(mine, i) ==> Waiting(state) && state.value.number == |mine| - i)
    && (Waiting(state) ==> exists i: nat :: Awaiting(mine, i))
    && (state.None? <==> mine == [])
  }

  predicate Waiting(state: Option<TurnState>) {
    state.Some? && !state.value.assistantBound && state.value.request.Some?
  }

  lemma StillWaits(state: Option<TurnState>, mine: seq<Message>, position: nat, m: Message)
    requires Waits(state, mine) && Valid(m)
    ensures Waits(Some(MessageOps(position, state, m).0), mine + [m])
  {
    var after := Some(MessageOps(position, state, m).0);
    forall i: nat | Awaiting(mine + [m], i) ensures Waiting(after) && after.value.number == |mine + [m]| - i {
      FirstReplySnoc(mine, m, i, 0);
    }
    if m.role.User? {
      FirstReplySnoc(mine, m, |mine|, 0);
    } else if Waiting(after) {
      var i: nat :| Awaiting(mine, i);
      FirstReplySnoc(mine, m, i, 0);
    }
  }

  lemma {:induction false} SessionsWait(next: map<Id, nat>, messages: seq<Message>, session: Id)
    requires forall m :: m in messages ==> Valid(m)
    ensures Waits(StateOf(Rebuild(next, messages).states, session), MessagesOf(messages, session))
  {
    if messages != [] {
      var init, m := messages[..|messages| - 1], messages[|messages| - 1];
      SessionsWait(next, init, session);
      if m.session == Some(session) {
        var p := Rebuild(next, init);
        StillWaits(StateOf(p.states, session), MessagesOf(init, session), NextPosition(p.next, session), m);
      } else {
        assert MessagesOf(messages, session) == MessagesOf(init, session);
      }
    }
  }

  /** In every session, each first reply stands directly behind its question. */
  ghost predicate RepliesAreDirect(messages: seq<Message>) {
    forall session: Id, i: nat, j: nat :: FirstReply(MessagesOf(messages, session), i, j) ==> j == i + 1
  }

  /** m answers a question of its session that is not the message before it. */
  ghost predicate AnswersLate(mine: seq<Message>, m: Message) {
    m.role.Assistant? && exists i: nat :: Awaiting(mine, i) && i + 1 < |mine|
  }

  lemma LateIsLate(state: Option<TurnState>, mine: seq<Message>, m: Message)
    requires Waits(state, mine)
    ensures Late(state, m) <==> AnswersLate(mine, m)
  {
  }

  lemma RepliesSoFar(messages: seq<Message>, m: Message)
    requires Valid(m)
    ensures RepliesAreDirect(messages + [m]) <==>
      RepliesAreDirect(messages) && !AnswersLate(MessagesOf(messages, m.session.value), m)
  {
    var all, s := messages + [m], m.session.value;
    assert all[..|all| - 1] == messages;
    assert MessagesOf(all, s) == MessagesOf(messages, s) + [m];
    assert forall session: Id :: session != s ==> MessagesOf(all, session) == MessagesOf(messages, session);
    var mine := MessagesOf(messages, s);
    forall i: nat, j: nat ensures FirstReply(mine + [m], i, j) <==>
        FirstReply(mine, i, j) || (j == |mine| && m.role.Assistant? && Awaiting(mine, i)) {
      FirstReplySnoc(mine, m, i, j);
    }
    if AnswersLate(mine, m) {
      var i: nat :| Awaiting(mine, i) && i + 1 < |mine|;
      assert FirstReply(MessagesOf(all, s), i, |mine|);
    }
    if RepliesAreDirect(all) {
      forall session: Id, i: nat, j: nat | FirstReply(MessagesOf(messages, session), i, j) ensures j == i + 1 {
        assert FirstReply(MessagesOf(all, session), i, j);
      }
    }
  }

  /** The messages placed are those placed before and those of the list. */
  ghost predicate PlacedOnly(places: map<Id, Place>, after: map<Id, Place>, messages: seq<Message>) {
    forall o :: o in after ==> o in places || exists i :: 0 <= i < |messages| && messages[i].id == Some(o)
  }

  lemma NotPlaced(places: map<Id, Place>, after: map<Id, Place>, messages: seq<Message>, m: Message)
    requires PlacedOnly(places, after, messages) && Valid(m)
    requires NonePlaced(places, messages + [m]) && DistinctIds(messages + [m])
    ensures m.id.value !in after
  {
    var all := messages + [m];
    assert all[|messages|] == m && m in all;
    forall i | 0 <= i < |messages| ensures messages[i].id != m.id { assert all[i] == messages[i]; }
  }

  lemma PlacedNext(places: map<Id, Place>, before: map<Id, Place>, after: map<Id, Place>, messages: seq<Message>, m: Message)
    requires PlacedOnly(places, before, messages) && Valid(m) && after.Keys == before.Keys + {m.id.value}
    ensures PlacedOnly(places, after, messages + [m])
  {
    var all := messages + [m];
    forall o | o in after && o !in places ensures exists i :: 0 <= i < |all| && all[i].id == Some(o) {
      if o == m.id.value {
        assert all[|messages|].id == Some(o);
      } else {
        assert o in before;
        var i :| 0 <= i < |messages| && messages[i].id == Some(o);
        assert all[i].id == Some(o);
      }
    }
  }

  /** Where the calls made for some messages have left the database. */
  ghost predicate Standing(places: map<Id, Place>, p: Progress, messages: seq<Message>) {
    var after := PlacesAfter(TurnIndex(), places, p.ops);
    TurnsStand(p, after) && PlacedOnly(places, after, messages)
  }

  /** For valid messages with ids of their own: the unique index accepts all calls exactly if every first reply stands
      directly behind its question. */
  lemma {:induction false} AcceptedIfDirect(next: map<Id, nat>, places: map<Id, Place>, messages: seq<Message>)
    requires TurnsBehind(next, places) && DistinctIds(messages) && NonePlaced(places, messages)
    requires forall m :: m in messages ==> Valid(m)
    ensures AllAccepted(TurnIndex(), places, Rebuild(next, messages).ops) <==> RepliesAreDirect(messages)
    ensures RepliesAreDirect(messages) ==> Standing(places, Rebuild(next, messages), messages)
  {
    if messages != [] {
      var init, m := messages[..|messages| - 1], messages[|messages| - 1];
      assert messages == init + [m];
      AcceptedIfDirect(next, places, init);
      SessionsWait(next, init, m.session.value);
      RebuildSnoc(next, init, m);
      StepAccepted(places, init, m, Rebuild(next, init));
      RepliesSoFar(init, m);
    }
  }

  lemma StepAccepted(places: map<Id, Place>, messages: seq<Message>, m: Message, p: Progress)
    requires NonePlaced(places, messages + [m]) && DistinctIds(messages + [m]) && Valid(m)
    requires Waits(StateOf(p.states, m.session.value), MessagesOf(messages, m.session.value))
    requires AllAccepted(TurnIndex(), places, p.ops) ==> Standing(places, p, messages)
    ensures var late := AnswersLate(MessagesOf(messages, m.session.value), m);
      && (AllAccepted(TurnIndex(), places, Step(p, m).ops) <==> AllAccepted(TurnIndex(), places, p.ops) && !late)
      && (AllAccepted(TurnIndex(), places, Step(p, m).ops) ==> Standing(places, Step(p, m), messages + [m]))
  {
    var s := m.session.value;
    var after := PlacesAfter(TurnIndex(), places, p.ops);
    var ops := MessageOps(NextPosition(p.next, s), StateOf(p.states, s), m).1;
    AcceptedConcat(TurnIndex(), places, p.ops, ops);
    LateIsLate(StateOf(p.states, s), MessagesOf(messages, s), m);
    if AllAccepted(TurnIndex(), places, p.ops) {
      NotPlaced(places, after, messages, m);
      LateIsRejected(p.next, after, StateOf(p.states, s), m);
      StepStands(p, after, m);
      if !Late(StateOf(p.states, s), m) { PlacedNext(places, after, PlacesAfter(TurnIndex(), after, ops), messages, m); }
    }
  }

  /** If the database does not fail, the rebuild succeeds exactly if in every session each first reply stands directly
      behind its question. */
  lemma RebuildSucceedsIff(next: map<Id, nat>, places: map<Id, Place>, budget: nat, messages: seq<Message>, made: seq<Op>, ok: bool)
    requires TurnsBehind(next, places) && NonePlaced(places, messages) && DistinctIds(ValidMessages(messages))
    requires var ops := Rebuild(next, messages).ops; Went(TurnIndex(), places, budget, ops, made, ok) && budget >= |ops|
    ensures ok <==> RepliesAreDirect(ValidMessages(messages))
  {
    InvalidAreSkipped(next, messages);
    WentAll(TurnIndex(), places, budget, Rebuild(next, messages).ops, made, ok);
    AcceptedIfDirect(next, places, ValidMessages(messages));
  }

  /** And then the replies bound are the assistant messages directly behind a user message of their session. */
  lemma DirectRepliesAreBound(next: map<Id, nat>, messages: seq<Message>, session: Id, a: Id, b: Id)
    requires RepliesAreDirect(ValidMessages(messages))
    ensures var mine := MessagesOf(ValidMessages(messages), session);
      BindAssistant(session, a, b) in Rebuild(next, messages).ops <==>
        exists i :: 0 < i < |mine| && mine[i - 1].role.User? && mine[i].role.Assistant?
                    && mine[i - 1].id == Some(a) && mine[i].id == Some(b)
  {
    RepliesAreBoundPerSession(next, messages, session, a, b);
    var mine := MessagesOf(ValidMessages(messages), session);
    if i :| 0 < i < |mine| && mine[i - 1].role.User? && mine[i].role.Assistant?
              && mine[i - 1].id == Some(a) && mine[i].id == Some(b) {
      assert FirstReply(mine, i - 1, i);
    }
  }
}
