/** Conversation turns rebuilt from the roles of raw messages. */
module HistoryTurns {
  import opened Text
  import opened Wrappers

  // rebuildRestoredHistoryTurns, for a list in which the messages of many sessions are interleaved.

  type Id = nat

  datatype Role = User | Assistant | Other

  /** A restored message; an id or session that is not valid is None. */
  datatype Message = Message(id: Option<Id>, session: Option<Id>, role: Role)

  /** The roles the rebuild tells apart: trimmed, and whatever the case. */
  function ReadRole(role: string): Role {
    var r := Lower(Trim(role));
    if r == "user" then User else if r == "assistant" then Assistant else Other
  }

  /** The database calls, with the turn named by its session and its position there. */
  datatype Op =
    | CreateTurn(session: Id, position: nat, request: Option<Id>, assistant: Option<Id>)
    | BindAssistant(session: Id, asked: Id, reply: Id)
    | Link(session: Id, position: nat, message: Id, number: nat)

  datatype TurnState = TurnState(position: nat, request: Option<Id>, assistantBound: bool, number: nat)

  /** next holds each session's next turn position where it is not 1; ops is what has been called. */
  datatype Progress = Progress(next: map<Id, nat>, states: map<Id, TurnState>, ops: seq<Op>)

  predicate Valid(m: Message) { m.id.Some? && m.session.Some? }

  function NextPosition(next: map<Id, nat>, session: Id): nat {
    if session in next then next[session] else 1
  }

  /** The calls made for one message in its session, and the session's state afterwards. */
  function MessageOps(position: nat, state: Option<TurnState>, m: Message): (r: (TurnState, seq<Op>))
    requires Valid(m)
  {
    var id, session := m.id.value, m.session.value;
    if m.role.User? then
      (TurnState(position, Some(id), false, 1),
       [CreateTurn(session, position, Some(id), None), Link(session, position, id, 1)])
    else if state.None? then
      (TurnState(position, None, true, 2),
       [CreateTurn(session, position, None, Some(id)), Link(session, position, id, 2)])
    else
      var st := state.value;
      if m.role.Assistant? && !st.assistantBound && st.request.Some? then
        (st.(assistantBound := true, number := st.number + 1),
         [BindAssistant(session, st.request.value, id), Link(session, st.position, id, st.number + 1)])
      else
        (st.(number := st.number + 1), [Link(session, st.position, id, st.number + 1)])
  }

  function StateOf(states: map<Id, TurnState>, session: Id): Option<TurnState> {
    if session in states then Some(states[session]) else None
  }

  predicate CreatesTurn(state: Option<TurnState>, m: Message) {
    m.role.User? || state.None?
  }

  function Step(p: Progress, m: Message): Progress {
    if !Valid(m) then p
    else
      var session := m.session.value;
      var position := NextPosition(p.next, session);
      var (state, ops) := MessageOps(position, StateOf(p.states, session), m);
      Progress(if CreatesTurn(StateOf(p.states, session), m) then p.next[session := position + 1] else p.next,
               p.states[session := state],
               p.ops + ops)
  }

  /** The whole rebuild, from the position counters next. */
  function Rebuild(next: map<Id, nat>, messages: seq<Message>): Progress {
    if messages == [] then Progress(next, map[], [])
    else Step(Rebuild(next, messages[..|messages| - 1]), messages[|messages| - 1])
  }

  // ----- sessions do not disturb each other -----

  function OpsOf(ops: seq<Op>, session: Id): seq<Op> {
    if ops == [] then []
    else OpsOf(ops[..|ops| - 1], session)
         + if ops[|ops| - 1].session == session then [ops[|ops| - 1]] else []
  }

  function MessagesOf(messages: seq<Message>, session: Id): seq<Message> {
    if messages == [] then []
    else MessagesOf(messages[..|messages| - 1], session)
         + if messages[|messages| - 1].session == Some(session) then [messages[|messages| - 1]] else []
  }

  lemma {:induction false} OpsOfConcat(a: seq<Op>, b: seq<Op>, session: Id)
    ensures OpsOf(a + b, session) == OpsOf(a, session) + OpsOf(b, session)
  {
    if b == [] {
      assert a + b == a;
    } else {
      assert (a + b)[..|a + b| - 1] == a + b[..|b| - 1];
      OpsOfConcat(a, b[..|b| - 1], session);
    }
  }

  lemma OpsOfShort(ops: seq<Op>, session: Id)
    requires |ops| <= 2
    requires forall o :: o in ops ==> o.session == session
    ensures OpsOf(ops, session) == ops
    ensures forall other :: other != session ==> OpsOf(ops, other) == []
  {
    if |ops| == 2 { assert OpsOf(ops[..1], session) == ops[..1]; }
  }

  ghost predicate Agree(all: Progress, alone: Progress, session: Id) {
    && OpsOf(all.ops, session) == alone.ops
    && StateOf(all.states, session) == StateOf(alone.states, session)
    && NextPosition(all.next, session) == NextPosition(alone.next, session)
  }

  lemma MessageOpsShort(position: nat, state: Option<TurnState>, m: Message)
    requires Valid(m)
    ensures var ops := MessageOps(position, state, m).1;
      |ops| <= 2 && forall o :: o in ops ==> o.session == m.session.value
  {
  }

  lemma StepOfAnother(p: Progress, m: Message, session: Id)
    requires m.session != Some(session)
    ensures var p' := Step(p, m);
      && OpsOf(p'.ops, session) == OpsOf(p.ops, session)
      && StateOf(p'.states, session) == StateOf(p.states, session)
      && NextPosition(p'.next, session) == NextPosition(p.next, session)
  {
    if Valid(m) {
      var ops := MessageOps(NextPosition(p.next, m.session.value), StateOf(p.states, m.session.value), m).1;
      MessageOpsShort(NextPosition(p.next, m.session.value), StateOf(p.states, m.session.value), m);
      OpsOfConcat(p.ops, ops, session);
      OpsOfShort(ops, m.session.value);
    }
  }

  lemma StepOfSession(all: Progress, alone: Progress, m: Message, session: Id)
    requires Agree(all, alone, session) && m.session == Some(session)
    ensures Agree(Step(all, m), Step(alone, m), session)
  {
    if Valid(m) {
      var position, state := NextPosition(all.next, session), StateOf(all.states, session);
      MessageOpsShort(position, state, m);
      var ops := MessageOps(position, state, m).1;
      OpsOfConcat(all.ops, ops, session);
      OpsOfShort(ops, session);
    }
  }

  lemma RebuildSnoc(next: map<Id, nat>, messages: seq<Message>, m: Message)
    ensures Rebuild(next, messages + [m]) == Step(Rebuild(next, messages), m)
  {
    assert (messages + [m])[..|messages|] == messages;
  }

  /** What is done for one session, calls and all, is what would be done for its messages alone. */
  lemma {:induction false} SessionsAreIndependent(next: map<Id, nat>, messages: seq<Message>, session: Id)
    ensures Agree(Rebuild(next, messages), Rebuild(next, MessagesOf(messages, session)), session)
  {
    if messages != [] {
      var init, m := messages[..|messages| - 1], messages[|messages| - 1];
      SessionsAreIndependent(next, init, session);
      var mine := MessagesOf(init, session);
      if m.session == Some(session) {
        StepOfSession(Rebuild(next, init), Rebuild(next, mine), m, session);
        RebuildSnoc(next, mine, m);
      } else {
        StepOfAnother(Rebuild(next, init), m, session);
        assert MessagesOf(messages, session) == mine;
      }
    }
  }

  // ----- where the messages of one session go -----

  function Links(ops: seq<Op>): seq<Op> {
    if ops == [] then []
    else Links(ops[..|ops| - 1]) + if ops[|ops| - 1].Link? then [ops[|ops| - 1]] else []
  }

  lemma {:induction false} LinksConcat(a: seq<Op>, b: seq<Op>)
    ensures Links(a + b) == Links(a) + Links(b)
  {
    if b == [] {
      assert a + b == a;
    } else {
      assert (a + b)[..|a + b| - 1] == a + b[..|b| - 1];
      LinksConcat(a, b[..|b| - 1]);
    }
  }

  lemma LinksOfMessage(position: nat, state: Option<TurnState>, m: Message)
    requires Valid(m)
    ensures var (state', ops) := MessageOps(position, state, m);
      Links(ops) == [Link(m.session.value, state'.position, m.id.value, state'.number)]
  {
    var ops := MessageOps(position, state, m).1;
    if |ops| == 2 { assert Links(ops[..1]) == []; }
  }

  function ValidMessages(messages: seq<Message>): seq<Message> {
    if messages == [] then []
    else ValidMessages(messages[..|messages| - 1])
         + if Valid(messages[|messages| - 1]) then [messages[|messages| - 1]] else []
  }

  /** Every valid message is linked exactly once, in the order of the list, within its own session. */
  lemma {:induction false} EveryMessageLinkedOnce(next: map<Id, nat>, messages: seq<Message>)
    ensures var links, valid := Links(Rebuild(next, messages).ops), ValidMessages(messages);
      && |links| == |valid|
      && forall i :: 0 <= i < |valid| ==>
           && links[i].Link? && Some(links[i].message) == valid[i].id && Some(links[i].session) == valid[i].session
  {
    if messages != [] {
      var init, m := messages[..|messages| - 1], messages[|messages| - 1];
      EveryMessageLinkedOnce(next, init);
      if Valid(m) {
        var p := Rebuild(next, init);
        var session := m.session.value;
        LinksConcat(p.ops, MessageOps(NextPosition(p.next, session), StateOf(p.states, session), m).1);
        LinksOfMessage(NextPosition(p.next, session), StateOf(p.states, session), m);
      }
    }
  }

  ghost predicate OneSession(messages: seq<Message>, session: Id) {
    forall m :: m in messages ==> Valid(m) && m.session == Some(session)
  }

  /** Within a session: a user message opens the turn after the last one as its message 1; any other
      message continues the turn before it under the next number, or, when it is the first of all,
      opens a turn without a user as message 2. */
  ghost predicate FollowsTurns(first: nat, messages: seq<Message>, links: seq<Op>) {
    && |links| == |messages|
    && (forall i :: 0 <= i < |links| ==> links[i].Link?)
    && (messages != [] ==> links[0].position == first && links[0].number == if messages[0].role.User? then 1 else 2)
    && forall i :: 0 < i < |messages| ==>
         if messages[i].role.User?
         then links[i].position == links[i - 1].position + 1 && links[i].number == 1
         else links[i].position == links[i - 1].position && links[i].number == links[i - 1].number + 1
  }

  /** The session's state is that of its last link. */
  ghost predicate AtLastLink(p: Progress, session: Id, links: seq<Op>) {
    && links != [] && links[|links| - 1].Link? && session in p.states
    && NextPosition(p.next, session) == links[|links| - 1].position + 1
    && p.states[session].position == links[|links| - 1].position
    && p.states[session].number == links[|links| - 1].number
  }

  /** The link that a step makes for a valid message. */
  function LinkOf(p: Progress, m: Message): Op
    requires Valid(m)
  {
    var states := Step(p, m).states;
    Link(m.session.value, states[m.session.value].position, m.id.value, states[m.session.value].number)
  }

  lemma StepAppends(p: Progress, m: Message)
    requires Valid(m)
    ensures Links(Step(p, m).ops) == Links(p.ops) + [LinkOf(p, m)]
  {
    var session := m.session.value;
    LinksConcat(p.ops, MessageOps(NextPosition(p.next, session), StateOf(p.states, session), m).1);
    LinksOfMessage(NextPosition(p.next, session), StateOf(p.states, session), m);
  }

  lemma StepState(p: Progress, m: Message)
    requires Valid(m)
    ensures var session := m.session.value; var link := LinkOf(p, m);
      && ((session in p.states ==> p.states[session].position + 1 == NextPosition(p.next, session))
            ==> AtLastLink(Step(p, m), session, [link]))
      && (if m.role.User? then link.position == NextPosition(p.next, session) && link.number == 1
          else if session in p.states
          then link.position == p.states[session].position && link.number == p.states[session].number + 1
          else link.position == NextPosition(p.next, session) && link.number == 2)
  {
  }

  lemma FollowsSnoc(first: nat, messages: seq<Message>, links: seq<Op>, m: Message, link: Op)
    requires FollowsTurns(first, messages, links) && link.Link?
    requires if messages == [] then link.position == first && link.number == (if m.role.User? then 1 else 2)
             else var last := links[|links| - 1];
               if m.role.User? then link.position == last.position + 1 && link.number == 1
               else link.position == last.position && link.number == last.number + 1
    ensures FollowsTurns(first, messages + [m], links + [link])
  {
  }

  /** How the state and the links of a session stand after its messages. */
  ghost predicate Following(next: map<Id, nat>, messages: seq<Message>, session: Id, p: Progress) {
    var links := Links(p.ops);
    && FollowsTurns(NextPosition(next, session), messages, links)
    && (if messages == [] then p == Progress(next, map[], []) else AtLastLink(p, session, links))
  }

  lemma StepFollows(next: map<Id, nat>, messages: seq<Message>, session: Id, p: Progress, m: Message)
    requires Following(next, messages, session, p) && Valid(m) && m.session == Some(session)
    ensures Following(next, messages + [m], session, Step(p, m))
  {
    StepAppends(p, m);
    StepState(p, m);
    var link := LinkOf(p, m);
    FollowsSnoc(NextPosition(next, session), messages, Links(p.ops), m, link);
    assert (Links(p.ops) + [link])[|Links(p.ops)|] == link;
  }

  lemma {:induction false} TurnsFollowMessages(next: map<Id, nat>, messages: seq<Message>, session: Id)
    requires OneSession(messages, session)
    ensures Following(next, messages, session, Rebuild(next, messages))
  {
    if messages != [] {
      var init, m := messages[..|messages| - 1], messages[|messages| - 1];
      TurnsFollowMessages(next, init, session);
      StepFollows(next, init, session, Rebuild(next, init), m);
      assert messages == init + [m];
    }
  }

  predicate Before(a: Op, b: Op)
    requires a.Link? && b.Link?
  {
    a.position < b.position || (a.position == b.position && a.number < b.number)
  }

  /** So turn order and number reproduce the order of the session's messages, wherever the messages of
      other sessions stand between them, and only the session's first turn can lack a user message. */
  lemma OrderIsRestored(next: map<Id, nat>, messages: seq<Message>, session: Id)
    ensures var links, mine := Links(OpsOf(Rebuild(next, messages).ops, session)), MessagesOf(ValidMessages(messages), session);
      && FollowsTurns(NextPosition(next, session), mine, links)
      && (forall i, j :: 0 <= i < j < |links| ==> Before(links[i], links[j]))
      && (forall i :: 0 <= i < |links| && links[i].position != NextPosition(next, session) ==>
            exists k :: 0 <= k <= i && mine[k].role.User? && links[k].number == 1 && links[k].position == links[i].position)
  {
    InvalidAreSkipped(next, messages);
    SessionsAreIndependent(next, ValidMessages(messages), session);
    MessagesOfSession(ValidMessages(messages), session);
    var mine := MessagesOf(ValidMessages(messages), session);
    TurnsFollowMessages(next, mine, session);
    var links := Links(Rebuild(next, mine).ops);
    forall i, j | 0 <= i < j < |links| ensures Before(links[i], links[j]) { LinksIncrease(NextPosition(next, session), mine, links, i, j); }
    forall i | 0 <= i < |links| && links[i].position != NextPosition(next, session)
      ensures exists k :: 0 <= k <= i && mine[k].role.User? && links[k].number == 1 && links[k].position == links[i].position
    {
      var k := TurnOpenedByUser(NextPosition(next, session), mine, links, i);
    }
  }

  /** Messages without a valid id or session are skipped. */
  lemma {:induction false} InvalidAreSkipped(next: map<Id, nat>, messages: seq<Message>)
    ensures Rebuild(next, messages) == Rebuild(next, ValidMessages(messages))
    ensures forall m :: m in ValidMessages(messages) ==> Valid(m) && m in messages
  {
    if messages != [] {
      var init, m := messages[..|messages| - 1], messages[|messages| - 1];
      InvalidAreSkipped(next, init);
      if Valid(m) {
        assert ValidMessages(messages) == ValidMessages(init) + [m];
        RebuildSnoc(next, ValidMessages(init), m);
      } else {
        assert ValidMessages(messages) == ValidMessages(init);
      }
    }
  }

  lemma {:induction false} MessagesOfSession(messages: seq<Message>, session: Id)
    requires forall m :: m in messages ==> Valid(m)
    ensures OneSession(MessagesOf(messages, session), session)
  {
    if messages != [] { MessagesOfSession(messages[..|messages| - 1], session); }
  }

  lemma {:induction false} LinksIncrease(first: nat, messages: seq<Message>, links: seq<Op>, i: nat, j: nat)
    requires FollowsTurns(first, messages, links) && i < j < |links|
    ensures Before(links[i], links[j])
    decreases j
  {
    if i < j - 1 { LinksIncrease(first, messages, links, i, j - 1); }
  }

  lemma {:induction false} TurnOpenedByUser(first: nat, messages: seq<Message>, links: seq<Op>, i: nat) returns (k: nat)
    requires FollowsTurns(first, messages, links) && i < |links| && links[i].position != first
    ensures k <= i && messages[k].role.User? && links[k].number == 1 && links[k].position == links[i].position
    decreases i
  {
    if i > 0 { assert links[i - 1].Link?; }
    if messages[i].role.User? { k := i; } else { k := TurnOpenedByUser(first, messages, links, i - 1); }
  }

  // ----- replies -----

  /** messages[j] is the first assistant message after the user message messages[i], in its turn. */
  ghost predicate FirstReply(messages: seq<Message>, i: nat, j: nat) {
    && i < j < |messages| && messages[i].role.User? && messages[j].role.Assistant?
    && forall k :: i < k < j ==> !messages[k].role.User? && !messages[k].role.Assistant?
  }

  /** The user message messages[i] opened the last turn and nobody has replied yet. */
  ghost predicate Awaiting(messages: seq<Message>, i: nat) {
    && i < |messages| && messages[i].role.User?
    && forall k :: i < k < |messages| ==> messages[k].role.Other?
  }

  lemma FirstReplySnoc(messages: seq<Message>, m: Message, i: nat, j: nat)
    ensures FirstReply(messages + [m], i, j) <==>
      FirstReply(messages, i, j) || (j == |messages| && m.role.Assistant? && Awaiting(messages, i))
    ensures Awaiting(messages + [m], i) <==>
      (i == |messages| && m.role.User?) || (m.role.Other? && Awaiting(messages, i))
  {
    var all := messages + [m];
    if j < |messages| {
      assert all[j] == messages[j];
    }
    if i < |messages| && Awaiting(all, i) {
      assert all[|messages|].role.Other?;
      forall k | i < k < |messages| ensures messages[k].role.Other? { assert all[k] == messages[k]; }
    }
    if FirstReply(all, i, j) {
      forall k | i < k < j ensures !messages[k].role.User? && !messages[k].role.Assistant? { assert all[k] == messages[k]; }
    }
  }

  ghost predicate AwaitingId(messages: seq<Message>, a: Id) {
    exists i: nat :: Awaiting(messages, i) && messages[i].id == Some(a)
  }

  /** b is the first reply to a. */
  ghost predicate Replies(messages: seq<Message>, a: Id, b: Id) {
    exists i: nat, j: nat :: FirstReply(messages, i, j) && messages[i].id == Some(a) && messages[j].id == Some(b)
  }

  lemma AwaitingIdSnoc(messages: seq<Message>, m: Message, a: Id)
    ensures AwaitingId(messages + [m], a) <==>
      (m.role.User? && m.id == Some(a)) || (m.role.Other? && AwaitingId(messages, a))
  {
    var all := messages + [m];
    if AwaitingId(all, a) {
      var i: nat :| Awaiting(all, i) && all[i].id == Some(a);
      FirstReplySnoc(messages, m, i, 0);
    }
    FirstReplySnoc(messages, m, |messages|, 0);
    if m.role.User? && m.id == Some(a) { assert Awaiting(all, |messages|); }
    if m.role.Other? && AwaitingId(messages, a) {
      var i: nat :| Awaiting(messages, i) && messages[i].id == Some(a);
      FirstReplySnoc(messages, m, i, 0);
      assert all[i] == messages[i];
    }
  }

  lemma RepliesSnoc(messages: seq<Message>, m: Message, a: Id, b: Id)
    ensures Replies(messages + [m], a, b) <==>
      Replies(messages, a, b) || (m.role.Assistant? && m.id == Some(b) && AwaitingId(messages, a))
  {
    var all := messages + [m];
    if Replies(all, a, b) {
      var i: nat, j: nat :| FirstReply(all, i, j) && all[i].id == Some(a) && all[j].id == Some(b);
      FirstReplySnoc(messages, m, i, j);
    }
    if Replies(messages, a, b) {
      var i: nat, j: nat :| FirstReply(messages, i, j) && messages[i].id == Some(a) && messages[j].id == Some(b);
      FirstReplySnoc(messages, m, i, j);
      assert all[i] == messages[i] && all[j] == messages[j];
    }
    if m.role.Assistant? && m.id == Some(b) && AwaitingId(messages, a) {
      var i: nat :| Awaiting(messages, i) && messages[i].id == Some(a);
      FirstReplySnoc(messages, m, i, |messages|);
      assert all[i] == messages[i] && all[|messages|] == m;
    }
  }

  /** The session's state is waiting for a reply to a. */
  predicate Expects(p: Progress, session: Id, a: Id) {
    session in p.states && !p.states[session].assistantBound && p.states[session].request == Some(a)
  }

  lemma StepBinds(p: Progress, m: Message, a: Id, b: Id)
    requires Valid(m)
    ensures var session := m.session.value; var p' := Step(p, m);
      && (BindAssistant(session, a, b) in p'.ops <==>
            BindAssistant(session, a, b) in p.ops || (m.role.Assistant? && m.id == Some(b) && Expects(p, session, a)))
      && (Expects(p', session, a) <==>
            (m.role.User? && m.id == Some(a)) || (m.role.Other? && Expects(p, session, a)))
  {
  }

  /** An assistant message is bound to a user message exactly when it is the first reply in its turn. */
  lemma {:induction false} RepliesAreBound(next: map<Id, nat>, messages: seq<Message>, session: Id, a: Id, b: Id)
    requires OneSession(messages, session)
    ensures BindAssistant(session, a, b) in Rebuild(next, messages).ops <==> Replies(messages, a, b)
    ensures Expects(Rebuild(next, messages), session, a) <==> AwaitingId(messages, a)
  {
    if messages != [] {
      var init, m := messages[..|messages| - 1], messages[|messages| - 1];
      RepliesAreBound(next, init, session, a, b);
      assert Valid(m) && m.session == Some(session) && messages == init + [m];
      StepBinds(Rebuild(next, init), m, a, b);
      AwaitingIdSnoc(init, m, a);
      RepliesSnoc(init, m, a, b);
    }
  }

  lemma {:induction false} OpsOfMember(ops: seq<Op>, o: Op)
    ensures o in OpsOf(ops, o.session) <==> o in ops
  {
    if ops != [] { OpsOfMember(ops[..|ops| - 1], o); }
  }

  /** The calls that are made to bind replies, for a list in which sessions are interleaved. */
  lemma RepliesAreBoundPerSession(next: map<Id, nat>, messages0: seq<Message>, session: Id, a: Id, b: Id)
    ensures BindAssistant(session, a, b) in Rebuild(next, messages0).ops <==> Replies(MessagesOf(ValidMessages(messages0), session), a, b)
  {
    InvalidAreSkipped(next, messages0);
    var messages := ValidMessages(messages0);
    SessionsAreIndependent(next, messages, session);
    MessagesOfSession(messages, session);
    RepliesAreBound(next, MessagesOf(messages, session), session, a, b);
    OpsOfMember(Rebuild(next, messages).ops, BindAssistant(session, a, b));
    OpsOfMember(Rebuild(next, MessagesOf(messages, session)).ops, BindAssistant(session, a, b));
    assert OpsOf(OpsOf(Rebuild(next, messages).ops, session), session) == OpsOf(Rebuild(next, messages).ops, session) by {
      OpsOfTwice(Rebuild(next, messages).ops, session);
    }
  }

  lemma {:induction false} OpsOfTwice(ops: seq<Op>, session: Id)
    ensures OpsOf(OpsOf(ops, session), session) == OpsOf(ops, session)
  {
    if ops != [] {
      OpsOfTwice(ops[..|ops| - 1], session);
      OpsOfConcat(OpsOf(ops[..|ops| - 1], session), if ops[|ops| - 1].session == session then [ops[|ops| - 1]] else [], session);
      OpsOfShort([ops[|ops| - 1]], ops[|ops| - 1].session);
    }
  }
}
