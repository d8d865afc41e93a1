/** What a rebuild that succeeds leaves in the turn columns. */
module RebuiltColumns {
  import opened HistoryTurns
  import opened RebuiltTurns
  import opened Text
  import opened Wrappers

  // ----- the roles -----

  /** The role is the word, between white space and in any case. */
  ghost predicate Spells(role: string, word: string, front: string, middle: string, back: string) {
    role == front + middle + back && Blank(front) && Blank(back) && Lower(middle) == word
  }

  lemma SolidWord(word: string, middle: string)
    requires (word == "user" || word == "assistant") && Lower(middle) == word
    ensures middle != [] && !IsSpace(middle[0]) && !IsSpace(middle[|middle| - 1])
  {
    assert LowerChar(middle[0]) == word[0] && LowerChar(middle[|middle| - 1]) == word[|word| - 1];
  }

  lemma ReadWord(role: string, word: string)
    requires word == "user" || word == "assistant"
    ensures Lower(Trim(role)) == word <==> exists front, middle, back :: Spells(role, word, front, middle, back)
  {
    if Lower(Trim(role)) == word {
      var front, back := TrimParts(role);
      assert Spells(role, word, front, Trim(role), back);
    }
    if front, middle, back :| Spells(role, word, front, middle, back) {
      SolidWord(word, middle);
      TrimMiddle(front, middle, back);
    }
  }

  /** A role is read as the user's or the assistant's exactly if it spells it. */
  lemma RoleIsRead(role: string)
    ensures ReadRole(role).User? <==> exists front, middle, back :: Spells(role, "user", front, middle, back)
    ensures ReadRole(role).Assistant? <==> exists front, middle, back :: Spells(role, "assistant", front, middle, back)
  {
    ReadWord(role, "user");
    ReadWord(role, "assistant");
  }

  // ----- the calls -----

  /** A link needs a message in its turn, a bound reply its question in its session, and each the number for itself. */
  lemma AcceptedIff(places: map<Id, Place>, session: Id, position: nat, number: nat, asked: Id, m: Id)
    ensures Accepts(places, Link(session, position, m, number))
       <==> (exists o :: o in places && places[o].session == session && places[o].position == position)
            && Free(places, m, Place(session, position, number))
    ensures Accepts(places, BindAssistant(session, asked, m))
       <==> asked in places && places[asked].session == session && Free(places, m, Place(session, places[asked].position, 2))
    ensures Accepts(places, CreateTurn(session, position, Some(m), None)) <==> Free(places, m, Place(session, position, 1))
    ensures Accepts(places, CreateTurn(session, position, None, Some(m))) <==> Free(places, m, Place(session, position, 2))
  {
    assert forall o :: o in places ==>
      (InTurn(places[o], session, position) <==> places[o].session == session && places[o].position == position);
  }

  // ----- the columns -----

  /** The message whose columns a call writes. */
  predicate Writes(op: Op, m: Id) {
    match op
    case CreateTurn(_, _, request, assistant) => request == Some(m) || (request.None? && assistant == Some(m))
    case BindAssistant(_, _, reply) => reply == m
    case Link(_, _, message, _) => message == m
  }

  lemma PutWrites(places: map<Id, Place>, op: Op, m: Id)
    requires Writes(op, m)
    ensures Put(places, op) - {m} == places - {m}
  {
  }

  /** The columns of the messages linked so far are those of their links. */
  ghost predicate AsLinked(places: map<Id, Place>, ops: seq<Op>) {
    forall i :: 0 <= i < |ops| && ops[i].Link? ==>
      ops[i].message in places && places[ops[i].message] == Place(ops[i].session, ops[i].position, ops[i].number)
  }

  lemma {:induction false} WrittenAlone(places: map<Id, Place>, ops: seq<Op>, m: Id)
    requires forall i :: 0 <= i < |ops| ==> Writes(ops[i], m)
    ensures PlacesAfter(TurnIndex(), places, ops) - {m} == places - {m}
  {
    if ops != [] {
      var init, last := ops[..|ops| - 1], ops[|ops| - 1];
      WrittenAlone(places, init, m);
      PutWrites(PlacesAfter(TurnIndex(), places, init), last, m);
    }
  }

  /** The calls for one message write its columns alone, and end with its link. */
  lemma MessageWrites(position: nat, state: Option<TurnState>, m: Message)
    requires Valid(m)
    ensures var ops := MessageOps(position, state, m).1;
      && ops != [] && ops[|ops| - 1].Link? && ops[|ops| - 1].message == m.id.value && ops[|ops| - 1].session == m.session.value
      && (forall i :: 0 <= i < |ops| ==> Writes(ops[i], m.id.value))
      && (forall i :: 0 <= i < |ops| - 1 ==> !ops[i].Link?)
  {
  }

  lemma LinkPuts(places: map<Id, Place>, ops: seq<Op>)
    requires ops != [] && ops[|ops| - 1].Link? && AllAccepted(TurnIndex(), places, ops)
    ensures var link, after := ops[|ops| - 1], PlacesAfter(TurnIndex(), places, ops);
      link.message in after && after[link.message] == Place(link.session, link.position, link.number)
  {
    var before := PlacesAfter(TurnIndex(), places, ops[..|ops| - 1]);
    assert Accepts(before, ops[|ops| - 1]);
  }

  /** Every message that is linked is one of the list. */
  ghost predicate LinksFrom(ops: seq<Op>, messages: seq<Message>) {
    forall i :: 0 <= i < |ops| && ops[i].Link? ==> exists k :: 0 <= k < |messages| && messages[k].id == Some(ops[i].message)
  }

  lemma LinksFromNext(ops: seq<Op>, more: seq<Op>, init: seq<Message>, m: Message)
    requires LinksFrom(ops, init) && Valid(m)
    requires forall i :: 0 <= i < |more| && more[i].Link? ==> more[i].message == m.id.value
    ensures LinksFrom(ops + more, init + [m])
  {
    var all, messages := ops + more, init + [m];
    forall i | 0 <= i < |all| && all[i].Link? ensures exists k :: 0 <= k < |messages| && messages[k].id == Some(all[i].message) {
      if i < |ops| {
        assert all[i] == ops[i];
        var k :| 0 <= k < |init| && init[k].id == Some(ops[i].message);
        assert messages[k] == init[k];
      } else {
        assert all[i] == more[i - |ops|] && messages[|init|] == m;
      }
    }
  }

  lemma LinkedNext(places: map<Id, Place>, after: map<Id, Place>, ops: seq<Op>, more: seq<Op>, m: Id)
    requires AsLinked(places, ops) && after - {m} == places - {m}
    requires forall i :: 0 <= i < |ops| && ops[i].Link? ==> ops[i].message != m
    requires more != [] && more[|more| - 1].Link? && more[|more| - 1].message == m
    requires forall i :: 0 <= i < |more| - 1 ==> !more[i].Link?
    requires var link := more[|more| - 1]; m in after && after[m] == Place(link.session, link.position, link.number)
    ensures AsLinked(after, ops + more)
  {
    var all := ops + more;
    forall i | 0 <= i < |all| && all[i].Link?
      ensures all[i].message in after && after[all[i].message] == Place(all[i].session, all[i].position, all[i].number)
    {
      if i < |ops| {
        assert all[i] == ops[i] && ops[i].message in places - {m};
        assert ops[i].message in after - {m};
      } else {
        assert all[i] == more[i - |ops|];
      }
    }
  }

  /** If all calls of a rebuild are accepted, every message stands in the end where its link says: in its session, at the
      position and under the number that follow from the roles. */
  lemma {:induction false} ColumnsAreAsLinked(next: map<Id, nat>, places: map<Id, Place>, messages: seq<Message>)
    requires DistinctIds(messages) && (forall m :: m in messages ==> Valid(m))
    requires AllAccepted(TurnIndex(), places, Rebuild(next, messages).ops)
    ensures AsLinked(PlacesAfter(TurnIndex(), places, Rebuild(next, messages).ops), Rebuild(next, messages).ops)
    ensures LinksFrom(Rebuild(next, messages).ops, messages)
  {
    if messages != [] {
      var init, m := messages[..|messages| - 1], messages[|messages| - 1];
      assert messages == init + [m] && m in messages;
      var p := Rebuild(next, init);
      var more := MessageOps(NextPosition(p.next, m.session.value), StateOf(p.states, m.session.value), m).1;
      AcceptedConcat(TurnIndex(), places, p.ops, more);
      ColumnsAreAsLinked(next, places, init);
      NextIsAsLinked(places, p.ops, more, init, m);
      assert Rebuild(next, messages).ops == p.ops + more;
    }
  }

  lemma NextIsAsLinked(places: map<Id, Place>, ops: seq<Op>, more: seq<Op>, init: seq<Message>, m: Message)
    requires Valid(m) && DistinctIds(init + [m]) && LinksFrom(ops, init) && AsLinked(PlacesAfter(TurnIndex(), places, ops), ops)
    requires exists position: nat, state :: more == MessageOps(position, state, m).1
    requires AllAccepted(TurnIndex(), PlacesAfter(TurnIndex(), places, ops), more)
    ensures AsLinked(PlacesAfter(TurnIndex(), places, ops + more), ops + more) && LinksFrom(ops + more, init + [m])
  {
    var position: nat, state :| more == MessageOps(position, state, m).1;
    MessageWrites(position, state, m);
    var before := PlacesAfter(TurnIndex(), places, ops);
    AcceptedConcat(TurnIndex(), places, ops, more);
    WrittenAlone(before, more, m.id.value);
    LinkPuts(before, more);
    LinksFromNext(ops, more, init, m);
    forall i | 0 <= i < |ops| && ops[i].Link? ensures ops[i].message != m.id.value {
      var k :| 0 <= k < |init| && init[k].id == Some(ops[i].message);
      assert (init + [m])[k] == init[k] && (init + [m])[|init|] == m;
    }
    LinkedNext(before, PlacesAfter(TurnIndex(), before, more), ops, more, m.id.value);
  }

  /** A session that had no turns gets its first at position 1, and its first message number 1 if it is the user's and 2 if it
      is not. */
  lemma FirstTurnIsOne(next: map<Id, nat>, messages: seq<Message>, session: Id)
    requires session !in next && MessagesOf(ValidMessages(messages), session) != []
    ensures var links := Links(OpsOf(Rebuild(next, messages).ops, session));
      && links != [] && links[0].Link? && links[0].position == 1
      && links[0].number == (if MessagesOf(ValidMessages(messages), session)[0].role.User? then 1 else 2)
  {
    OrderIsRestored(next, messages, session);
  }
}
