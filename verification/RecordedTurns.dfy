/** Conversation turns restored as they were recorded in a backup. */
module RecordedTurns {
  import opened HistoryTurns
  import opened Wrappers

  // restoreHistoryTurnReadModelFromMessages: the turn columns that a backup recorded with each message say which turns
  // there were.

  /** A message row of the backup; ids are those of the backup, and a column that is not valid is None. */
  datatype Row = Row(
    message: Option<Id>, session: Option<Id>, turn: Option<Id>, position: Option<int>, number: Option<int>, role: Role,
    visible: bool, supersededAt: Option<int>, supersededBy: Option<Id>, reason: Option<nat>)

  /** What the restore has made so far of the backup's sessions and messages. */
  datatype Remap = Remap(sessions: map<Id, Id>, messages: map<Id, Id>)

  predicate Eligible(r: Row, re: Remap) {
    && r.message.Some? && r.session.Some? && r.turn.Some? && r.position.Some? && r.number.Some? && r.number.value > 0
    && r.session.value in re.sessions && r.message.value in re.messages && r.position.value > 0
  }

  /** When, why and by which turn of the backup a turn was superseded. */
  datatype Superseded = Superseded(at: int, heir: Option<Id>, reason: Option<nat>)

  datatype Item = Item(message: Id, number: int)

  datatype Group = Group(
    turn: Id, session: Id, position: int, request: Option<Id>, assistant: Option<Id>, items: seq<Item>, visible: bool,
    superseded: Option<Superseded>)

  // ----- grouping -----

  function NewGroup(r: Row, re: Remap): Group
    requires Eligible(r, re)
  {
    Group(r.turn.value, re.sessions[r.session.value], r.position.value, None, None, [], false, None)
  }

  function Later(had: Option<Superseded>, r: Row): Option<Superseded> {
    if r.supersededAt.Some? && (had.None? || r.supersededAt.value > had.value.at) then
      Some(Superseded(r.supersededAt.value, r.supersededBy, r.reason))
    else had
  }

  function AddRow(g: Group, r: Row, re: Remap): Group
    requires Eligible(r, re)
  {
    var message, number := re.messages[r.message.value], r.number.value;
    var asked := number == 1 && r.role.User? && g.request.None?;
    var replied := !asked && number == 2 && r.role.Assistant? && g.assistant.None?;
    g.(visible := g.visible || r.visible,
       request := if asked then Some(message) else g.request,
       assistant := if replied then Some(message) else g.assistant,
       superseded := Later(g.superseded, r),
       items := g.items + [Item(message, number)])
  }

  predicate InTurn(r: Row, re: Remap, turn: Id) { Eligible(r, re) && r.turn.value == turn }

  /** The group of one turn, from all rows of a list that belong to it. */
  function GroupOf(rows: seq<Row>, re: Remap, turn: Id): Option<Group> {
    if rows == [] then None
    else
      var before, last := GroupOf(rows[..|rows| - 1], re, turn), rows[|rows| - 1];
      if !InTurn(last, re, turn) then before
      else Some(AddRow(if before.Some? then before.value else NewGroup(last, re), last, re))
  }

  /** The loop that collects the groups. */
  method CollectGroups(rows: seq<Row>, re: Remap) returns (groups: map<Id, Group>)
    ensures forall k :: k in groups <==> GroupOf(rows, re, k).Some?
    ensures forall k :: k in groups ==> GroupOf(rows, re, k) == Some(groups[k])
  {
    groups := map[];
    for i := 0 to |rows|
      invariant forall k :: k in groups <==> GroupOf(rows[..i], re, k).Some?
      invariant forall k :: k in groups ==> GroupOf(rows[..i], re, k) == Some(groups[k])
    {
      var r := rows[i];
      assert rows[..i + 1][..i] == rows[..i];
      if !Eligible(r, re) { continue; }
      var turn := r.turn.value;
      var g := if turn in groups then groups[turn] else NewGroup(r, re);
      groups := groups[turn := AddRow(g, r, re)];
    }
    assert rows[..|rows|] == rows;
  }

  /** A group with neither a question nor an answer is bound by the first of its messages. */
  function Bound(g: Group): Group {
    if g.request.None? && g.assistant.None? && g.items != [] then g.(assistant := Some(g.items[0].message)) else g
  }

  /** The list holds the groups but those of todo, each once. */
  ghost predicate Listed(groups: map<Id, Group>, todo: set<Id>, list: seq<Group>) {
    && (forall k :: k in groups && k !in todo ==> Bound(groups[k]) in list)
    && (forall g :: g in list ==> g.turn in groups && g.turn !in todo && g == Bound(groups[g.turn]))
    && (forall i, j :: 0 <= i < j < |list| ==> list[i].turn != list[j].turn)
  }

  lemma ListOneMore(groups: map<Id, Group>, todo: set<Id>, list: seq<Group>, k: Id)
    requires Listed(groups, todo, list) && k in todo && k in groups && groups[k].turn == k
    ensures Listed(groups, todo - {k}, list + [Bound(groups[k])])
  {
    var more := list + [Bound(groups[k])];
    assert more[|list|] == Bound(groups[k]);
    forall i, j | 0 <= i < j < |more| ensures more[i].turn != more[j].turn {
      assert more[i] == list[i] && list[i] in list;
      assert j < |list| ==> more[j] == list[j];
    }
    forall j | j in groups && j !in todo - {k} ensures Bound(groups[j]) in more {
      assert j != k ==> Bound(groups[j]) in list;
    }
  }

  /** The list of the groups, in an order that is left open. */
  method ListGroups(groups: map<Id, Group>) returns (list: seq<Group>)
    requires forall k :: k in groups ==> groups[k].turn == k
    ensures Listed(groups, {}, list)
  {
    list := [];
    var todo := groups.Keys;
    while todo != {}
      invariant todo <= groups.Keys && Listed(groups, todo, list)
      decreases |todo|
    {
      var k :| k in todo;
      ListOneMore(groups, todo, list, k);
      list, todo := list + [Bound(groups[k])], todo - {k};
    }
  }

  // ----- what a group says about its rows -----

  predicate HasItem(g: Group, m: Id, number: int) { Item(m, number) in g.items }

  lemma {:induction false} GroupItems(rows: seq<Row>, re: Remap, turn: Id, i: nat)
    requires i < |rows| && InTurn(rows[i], re, turn)
    ensures GroupOf(rows, re, turn).Some?
    ensures HasItem(GroupOf(rows, re, turn).value, re.messages[rows[i].message.value], rows[i].number.value)
  {
    if i < |rows| - 1 { GroupItems(rows[..|rows| - 1], re, turn, i); }
  }

  /** Every item of a group comes from a row of its turn. */
  lemma {:induction false} ItemComesFrom(rows: seq<Row>, re: Remap, turn: Id, k: nat) returns (i: nat)
    requires GroupOf(rows, re, turn).Some? && k < |GroupOf(rows, re, turn).value.items|
    ensures i < |rows| && InTurn(rows[i], re, turn)
    ensures GroupOf(rows, re, turn).value.items[k] == Item(re.messages[rows[i].message.value], rows[i].number.value)
  {
    var init := rows[..|rows| - 1];
    if GroupOf(init, re, turn).Some? && k < |GroupOf(init, re, turn).value.items| {
      i := ItemComesFrom(init, re, turn, k);
    } else {
      i := |rows| - 1;
    }
  }

  /** A group has items; its question is its message 1, and its answer its message 2 or the first that is listed. */
  ghost predicate WellMade(g: Group, turn: Id) {
    && g.turn == turn && g.items != [] && g.position > 0
    && (g.request.Some? ==> HasItem(g, g.request.value, 1))
    && (g.assistant.Some? ==> HasItem(g, g.assistant.value, 2) || g.assistant.value == g.items[0].message)
  }

  lemma {:induction false} GroupIsWellMade(rows: seq<Row>, re: Remap, turn: Id)
    requires GroupOf(rows, re, turn).Some?
    ensures WellMade(GroupOf(rows, re, turn).value, turn)
  {
    var init, last := rows[..|rows| - 1], rows[|rows| - 1];
    var before := GroupOf(init, re, turn);
    if before.Some? { GroupIsWellMade(init, re, turn); }
    if InTurn(last, re, turn) {
      AddRowKeeps(if before.Some? then before.value else NewGroup(last, re), last, re, turn);
    }
  }

  lemma AddRowKeeps(g: Group, r: Row, re: Remap, turn: Id)
    requires InTurn(r, re, turn) && (WellMade(g, turn) || g == NewGroup(r, re))
    ensures WellMade(AddRow(g, r, re), turn)
  {
    var more := AddRow(g, r, re);
    assert more.items[|g.items|] == Item(re.messages[r.message.value], r.number.value);
    assert forall x :: x in g.items ==> x in more.items;
  }

  /** The first row of a turn. */
  ghost predicate First(rows: seq<Row>, re: Remap, turn: Id, i: nat) {
    i < |rows| && InTurn(rows[i], re, turn) && forall j :: 0 <= j < i ==> !InTurn(rows[j], re, turn)
  }

  predicate Supersedes(r: Row, re: Remap, turn: Id) { InTurn(r, re, turn) && r.supersededAt.Some? }

  /** The first of the rows that supersede the turn at the latest time. */
  ghost predicate Latest(rows: seq<Row>, re: Remap, turn: Id, i: nat) {
    && i < |rows| && Supersedes(rows[i], re, turn)
    && forall j :: 0 <= j < |rows| && Supersedes(rows[j], re, turn) ==>
         if j < i then rows[j].supersededAt.value < rows[i].supersededAt.value
         else rows[j].supersededAt.value <= rows[i].supersededAt.value
  }

  function SupersededBy(r: Row): Superseded
    requires r.supersededAt.Some?
  {
    Superseded(r.supersededAt.value, r.supersededBy, r.reason)
  }

  /** The session and the position of a turn are those of its first row, which is listed first. */
  lemma {:induction false} GroupStart(rows: seq<Row>, re: Remap, turn: Id) returns (i: nat)
    requires GroupOf(rows, re, turn).Some?
    ensures First(rows, re, turn, i)
    ensures var g := GroupOf(rows, re, turn).value;
      && g.session == re.sessions[rows[i].session.value] && g.position == rows[i].position.value
      && g.items != [] && g.items[0] == Item(re.messages[rows[i].message.value], rows[i].number.value)
  {
    var init := rows[..|rows| - 1];
    if GroupOf(init, re, turn).Some? {
      i := GroupStart(init, re, turn);
      assert forall j :: 0 <= j < |init| ==> init[j] == rows[j];
    } else {
      NoGroup(init, re, turn);
      i := |rows| - 1;
      assert forall j :: 0 <= j < |init| ==> init[j] == rows[j];
    }
  }

  /** A turn is visible if one of its rows is.  It has a question if one of its rows is a user's with number 1, and
      an answer if one is an assistant's with number 2. */
  lemma {:induction false} GroupState(rows: seq<Row>, re: Remap, turn: Id)
    requires GroupOf(rows, re, turn).Some?
    ensures var g := GroupOf(rows, re, turn).value;
      && (g.visible <==> exists i :: 0 <= i < |rows| && InTurn(rows[i], re, turn) && rows[i].visible)
      && (g.request.Some? <==> exists i :: 0 <= i < |rows| && Asks(rows[i], re, turn))
      && (g.assistant.Some? <==> exists i :: 0 <= i < |rows| && Replies(rows[i], re, turn))
  {
    var init, last := rows[..|rows| - 1], rows[|rows| - 1];
    if GroupOf(init, re, turn).Some? {
      GroupState(init, re, turn);
    } else {
      NoGroup(init, re, turn);
    }
    assert rows == init + [last];
    assert forall i :: 0 <= i < |init| ==> init[i] == rows[i];
  }

  predicate Asks(r: Row, re: Remap, turn: Id) { InTurn(r, re, turn) && r.number.value == 1 && r.role.User? }

  predicate Replies(r: Row, re: Remap, turn: Id) { InTurn(r, re, turn) && r.number.value == 2 && r.role.Assistant? }

  /** It is superseded if one of its rows is, and then when, why and by whom the first of the latest rows says. */
  lemma {:induction false} GroupSuperseded(rows: seq<Row>, re: Remap, turn: Id)
    requires GroupOf(rows, re, turn).Some?
    ensures var g := GroupOf(rows, re, turn).value;
      if g.superseded.None? then forall i :: 0 <= i < |rows| ==> !Supersedes(rows[i], re, turn)
      else exists i: nat :: Latest(rows, re, turn, i) && g.superseded == Some(SupersededBy(rows[i]))
  {
    var init, last := rows[..|rows| - 1], rows[|rows| - 1];
    assert forall i :: 0 <= i < |init| ==> init[i] == rows[i];
    var before := GroupOf(init, re, turn);
    if before.Some? {
      GroupSuperseded(init, re, turn);
      if before.value.superseded.Some? {
        var i: nat :| Latest(init, re, turn, i) && before.value.superseded == Some(SupersededBy(init[i]));
        LatestSnoc(rows, re, turn, i);
      } else if Supersedes(last, re, turn) {
        assert Latest(rows, re, turn, |rows| - 1);
      }
    } else {
      NoGroup(init, re, turn);
      if Supersedes(last, re, turn) { assert Latest(rows, re, turn, |rows| - 1); }
    }
  }

  lemma LatestSnoc(rows: seq<Row>, re: Remap, turn: Id, i: nat)
    requires rows != [] && Latest(rows[..|rows| - 1], re, turn, i)
    ensures var last := rows[|rows| - 1];
      if Supersedes(last, re, turn) && last.supersededAt.value > rows[i].supersededAt.value
      then Latest(rows, re, turn, |rows| - 1) else Latest(rows, re, turn, i)
  {
    var init := rows[..|rows| - 1];
    assert forall j :: 0 <= j < |init| ==> init[j] == rows[j];
  }

  lemma {:induction false} NoGroup(rows: seq<Row>, re: Remap, turn: Id)
    requires GroupOf(rows, re, turn).None?
    ensures forall i :: 0 <= i < |rows| ==> !InTurn(rows[i], re, turn)
  {
    if rows != [] { NoGroup(rows[..|rows| - 1], re, turn); }
  }

  // ----- the turn columns of the messages -----

  /** The turn columns of a restored message. */
  datatype Columns = Columns(turn: Id, position: int, number: int, visible: bool, superseded: Option<Superseded>)

  /** The restored messages of a turn, linked and visible. */
  function Linked(g: Group, newTurn: Id, number: int): Columns { Columns(newTurn, g.position, number, true, None) }

  /** How a message of the group ends up: the turn that superseded its turn is named by its new id, or by none
      if it is not among the restored turns. */
  function Final(g: Group, restored: set<Id>, newId: Id -> Id, number: int): Columns {
    match g.superseded
    case None => Columns(newId(g.turn), g.position, number, g.visible, None)
    case Some(s) => Columns(newId(g.turn), g.position, number, false, Some(Renamed(s, restored, newId)))
  }

  function Renamed(s: Superseded, restored: set<Id>, newId: Id -> Id): Superseded {
    Superseded(s.at, if s.heir.Some? && s.heir.value in restored then Some(newId(s.heir.value)) else None, s.reason)
  }

  ghost function Members(g: Group): set<Id> { set k | 0 <= k < |g.items| :: g.items[k].message }

  /** Nothing but the touched messages has changed. */
  ghost predicate Same(before: map<Id, Columns>, after: map<Id, Columns>, touched: set<Id>) {
    forall m :: m !in touched ==> (m in before <==> m in after) && (m in before ==> after[m] == before[m])
  }

  ghost predicate LinkedAll(columns: map<Id, Columns>, g: Group, newTurn: Id) {
    forall k :: 0 <= k < |g.items| ==>
      g.items[k].message in columns && columns[g.items[k].message] == Linked(g, newTurn, g.items[k].number)
  }

  ghost predicate FinalAll(columns: map<Id, Columns>, g: Group, restored: set<Id>, newId: Id -> Id) {
    forall k :: 0 <= k < |g.items| ==>
      g.items[k].message in columns && columns[g.items[k].message] == Final(g, restored, newId, g.items[k].number)
  }

  /** No two items of a group are the same message. */
  ghost predicate DistinctItems(g: Group) {
    forall a, b :: 0 <= a < b < |g.items| ==> g.items[a].message != g.items[b].message
  }

  /** Another message of the turn has the number. */
  predicate Taken(columns: map<Id, Columns>, turn: Id, message: Id, number: int) {
    exists m :: m in columns && m != message && columns[m].turn == turn && columns[m].number == number
  }

  /** A turn without question and answer whose first listed message has been put in the place of message 2, to which
      it does not belong, while another one does. */
  ghost predicate Parked(g: Group) {
    exists j: nat, k: nat :: Displaced(g, j, k)
  }

  ghost predicate NumbersDiffer(g: Group) {
    forall a, b :: 0 <= a < b < |g.items| ==> g.items[a].number != g.items[b].number
  }

  /** The groups whose messages can be linked one by one. */
  ghost predicate Linkable(sessions: map<Id, Id>, g: Group) {
    InOneSession(sessions, g) && NumbersDiffer(g) && !Parked(g)
  }

  /** Where the turn's creation has put a message. */
  function Place(g: Group, m: Id): Option<int> {
    if g.assistant == Some(m) then Some(2) else if g.request == Some(m) then Some(1) else None
  }

  /** k is an item still to be linked, with the least number. */
  ghost predicate Next(g: Group, todo: set<nat>, k: nat) {
    k in todo && forall j :: j in todo && j < |g.items| ==> k < |g.items| && g.items[k].number <= g.items[j].number
  }

  /** All items but those of todo are linked. */
  ghost predicate LinkedBut(sessions: map<Id, Id>, columns: map<Id, Columns>, g: Group, newTurn: Id, todo: set<nat>) {
    forall k: nat :: k < |g.items| && k !in todo ==>
      Holds(sessions, g.items[k].message, g.session) && g.items[k].message in columns
      && columns[g.items[k].message] == Linked(g, newTurn, g.items[k].number)
  }

  /** They have different numbers, which are not above those of todo. */
  ghost predicate InOrder(g: Group, todo: set<nat>) {
    && (forall k: nat, j: nat :: k < |g.items| && j < |g.items| && k !in todo && j in todo ==> g.items[k].number <= g.items[j].number)
    && (forall k: nat, j: nat :: k < j < |g.items| && k !in todo && j !in todo ==> g.items[k].number != g.items[j].number)
  }

  /** Those of todo are where the creation of the turn has put them. */
  ghost predicate AllWait(sessions: map<Id, Id>, columns: map<Id, Columns>, g: Group, newTurn: Id, todo: set<nat>) {
    && (forall k: nat :: k < |g.items| && k in todo && Holds(sessions, g.items[k].message, g.session) ==>
          Waiting(columns, g, newTurn, g.items[k].message))
    && (forall m :: m in columns && columns[m].turn == newTurn ==> m in Members(g))
  }

  /** A linked message 2 has displaced nothing. */
  ghost predicate Unblocked(sessions: map<Id, Id>, g: Group, todo: set<nat>) {
    forall k: nat, j: nat :: k < |g.items| && j < |g.items| && k !in todo && Displaced(g, j, k) ==>
      !Holds(sessions, g.items[j].message, g.session)
  }

  ghost predicate Linking(sessions: map<Id, Id>, columns: map<Id, Columns>, g: Group, newTurn: Id, todo: set<nat>) {
    && LinkedBut(sessions, columns, g, newTurn, todo) && InOrder(g, todo)
    && AllWait(sessions, columns, g, newTurn, todo) && Unblocked(sessions, g, todo)
  }

  /** Message j has been put in the place of message k. */
  ghost predicate Displaced(g: Group, j: nat, k: nat) {
    && j < |g.items| && k < |g.items|
    && g.assistant == Some(g.items[j].message) && g.items[j].number > 2 && g.items[k].number == 2
  }

  /** A message that has not been linked is in the turn exactly if it is the question or the answer. */
  predicate Waiting(columns: map<Id, Columns>, g: Group, newTurn: Id, m: Id) {
    match Place(g, m)
    case Some(n) => m in columns && columns[m].turn == newTurn && columns[m].number == n
    case None => m in columns ==> columns[m].turn != newTurn
  }

  /** The turn columns once the turn is created. */
  function Created(sessions: map<Id, Id>, columns: map<Id, Columns>, g: Group, newTurn: Id): map<Id, Columns> {
    var asked := if g.request.Some? && Holds(sessions, g.request.value, g.session)
                 then columns[g.request.value := Linked(g, newTurn, 1)] else columns;
    if g.assistant.Some? && Holds(sessions, g.assistant.value, g.session)
    then asked[g.assistant.value := Linked(g, newTurn, 2)] else asked
  }

  lemma CreatedWaits(sessions: map<Id, Id>, columns: map<Id, Columns>, g: Group, newTurn: Id)
    requires WellMade(g, g.turn) && !IsPresent(columns, newTurn)
    ensures Linking(sessions, Created(sessions, columns, g, newTurn), g, newTurn, Below(|g.items|))
  {
    NothingLinked(sessions, Created(sessions, columns, g, newTurn), g, newTurn);
    CreatedWaitsAll(sessions, columns, g, newTurn);
  }

  lemma NothingLinked(sessions: map<Id, Id>, columns: map<Id, Columns>, g: Group, newTurn: Id)
    ensures var todo := Below(|g.items|);
      LinkedBut(sessions, columns, g, newTurn, todo) && InOrder(g, todo) && Unblocked(sessions, g, todo)
  {
  }

  lemma CreatedWaitsAll(sessions: map<Id, Id>, columns: map<Id, Columns>, g: Group, newTurn: Id)
    requires WellMade(g, g.turn) && !IsPresent(columns, newTurn)
    ensures AllWait(sessions, Created(sessions, columns, g, newTurn), g, newTurn, Below(|g.items|))
  {
    EndsAreMembers(g);
  }

  /** The next item in the order of numbers. */
  method NextItem(g: Group, todo: set<nat>) returns (k: nat)
    requires todo != {} && todo <= Below(|g.items|)
    ensures Next(g, todo, k) && k < |g.items|
  {
    k :| k in todo;
    var rest := todo - {k};
    while rest != {}
      invariant rest <= todo && k in todo
      invariant forall j :: j in todo && j !in rest ==> g.items[k].number <= g.items[j].number
      decreases |rest|
    {
      var j :| j in rest;
      if g.items[j].number < g.items[k].number { k := j; }
      rest := rest - {j};
    }
  }

  lemma NotInSession(sessions: map<Id, Id>, g: Group, m: Id)
    requires m in Members(g) && !Holds(sessions, m, g.session)
    ensures !InOneSession(sessions, g)
  {
    var k :| 0 <= k < |g.items| && g.items[k].message == m;
  }

  lemma LinkedWhenDone(sessions: map<Id, Id>, columns: map<Id, Columns>, g: Group, newTurn: Id)
    requires Linking(sessions, columns, g, newTurn, {})
    ensures LinkedAll(columns, g, newTurn) && Linkable(sessions, g)
  {
  }

  lemma LinkingStep(sessions: map<Id, Id>, columns: map<Id, Columns>, g: Group, newTurn: Id, todo: set<nat>, k: nat)
    requires k < |g.items| && DistinctItems(g) && Next(g, todo, k) && Linking(sessions, columns, g, newTurn, todo)
    requires Holds(sessions, g.items[k].message, g.session) && !Taken(columns, newTurn, g.items[k].message, g.items[k].number)
    ensures Linking(sessions, columns[g.items[k].message := Linked(g, newTurn, g.items[k].number)], g, newTurn, todo - {k})
  {
    StepLinks(sessions, columns, g, newTurn, todo, k);
    StepOrder(sessions, columns, g, newTurn, todo, k);
    StepUnblocked(sessions, columns, g, newTurn, todo, k);
  }

  lemma StepLinks(sessions: map<Id, Id>, columns: map<Id, Columns>, g: Group, newTurn: Id, todo: set<nat>, k: nat)
    requires k < |g.items| && DistinctItems(g) && Holds(sessions, g.items[k].message, g.session)
    requires LinkedBut(sessions, columns, g, newTurn, todo) && AllWait(sessions, columns, g, newTurn, todo)
    ensures var after := columns[g.items[k].message := Linked(g, newTurn, g.items[k].number)];
      LinkedBut(sessions, after, g, newTurn, todo - {k}) && AllWait(sessions, after, g, newTurn, todo - {k})
  {
    assert g.items[k].message in Members(g);
  }

  lemma StepOrder(sessions: map<Id, Id>, columns: map<Id, Columns>, g: Group, newTurn: Id, todo: set<nat>, k: nat)
    requires k < |g.items| && DistinctItems(g) && Next(g, todo, k) && InOrder(g, todo)
    requires LinkedBut(sessions, columns, g, newTurn, todo)
    requires !Taken(columns, newTurn, g.items[k].message, g.items[k].number)
    ensures InOrder(g, todo - {k})
  {
    forall j: nat | j < |g.items| && j !in todo ensures g.items[j].number != g.items[k].number {
      assert columns[g.items[j].message].turn == newTurn && columns[g.items[j].message].number == g.items[j].number;
    }
  }

  lemma StepUnblocked(sessions: map<Id, Id>, columns: map<Id, Columns>, g: Group, newTurn: Id, todo: set<nat>, k: nat)
    requires k < |g.items| && DistinctItems(g) && Next(g, todo, k) && InOrder(g, todo)
    requires AllWait(sessions, columns, g, newTurn, todo) && Unblocked(sessions, g, todo)
    requires !Taken(columns, newTurn, g.items[k].message, g.items[k].number)
    ensures Unblocked(sessions, g, todo - {k})
  {
    forall j: nat | Displaced(g, j, k) ensures !Holds(sessions, g.items[j].message, g.session) {
      assert j in todo;
      assert Holds(sessions, g.items[j].message, g.session) ==> Waiting(columns, g, newTurn, g.items[j].message);
    }
  }

  /** A message cannot be linked only if the group is not one of those that can be. */
  lemma LinkingFails(sessions: map<Id, Id>, columns: map<Id, Columns>, g: Group, newTurn: Id, todo: set<nat>, k: nat)
    requires k < |g.items| && WellMade(g, g.turn) && DistinctItems(g) && Next(g, todo, k)
    requires Linking(sessions, columns, g, newTurn, todo)
    requires !Holds(sessions, g.items[k].message, g.session) || Taken(columns, newTurn, g.items[k].message, g.items[k].number)
    ensures !Linkable(sessions, g)
  {
    var x := g.items[k];
    if Holds(sessions, x.message, g.session) {
      var m :| m in columns && m != x.message && columns[m].turn == newTurn && columns[m].number == x.number;
      assert m in Members(g);
      var j :| 0 <= j < |g.items| && g.items[j].message == m;
      if j in todo && Holds(sessions, m, g.session) {
        assert Waiting(columns, g, newTurn, m);
        if g.assistant == Some(m) {
          assert Displaced(g, j, k) || g.items[j].number == x.number;
        } else {
          assert HasItem(g, m, 1);
          var n :| 0 <= n < |g.items| && g.items[n] == Item(m, 1);
          assert n == j;
        }
      }
    }
  }

  lemma EndsAreMembers(g: Group)
    requires WellMade(g, g.turn)
    ensures (g.request.Some? ==> g.request.value in Members(g)) && (g.assistant.Some? ==> g.assistant.value in Members(g))
  {
    if g.request.Some? { ItemIsMember(g, Item(g.request.value, 1)); }
    if g.assistant.Some? && HasItem(g, g.assistant.value, 2) { ItemIsMember(g, Item(g.assistant.value, 2)); }
    assert g.items[0].message in Members(g);
  }

  lemma ItemIsMember(g: Group, x: Item)
    requires x in g.items
    ensures x.message in Members(g)
  {
    var k :| 0 <= k < |g.items| && g.items[k] == x;
    assert g.items[k].message in Members(g);
  }

  lemma LinkedIsClean(sessions: map<Id, Id>, columns: map<Id, Columns>, g: Group, newTurn: Id, m: Id, number: int)
    requires IsClean(sessions, columns, g, newTurn) && m in Members(g) && Holds(sessions, m, g.session)
    ensures var after := columns[m := Linked(g, newTurn, number)];
      IsClean(sessions, after, g, newTurn) && IsPresent(after, newTurn) && Same(columns, after, Members(g))
  {
    assert columns[m := Linked(g, newTurn, number)][m].turn == newTurn;
  }

  predicate Holds(sessions: map<Id, Id>, m: Id, session: Id) { m in sessions && sessions[m] == session }

  /** All messages of the new turn are linked to it as the group says, in the group's session. */
  ghost predicate IsClean(sessions: map<Id, Id>, columns: map<Id, Columns>, g: Group, newTurn: Id) {
    forall m :: m in columns && columns[m].turn == newTurn ==>
      m in Members(g) && columns[m] == Linked(g, newTurn, columns[m].number) && Holds(sessions, m, g.session)
  }

  ghost predicate IsPresent(columns: map<Id, Columns>, newTurn: Id) {
    exists m :: m in columns && columns[m].turn == newTurn
  }

  /** All of a group's messages are in the group's session. */
  ghost predicate InOneSession(sessions: map<Id, Id>, g: Group) {
    forall k :: 0 <= k < |g.items| ==> Holds(sessions, g.items[k].message, g.session)
  }

  function Below(n: nat): (r: set<nat>)
    ensures forall k: nat :: k in r <==> k < n
  {
    if n == 0 then {} else Below(n - 1) + {n - 1}
  }

  /** The database: the session and the turn columns of each message, and the next turn position of sessions. */
  class TurnTables {
    const sessions: map<Id, Id>
    var columns: map<Id, Columns>
    var next: map<Id, int>

    constructor (sessions: map<Id, Id>, columns: map<Id, Columns>, next: map<Id, int>)
      ensures this.sessions == sessions && this.columns == columns && this.next == next
    {
      this.sessions, this.columns, this.next := sessions, columns, next;
    }

    predicate InSession(m: Id, session: Id) { Holds(sessions, m, session) }

    ghost predicate Clean(g: Group, newTurn: Id)
      reads this`columns
    {
      IsClean(sessions, columns, g, newTurn)
    }

    ghost predicate Present(newTurn: Id)
      reads this`columns
    {
      IsPresent(columns, newTurn)
    }

    /** CreateHistoryTurnWithIDAtPosition: links question and answer, and fails if it could link neither. */
    method CreateTurn(g: Group, newTurn: Id) returns (ok: bool)
      requires WellMade(g, g.turn) && Clean(g, newTurn)
      modifies this`columns
      ensures ok <==> (g.request.Some? && InSession(g.request.value, g.session))
                      || (g.assistant.Some? && InSession(g.assistant.value, g.session))
      ensures Same(old(columns), columns, Members(g)) && Clean(g, newTurn) && (ok ==> Present(newTurn))
      ensures columns == Created(sessions, old(columns), g, newTurn)
    {
      ok := false;
      EndsAreMembers(g);
      if g.request.Some? && InSession(g.request.value, g.session) {
        LinkedIsClean(sessions, columns, g, newTurn, g.request.value, 1);
        columns := columns[g.request.value := Linked(g, newTurn, 1)];
        ok := true;
      }
      if g.assistant.Some? && InSession(g.assistant.value, g.session) {
        LinkedIsClean(sessions, columns, g, newTurn, g.assistant.value, 2);
        columns := columns[g.assistant.value := Linked(g, newTurn, 2)];
        ok := true;
      }
    }

    /** LinkMessageToHistoryTurn: the position and the visibility are those of the messages that are in the turn
        already; it fails if there are none, if the message is in another session than they are, or if another
        message of the turn has the number already. */
    method LinkMessage(newTurn: Id, message: Id, number: int, ghost g: Group) returns (ok: bool)
      requires Clean(g, newTurn) && Present(newTurn) && message in Members(g)
      modifies this`columns
      ensures ok <==> InSession(message, g.session) && !Taken(old(columns), newTurn, message, number)
      ensures columns == if ok then old(columns)[message := Linked(g, newTurn, number)] else old(columns)
      ensures Clean(g, newTurn) && Present(newTurn)
    {
      var target :| target in columns && columns[target].turn == newTurn;
      if !InSession(message, sessions[target]) || Taken(columns, newTurn, message, number) { return false; }
      var visible := exists m :: m in columns && columns[m].turn == newTurn && columns[m].visible;
      assert columns[target].visible;
      columns := columns[message := Columns(newTurn, columns[target].position, number, visible, None)];
      assert columns[message].turn == newTurn;
      return true;
    }

    /** One group of the first loop: its turn is created and its messages are linked in the order of their numbers,
        whatever the order among equal ones. */
    method LinkGroup(g: Group, newTurn: Id) returns (ok: bool)
      requires WellMade(g, g.turn) && (g.request.Some? || g.assistant.Some?) && DistinctItems(g)
      requires !Present(newTurn)
      modifies this`columns
      ensures ok <==> Linkable(sessions, g)
      ensures Same(old(columns), columns, Members(g)) && Clean(g, newTurn)
      ensures ok ==> LinkedAll(columns, g, newTurn)
    {
      ghost var before := columns;
      ok := CreateTurn(g, newTurn);
      CreatedWaits(sessions, before, g, newTurn);
      if !ok {
        EndsAreMembers(g);
        NotInSession(sessions, g, if g.request.Some? then g.request.value else g.assistant.value);
        return;
      }
      ok := LinkItems(g, newTurn);
    }

    /** The loop over the items of a turn that has been created. */
    method LinkItems(g: Group, newTurn: Id) returns (ok: bool)
      requires WellMade(g, g.turn) && DistinctItems(g) && Clean(g, newTurn) && Present(newTurn)
      requires Linking(sessions, columns, g, newTurn, Below(|g.items|))
      modifies this`columns
      ensures ok <==> Linkable(sessions, g)
      ensures Same(old(columns), columns, Members(g)) && Clean(g, newTurn)
      ensures ok ==> LinkedAll(columns, g, newTurn)
    {
      var todo := Below(|g.items|);
      while todo != {}
        invariant todo <= Below(|g.items|)
        invariant Same(old(columns), columns, Members(g)) && Clean(g, newTurn) && Present(newTurn)
        invariant Linking(sessions, columns, g, newTurn, todo)
        decreases |todo|
      {
        var k := NextItem(g, todo);
        ok := LinkItem(g, newTurn, k, todo);
        if !ok { return; }
        todo := todo - {k};
      }
      ok := true;
      LinkedWhenDone(sessions, columns, g, newTurn);
    }

    /** One message of that loop. */
    method LinkItem(g: Group, newTurn: Id, k: nat, ghost todo: set<nat>) returns (ok: bool)
      requires k < |g.items| && WellMade(g, g.turn) && DistinctItems(g) && Next(g, todo, k)
      requires Clean(g, newTurn) && Present(newTurn) && Linking(sessions, columns, g, newTurn, todo)
      modifies this`columns
      ensures !ok ==> !Linkable(sessions, g)
      ensures Same(old(columns), columns, Members(g)) && Clean(g, newTurn)
      ensures ok ==> Present(newTurn) && Linking(sessions, columns, g, newTurn, todo - {k})
    {
      ghost var before := columns;
      assert g.items[k].message in Members(g);
      ok := LinkMessage(newTurn, g.items[k].message, g.items[k].number, g);
      if ok {
        LinkingStep(sessions, before, g, newTurn, todo, k);
      } else {
        LinkingFails(sessions, before, g, newTurn, todo, k);
      }
    }

    /** SupersedeHistoryTurn, on a turn of which no message is superseded yet. */
    method SupersedeTurn(newTurn: Id, session: Id, at: int, heir: Option<Id>, reason: Option<nat>) returns (ok: bool)
      modifies this`columns
      ensures columns.Keys == old(columns).Keys
      ensures ok <==> exists m :: m in old(columns) && Superseding(old(columns)[m], newTurn, m, session)
      ensures forall m :: m in columns ==>
        columns[m] == if Superseding(old(columns)[m], newTurn, m, session)
                      then old(columns)[m].(visible := false, superseded := Some(Superseded(at, heir, reason))) else old(columns)[m]
    {
      ok := exists m :: m in columns && Superseding(columns[m], newTurn, m, session);
      columns := map m | m in columns ::
        if Superseding(columns[m], newTurn, m, session)
        then columns[m].(visible := false, superseded := Some(Superseded(at, heir, reason))) else columns[m];
    }

    predicate Superseding(c: Columns, newTurn: Id, m: Id, session: Id) {
      c.turn == newTurn && InSession(m, session) && c.superseded.None?
    }

    /** HideMessagesByHistoryTurn. */
    method HideTurn(newTurn: Id)
      modifies this`columns
      ensures columns.Keys == old(columns).Keys
      ensures forall m :: m in columns ==>
        columns[m] == if old(columns)[m].turn == newTurn then old(columns)[m].(visible := false) else old(columns)[m]
    {
      columns := map m | m in columns :: if columns[m].turn == newTurn then columns[m].(visible := false) else columns[m];
    }

    /** One group of the second loop. */
    method FinishGroup(g: Group, restored: set<Id>, newId: Id -> Id) returns (ok: bool)
      requires g.items != [] && Clean(g, newId(g.turn)) && LinkedAll(columns, g, newId(g.turn))
      modifies this`columns
      ensures ok && Same(old(columns), columns, Members(g)) && FinalAll(columns, g, restored, newId)
    {
      var newTurn := newId(g.turn);
      assert g.items[0].message in columns;
      match g.superseded
      case Some(s) =>
        var heir := if s.heir.Some? && s.heir.value in restored then Some(newId(s.heir.value)) else None;
        ok := SupersedeTurn(newTurn, g.session, s.at, heir, s.reason);
      case None =>
        if !g.visible { HideTurn(newTurn); }
        ok := true;
    }

    /** The first loop over the groups, in the order they are listed in: fails at the first whose messages cannot
        be linked. */
    method LinkGroups(groups: seq<Group>, newId: Id -> Id, ghost all: set<Id>) returns (ok: bool, positions: map<Id, int>)
      requires Usable(groups, all) && Injective(newId) && NoneLinked(columns, groups, 0, newId)
      modifies this`columns
      ensures !ok ==> exists i :: 0 <= i < |groups| && !Linkable(sessions, groups[i])
      ensures ok ==> AllLinked(sessions, columns, groups, 0, |groups|, newId) && PositionsAre(positions, groups, |groups|)
      ensures Same(old(columns), columns, all)
    {
      positions := map[];
      for i := 0 to |groups|
        invariant Same(old(columns), columns, all) && PositionsAre(positions, groups, i)
        invariant AllLinked(sessions, columns, groups, 0, i, newId) && NoneLinked(columns, groups, i, newId)
      {
        ok, positions := LinkNext(groups, i, newId, positions, all);
        if !ok { return; }
      }
      ok := true;
    }

    /** One turn of that loop. */
    method LinkNext(groups: seq<Group>, i: nat, newId: Id -> Id, positions0: map<Id, int>, ghost all: set<Id>)
        returns (ok: bool, positions: map<Id, int>)
      requires i < |groups| && Usable(groups, all) && Injective(newId) && PositionsAre(positions0, groups, i)
      requires AllLinked(sessions, columns, groups, 0, i, newId) && NoneLinked(columns, groups, i, newId)
      modifies this`columns
      ensures !ok ==> !Linkable(sessions, groups[i])
      ensures ok ==> AllLinked(sessions, columns, groups, 0, i + 1, newId) && NoneLinked(columns, groups, i + 1, newId)
      ensures ok ==> PositionsAre(positions, groups, i + 1)
      ensures Same(old(columns), columns, all)
    {
      var g := groups[i];
      assert Fits(g, all);
      ok := LinkGroup(g, newId(g.turn));
      positions := Raise(positions0, g.session, g.position + 1);
      if ok {
        LinkStep(sessions, old(columns), columns, groups, i, newId, all);
        RaiseKeeps(positions0, groups, i);
      }
    }

    /** The second loop: every edge from a superseded turn is found, because all turns have been created. */
    method FinishGroups(groups: seq<Group>, restored: set<Id>, newId: Id -> Id, ghost all: set<Id>)
      requires Usable(groups, all) && Injective(newId) && AllLinked(sessions, columns, groups, 0, |groups|, newId)
      modifies this`columns
      ensures AllFinal(columns, groups, |groups|, restored, newId) && Same(old(columns), columns, all)
    {
      for i := 0 to |groups|
        invariant Same(old(columns), columns, all) && AllFinal(columns, groups, i, restored, newId)
        invariant AllLinked(sessions, columns, groups, i, |groups|, newId)
      {
        ghost var before := columns;
        assert Fits(groups[i], all);
        var ok := FinishGroup(groups[i], restored, newId);
        FinishStep(sessions, before, columns, groups, i, restored, newId, all);
      }
    }

    /** The last loop: the next turn position of every session that has got a turn. */
    method SetNextPositions(positions: map<Id, int>)
      modifies this`next
      ensures next == old(next) + positions
    {
      var todo := positions.Keys;
      while todo != {}
        invariant todo <= positions.Keys
        invariant next == old(next) + (map s | s in positions && s !in todo :: positions[s])
        decreases |todo|
      {
        var s :| s in todo;
        next := next[s := positions[s]];
        todo := todo - {s};
      }
    }

    /** restoreHistoryTurnReadModelFromMessages.  Without a bot or rows it does nothing.  Where no row has
        recorded a turn, turns are rebuilt from the roles instead.  The restore fails if the rows of some turn
        cannot be linked one by one, and then only.  Otherwise every eligible message ends up in the new turn of
        its old turn, and nothing else is touched. */
    method Restore(botValid: bool, rows: seq<Row>, re: Remap, newId: Id -> Id) returns (outcome: Outcome)
      requires RowsDistinct(rows, re) && SessionsAgree(sessions, rows, re)
      requires Injective(newId) && forall m, k :: m in columns ==> columns[m].turn != newId(k)
      modifies this
      ensures outcome.Skipped? <==> !botValid || rows == []
      ensures outcome.Fallback? <==> botValid && rows != [] && forall i :: 0 <= i < |rows| ==> !Eligible(rows[i], re)
      ensures outcome.Failed? ==> !TurnsLinkable(rows, re)
      ensures outcome.Skipped? || outcome.Fallback? ==> columns == old(columns) && next == old(next)
      ensures outcome.Done? ==> TurnsLinkable(rows, re) && Restored(rows, re, newId, old(columns), columns)
                                && NextPositionsAre(rows, re, old(next), next)
    {
      if !botValid || rows == [] { return Skipped; }
      var groups := CollectGroups(rows, re);
      KeysAreTurns(rows, re, groups);
      if groups == map[] { return Fallback; }
      forall k | k in groups ensures groups[k].turn == k { GroupIsWellMade(rows, re, k); }
      var list := ListGroups(groups);
      ListsRows(rows, re, groups, list);
      outcome := RestoreGroups(rows, re, newId, list, groups.Keys);
    }

    method RestoreGroups(ghost rows: seq<Row>, ghost re: Remap, newId: Id -> Id, list: seq<Group>, restored: set<Id>)
        returns (outcome: Outcome)
      requires RowsDistinct(rows, re) && SessionsAgree(sessions, rows, re) && Lists(rows, re, list) && restored == TurnsOf(rows, re)
      requires Injective(newId) && NoneLinked(columns, list, 0, newId)
      modifies this
      ensures (outcome.Done? || outcome.Failed?) && (outcome.Done? <==> TurnsLinkable(rows, re))
      ensures outcome.Done? ==> Restored(rows, re, newId, old(columns), columns) && NextPositionsAre(rows, re, old(next), next)
    {
      ListIsUsable(rows, re, list);
      var ok, positions := LinkTurns(rows, re, newId, list);
      if !ok { return Failed; }
      FinishRestore(rows, re, newId, list, restored, positions);
      return Done;
    }

    method LinkTurns(ghost rows: seq<Row>, ghost re: Remap, newId: Id -> Id, list: seq<Group>)
        returns (ok: bool, positions: map<Id, int>)
      requires RowsDistinct(rows, re) && SessionsAgree(sessions, rows, re) && Lists(rows, re, list)
      requires Usable(list, EligibleMessages(rows, re))
      requires Injective(newId) && NoneLinked(columns, list, 0, newId)
      modifies this`columns
      ensures ok <==> TurnsLinkable(rows, re)
      ensures ok ==> AllLinked(sessions, columns, list, 0, |list|, newId) && PositionsAre(positions, list, |list|)
      ensures Same(old(columns), columns, EligibleMessages(rows, re))
    {
      LinkableList(sessions, rows, re, list);
      ok, positions := LinkGroups(list, newId, EligibleMessages(rows, re));
      if ok { LinkedAreLinkable(sessions, columns, list, newId); }
    }

    /** What is left to do once all turns have been created. */
    method FinishRestore(ghost rows: seq<Row>, ghost re: Remap, newId: Id -> Id, list: seq<Group>, restored: set<Id>,
                         positions: map<Id, int>)
      requires RowsDistinct(rows, re) && Lists(rows, re, list) && restored == TurnsOf(rows, re)
      requires Injective(newId) && TurnsInOneSession(rows, re) && PositionsAre(positions, list, |list|)
      requires Usable(list, EligibleMessages(rows, re)) && AllLinked(sessions, columns, list, 0, |list|, newId)
      modifies this
      ensures Restored(rows, re, newId, old(columns), columns) && NextPositionsAre(rows, re, old(next), next)
    {
      FinishGroups(list, restored, newId, EligibleMessages(rows, re));
      RestoredByList(rows, re, newId, list, restored, columns);
      SetNextPositions(positions);
      PositionsOfList(rows, re, list, positions, old(next));
    }
  }

  datatype Outcome = Done | Failed | Fallback | Skipped

  // ----- from groups back to rows -----

  ghost predicate RowsDistinct(rows: seq<Row>, re: Remap) {
    forall i, j :: 0 <= i < j < |rows| && Eligible(rows[i], re) && Eligible(rows[j], re) ==>
      re.messages[rows[i].message.value] != re.messages[rows[j].message.value]
  }

  /** Every message was restored into the session that its row names. */
  ghost predicate SessionsAgree(sessions: map<Id, Id>, rows: seq<Row>, re: Remap) {
    forall i :: 0 <= i < |rows| && Eligible(rows[i], re) ==>
      Holds(sessions, re.messages[rows[i].message.value], re.sessions[rows[i].session.value])
  }

  ghost predicate TurnsInOneSession(rows: seq<Row>, re: Remap) {
    forall i, j :: 0 <= i < |rows| && 0 <= j < |rows| && SameTurn(rows[i], rows[j], re) ==>
      re.sessions[rows[i].session.value] == re.sessions[rows[j].session.value]
  }

  /** Two rows of a turn have the same number. */
  ghost predicate NumberTwice(rows: seq<Row>, re: Remap) {
    exists i, j :: 0 <= i < j < |rows| && SameTurn(rows[i], rows[j], re) && rows[i].number == rows[j].number
  }

  /** A turn has neither a question nor an answer, its first row belongs behind message 2, and it has a message 2. */
  ghost predicate FirstIsInTheWay(rows: seq<Row>, re: Remap, turn: Id) {
    && (forall i :: 0 <= i < |rows| ==> !Asks(rows[i], re, turn) && !Replies(rows[i], re, turn))
    && (exists f: nat :: First(rows, re, turn, f) && rows[f].number.value > 2)
    && (exists i :: 0 <= i < |rows| && InTurn(rows[i], re, turn) && rows[i].number.value == 2)
  }

  /** The rows of every turn can be linked one by one, in the order of their numbers. */
  ghost predicate TurnsLinkable(rows: seq<Row>, re: Remap) {
    TurnsInOneSession(rows, re) && !NumberTwice(rows, re) && forall turn :: !FirstIsInTheWay(rows, re, turn)
  }

  predicate SameTurn(r: Row, q: Row, re: Remap) { Eligible(r, re) && InTurn(q, re, r.turn.value) }

  ghost function EligibleMessages(rows: seq<Row>, re: Remap): set<Id> {
    set i | 0 <= i < |rows| && Eligible(rows[i], re) :: re.messages[rows[i].message.value]
  }

  ghost function TurnsOf(rows: seq<Row>, re: Remap): set<Id> {
    set i | 0 <= i < |rows| && Eligible(rows[i], re) :: rows[i].turn.value
  }

  /** Every eligible message has the columns that its turn as a whole calls for, and no other message changed. */
  ghost predicate Restored(rows: seq<Row>, re: Remap, newId: Id -> Id, before: map<Id, Columns>, after: map<Id, Columns>) {
    && Same(before, after, EligibleMessages(rows, re))
    && forall i :: 0 <= i < |rows| && Eligible(rows[i], re) ==> RowRestored(rows, re, newId, after, i)
  }

  ghost predicate RowRestored(rows: seq<Row>, re: Remap, newId: Id -> Id, after: map<Id, Columns>, i: nat)
    requires i < |rows| && Eligible(rows[i], re)
  {
    var m, turn := re.messages[rows[i].message.value], rows[i].turn.value;
    m in after && after[m].turn == newId(turn) && after[m].number == rows[i].number.value
    && (exists f: nat :: First(rows, re, turn, f) && after[m].position == rows[f].position.value)
    && StateRestored(rows, re, newId, turn, after[m])
  }

  /** Superseded as the first of the latest rows says, with the heir under its new id, or under none if it was not
      restored; otherwise visible if one of the rows is. */
  ghost predicate StateRestored(rows: seq<Row>, re: Remap, newId: Id -> Id, turn: Id, c: Columns) {
    if exists i :: 0 <= i < |rows| && Supersedes(rows[i], re, turn) then
      !c.visible && exists l: nat :: Latest(rows, re, turn, l) && c.superseded == Some(Renamed(SupersededBy(rows[l]), TurnsOf(rows, re), newId))
    else
      c.superseded == None && (c.visible <==> exists i :: 0 <= i < |rows| && InTurn(rows[i], re, turn) && rows[i].visible)
  }

  ghost predicate RowOf(rows: seq<Row>, re: Remap, s: Id, i: nat) {
    i < |rows| && Eligible(rows[i], re) && re.sessions[rows[i].session.value] == s
  }

  ghost predicate HasTurn(rows: seq<Row>, re: Remap, s: Id) { exists i: nat :: RowOf(rows, re, s, i) }

  /** Row f is the first of a turn in the session. */
  ghost predicate Starts(rows: seq<Row>, re: Remap, s: Id, f: nat) {
    RowOf(rows, re, s, f) && First(rows, re, rows[f].turn.value, f)
  }

  /** at is one more than the highest position of a turn in the session. */
  ghost predicate NextAfter(rows: seq<Row>, re: Remap, s: Id, at: int) {
    && (forall f: nat :: Starts(rows, re, s, f) ==> at > rows[f].position.value)
    && (exists f: nat :: Starts(rows, re, s, f) && at == rows[f].position.value + 1)
  }

  /** The next position of each session that has got a turn is one more than its highest, and no other changed. */
  ghost predicate NextPositionsAre(rows: seq<Row>, re: Remap, before: map<Id, int>, after: map<Id, int>) {
    forall s ::
      if HasTurn(rows, re, s) then s in after && NextAfter(rows, re, s, after[s])
      else (s in before <==> s in after) && (s in before ==> after[s] == before[s])
  }

  // ----- frames -----

  ghost predicate Injective(newId: Id -> Id) { forall a, b :: newId(a) == newId(b) ==> a == b }

  /** A group that can be restored, with all its messages in all. */
  ghost predicate Fits(g: Group, all: set<Id>) {
    WellMade(g, g.turn) && DistinctItems(g) && (g.request.Some? || g.assistant.Some?) && Members(g) <= all
  }

  ghost predicate Usable(groups: seq<Group>, all: set<Id>) {
    && (forall i :: 0 <= i < |groups| ==> Fits(groups[i], all))
    && (forall i, j :: 0 <= i < j < |groups| ==> Apart(groups[i], groups[j]))
  }

  ghost predicate Apart(g: Group, h: Group) { g.turn != h.turn && Members(g) !! Members(h) }

  lemma Untouched(before: map<Id, Columns>, after: map<Id, Columns>, g: Group, h: Group)
    requires Members(g) !! Members(h) && Same(before, after, Members(h))
    ensures forall i :: 0 <= i < |g.items| ==>
      var m := g.items[i].message; (m in before <==> m in after) && (m in before ==> after[m] == before[m])
  {
    forall i | 0 <= i < |g.items| ensures g.items[i].message !in Members(h) { assert g.items[i].message in Members(g); }
  }

  ghost predicate IsLinked(sessions: map<Id, Id>, columns: map<Id, Columns>, g: Group, newId: Id -> Id) {
    Linkable(sessions, g) && LinkedAll(columns, g, newId(g.turn)) && IsClean(sessions, columns, g, newId(g.turn))
  }

  /** Groups that have been linked, groups that have not, and groups that are finished. */
  ghost predicate AllLinked(sessions: map<Id, Id>, columns: map<Id, Columns>, groups: seq<Group>, from: nat, to: nat, newId: Id -> Id)
    requires to <= |groups|
  {
    forall i :: from <= i < to ==> IsLinked(sessions, columns, groups[i], newId)
  }

  lemma LinkedAreLinkable(sessions: map<Id, Id>, columns: map<Id, Columns>, groups: seq<Group>, newId: Id -> Id)
    requires AllLinked(sessions, columns, groups, 0, |groups|, newId)
    ensures forall i :: 0 <= i < |groups| ==> Linkable(sessions, groups[i])
  {
    forall i | 0 <= i < |groups| ensures Linkable(sessions, groups[i]) {
      assert IsLinked(sessions, columns, groups[i], newId);
    }
  }

  ghost predicate NoneLinked(columns: map<Id, Columns>, groups: seq<Group>, from: nat, newId: Id -> Id) {
    forall i :: from <= i < |groups| ==> !IsPresent(columns, newId(groups[i].turn))
  }

  ghost predicate AllFinal(columns: map<Id, Columns>, groups: seq<Group>, to: nat, restored: set<Id>, newId: Id -> Id)
    requires to <= |groups|
  {
    forall i :: 0 <= i < to ==> FinalAll(columns, groups[i], restored, newId)
  }

  /** Changing the messages of one group, which stay in its turn, does not disturb another group. */
  lemma OtherGroup(sessions: map<Id, Id>, before: map<Id, Columns>, after: map<Id, Columns>, g: Group, h: Group, newId: Id -> Id,
                   restored: set<Id>)
    requires Apart(g, h) && Injective(newId) && Same(before, after, Members(h))
    requires forall k :: 0 <= k < |h.items| ==> h.items[k].message in after && after[h.items[k].message].turn == newId(h.turn)
    ensures IsLinked(sessions, before, g, newId) ==> IsLinked(sessions, after, g, newId)
    ensures !IsPresent(before, newId(g.turn)) ==> !IsPresent(after, newId(g.turn))
    ensures FinalAll(before, g, restored, newId) ==> FinalAll(after, g, restored, newId)
  {
    Untouched(before, after, g, h);
    forall m | m in after && after[m].turn == newId(g.turn) ensures m in before && after[m] == before[m] {
      OtherTurns(before, after, h, newId(h.turn), m);
    }
  }

  /** Messages in another turn than the group's are untouched when all of the group's are in its turn. */
  lemma OtherTurns(before: map<Id, Columns>, after: map<Id, Columns>, g: Group, newTurn: Id, m: Id)
    requires Same(before, after, Members(g)) && m in after && after[m].turn != newTurn
    requires forall k :: 0 <= k < |g.items| ==> g.items[k].message in after && after[g.items[k].message].turn == newTurn
    ensures m !in Members(g) && m in before && after[m] == before[m]
  {
  }

  lemma LinkStep(sessions: map<Id, Id>, before: map<Id, Columns>, after: map<Id, Columns>, groups: seq<Group>, i: nat,
                 newId: Id -> Id, all: set<Id>)
    requires i < |groups| && Usable(groups, all) && Injective(newId)
    requires AllLinked(sessions, before, groups, 0, i, newId) && NoneLinked(before, groups, i, newId)
    requires Same(before, after, Members(groups[i])) && IsLinked(sessions, after, groups[i], newId)
    ensures AllLinked(sessions, after, groups, 0, i + 1, newId) && NoneLinked(after, groups, i + 1, newId)
  {
    forall j | 0 <= j < i ensures IsLinked(sessions, after, groups[j], newId) {
      assert Apart(groups[j], groups[i]);
      OtherGroup(sessions, before, after, groups[j], groups[i], newId, {});
    }
    forall j | i < j < |groups| ensures !IsPresent(after, newId(groups[j].turn)) {
      assert Apart(groups[i], groups[j]);
      OtherGroup(sessions, before, after, groups[j], groups[i], newId, {});
    }
  }

  lemma FinishStep(sessions: map<Id, Id>, before: map<Id, Columns>, after: map<Id, Columns>, groups: seq<Group>, i: nat,
                   restored: set<Id>, newId: Id -> Id, all: set<Id>)
    requires i < |groups| && Usable(groups, all) && Injective(newId)
    requires AllFinal(before, groups, i, restored, newId) && AllLinked(sessions, before, groups, i, |groups|, newId)
    requires Same(before, after, Members(groups[i])) && FinalAll(after, groups[i], restored, newId)
    ensures AllFinal(after, groups, i + 1, restored, newId) && AllLinked(sessions, after, groups, i + 1, |groups|, newId)
  {
    EarlierFinal(sessions, before, after, groups, i, restored, newId, all);
    LaterLinked(sessions, before, after, groups, i, restored, newId, all);
  }

  lemma EarlierFinal(sessions: map<Id, Id>, before: map<Id, Columns>, after: map<Id, Columns>, groups: seq<Group>, i: nat,
                     restored: set<Id>, newId: Id -> Id, all: set<Id>)
    requires i < |groups| && Usable(groups, all) && Injective(newId) && AllFinal(before, groups, i, restored, newId)
    requires Same(before, after, Members(groups[i])) && FinalAll(after, groups[i], restored, newId)
    ensures AllFinal(after, groups, i + 1, restored, newId)
  {
    forall j | 0 <= j < i ensures FinalAll(after, groups[j], restored, newId) {
      FinishedStays(sessions, before, after, groups, j, i, restored, newId, all);
    }
  }

  lemma LaterLinked(sessions: map<Id, Id>, before: map<Id, Columns>, after: map<Id, Columns>, groups: seq<Group>, i: nat,
                    restored: set<Id>, newId: Id -> Id, all: set<Id>)
    requires i < |groups| && Usable(groups, all) && Injective(newId) && AllLinked(sessions, before, groups, i, |groups|, newId)
    requires Same(before, after, Members(groups[i])) && FinalAll(after, groups[i], restored, newId)
    ensures AllLinked(sessions, after, groups, i + 1, |groups|, newId)
  {
    forall j | i < j < |groups| ensures IsLinked(sessions, after, groups[j], newId) {
      FinishedStays(sessions, before, after, groups, j, i, restored, newId, all);
    }
  }

  lemma FinishedStays(sessions: map<Id, Id>, before: map<Id, Columns>, after: map<Id, Columns>, groups: seq<Group>, j: nat, i: nat,
                      restored: set<Id>, newId: Id -> Id, all: set<Id>)
    requires j < |groups| && i < |groups| && j != i && Usable(groups, all) && Injective(newId)
    requires Same(before, after, Members(groups[i])) && FinalAll(after, groups[i], restored, newId)
    ensures FinalAll(before, groups[j], restored, newId) ==> FinalAll(after, groups[j], restored, newId)
    ensures IsLinked(sessions, before, groups[j], newId) ==> IsLinked(sessions, after, groups[j], newId)
  {
    assert if j < i then Apart(groups[j], groups[i]) else Apart(groups[i], groups[j]);
    BesideFinished(sessions, before, after, groups[j], groups[i], restored, newId);
  }

  /** Finishing a group leaves another one linked or finished, as it was. */
  lemma BesideFinished(sessions: map<Id, Id>, before: map<Id, Columns>, after: map<Id, Columns>, g: Group, h: Group,
                       restored: set<Id>, newId: Id -> Id)
    requires Apart(g, h) && Injective(newId) && Same(before, after, Members(h)) && FinalAll(after, h, restored, newId)
    ensures FinalAll(before, g, restored, newId) ==> FinalAll(after, g, restored, newId)
    ensures IsLinked(sessions, before, g, newId) ==> IsLinked(sessions, after, g, newId)
  {
    OtherGroup(sessions, before, after, g, h, newId, restored);
  }

  /** The session's next position, if this one is higher than what is recorded; none is recorded as 0. */
  function Raise(positions: map<Id, int>, session: Id, position: int): map<Id, int> {
    if position > (if session in positions then positions[session] else 0) then positions[session := position] else positions
  }

  /** The next positions are one more than the highest position of each session. */
  ghost predicate PositionsAre(positions: map<Id, int>, groups: seq<Group>, to: nat)
    requires to <= |groups|
  {
    && (forall i :: 0 <= i < to ==> groups[i].session in positions && positions[groups[i].session] > groups[i].position)
    && (forall s :: s in positions ==>
          exists i :: 0 <= i < to && groups[i].session == s && positions[s] == groups[i].position + 1)
  }

  lemma RaiseKeeps(positions: map<Id, int>, groups: seq<Group>, i: nat)
    requires i < |groups| && groups[i].position > 0 && PositionsAre(positions, groups, i)
    ensures PositionsAre(Raise(positions, groups[i].session, groups[i].position + 1), groups, i + 1)
  {
    var g := groups[i];
    var raised := Raise(positions, g.session, g.position + 1);
    forall s | s in raised
      ensures exists j :: 0 <= j < i + 1 && groups[j].session == s && raised[s] == groups[j].position + 1
    {
      if s == g.session && raised != positions {
        assert groups[i].session == s;
      } else {
        var j :| 0 <= j < i && groups[j].session == s && positions[s] == groups[j].position + 1;
      }
    }
  }

  // ----- the list of groups stands for the rows -----

  /** What ListGroups gives for the groups of the rows. */
  ghost predicate Lists(rows: seq<Row>, re: Remap, list: seq<Group>) {
    && (forall i :: 0 <= i < |list| ==>
          GroupOf(rows, re, list[i].turn).Some? && list[i] == Bound(GroupOf(rows, re, list[i].turn).value))
    && (forall i, j :: 0 <= i < j < |list| ==> list[i].turn != list[j].turn)
    && (forall k :: GroupOf(rows, re, k).Some? ==> exists i :: 0 <= i < |list| && list[i] == Bound(GroupOf(rows, re, k).value))
  }

  lemma ListsRows(rows: seq<Row>, re: Remap, groups: map<Id, Group>, list: seq<Group>)
    requires forall k :: k in groups <==> GroupOf(rows, re, k).Some?
    requires forall k :: k in groups ==> GroupOf(rows, re, k) == Some(groups[k])
    requires Listed(groups, {}, list)
    ensures Lists(rows, re, list)
  {
  }

  lemma KeysAreTurns(rows: seq<Row>, re: Remap, groups: map<Id, Group>)
    requires forall k :: k in groups <==> GroupOf(rows, re, k).Some?
    ensures groups.Keys == TurnsOf(rows, re)
    ensures groups == map[] <==> forall i :: 0 <= i < |rows| ==> !Eligible(rows[i], re)
  {
    forall k ensures GroupOf(rows, re, k).Some? <==> k in TurnsOf(rows, re) {
      if GroupOf(rows, re, k).Some? {
        GroupIsWellMade(rows, re, k);
        var i := ItemComesFrom(rows, re, k, 0);
        assert rows[i].turn.value == k;
      }
      if i :| 0 <= i < |rows| && Eligible(rows[i], re) && rows[i].turn.value == k { GroupItems(rows, re, k, i); }
    }
    if groups == map[] {
      forall i | 0 <= i < |rows| ensures !Eligible(rows[i], re) {
        if Eligible(rows[i], re) { GroupItems(rows, re, rows[i].turn.value, i); }
      }
    } else {
      var k :| k in groups;
      GroupIsWellMade(rows, re, k);
      var i := ItemComesFrom(rows, re, k, 0);
    }
  }

  lemma {:induction false} ItemsAreDistinct(rows: seq<Row>, re: Remap, turn: Id)
    requires RowsDistinct(rows, re) && GroupOf(rows, re, turn).Some?
    ensures DistinctItems(GroupOf(rows, re, turn).value)
  {
    var init, g := rows[..|rows| - 1], GroupOf(rows, re, turn).value;
    assert forall i :: 0 <= i < |init| ==> init[i] == rows[i];
    if GroupOf(init, re, turn).Some? {
      ItemsAreDistinct(init, re, turn);
      var before := GroupOf(init, re, turn).value;
      forall k | 0 <= k < |before.items| && InTurn(rows[|rows| - 1], re, turn)
        ensures before.items[k].message != re.messages[rows[|rows| - 1].message.value]
      {
        var i := ItemComesFrom(init, re, turn, k);
        assert rows[i] == init[i];
      }
    }
  }

  /** A message is in a group exactly if it is that of a row of the group's turn. */
  lemma MembersAreRows(rows: seq<Row>, re: Remap, turn: Id, m: Id)
    requires GroupOf(rows, re, turn).Some?
    ensures m in Members(GroupOf(rows, re, turn).value)
       <==> exists i :: 0 <= i < |rows| && InTurn(rows[i], re, turn) && re.messages[rows[i].message.value] == m
  {
    var g := GroupOf(rows, re, turn).value;
    if m in Members(g) {
      var k :| 0 <= k < |g.items| && g.items[k].message == m;
      var i := ItemComesFrom(rows, re, turn, k);
    }
    if i :| 0 <= i < |rows| && InTurn(rows[i], re, turn) && re.messages[rows[i].message.value] == m {
      GroupItems(rows, re, turn, i);
      var k :| 0 <= k < |g.items| && g.items[k] == Item(m, rows[i].number.value);
      assert g.items[k].message == m;
    }
  }

  lemma GroupFits(rows: seq<Row>, re: Remap, turn: Id)
    requires RowsDistinct(rows, re) && GroupOf(rows, re, turn).Some?
    ensures Fits(Bound(GroupOf(rows, re, turn).value), EligibleMessages(rows, re))
    ensures Members(Bound(GroupOf(rows, re, turn).value)) == Members(GroupOf(rows, re, turn).value)
  {
    var g := GroupOf(rows, re, turn).value;
    GroupIsWellMade(rows, re, turn);
    ItemsAreDistinct(rows, re, turn);
    assert Bound(g).items == g.items && Bound(g).items[0].message == g.items[0].message;
    forall m | m in Members(g) ensures m in EligibleMessages(rows, re) { MembersAreRows(rows, re, turn, m); }
  }

  lemma GroupsAreApart(rows: seq<Row>, re: Remap, t: Id, u: Id)
    requires RowsDistinct(rows, re) && GroupOf(rows, re, t).Some? && GroupOf(rows, re, u).Some? && t != u
    ensures Apart(Bound(GroupOf(rows, re, t).value), Bound(GroupOf(rows, re, u).value))
  {
    var g, h := GroupOf(rows, re, t).value, GroupOf(rows, re, u).value;
    GroupFits(rows, re, t);
    GroupFits(rows, re, u);
    GroupIsWellMade(rows, re, t);
    GroupIsWellMade(rows, re, u);
    forall i, j | 0 <= i < |rows| && 0 <= j < |rows| && InTurn(rows[i], re, t) && InTurn(rows[j], re, u)
      ensures re.messages[rows[i].message.value] != re.messages[rows[j].message.value]
    {
      assert i != j;
    }
    forall m | m in Members(g) ensures m !in Members(h) {
      MembersAreRows(rows, re, t, m);
      MembersAreRows(rows, re, u, m);
    }
  }

  lemma ListIsUsable(rows: seq<Row>, re: Remap, list: seq<Group>)
    requires RowsDistinct(rows, re) && Lists(rows, re, list)
    ensures Usable(list, EligibleMessages(rows, re))
  {
    forall i | 0 <= i < |list| ensures Fits(list[i], EligibleMessages(rows, re)) { GroupFits(rows, re, list[i].turn); }
    forall i, j | 0 <= i < j < |list| ensures Apart(list[i], list[j]) { GroupsAreApart(rows, re, list[i].turn, list[j].turn); }
  }

  lemma GroupInOneSession(sessions: map<Id, Id>, rows: seq<Row>, re: Remap, turn: Id)
    requires SessionsAgree(sessions, rows, re) && GroupOf(rows, re, turn).Some?
    ensures InOneSession(sessions, GroupOf(rows, re, turn).value)
       <==> forall i :: 0 <= i < |rows| && InTurn(rows[i], re, turn) ==>
              re.sessions[rows[i].session.value] == GroupOf(rows, re, turn).value.session
  {
    var g := GroupOf(rows, re, turn).value;
    if InOneSession(sessions, g) {
      forall i | 0 <= i < |rows| && InTurn(rows[i], re, turn) ensures re.sessions[rows[i].session.value] == g.session {
        GroupItems(rows, re, turn, i);
        var k :| 0 <= k < |g.items| && g.items[k] == Item(re.messages[rows[i].message.value], rows[i].number.value);
        assert Holds(sessions, g.items[k].message, g.session);
      }
    }
    if forall i :: 0 <= i < |rows| && InTurn(rows[i], re, turn) ==> re.sessions[rows[i].session.value] == g.session {
      forall k | 0 <= k < |g.items| ensures Holds(sessions, g.items[k].message, g.session) {
        var i := ItemComesFrom(rows, re, turn, k);
      }
    }
  }

  /** The groups are each in one session exactly if no turn has rows of two sessions. */
  lemma SessionsOfList(sessions: map<Id, Id>, rows: seq<Row>, re: Remap, list: seq<Group>)
    requires SessionsAgree(sessions, rows, re) && Lists(rows, re, list)
    ensures TurnsInOneSession(rows, re) <==> forall i :: 0 <= i < |list| ==> InOneSession(sessions, list[i])
  {
    forall i | 0 <= i < |list|
      ensures InOneSession(sessions, list[i]) <==> InOneSession(sessions, GroupOf(rows, re, list[i].turn).value)
    {
    }
    if TurnsInOneSession(rows, re) {
      forall i | 0 <= i < |list| ensures InOneSession(sessions, list[i]) {
        var first := GroupStart(rows, re, list[i].turn);
        assert forall j :: 0 <= j < |rows| && InTurn(rows[j], re, list[i].turn) ==> SameTurn(rows[first], rows[j], re);
        GroupInOneSession(sessions, rows, re, list[i].turn);
      }
    }
    if forall i :: 0 <= i < |list| ==> InOneSession(sessions, list[i]) {
      forall i, j | 0 <= i < |rows| && 0 <= j < |rows| && SameTurn(rows[i], rows[j], re)
        ensures re.sessions[rows[i].session.value] == re.sessions[rows[j].session.value]
      {
        var turn := rows[i].turn.value;
        GroupItems(rows, re, turn, i);
        var n :| 0 <= n < |list| && list[n] == Bound(GroupOf(rows, re, turn).value);
        GroupIsWellMade(rows, re, turn);
        GroupInOneSession(sessions, rows, re, turn);
        assert InTurn(rows[i], re, turn);
      }
    }
  }

  /** The items of a group have different numbers exactly if its rows have. */
  lemma NumbersOfGroup(rows: seq<Row>, re: Remap, turn: Id)
    requires RowsDistinct(rows, re) && GroupOf(rows, re, turn).Some?
    ensures NumbersDiffer(GroupOf(rows, re, turn).value)
       <==> forall i, j :: 0 <= i < j < |rows| && InTurn(rows[i], re, turn) && InTurn(rows[j], re, turn) ==> rows[i].number != rows[j].number
  {
    var g := GroupOf(rows, re, turn).value;
    ItemsAreDistinct(rows, re, turn);
    if NumbersDiffer(g) {
      forall i, j | 0 <= i < j < |rows| && InTurn(rows[i], re, turn) && InTurn(rows[j], re, turn) ensures rows[i].number != rows[j].number {
        var a := ItemOf(rows, re, turn, i);
        var b := ItemOf(rows, re, turn, j);
        assert a != b;
      }
    } else {
      var a, b :| 0 <= a < b < |g.items| && g.items[a].number == g.items[b].number;
      var i := ItemComesFrom(rows, re, turn, a);
      var j := ItemComesFrom(rows, re, turn, b);
      assert i != j;
    }
  }

  lemma ItemOf(rows: seq<Row>, re: Remap, turn: Id, i: nat) returns (k: nat)
    requires i < |rows| && InTurn(rows[i], re, turn)
    ensures GroupOf(rows, re, turn).Some? && k < |GroupOf(rows, re, turn).value.items|
    ensures GroupOf(rows, re, turn).value.items[k] == Item(re.messages[rows[i].message.value], rows[i].number.value)
  {
    GroupItems(rows, re, turn, i);
    var g := GroupOf(rows, re, turn).value;
    k :| 0 <= k < |g.items| && g.items[k] == Item(re.messages[rows[i].message.value], rows[i].number.value);
  }

  /** A group's first message is in the way exactly if the turn's first row is. */
  lemma ParkedGroup(rows: seq<Row>, re: Remap, turn: Id)
    requires RowsDistinct(rows, re) && GroupOf(rows, re, turn).Some?
    ensures Parked(Bound(GroupOf(rows, re, turn).value)) <==> FirstIsInTheWay(rows, re, turn)
  {
    var g := GroupOf(rows, re, turn).value;
    var f := GroupStart(rows, re, turn);
    GroupState(rows, re, turn);
    ItemsAreDistinct(rows, re, turn);
    if g.assistant.Some? { AnswerIsSecond(rows, re, turn); }
    if Parked(Bound(g)) {
      var j: nat, k: nat :| Displaced(Bound(g), j, k);
      assert j == 0;
      var i := ItemComesFrom(rows, re, turn, k);
    }
    if FirstIsInTheWay(rows, re, turn) {
      var i :| 0 <= i < |rows| && InTurn(rows[i], re, turn) && rows[i].number.value == 2;
      var k := ItemOf(rows, re, turn, i);
      FirstIsUnique(rows, re, turn, f);
      assert Displaced(Bound(g), 0, k);
    }
  }

  lemma FirstIsUnique(rows: seq<Row>, re: Remap, turn: Id, f: nat)
    requires First(rows, re, turn, f)
    ensures forall e: nat :: First(rows, re, turn, e) ==> e == f
  {
  }

  /** An answer that a row gave has number 2. */
  lemma {:induction false} AnswerIsSecond(rows: seq<Row>, re: Remap, turn: Id)
    requires GroupOf(rows, re, turn).Some? && GroupOf(rows, re, turn).value.assistant.Some?
    ensures var g := GroupOf(rows, re, turn).value; HasItem(g, g.assistant.value, 2)
  {
    var init, g := rows[..|rows| - 1], GroupOf(rows, re, turn).value;
    var before := GroupOf(init, re, turn);
    GroupIsWellMade(rows, re, turn);
    assert g.items[|g.items| - 1] in g.items;
    if before.Some? && before.value.assistant.Some? {
      AnswerIsSecond(init, re, turn);
      assert forall x :: x in before.value.items ==> x in g.items;
    }
  }

  /** All groups can be linked exactly if the rows of all turns can. */
  lemma LinkableList(sessions: map<Id, Id>, rows: seq<Row>, re: Remap, list: seq<Group>)
    requires RowsDistinct(rows, re) && SessionsAgree(sessions, rows, re) && Lists(rows, re, list)
    ensures TurnsLinkable(rows, re) <==> forall i :: 0 <= i < |list| ==> Linkable(sessions, list[i])
  {
    SessionsOfList(sessions, rows, re, list);
    forall i | 0 <= i < |list|
      ensures Linkable(sessions, list[i]) <==> InOneSession(sessions, list[i]) && NumbersDiffer(GroupOf(rows, re, list[i].turn).value)
                                               && !FirstIsInTheWay(rows, re, list[i].turn)
    {
      ParkedGroup(rows, re, list[i].turn);
    }
    if TurnsLinkable(rows, re) {
      forall i | 0 <= i < |list| ensures NumbersDiffer(GroupOf(rows, re, list[i].turn).value) {
        NumbersOfGroup(rows, re, list[i].turn);
        NumbersOfTurn(rows, re, list[i].turn);
      }
    } else if forall i :: 0 <= i < |list| ==> Linkable(sessions, list[i]) {
      if NumberTwice(rows, re) {
        var i, j :| 0 <= i < j < |rows| && SameTurn(rows[i], rows[j], re) && rows[i].number == rows[j].number;
        TurnIsListed(rows, re, list, rows[i].turn.value, i);
        NumbersOfGroup(rows, re, rows[i].turn.value);
      } else {
        var turn :| FirstIsInTheWay(rows, re, turn);
        var f: nat :| First(rows, re, turn, f);
        TurnIsListed(rows, re, list, turn, f);
      }
    }
  }

  lemma NumbersOfTurn(rows: seq<Row>, re: Remap, turn: Id)
    requires !NumberTwice(rows, re)
    ensures forall i, j :: 0 <= i < j < |rows| && InTurn(rows[i], re, turn) && InTurn(rows[j], re, turn) ==> rows[i].number != rows[j].number
  {
    forall i, j | 0 <= i < j < |rows| && InTurn(rows[i], re, turn) && InTurn(rows[j], re, turn) ensures rows[i].number != rows[j].number {
      assert SameTurn(rows[i], rows[j], re);
    }
  }

  lemma TurnIsListed(rows: seq<Row>, re: Remap, list: seq<Group>, turn: Id, i: nat)
    requires Lists(rows, re, list) && i < |rows| && InTurn(rows[i], re, turn)
    ensures GroupOf(rows, re, turn).Some? && exists n :: 0 <= n < |list| && list[n].turn == turn
  {
    GroupItems(rows, re, turn, i);
    GroupIsWellMade(rows, re, turn);
    var n :| 0 <= n < |list| && list[n] == Bound(GroupOf(rows, re, turn).value);
  }

  lemma RestoredByList(rows: seq<Row>, re: Remap, newId: Id -> Id, list: seq<Group>, restored: set<Id>, columns: map<Id, Columns>)
    requires Lists(rows, re, list) && restored == TurnsOf(rows, re) && AllFinal(columns, list, |list|, restored, newId)
    ensures forall i :: 0 <= i < |rows| && Eligible(rows[i], re) ==> RowRestored(rows, re, newId, columns, i)
  {
    forall i | 0 <= i < |rows| && Eligible(rows[i], re) ensures RowRestored(rows, re, newId, columns, i) {
      var turn := rows[i].turn.value;
      var k := ItemOf(rows, re, turn, i);
      var g := GroupOf(rows, re, turn).value;
      var n :| 0 <= n < |list| && list[n] == Bound(g);
      assert FinalAll(columns, list[n], restored, newId) && list[n].items[k] == g.items[k];
      GroupIsWellMade(rows, re, turn);
      FinalIsRestored(rows, re, newId, turn, columns[re.messages[rows[i].message.value]], rows[i].number.value);
    }
  }

  lemma FinalIsRestored(rows: seq<Row>, re: Remap, newId: Id -> Id, turn: Id, c: Columns, number: int)
    requires GroupOf(rows, re, turn).Some? && c == Final(Bound(GroupOf(rows, re, turn).value), TurnsOf(rows, re), newId, number)
    ensures c.turn == newId(turn) && c.number == number && StateRestored(rows, re, newId, turn, c)
    ensures exists f: nat :: First(rows, re, turn, f) && c.position == rows[f].position.value
  {
    GroupIsWellMade(rows, re, turn);
    GroupState(rows, re, turn);
    GroupSuperseded(rows, re, turn);
    var f := GroupStart(rows, re, turn);
  }

  lemma EveryStartHasAPosition(rows: seq<Row>, re: Remap, list: seq<Group>, positions: map<Id, int>, s: Id, f: nat)
    requires Lists(rows, re, list) && PositionsAre(positions, list, |list|) && Starts(rows, re, s, f)
    ensures s in positions && positions[s] > rows[f].position.value
  {
    var turn := rows[f].turn.value;
    GroupItems(rows, re, turn, f);
    var e := GroupStart(rows, re, turn);
    FirstIsUnique(rows, re, turn, f);
    var n := ListedAt(rows, re, list, turn);
    RaisedAbove(positions, list, n);
  }

  lemma ListedAt(rows: seq<Row>, re: Remap, list: seq<Group>, turn: Id) returns (n: nat)
    requires Lists(rows, re, list) && GroupOf(rows, re, turn).Some?
    ensures n < |list| && list[n].session == GroupOf(rows, re, turn).value.session
    ensures list[n].position == GroupOf(rows, re, turn).value.position
  {
    n :| 0 <= n < |list| && list[n] == Bound(GroupOf(rows, re, turn).value);
  }

  lemma RaisedAbove(positions: map<Id, int>, groups: seq<Group>, n: nat)
    requires PositionsAre(positions, groups, |groups|) && n < |groups|
    ensures groups[n].session in positions && positions[groups[n].session] > groups[n].position
  {
  }

  /** The turn of every row starts in the row's session. */
  lemma RowHasAStart(rows: seq<Row>, re: Remap, s: Id, i: nat) returns (f: nat)
    requires TurnsInOneSession(rows, re) && RowOf(rows, re, s, i)
    ensures Starts(rows, re, s, f)
  {
    GroupItems(rows, re, rows[i].turn.value, i);
    f := GroupStart(rows, re, rows[i].turn.value);
    assert SameTurn(rows[i], rows[f], re);
  }

  lemma EveryPositionHasAStart(rows: seq<Row>, re: Remap, list: seq<Group>, positions: map<Id, int>, s: Id) returns (f: nat)
    requires Lists(rows, re, list) && PositionsAre(positions, list, |list|) && s in positions
    ensures Starts(rows, re, s, f) && positions[s] == rows[f].position.value + 1
  {
    var n :| 0 <= n < |list| && list[n].session == s && positions[s] == list[n].position + 1;
    ListedStands(rows, re, list, n);
    f := GroupStart(rows, re, list[n].turn);
  }

  lemma ListedStands(rows: seq<Row>, re: Remap, list: seq<Group>, n: nat)
    requires Lists(rows, re, list) && n < |list|
    ensures var g := GroupOf(rows, re, list[n].turn);
      g.Some? && list[n].session == g.value.session && list[n].position == g.value.position
  {
  }

  lemma PositionOfSession(rows: seq<Row>, re: Remap, list: seq<Group>, positions: map<Id, int>, s: Id)
    requires Lists(rows, re, list) && PositionsAre(positions, list, |list|) && TurnsInOneSession(rows, re)
    ensures s in positions <==> HasTurn(rows, re, s)
    ensures s in positions ==> NextAfter(rows, re, s, positions[s])
  {
    forall f: nat | Starts(rows, re, s, f) ensures s in positions && positions[s] > rows[f].position.value {
      EveryStartHasAPosition(rows, re, list, positions, s, f);
    }
    if s in positions { var f := EveryPositionHasAStart(rows, re, list, positions, s); }
    if i: nat :| RowOf(rows, re, s, i) { var f := RowHasAStart(rows, re, s, i); }
  }

  lemma PositionsOfList(rows: seq<Row>, re: Remap, list: seq<Group>, positions: map<Id, int>, before: map<Id, int>)
    requires Lists(rows, re, list) && PositionsAre(positions, list, |list|) && TurnsInOneSession(rows, re)
    ensures NextPositionsAre(rows, re, before, before + positions)
  {
    forall s ensures s in positions <==> HasTurn(rows, re, s)
             ensures s in positions ==> NextAfter(rows, re, s, positions[s]) {
      PositionOfSession(rows, re, list, positions, s);
    }
  }
}
