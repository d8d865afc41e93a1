/** Which rows of a backup a restore of recorded turns brings back. */
module RestoredRows {
  import opened HistoryTurns
  import opened RecordedTurns
  import opened Wrappers

  /** The row says which message it is, of which session and turn, and where it stands in them; and its message and session
      have been restored. */
  predicate Complete(r: Row, re: Remap) {
    && r.message.Some? && r.message.value in re.messages
    && r.session.Some? && r.session.value in re.sessions
    && r.turn.Some?
    && r.position.Some? && r.position.value >= 1
    && r.number.Some? && r.number.value >= 1
  }

  predicate SameTurn(r: Row, other: Row, re: Remap) { Complete(r, re) && Complete(other, re) && r.turn == other.turn }

  /** A row takes part by where it stands alone: whether it is visible, who wrote it, and whether its turn has been superseded
      make no difference. */
  lemma OnlyThePlaceCounts(r: Row, re: Remap, role: Role, visible: bool, at: Option<int>, heir: Option<Id>, reason: Option<nat>)
    ensures Eligible(r.(role := role, visible := visible, supersededAt := at, supersededBy := heir, reason := reason), re)
       <==> Eligible(r, re)
  {
  }

  /** After a restore, every complete row has its message in the new turn, with its number. */
  lemma CompleteRowsAreRestored(rows: seq<Row>, re: Remap, newId: Id -> Id, before: map<Id, Columns>, after: map<Id, Columns>, i: nat)
    requires Restored(rows, re, newId, before, after) && i < |rows| && Complete(rows[i], re)
    ensures var m := re.messages[rows[i].message.value];
      m in after && after[m].turn == newId(rows[i].turn.value) && after[m].number == rows[i].number.value
  {
    assert RowRestored(rows, re, newId, after, i);
  }

  /** A message that no complete row names is left alone. */
  lemma OtherMessagesStay(rows: seq<Row>, re: Remap, newId: Id -> Id, before: map<Id, Columns>, after: map<Id, Columns>, m: Id)
    requires Restored(rows, re, newId, before, after)
    requires forall i :: 0 <= i < |rows| && Complete(rows[i], re) ==> re.messages[rows[i].message.value] != m
    ensures m in after <==> m in before
    ensures m in before ==> after[m] == before[m]
  {
    assert m !in EligibleMessages(rows, re);
  }

  lemma StateSuperseded(rows: seq<Row>, re: Remap, newId: Id -> Id, turn: Id, c: Columns, j: nat)
    requires StateRestored(rows, re, newId, turn, c) && j < |rows| && Supersedes(rows[j], re, turn)
    ensures !c.visible && c.superseded.Some? && c.superseded.value.at >= rows[j].supersededAt.value
  {
    var l: nat :| Latest(rows, re, turn, l) && c.superseded == Some(Renamed(SupersededBy(rows[l]), TurnsOf(rows, re), newId));
  }

  /** If one row of a turn says that it was superseded, every message of the turn comes back hidden and superseded, not
      before that time. */
  lemma SupersededComesBack(rows: seq<Row>, re: Remap, newId: Id -> Id, before: map<Id, Columns>, after: map<Id, Columns>, i: nat, j: nat)
    requires Restored(rows, re, newId, before, after) && i < |rows| && j < |rows|
    requires SameTurn(rows[i], rows[j], re) && rows[j].supersededAt.Some?
    ensures var c := after[re.messages[rows[i].message.value]];
      !c.visible && c.superseded.Some? && c.superseded.value.at >= rows[j].supersededAt.value
  {
    assert RowRestored(rows, re, newId, after, i);
    StateSuperseded(rows, re, newId, rows[i].turn.value, after[re.messages[rows[i].message.value]], j);
  }

  /** If none does, they come back visible if one of the rows was, and hidden if none was. */
  lemma VisibilityComesBack(rows: seq<Row>, re: Remap, newId: Id -> Id, before: map<Id, Columns>, after: map<Id, Columns>, i: nat)
    requires Restored(rows, re, newId, before, after) && i < |rows| && Complete(rows[i], re)
    requires forall j :: 0 <= j < |rows| && SameTurn(rows[i], rows[j], re) ==> rows[j].supersededAt.None?
    ensures var c := after[re.messages[rows[i].message.value]];
      && c.superseded == None
      && (c.visible <==> exists j :: 0 <= j < |rows| && SameTurn(rows[i], rows[j], re) && rows[j].visible)
  {
    assert RowRestored(rows, re, newId, after, i);
    assert forall j :: 0 <= j < |rows| ==> (InTurn(rows[j], re, rows[i].turn.value) <==> SameTurn(rows[i], rows[j], re));
  }

  /** A turn of a single row comes back as it was: at its position; hidden and superseded for the same reason if it was
      superseded, by its heir under the new id if that came back; and otherwise as visible as it was. */
  lemma LoneRowComesBack(rows: seq<Row>, re: Remap, newId: Id -> Id, before: map<Id, Columns>, after: map<Id, Columns>, i: nat)
    requires Restored(rows, re, newId, before, after) && i < |rows| && Complete(rows[i], re)
    requires forall j :: 0 <= j < |rows| && j != i ==> rows[j].turn != rows[i].turn
    ensures var m, r := re.messages[rows[i].message.value], rows[i];
      && m in after && after[m].turn == newId(r.turn.value) && after[m].position == r.position.value
      && after[m].number == r.number.value
      && (if r.supersededAt.None? then after[m].superseded == None && after[m].visible == r.visible
          else
            && !after[m].visible && after[m].superseded.Some?
            && after[m].superseded.value.at == r.supersededAt.value && after[m].superseded.value.reason == r.reason
            && (r.supersededBy.None? ==> after[m].superseded.value.heir == None)
            && (r.supersededBy.Some? ==>
                  after[m].superseded.value.heir
                  == if exists j :: 0 <= j < |rows| && Complete(rows[j], re) && rows[j].turn == r.supersededBy
                     then Some(newId(r.supersededBy.value)) else None))
  {
    var turn := rows[i].turn.value;
    assert RowRestored(rows, re, newId, after, i);
    assert forall j :: 0 <= j < |rows| ==> (InTurn(rows[j], re, turn) <==> j == i);
    assert First(rows, re, turn, i);
    if rows[i].supersededAt.Some? {
      assert Supersedes(rows[i], re, turn);
      var l: nat :| Latest(rows, re, turn, l)
                    && after[re.messages[rows[i].message.value]].superseded == Some(Renamed(SupersededBy(rows[l]), TurnsOf(rows, re), newId));
      assert l == i;
    }
  }
}
