/** The session forest of a restored backup. */
module SessionForest {
  import opened Wrappers

  // The session part of restoreHistory: sessions are created parents first, in repeated passes over those still pending,
  // and whatever can make no progress is created without a parent.

  type Id = nat

  /** A session of the backup; a parent id that is not valid is None. */
  datatype Session = Session(id: Id, parent: Option<Id>)

  /** A CreateSession call that succeeded: for which backup session, the id it returned, the parent passed. */
  datatype Created = Created(source: Id, newId: Id, parent: Option<Id>)

  predicate DistinctIds(sessions: seq<Session>) {
    forall i, j :: 0 <= i < j < |sessions| ==> sessions[i].id != sessions[j].id
  }

  // ----- what the parents should be -----

  /** The chain of ancestors of id, inside the backup, reaches a session without a parent in n steps or fewer. */
  ghost predicate Rooted(sessions: seq<Session>, id: Id, n: nat)
    decreases n
  {
    exists s :: s in sessions && s.id == id
      && (s.parent.None? || (n > 0 && Rooted(sessions, s.parent.value, n - 1)))
  }

  ghost predicate EndsAtRoot(sessions: seq<Session>, id: Id) {
    exists n: nat :: Rooted(sessions, id, n)
  }

  /** A session keeps its parent, under the parent's new id, exactly when its ancestors end at a root. */
  ghost predicate RightParent(sessions: seq<Session>, s: Session, ids: map<Id, Id>, parent: Option<Id>) {
    if s.parent.Some? && EndsAtRoot(sessions, s.id)
    then s.parent.value in ids && parent == Some(ids[s.parent.value])
    else parent == None
  }

  lemma RootIsRooted(sessions: seq<Session>, s: Session)
    requires s in sessions && s.parent.None?
    ensures EndsAtRoot(sessions, s.id)
  {
    assert Rooted(sessions, s.id, 0);
  }

  lemma ChildIsRooted(sessions: seq<Session>, s: Session)
    requires s in sessions && s.parent.Some? && EndsAtRoot(sessions, s.parent.value)
    ensures EndsAtRoot(sessions, s.id)
  {
    var n: nat :| Rooted(sessions, s.parent.value, n);
    assert Rooted(sessions, s.id, n + 1);
  }

  /** When each of a set of ids has its parent in the set or outside the backup, none of them ends at a
      root: they lie on a cycle, or hang off one or off a missing ancestor. */
  lemma {:induction false} StuckIsUnrooted(sessions: seq<Session>, stuck: set<Id>, id: Id, n: nat)
    requires forall s :: s in sessions && s.id in stuck ==>
      s.parent.Some? && (s.parent.value in stuck || forall t :: t in sessions ==> t.id != s.parent.value)
    requires id in stuck
    ensures !Rooted(sessions, id, n)
    decreases n
  {
    if Rooted(sessions, id, n) {
      var s :| s in sessions && s.id == id && (s.parent.None? || (n > 0 && Rooted(sessions, s.parent.value, n - 1)));
      if s.parent.value in stuck {
        StuckIsUnrooted(sessions, stuck, s.parent.value, n - 1);
      }
      assert false;
    }
  }

  // ----- the loops -----

  /** ids maps each created session to the id its one CreateSession call returned. */
  ghost predicate LogMatches(log: seq<Created>, ids: map<Id, Id>) {
    && (forall c :: c in log ==> c.source in ids && ids[c.source] == c.newId)
    && (forall id :: id in ids ==> exists c :: c in log && c.source == id)
    && (forall i, j :: 0 <= i < j < |log| ==> log[i].source != log[j].source && log[i].newId != log[j].newId)
    && (forall i :: 0 <= i < |log| ==> log[i].newId == i)
  }

  /** Every call so far was for a session of the backup, and passed the parent it should have. */
  ghost predicate LogRight(sessions: seq<Session>, log: seq<Created>, ids: map<Id, Id>) {
    forall c :: c in log ==> exists s :: s in sessions && s.id == c.source && RightParent(sessions, s, ids, c.parent)
  }

  ghost predicate Pending(sessions: seq<Session>, ids: map<Id, Id>, waiting: seq<Session>) {
    && DistinctIds(waiting)
    && forall s :: s in waiting <==> s in sessions && s.id !in ids
  }

  /** What holds between two calls: waiting is what is still to be created, and the calls so far were right. */
  ghost predicate Going(sessions: seq<Session>, log: seq<Created>, ids: map<Id, Id>, waiting: seq<Session>) {
    && DistinctIds(sessions) && Pending(sessions, ids, waiting) && |log| + |waiting| == |sessions|
    && LogMatches(log, ids) && LogRight(sessions, log, ids)
  }

  /** Everything created so far was created by a pass that made progress. */
  ghost predicate AllRooted(sessions: seq<Session>, ids: map<Id, Id>) {
    forall id :: id in ids ==> EndsAtRoot(sessions, id)
  }

  lemma Move(sessions: seq<Session>, log: seq<Created>, ids: map<Id, Id>, a: seq<Session>, item: Session, b: seq<Session>)
    requires Going(sessions, log, ids, a + [item] + b)
    ensures Going(sessions, log, ids, a + (b + [item]))
  {
    var w, v := a + [item] + b, a + (b + [item]);
    AroundItem(a, item, b);
    MembersMoved(a, item, b);
    forall i, j | 0 <= i < j < |v| ensures v[i].id != v[j].id {
      MovedFrom(a, item, b, i);
      MovedFrom(a, item, b, j);
    }
  }

  /** Where an element of the sequence with the item moved to the end has come from. */
  function From(a: seq<Session>, b: seq<Session>, i: nat): nat {
    if i < |a| then i else if i < |a| + |b| then i + 1 else |a|
  }

  lemma MovedFrom(a: seq<Session>, item: Session, b: seq<Session>, i: nat)
    requires i < |a + (b + [item])|
    ensures (a + (b + [item]))[i] == (a + [item] + b)[From(a, b, i)]
  {
  }

  lemma MembersMoved(a: seq<Session>, item: Session, b: seq<Session>)
    ensures forall s :: s in a + [item] + b <==> s in a + (b + [item])
  {
  }

  lemma AroundItem(a: seq<Session>, item: Session, b: seq<Session>)
    ensures var w := a + [item] + b;
      && w[|a|] == item
      && (forall i :: 0 <= i < |b| ==> b[i] == w[|a| + 1 + i])
      && (forall i :: 0 <= i < |a| ==> a[i] == w[i])
  {
  }

  lemma Create(sessions: seq<Session>, log: seq<Created>, ids: map<Id, Id>,
               a: seq<Session>, item: Session, b: seq<Session>, parent: Option<Id>)
    requires Going(sessions, log, ids, a + [item] + b) && RightParent(sessions, item, ids, parent)
    ensures Going(sessions, log + [Created(item.id, |log|, parent)], ids[item.id := |log|], a + b)
  {
    var w := a + [item] + b;
    AroundItem(a, item, b);
    forall s ensures s in a + b <==> s in sessions && s.id !in ids[item.id := |log|] {
      assert s in w <==> s in a + b || s == item;
    }
    var log' := log + [Created(item.id, |log|, parent)];
    forall c | c in log' ensures exists s :: s in sessions && s.id == c.source && RightParent(sessions, s, ids[item.id := |log|], c.parent) {
      if c in log {
        var s :| s in sessions && s.id == c.source && RightParent(sessions, s, ids, c.parent);
        assert RightParent(sessions, s, ids[item.id := |log|], c.parent);
      } else {
        assert RightParent(sessions, item, ids[item.id := |log|], c.parent);
      }
    }
  }

  /** A session without a parent, or whose parent has been created, is created by a pass. */
  lemma CreateRooted(sessions: seq<Session>, log: seq<Created>, ids: map<Id, Id>, a: seq<Session>, item: Session, b: seq<Session>)
    requires Going(sessions, log, ids, a + [item] + b) && AllRooted(sessions, ids)
    requires item.parent.Some? ==> item.parent.value in ids
    ensures var parent := if item.parent.Some? then Some(ids[item.parent.value]) else None;
      Going(sessions, log + [Created(item.id, |log|, parent)], ids[item.id := |log|], a + b)
    ensures AllRooted(sessions, ids[item.id := |log|])
  {
    assert (a + [item] + b)[|a|] == item;
    assert item in a + [item] + b;
    if item.parent.Some? { ChildIsRooted(sessions, item); } else { RootIsRooted(sessions, item); }
    Create(sessions, log, ids, a, item, b, if item.parent.Some? then Some(ids[item.parent.value]) else None);
  }

  /** One pass over the sessions that wait, from the last to the first: those whose parent is there, or that
      have none, are created; the others wait on in next, in the reverse order. */
  method Pass(sessions: seq<Session>, budget: nat, log0: seq<Created>, ids0: map<Id, Id>, pending: seq<Session>)
    returns (ok: bool, log: seq<Created>, ids: map<Id, Id>, next: seq<Session>, progressed: bool)
    requires Going(sessions, log0, ids0, pending) && AllRooted(sessions, ids0) && |log0| <= budget
    ensures |log| <= budget && (!ok ==> |log| == budget < |sessions| && LogMatches(log, ids) && LogRight(sessions, log, ids))
    ensures ok ==> Going(sessions, log, ids, next) && AllRooted(sessions, ids)
    ensures ok && progressed ==> |next| < |pending|
    ensures ok && !progressed ==> forall s :: s in next ==> s.parent.Some? && s.parent.value !in ids
  {
    log, ids, next, progressed := log0, ids0, [], false;
    var i := |pending|;
    assert pending[..i] + next == pending;
    while i > 0
      invariant 0 <= i <= |pending|
      invariant Going(sessions, log, ids, pending[..i] + next) && AllRooted(sessions, ids) && |log| <= budget
      invariant |next| <= |pending| - i && (progressed ==> |next| < |pending| - i)
      invariant !progressed ==> forall s :: s in next ==> s.parent.Some? && s.parent.value !in ids
    {
      i := i - 1;
      var item := pending[i];
      assert pending[..i + 1] + next == pending[..i] + [item] + next;
      if item.parent.Some? && item.parent.value !in ids {
        Move(sessions, log, ids, pending[..i], item, next);
        next := next + [item];
      } else {
        var parent := if item.parent.Some? then Some(ids[item.parent.value]) else None;
        if |log| == budget { return false, log, ids, next, progressed; }
        CreateRooted(sessions, log, ids, pending[..i], item, next);
        log, ids := log + [Created(item.id, |log|, parent)], ids[item.id := |log|];
        progressed := true;
      }
    }
    assert pending[..0] + next == next;
    ok := true;
  }

  /** The session loop of restoreHistory; the database accepts budget CreateSession calls.  Each backup
      session is created exactly once, and with its own parent exactly when its ancestors end at a root. */
  method RestoreSessions(sessions: seq<Session>, budget: nat) returns (ok: bool, log: seq<Created>, ids: map<Id, Id>)
    requires DistinctIds(sessions)
    ensures ok == (|sessions| <= budget)
    ensures |log| == if ok then |sessions| else budget
    ensures LogMatches(log, ids) && LogRight(sessions, log, ids)
    ensures ok ==> forall s :: s in sessions ==> s.id in ids
  {
    log, ids := [], map[];
    var pending := sessions;
    while pending != []
      invariant Going(sessions, log, ids, pending) && AllRooted(sessions, ids) && |log| <= budget
      decreases |pending|
    {
      var next, progressed;
      ok, log, ids, next, progressed := Pass(sessions, budget, log, ids, pending);
      if !ok { return; }
      if !progressed {
        ok, log, ids := CreateWithoutParents(sessions, budget, log, ids, next);
        return;
      }
      pending := next;
    }
    ok := true;
  }

  /** No session of next can make progress: create them all without a parent. */
  method CreateWithoutParents(sessions: seq<Session>, budget: nat, log0: seq<Created>, ids0: map<Id, Id>, next: seq<Session>)
    returns (ok: bool, log: seq<Created>, ids: map<Id, Id>)
    requires Going(sessions, log0, ids0, next) && |log0| <= budget
    requires forall s :: s in next ==> s.parent.Some? && s.parent.value !in ids0
    ensures ok == (|sessions| <= budget)
    ensures |log| == if ok then |sessions| else budget
    ensures LogMatches(log, ids) && LogRight(sessions, log, ids)
    ensures ok ==> forall s :: s in sessions ==> s.id in ids
  {
    NextIsUnrooted(sessions, log0, ids0, next);
    log, ids := log0, ids0;
    var i := |next|;
    assert next[..i] == next;
    while i > 0
      invariant 0 <= i <= |next|
      invariant Going(sessions, log, ids, next[..i]) && |log| <= budget
    {
      i := i - 1;
      assert next[..i + 1] == next[..i] + [next[i]] + [] && next[..i] + [] == next[..i];
      if |log| == budget { return false, log, ids; }
      Create(sessions, log, ids, next[..i], next[i], [], None);
      log, ids := log + [Created(next[i].id, |log|, None)], ids[next[i].id := |log|];
    }
    ok := true;
  }

  lemma NextIsUnrooted(sessions: seq<Session>, log: seq<Created>, ids: map<Id, Id>, next: seq<Session>)
    requires Going(sessions, log, ids, next)
    requires forall s :: s in next ==> s.parent.Some? && s.parent.value !in ids
    ensures forall s :: s in next ==> !EndsAtRoot(sessions, s.id)
  {
    var stuck := set s | s in next :: s.id;
    forall s | s in next ensures !EndsAtRoot(sessions, s.id) {
      forall n: nat ensures !Rooted(sessions, s.id, n) {
        StuckIsUnrooted(sessions, stuck, s.id, n);
      }
    }
  }
}
