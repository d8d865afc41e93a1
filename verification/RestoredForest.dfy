/** The sessions that a restore has created, against the parents recorded in the backup. */
module RestoredForest {
  import opened SessionForest
  import opened Wrappers

  /** The session, its parent, and so on to one without a parent, all in the backup. */
  ghost predicate Chain(sessions: seq<Session>, path: seq<Session>) {
    && path != [] && (forall i :: 0 <= i < |path| ==> path[i] in sessions)
    && (forall i :: 0 <= i < |path| - 1 ==> path[i].parent == Some(path[i + 1].id))
    && path[|path| - 1].parent.None?
  }

  ghost predicate HasRoot(sessions: seq<Session>, s: Session) { exists path :: Chain(sessions, path) && path[0] == s }

  lemma {:induction false} RootedChain(sessions: seq<Session>, id: Id, n: nat) returns (path: seq<Session>)
    requires Rooted(sessions, id, n)
    ensures Chain(sessions, path) && path[0].id == id
    decreases n
  {
    var s :| s in sessions && s.id == id && (s.parent.None? || (n > 0 && Rooted(sessions, s.parent.value, n - 1)));
    if s.parent.None? {
      path := [s];
    } else {
      var rest := RootedChain(sessions, s.parent.value, n - 1);
      path := [s] + rest;
      assert forall i :: 0 < i < |path| ==> path[i] == rest[i - 1];
    }
  }

  lemma {:induction false} ChainRooted(sessions: seq<Session>, path: seq<Session>)
    requires Chain(sessions, path)
    ensures Rooted(sessions, path[0].id, |path| - 1)
    decreases |path|
  {
    if |path| > 1 {
      var rest := path[1..];
      assert forall i :: 0 <= i < |rest| ==> rest[i] == path[i + 1];
      ChainRooted(sessions, rest);
      assert path[0].parent == Some(rest[0].id);
    }
  }

  lemma SameSession(sessions: seq<Session>, s: Session, t: Session)
    requires DistinctIds(sessions) && s in sessions && t in sessions && s.id == t.id
    ensures s == t
  {
  }

  /** The ancestors of a session end at a root exactly if such a chain begins with it. */
  lemma EndsAtRootIff(sessions: seq<Session>, s: Session)
    requires DistinctIds(sessions) && s in sessions
    ensures EndsAtRoot(sessions, s.id) <==> HasRoot(sessions, s)
  {
    if n: nat :| Rooted(sessions, s.id, n) {
      var path := RootedChain(sessions, s.id, n);
      SameSession(sessions, s, path[0]);
      assert Chain(sessions, path) && path[0] == s;
    }
    if path :| Chain(sessions, path) && path[0] == s { ChainRooted(sessions, path); }
  }

  /** A call that created a session of the backup: under its own parent's new id if a chain leads from it to a root, and without
      a parent otherwise. */
  ghost predicate CreatedAs(sessions: seq<Session>, ids: map<Id, Id>, s: Session, c: Created) {
    && c.source == s.id && s.id in ids && ids[s.id] == c.newId
    && (if s.parent.Some? && HasRoot(sessions, s) then s.parent.value in ids && c.parent == Some(ids[s.parent.value])
        else c.parent == None)
  }

  /** After a restore, finished or not, every call was for one session of the backup and as it should be, and no session or new
      id has two; after one that finished, every session has one. */
  lemma ForestIsRestored(sessions: seq<Session>, log: seq<Created>, ids: map<Id, Id>)
    requires DistinctIds(sessions) && LogMatches(log, ids) && LogRight(sessions, log, ids)
    ensures forall c :: c in log ==> exists s :: s in sessions && CreatedAs(sessions, ids, s, c)
    ensures forall i, j :: 0 <= i < j < |log| ==> log[i].source != log[j].source && log[i].newId != log[j].newId
    ensures (forall s :: s in sessions ==> s.id in ids) ==>
      forall s :: s in sessions ==> exists c :: c in log && CreatedAs(sessions, ids, s, c)
  {
    forall c | c in log ensures exists s :: s in sessions && CreatedAs(sessions, ids, s, c) {
      var s :| s in sessions && s.id == c.source && RightParent(sessions, s, ids, c.parent);
      EndsAtRootIff(sessions, s);
      assert CreatedAs(sessions, ids, s, c);
    }
    if forall s :: s in sessions ==> s.id in ids {
      forall s | s in sessions ensures exists c :: c in log && CreatedAs(sessions, ids, s, c) {
        var c :| c in log && c.source == s.id;
        var t :| t in sessions && CreatedAs(sessions, ids, t, c);
        SameSession(sessions, s, t);
      }
    }
  }
}
