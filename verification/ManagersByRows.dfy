/** Who manages a bot, in terms of the rows of the database. */
module ManagersByRows {
  import opened ManagerList
  import opened Permissions
  import opened Text
  import opened Wrappers

  /** The grant names the permission to manage, trimmed and in any case. */
  predicate NamesManage(g: GrantRow) {
    g.payload.Some? && exists i :: 0 <= i < |g.payload.value| && Lower(Trim(g.payload.value[i])) == "manage"
  }

  lemma CarriesIff(g: GrantRow)
    ensures RowCarries(g) <==> NamesManage(g)
  {
    if g.payload.Some? {
      var names := g.payload.value;
      forall i | 0 <= i < |names| ensures Parse(names[i]) == Some(Manage) <==> Lower(Trim(names[i])) == "manage" {
        LookupIs(Lower(Trim(names[i])), Manage);
      }
    }
  }

  /** A user manages a bot that is there as its owner, or by a grant that names it, to the user or to everyone. */
  lemma UserManagesIff(db: Database, user: Id)
    ensures UserManages(db, user) <==>
      && db.owner.Some?
      && (db.owner.value == user
          || exists g :: g in db.grants && (g.subject == User(user) || g.subject == Everyone) && NamesManage(g))
  {
    ClosureLaws(Granted(db.grants, user), {});
    GrantedManage(db.grants, user);
    if i :| 0 <= i < |db.grants| && GivesManage(db.grants[i], user) {
      CarriesIff(db.grants[i]);
      assert db.grants[i] in db.grants;
    }
    if g :| g in db.grants && (g.subject == User(user) || g.subject == Everyone) && NamesManage(g) {
      CarriesIff(g);
      var i :| 0 <= i < |db.grants| && db.grants[i] == g;
      assert GivesManage(db.grants[i], user);
    }
  }

  /** An identity has manage if the decision about it says so, or if there is none and it is bound to a user who manages the bot. */
  lemma ManagesIff(db: Database, identity: Id)
    requires Valid(db)
    ensures Manages(db, identity) <==>
      || (exists o :: o in db.overrides && o.identity == identity && o.granted)
      || ((forall o :: o in db.overrides ==> o.identity != identity)
          && exists b :: b in db.bindings && b.identity == identity && UserManages(db, b.user))
  {
    if o :| o in db.overrides && o.identity == identity { assert Overridden(db, identity, o.granted); }
    if o :| o in db.overrides && o.identity == identity && o.granted { assert Overridden(db, identity, true); }
    if user :| Bound(db, user, identity) && UserManages(db, user) { assert Binding(user, identity) in db.bindings; }
    if b :| b in db.bindings && b.identity == identity && UserManages(db, b.user) { assert Bound(db, b.user, identity); }
  }

  /** The list is that of the identities bound to the owner or to a user with a grant of their own, and of those with a decision;
      each is shown with the answer of the point query, and with whether it would have manage without a decision. */
  lemma ListedIff(db: Database, list: map<Id, Manager>, id: Id)
    requires Valid(db) && db.owner.Some?
    requires forall i :: i in list <==> Member(db, i) || HasOverride(db, i)
    requires forall i :: i in list ==> Agrees(db, i, list[i])
    ensures id in list <==>
      || (exists b :: b in db.bindings && b.identity == id && (b.user == db.owner.value || exists g :: g in db.grants && g.subject == User(b.user)))
      || (exists o :: o in db.overrides && o.identity == id)
    ensures id in list ==> (list[id].manage <==> Manages(db, id))
    ensures id in list ==> (list[id].hasOverride <==> exists o :: o in db.overrides && o.identity == id)
    ensures id in list ==>
      (list[id].inherited <==> list[id].bound && exists b :: b in db.bindings && b.identity == id && UserManages(db, b.user))
    ensures id in list ==> list[id].bound || list[id].hasOverride
  {
    MemberIff(db, id);
    if o :| o in db.overrides && o.identity == id { assert Overridden(db, id, o.granted); }
    if Overridden(db, id, true) { assert Override(id, true) in db.overrides; }
    if Overridden(db, id, false) { assert Override(id, false) in db.overrides; }
    if user :| Bound(db, user, id) && UserManages(db, user) { assert Binding(user, id) in db.bindings; }
    if b :| b in db.bindings && b.identity == id && UserManages(db, b.user) { assert Bound(db, b.user, id); }
  }

  lemma MemberIff(db: Database, id: Id)
    requires db.owner.Some?
    ensures Member(db, id) <==>
      exists b :: b in db.bindings && b.identity == id && (b.user == db.owner.value || exists g :: g in db.grants && g.subject == User(b.user))
  {
    if user :| Bound(db, user, id) && (db.owner.value == user || HasRow(db.grants, user)) {
      assert Binding(user, id) in db.bindings;
      if db.owner.value != user {
        var i :| 0 <= i < |db.grants| && db.grants[i].subject == User(user);
        assert db.grants[i] in db.grants;
      }
    }
    if b :| b in db.bindings && b.identity == id && (b.user == db.owner.value || exists g :: g in db.grants && g.subject == User(b.user)) {
      assert Bound(db, b.user, id);
      if b.user != db.owner.value {
        var g :| g in db.grants && g.subject == User(b.user);
        var i :| 0 <= i < |db.grants| && db.grants[i] == g;
      }
    }
  }
}
