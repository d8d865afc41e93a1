/** Who manages a bot, by query and in the list. */
module ManagerList {
  import opened Permissions
  import opened Wrappers

  // The effective Manage capability of channel identities on one bot: the point query that asks for one identity, and the
  // list that merges grants, bindings and overrides.

  type Id = nat

  datatype Subject = User(user: Id) | Everyone

  /** A row of bot_user_grants; the payload is None when it is not a list of names. */
  datatype GrantRow = GrantRow(subject: Subject, payload: Option<seq<string>>)

  /** A row of user_channel_identity_bindings: a web user and a channel identity. */
  datatype Binding = Binding(user: Id, identity: Id)

  /** A row of bot_channel_admins: a local decision about one identity. */
  datatype Override = Override(identity: Id, granted: bool)

  /** What the database holds about one bot; owner is None when the bot does not exist. */
  datatype Database = Database(
    owner: Option<Id>, grants: seq<GrantRow>, bindings: seq<Binding>, overrides: seq<Override>)

  /** bot_channel_admins has one row per bot and identity. */
  ghost predicate Valid(db: Database) {
    forall i, j :: 0 <= i < j < |db.overrides| ==> db.overrides[i].identity != db.overrides[j].identity
  }

  /** One entry of ListUserGrants. */
  datatype Grant = Grant(subject: Subject, permissions: seq<string>, isOwner: bool)

  datatype Manager = Manager(manage: bool, bound: bool, inherited: bool, hasOverride: bool)

  // ----- who carries Manage -----

  ghost predicate RowCarries(row: GrantRow) { Manage in KnownIn(row.payload) }

  /** The rows ListBotUserGrantsForUser returns. */
  predicate Concerns(row: GrantRow, user: Id) { row.subject.Everyone? || row.subject.user == user }

  ghost function UnionAll(sets: seq<set<Permission>>): set<Permission> {
    if sets == [] then {} else UnionAll(sets[..|sets| - 1]) + sets[|sets| - 1]
  }

  lemma {:induction false} InUnionAll(sets: seq<set<Permission>>, p: Permission)
    ensures p in UnionAll(sets) <==> exists i :: 0 <= i < |sets| && p in sets[i]
  {
    if sets != [] {
      InUnionAll(sets[..|sets| - 1], p);
    }
  }

  /** All permissions that a user's own rows and the everyone rows mention. */
  ghost function Granted(grants: seq<GrantRow>, user: Id): set<Permission> {
    UnionAll(seq(|grants|, i requires 0 <= i < |grants| => GivenBy(grants[i], user)))
  }

  lemma GrantedSnoc(grants: seq<GrantRow>, k: nat, user: Id)
    requires k < |grants|
    ensures Granted(grants[..k + 1], user) == Granted(grants[..k], user) + GivenBy(grants[k], user)
  {
    var more := seq(k + 1, i requires 0 <= i < k + 1 => GivenBy(grants[..k + 1][i], user));
    assert more[..k] == seq(k, i requires 0 <= i < k => GivenBy(grants[..k][i], user));
  }

  ghost function GivenBy(row: GrantRow, user: Id): set<Permission> {
    if Concerns(row, user) then Closure(KnownIn(row.payload)) else {}
  }

  ghost predicate GivesManage(row: GrantRow, user: Id) { Concerns(row, user) && RowCarries(row) }

  lemma GivenManage(row: GrantRow, user: Id)
    ensures Manage in GivenBy(row, user) <==> GivesManage(row, user)
  {
    ClosureLaws(KnownIn(row.payload), {});
  }

  ghost predicate UserManages(db: Database, user: Id) {
    db.owner.Some? && (db.owner.value == user || Manage in Closure(Granted(db.grants, user)))
  }

  ghost predicate Bound(db: Database, user: Id, identity: Id) { Binding(user, identity) in db.bindings }

  ghost predicate Overridden(db: Database, identity: Id, granted: bool) { Override(identity, granted) in db.overrides }

  /** The meaning of Manage: a local decision if there is one, otherwise any bound user who manages the bot. */
  ghost predicate Manages(db: Database, identity: Id) {
    if Overridden(db, identity, true) || Overridden(db, identity, false) then Overridden(db, identity, true)
    else exists user :: Bound(db, user, identity) && UserManages(db, user)
  }

  /** Manage comes out of a union of grants only if one of the grants carries it. */
  lemma GrantedManage(grants: seq<GrantRow>, user: Id)
    ensures Manage in Granted(grants, user)
       <==> exists i :: 0 <= i < |grants| && GivesManage(grants[i], user)
  {
    var sets := seq(|grants|, i requires 0 <= i < |grants| => GivenBy(grants[i], user));
    InUnionAll(sets, Manage);
    forall i | 0 <= i < |grants| ensures Manage in sets[i] <==> GivesManage(grants[i], user) {
      GivenManage(grants[i], user);
    }
  }

  /** What one entry of the grant list means: whom it names and whether it carries Manage. */
  datatype Role = Role(subject: Subject, isOwner: bool, carries: bool)

  ghost function RowRole(row: GrantRow): Role { Role(row.subject, false, RowCarries(row)) }

  /** The owner, and then the rows. */
  ghost function Roles(db: Database): seq<Role>
    requires db.owner.Some?
  {
    [Role(User(db.owner.value), true, true)] + seq(|db.grants|, i requires 0 <= i < |db.grants| => RowRole(db.grants[i]))
  }

  ghost predicate Lifts(role: Role, user: Id) { role.carries && (role.subject.Everyone? || role.subject.user == user) }

  ghost predicate Lifted(roles: seq<Role>, user: Id) { exists i :: 0 <= i < |roles| && Lifts(roles[i], user) }

  /** Hence a user manages the bot as its owner, by an own grant, or by a grant to everyone. */
  lemma WhoManages(db: Database, user: Id)
    ensures UserManages(db, user) <==> db.owner.Some? && Lifted(Roles(db), user)
  {
    if db.owner.Some? {
      GrantedManage(db.grants, user);
      ClosureLaws(Granted(db.grants, user), {});
      var roles := Roles(db);
      assert Lifts(roles[0], user) <==> db.owner.value == user;
      forall i | 0 <= i < |db.grants| ensures Lifts(roles[i + 1], user) <==> GivesManage(db.grants[i], user) {}
      if i :| 0 <= i < |roles| && Lifts(roles[i], user) { assert i > 0 ==> GivesManage(db.grants[i - 1], user); }
    }
  }

  // ----- the point query -----

  /** ResolveUserPermissions for a user who is not an administrator; None when the bot does not exist. */
  method ResolveUserPermissions(db: Database, user: Id) returns (names: Option<seq<string>>)
    ensures names.Some? <==> db.owner.Some?
    ensures names.Some? ==> (Manage in Known(names.value) <==> UserManages(db, user))
    ensures names.Some? && db.owner.value != user ==> names.value == Names(Closure(Granted(db.grants, user)))
  {
    if db.owner.None? { return None; }
    if db.owner.value == user {
      var all := ExpandPermissionSet({Manage});
      KnownOfNames(Closure({Manage}));
      return Some(all);
    }
    var seen: set<Permission> := {};
    for i := 0 to |db.grants|
      invariant seen == Granted(db.grants[..i], user)
    {
      GrantedSnoc(db.grants, i, user);
      if Concerns(db.grants[i], user) {
        var decoded := DecodePermissions(db.grants[i].payload);
        KnownOfNames(Closure(KnownIn(db.grants[i].payload)));
        seen := AddNames(seen, decoded);
      }
    }
    assert db.grants[..|db.grants|] == db.grants;
    KnownOfNames(Closure(seen));
    var out := ExpandPermissionSet(seen);
    return Some(out);
  }

  method AddNames(seen: set<Permission>, names: seq<string>) returns (r: set<Permission>)
    ensures r == seen + Known(names)
  {
    r := seen;
    for i := 0 to |names|
      invariant r == seen + Known(names[..i])
    {
      KnownSnoc(names, i);
      var p := Parse(names[i]);
      if p.Some? { r := r + {p.value}; }
    }
    assert names[..|names|] == names;
  }

  /** userHasManage. */
  method UserHasManage(db: Database, user: Id) returns (ok: bool)
    ensures ok <==> UserManages(db, user)
  {
    var names := ResolveUserPermissions(db, user);
    if names.None? { return false; }
    BlankIsManage();
    ok := HasPermission(names.value, Name(Manage));
    ParseName(Manage);
    ClosureLaws(Known(names.value), {});
  }

  lemma BlankIsManage()
    ensures !Text.Blank(Name(Manage))
  {
    assert Name(Manage)[0] == 'm';
  }

  /** GetManageOverride. */
  method GetManageOverride(db: Database, identity: Id) returns (granted: Option<bool>)
    requires Valid(db)
    ensures granted.Some? <==> Overridden(db, identity, true) || Overridden(db, identity, false)
    ensures granted.Some? ==> (granted.value <==> Overridden(db, identity, true))
  {
    for i := 0 to |db.overrides|
      invariant forall j :: 0 <= j < i ==> db.overrides[j].identity != identity
    {
      if db.overrides[i].identity == identity {
        assert db.overrides[i] == Override(identity, db.overrides[i].granted);
        return Some(db.overrides[i].granted);
      }
    }
    return None;
  }

  /** HasManageGrant: the override if there is one, otherwise what the bound users carry. */
  method HasManageGrant(db: Database, identity: Id) returns (ok: bool)
    requires Valid(db)
    ensures ok <==> Manages(db, identity)
  {
    var granted := GetManageOverride(db, identity);
    if granted.Some? { return granted.value; }
    for i := 0 to |db.bindings|
      invariant forall j :: 0 <= j < i && db.bindings[j].identity == identity ==> !UserManages(db, db.bindings[j].user)
    {
      if db.bindings[i].identity == identity {
        var carries := UserHasManage(db, db.bindings[i].user);
        if carries {
          assert Bound(db, db.bindings[i].user, identity);
          return true;
        }
      }
    }
    return false;
  }

  // ----- the list -----

  ghost predicate Carries(g: Grant) { g.isOwner || Manage in Known(g.permissions) }

  ghost function RoleOf(g: Grant): Role { Role(g.subject, g.isOwner, Carries(g)) }

  ghost function RolesOf(items: seq<Grant>): (roles: seq<Role>)
    ensures |roles| == |items|
  {
    seq(|items|, i requires 0 <= i < |items| => RoleOf(items[i]))
  }

  lemma RolesOfSnoc(items: seq<Grant>, g: Grant)
    ensures RolesOf(items + [g]) == RolesOf(items) + [RoleOf(g)]
  {
  }

  lemma RolesSnoc(db: Database, i: nat)
    requires db.owner.Some? && i < |db.grants|
    ensures |Roles(db)| == |db.grants| + 1 && Roles(db)[..i + 2] == Roles(db)[..i + 1] + [RowRole(db.grants[i])]
  {
  }

  /** ListUserGrants: the owner, with every permission, and then the rows; None when the bot does not exist. */
  method ListUserGrants(db: Database) returns (items: Option<seq<Grant>>)
    ensures items.Some? <==> db.owner.Some?
    ensures items.Some? ==> RolesOf(items.value) == Roles(db)
  {
    if db.owner.None? { return None; }
    var first := OwnerGrant(db.owner.value);
    var list := [first];
    for i := 0 to |db.grants|
      invariant RolesOf(list) == Roles(db)[..i + 1]
    {
      var item := ReadGrant(db.grants[i]);
      RolesOfSnoc(list, item);
      RolesSnoc(db, i);
      list := list + [item];
    }
    assert Roles(db)[..|db.grants| + 1] == Roles(db);
    return Some(list);
  }

  method OwnerGrant(owner: Id) returns (item: Grant)
    ensures RoleOf(item) == Role(User(owner), true, true)
  {
    var all := ExpandPermissionSet({Manage});
    KnownOfNames(Closure({Manage}));
    item := Grant(User(owner), all, true);
  }

  method ReadGrant(row: GrantRow) returns (item: Grant)
    ensures RoleOf(item) == RowRole(row)
  {
    var names := DecodePermissions(row.payload);
    KnownOfNames(Closure(KnownIn(row.payload)));
    ClosureLaws(KnownIn(row.payload), {});
    item := Grant(row.subject, names, false);
  }

  method CarriesManage(g: Grant) returns (carries: bool)
    ensures carries <==> Carries(g)
  {
    BlankIsManage();
    ParseName(Manage);
    ClosureLaws(Known(g.permissions), {});
    var held := HasPermission(g.permissions, Name(Manage));
    carries := g.isOwner || held;
  }

  ghost function IdentitiesOf(bindings: seq<Binding>, user: Id): set<Id> {
    set b | b in bindings && b.user == user :: b.identity
  }

  ghost predicate Reaches(role: Role, bindings: seq<Binding>, carrying: bool, identity: Id) {
    role.subject.User? && (carrying ==> role.carries) && Binding(role.subject.user, identity) in bindings
  }

  ghost function ReachedFrom(role: Role, bindings: seq<Binding>, carrying: bool): set<Id> {
    if role.subject.User? && (carrying ==> role.carries) then IdentitiesOf(bindings, role.subject.user) else {}
  }

  /** The identities of all users that roles name, or of those whose role carries Manage. */
  ghost function Reached(roles: seq<Role>, bindings: seq<Binding>, carrying: bool): set<Id> {
    if roles == [] then {}
    else Reached(roles[..|roles| - 1], bindings, carrying) + ReachedFrom(roles[|roles| - 1], bindings, carrying)
  }

  lemma ReachedFromIs(role: Role, bindings: seq<Binding>, carrying: bool, identity: Id)
    ensures identity in ReachedFrom(role, bindings, carrying) <==> Reaches(role, bindings, carrying, identity)
  {
    if identity in ReachedFrom(role, bindings, carrying) {
      var b :| b in bindings && b.user == role.subject.user && b.identity == identity;
      assert b == Binding(role.subject.user, identity);
    }
  }

  lemma {:induction false} ReachedBy(roles: seq<Role>, bindings: seq<Binding>, carrying: bool, identity: Id)
    ensures identity in Reached(roles, bindings, carrying)
       <==> exists i :: 0 <= i < |roles| && Reaches(roles[i], bindings, carrying, identity)
  {
    if roles != [] {
      ReachedBy(roles[..|roles| - 1], bindings, carrying, identity);
      ReachedFromIs(roles[|roles| - 1], bindings, carrying, identity);
    }
  }

  /** The records made from bindings alone. */
  ghost predicate Records(byIdentity: map<Id, Manager>, bound: set<Id>, inherited: set<Id>) {
    && inherited <= bound
    && byIdentity.Keys == bound
    && forall id :: id in byIdentity ==> byIdentity[id] == Manager(id in inherited, true, id in inherited, false)
  }

  /** mergeManagerBinding: one binding makes an identity a member, and an inheriting one if its user carries Manage. */
  method MergeManagerBinding(byIdentity: map<Id, Manager>, identity: Id, carriesManage: bool)
      returns (r: map<Id, Manager>)
    ensures forall bound, inherited :: Records(byIdentity, bound, inherited) ==>
        Records(r, bound + {identity}, if carriesManage then inherited + {identity} else inherited)
  {
    var m := if identity in byIdentity then byIdentity[identity] else Manager(false, false, false, false);
    m := m.(bound := true);
    if carriesManage { m := m.(inherited := true, manage := true); }
    r := byIdentity[identity := m];
  }

  lemma IdentitiesSnoc(bindings: seq<Binding>, k: nat, user: Id)
    requires k < |bindings|
    ensures IdentitiesOf(bindings[..k + 1], user)
         == IdentitiesOf(bindings[..k], user) + if bindings[k].user == user then {bindings[k].identity} else {}
  {
    assert bindings[..k + 1] == bindings[..k] + [bindings[k]];
  }

  /** The bindings of one user (ListChannelIdentityBindingsForUser), merged one by one. */
  method MergeUser(byIdentity: map<Id, Manager>, bindings: seq<Binding>, user: Id, carriesManage: bool,
                   ghost bound: set<Id>, ghost inherited: set<Id>)
      returns (r: map<Id, Manager>)
    requires Records(byIdentity, bound, inherited)
    ensures Records(r, bound + IdentitiesOf(bindings, user),
                    inherited + if carriesManage then IdentitiesOf(bindings, user) else {})
  {
    r := byIdentity;
    ghost var seen: set<Id> := {};
    for i := 0 to |bindings|
      invariant seen == IdentitiesOf(bindings[..i], user)
      invariant Records(r, bound + seen, inherited + if carriesManage then seen else {})
    {
      IdentitiesSnoc(bindings, i, user);
      if bindings[i].user == user {
        r := MergeManagerBinding(r, bindings[i].identity, carriesManage);
        OneMore(bound, seen, bindings[i].identity);
        OneMore(inherited, seen, bindings[i].identity);
        seen := seen + {bindings[i].identity};
      }
    }
    assert bindings[..|bindings|] == bindings;
  }

  lemma OneMore(base: set<Id>, seen: set<Id>, identity: Id)
    ensures base + (seen + {identity}) == (base + seen) + {identity}
  {
  }

  ghost predicate EveryoneLifts(roles: seq<Role>) { exists i :: 0 <= i < |roles| && roles[i].subject.Everyone? && roles[i].carries }

  lemma EveryoneSnoc(roles: seq<Role>, role: Role)
    ensures EveryoneLifts(roles + [role]) <==> EveryoneLifts(roles) || (role.subject.Everyone? && role.carries)
  {
    var more := roles + [role];
    assert more[|roles|] == role;
    if i :| 0 <= i < |roles| && roles[i].subject.Everyone? && roles[i].carries { assert more[i] == roles[i]; }
  }

  ghost predicate HasOwnRole(roles: seq<Role>, user: Id) {
    exists i :: 0 <= i < |roles| && roles[i].subject == User(user) && !roles[i].isOwner
  }

  /** Identities bound to a user with a grant row: ListChannelIdentityBindingsForBot. */
  ghost function Scoped(roles: seq<Role>, bindings: seq<Binding>): set<Id> {
    set b | b in bindings && HasOwnRole(roles, b.user) :: b.identity
  }

  ghost function Inherited(roles: seq<Role>, bindings: seq<Binding>): set<Id> {
    Reached(roles, bindings, true) + if EveryoneLifts(roles) then Scoped(roles, bindings) else {}
  }

  /** ListManagers up to the overrides: the records of all members of the bot. */
  method ListMembers(grants: seq<GrantRow>, items: seq<Grant>, bindings: seq<Binding>) returns (byIdentity: map<Id, Manager>)
    requires forall user :: HasRow(grants, user) <==> HasOwnRole(RolesOf(items), user)
    ensures Records(byIdentity, Reached(RolesOf(items), bindings, false), Inherited(RolesOf(items), bindings))
  {
    byIdentity := map[];
    var everyoneCarries := false;
    ghost var roles: seq<Role> := [];
    for i := 0 to |items|
      invariant roles == RolesOf(items[..i])
      invariant everyoneCarries <==> EveryoneLifts(roles)
      invariant Records(byIdentity, Reached(roles, bindings, false), Reached(roles, bindings, true))
    {
      assert items[..i + 1] == items[..i] + [items[i]];
      RolesOfSnoc(items[..i], items[i]);
      var carries := CarriesManage(items[i]);
      ghost var role := RoleOf(items[i]);
      EveryoneSnoc(roles, role);
      assert (roles + [role])[..|roles|] == roles;
      if items[i].subject.Everyone? {
        everyoneCarries := everyoneCarries || carries;
      } else {
        byIdentity := MergeUser(byIdentity, bindings, items[i].subject.user, carries,
                                Reached(roles, bindings, false), Reached(roles, bindings, true));
      }
      roles := roles + [role];
    }
    assert items[..|items|] == items;
    if everyoneCarries {
      byIdentity := MergeScoped(byIdentity, grants, bindings, roles);
    }
  }

  predicate HasRow(grants: seq<GrantRow>, user: Id) {
    exists i :: 0 <= i < |grants| && grants[i].subject == User(user)
  }

  lemma RowsAreOwnRoles(db: Database, user: Id)
    requires db.owner.Some?
    ensures HasRow(db.grants, user) <==> HasOwnRole(Roles(db), user)
  {
    var roles := Roles(db);
    if i :| 0 <= i < |db.grants| && db.grants[i].subject == User(user) { assert roles[i + 1].subject == User(user); }
    if i :| 0 <= i < |roles| && roles[i].subject == User(user) && !roles[i].isOwner {
      assert db.grants[i - 1].subject == User(user);
    }
  }

  method MergeScoped(byIdentity: map<Id, Manager>, grants: seq<GrantRow>, bindings: seq<Binding>, ghost roles: seq<Role>)
      returns (r: map<Id, Manager>)
    requires Records(byIdentity, Reached(roles, bindings, false), Reached(roles, bindings, true))
    requires forall user :: HasRow(grants, user) <==> HasOwnRole(roles, user)
    ensures Records(r, Reached(roles, bindings, false), Reached(roles, bindings, true) + Scoped(roles, bindings))
  {
    r := byIdentity;
    ghost var bound, inherited := Reached(roles, bindings, false), Reached(roles, bindings, true);
    for i := 0 to |bindings|
      invariant Records(r, bound, inherited + Scoped(roles, bindings[..i]))
    {
      assert bindings[..i + 1] == bindings[..i] + [bindings[i]];
      if HasRow(grants, bindings[i].user) {
        ScopedIsReached(roles, bindings, bindings[i]);
        assert bound + {bindings[i].identity} == bound;
        r := MergeManagerBinding(r, bindings[i].identity, true);
        assert inherited + Scoped(roles, bindings[..i + 1])
            == (inherited + Scoped(roles, bindings[..i])) + {bindings[i].identity};
      } else {
        assert Scoped(roles, bindings[..i + 1]) == Scoped(roles, bindings[..i]);
      }
    }
    assert bindings[..|bindings|] == bindings;
  }

  lemma ScopedIsReached(roles: seq<Role>, bindings: seq<Binding>, b: Binding)
    requires b in bindings && HasOwnRole(roles, b.user)
    ensures b.identity in Reached(roles, bindings, false)
  {
    ReachedBy(roles, bindings, false, b.identity);
    var i :| 0 <= i < |roles| && roles[i].subject == User(b.user) && !roles[i].isOwner;
    assert b == Binding(b.user, b.identity);
    assert Reaches(roles[i], bindings, false, b.identity);
  }

  // ----- the two views agree -----

  /** An identity is a member exactly when it is bound to the owner or to a user with a grant row. */
  ghost predicate Member(db: Database, identity: Id) {
    exists user :: Bound(db, user, identity) && db.owner.Some? && (db.owner.value == user || HasRow(db.grants, user))
  }

  lemma ReachedAreMembers(db: Database, identity: Id)
    requires db.owner.Some?
    ensures identity in Reached(Roles(db), db.bindings, false) <==> Member(db, identity)
  {
    var roles := Roles(db);
    ReachedBy(roles, db.bindings, false, identity);
    if Member(db, identity) {
      var user :| Bound(db, user, identity) && (db.owner.value == user || HasRow(db.grants, user));
      if db.owner.value == user {
        assert Reaches(roles[0], db.bindings, false, identity);
      } else {
        var i :| 0 <= i < |db.grants| && db.grants[i].subject == User(user);
        assert Reaches(roles[i + 1], db.bindings, false, identity);
      }
    }
    if i :| 0 <= i < |roles| && Reaches(roles[i], db.bindings, false, identity) {
      assert Bound(db, roles[i].subject.user, identity);
      if i > 0 { assert db.grants[i - 1].subject == User(roles[i].subject.user); }
    }
  }

  /** Some bound user manages the bot. */
  ghost predicate Inherits(db: Database, identity: Id) {
    exists user :: Bound(db, user, identity) && UserManages(db, user)
  }

  /** Some user bound to the identity is lifted by a role. */
  ghost predicate SomeLifted(roles: seq<Role>, bindings: seq<Binding>, identity: Id) {
    exists user :: Binding(user, identity) in bindings && Lifted(roles, user)
  }

  /** For members, merging by role finds exactly the identities that have a lifted user. */
  lemma MergingFindsTheLifted(roles: seq<Role>, bindings: seq<Binding>, identity: Id)
    requires |roles| > 0 && roles[0].isOwner && roles[0].subject.User? && roles[0].carries
    requires forall i :: 0 < i < |roles| ==> !roles[i].isOwner
    requires identity in Reached(roles, bindings, false)
    ensures identity in Inherited(roles, bindings) <==> SomeLifted(roles, bindings, identity)
  {
    ReachedBy(roles, bindings, true, identity);
    ReachedBy(roles, bindings, false, identity);
    if identity in Inherited(roles, bindings) { FoundIsLifted(roles, bindings, identity); }
    if SomeLifted(roles, bindings, identity) { LiftedIsFound(roles, bindings, identity); }
  }

  lemma FoundIsLifted(roles: seq<Role>, bindings: seq<Binding>, identity: Id)
    requires identity in Inherited(roles, bindings)
    ensures SomeLifted(roles, bindings, identity)
  {
    ReachedBy(roles, bindings, true, identity);
    if identity in Reached(roles, bindings, true) {
      var i :| 0 <= i < |roles| && Reaches(roles[i], bindings, true, identity);
      assert Lifts(roles[i], roles[i].subject.user);
      assert Lifted(roles, roles[i].subject.user);
    } else {
      var b :| b in bindings && HasOwnRole(roles, b.user) && b.identity == identity;
      var i :| 0 <= i < |roles| && roles[i].subject.Everyone? && roles[i].carries;
      assert b == Binding(b.user, identity) && Lifts(roles[i], b.user);
      assert Lifted(roles, b.user);
    }
  }

  lemma LiftedIsFound(roles: seq<Role>, bindings: seq<Binding>, identity: Id)
    requires |roles| > 0 && roles[0].isOwner && roles[0].subject.User? && roles[0].carries
    requires forall i :: 0 < i < |roles| ==> !roles[i].isOwner
    requires identity in Reached(roles, bindings, false) && SomeLifted(roles, bindings, identity)
    ensures identity in Inherited(roles, bindings)
  {
    ReachedBy(roles, bindings, true, identity);
    ReachedBy(roles, bindings, false, identity);
    var user :| Binding(user, identity) in bindings && Lifted(roles, user);
    var i :| 0 <= i < |roles| && Lifts(roles[i], user);
    if roles[i].subject.User? {
      assert Reaches(roles[i], bindings, true, identity);
    } else {
      var k :| 0 <= k < |roles| && Reaches(roles[k], bindings, false, identity);
      if k == 0 {
        assert Reaches(roles[0], bindings, true, identity);
      } else {
        var b := Binding(roles[k].subject.user, identity);
        assert roles[k].subject == User(b.user) && HasOwnRole(roles, b.user);
        assert b in bindings && b.identity == identity;
      }
    }
  }

  lemma LiftedIsInherits(db: Database, identity: Id)
    requires db.owner.Some?
    ensures SomeLifted(Roles(db), db.bindings, identity) <==> Inherits(db, identity)
  {
    forall user ensures UserManages(db, user) <==> Lifted(Roles(db), user) { WhoManages(db, user); }
    if user :| Binding(user, identity) in db.bindings && Lifted(Roles(db), user) { assert Bound(db, user, identity); }
    if user :| Bound(db, user, identity) && UserManages(db, user) { assert Binding(user, identity) in db.bindings; }
  }

  ghost predicate HasOverride(db: Database, identity: Id) { Overridden(db, identity, true) || Overridden(db, identity, false) }

  lemma LiftedBySelf(db: Database, user: Id)
    requires db.owner.Some? && Lifted(Roles(db), user) && !EveryoneLifts(Roles(db))
    ensures db.owner.value == user || HasRow(db.grants, user)
  {
    RolesAre(db);
    OwnRoleLifts(db.grants, db.owner.value, Roles(db), user);
  }

  lemma RolesAre(db: Database)
    requires db.owner.Some?
    ensures var roles := Roles(db);
      && |roles| == |db.grants| + 1 && roles[0].subject == User(db.owner.value)
      && forall i :: 0 < i < |roles| ==> roles[i].subject == db.grants[i - 1].subject
  {
  }

  lemma OwnRoleLifts(grants: seq<GrantRow>, owner: Id, roles: seq<Role>, user: Id)
    requires |roles| == |grants| + 1 && roles[0].subject == User(owner)
    requires forall i :: 0 < i < |roles| ==> roles[i].subject == grants[i - 1].subject
    requires Lifted(roles, user) && !EveryoneLifts(roles)
    ensures owner == user || HasRow(grants, user)
  {
    var i :| 0 <= i < |roles| && Lifts(roles[i], user);
    assert roles[i].subject == User(user);
    if i > 0 { assert grants[i - 1].subject == User(user); }
  }

  /** An identity that the list leaves out has Manage only where everyone does: the point query answers for
      any identity with a binding, and the list shows members of the bot alone. */
  lemma UnlistedManagers(db: Database, identity: Id)
    requires db.owner.Some? && !Member(db, identity) && !HasOverride(db, identity)
    ensures Manages(db, identity) <==> EveryoneLifts(Roles(db)) && exists user :: Bound(db, user, identity)
  {
    forall user | Bound(db, user, identity) ensures UserManages(db, user) <==> EveryoneLifts(Roles(db)) {
      WhoManages(db, user);
      var roles := Roles(db);
      if UserManages(db, user) && !EveryoneLifts(roles) { LiftedBySelf(db, user); }
      if i :| 0 <= i < |roles| && roles[i].subject.Everyone? && roles[i].carries { assert Lifts(roles[i], user); }
    }
  }

  /** A record of the finished list says what the point query says. */
  ghost predicate Agrees(db: Database, identity: Id, m: Manager) {
    && (m.manage <==> Manages(db, identity))
    && (m.bound <==> Member(db, identity))
    && (m.inherited <==> Member(db, identity) && Inherits(db, identity))
    && (m.hasOverride <==> HasOverride(db, identity))
  }

  /** ListManagers: members of the bot and identities with an override, each with the Manage that
      HasManageGrant gives it; None when the bot does not exist. */
  method ListManagers(db: Database) returns (list: Option<map<Id, Manager>>)
    requires Valid(db)
    ensures list.Some? <==> db.owner.Some?
    ensures list.Some? ==> forall id :: id in list.value <==> Member(db, id) || HasOverride(db, id)
    ensures list.Some? ==> forall id :: id in list.value ==> Agrees(db, id, list.value[id])
  {
    var items := ListUserGrants(db);
    if items.None? { return None; }
    forall user ensures HasRow(db.grants, user) <==> HasOwnRole(RolesOf(items.value), user) { RowsAreOwnRoles(db, user); }
    var byIdentity := ListMembers(db.grants, items.value, db.bindings);
    MembersAgree(db, byIdentity);
    byIdentity := ApplyOverrides(db, byIdentity);
    return Some(byIdentity);
  }

  /** The records before the overrides: members only, with what they inherit. */
  ghost predicate MembersOnly(db: Database, byIdentity: map<Id, Manager>) {
    && (forall id :: id in byIdentity <==> Member(db, id))
    && (forall id :: id in byIdentity ==> byIdentity[id] == Manager(Inherits(db, id), true, Inherits(db, id), false))
  }

  lemma MembersAgree(db: Database, byIdentity: map<Id, Manager>)
    requires db.owner.Some?
    requires Records(byIdentity, Reached(Roles(db), db.bindings, false), Inherited(Roles(db), db.bindings))
    ensures MembersOnly(db, byIdentity)
  {
    forall id ensures id in byIdentity <==> Member(db, id) { ReachedAreMembers(db, id); }
    forall id | id in byIdentity ensures id in Inherited(Roles(db), db.bindings) <==> Inherits(db, id) {
      MergingFindsTheLifted(Roles(db), db.bindings, id);
      LiftedIsInherits(db, id);
    }
  }

  method ApplyOverrides(db: Database, members: map<Id, Manager>) returns (byIdentity: map<Id, Manager>)
    requires Valid(db) && MembersOnly(db, members)
    ensures forall id :: id in byIdentity <==> Member(db, id) || HasOverride(db, id)
    ensures forall id :: id in byIdentity ==> Agrees(db, id, byIdentity[id])
  {
    byIdentity := ApplyEach(db, members);
    AppliedAgrees(db, members, byIdentity);
  }

  /** The loop over the overrides. */
  method ApplyEach(db: Database, members: map<Id, Manager>) returns (byIdentity: map<Id, Manager>)
    requires Valid(db)
    ensures Applied(members, db.overrides, byIdentity)
  {
    byIdentity := members;
    for i := 0 to |db.overrides|
      invariant Applied(members, db.overrides[..i], byIdentity)
    {
      var o := db.overrides[i];
      NextOverride(db, i);
      var m := if o.identity in byIdentity then byIdentity[o.identity] else Manager(false, false, false, false);
      ApplyOne(members, db.overrides[..i], byIdentity, o);
      byIdentity := byIdentity[o.identity := m.(hasOverride := true, manage := o.granted)];
    }
    assert db.overrides[..|db.overrides|] == db.overrides;
  }

  lemma NextOverride(db: Database, i: nat)
    requires Valid(db) && i < |db.overrides|
    ensures !Decided(db.overrides[..i], db.overrides[i].identity)
    ensures db.overrides[..i + 1] == db.overrides[..i] + [db.overrides[i]]
  {
  }

  /** byIdentity is members with these overrides applied. */
  ghost predicate Applied(members: map<Id, Manager>, overrides: seq<Override>, byIdentity: map<Id, Manager>) {
    && (forall id :: id in byIdentity <==> id in members || Decided(overrides, id))
    && (forall id :: id in byIdentity && !Decided(overrides, id) ==> byIdentity[id] == members[id])
    && (forall j :: 0 <= j < |overrides| ==> byIdentity[overrides[j].identity] == Overriding(members, overrides[j]))
  }

  lemma ApplyOne(members: map<Id, Manager>, overrides: seq<Override>, byIdentity: map<Id, Manager>, o: Override)
    requires Applied(members, overrides, byIdentity) && !Decided(overrides, o.identity)
    ensures var m := if o.identity in byIdentity then byIdentity[o.identity] else Manager(false, false, false, false);
      Applied(members, overrides + [o], byIdentity[o.identity := m.(hasOverride := true, manage := o.granted)])
  {
    DecidedSnoc(overrides, o);
    forall j | 0 <= j < |overrides| ensures overrides[j].identity != o.identity {
      assert Decided(overrides, overrides[j].identity);
    }
  }

  lemma AppliedAgrees(db: Database, members: map<Id, Manager>, byIdentity: map<Id, Manager>)
    requires Valid(db) && MembersOnly(db, members) && Applied(members, db.overrides, byIdentity)
    ensures forall id :: id in byIdentity <==> Member(db, id) || HasOverride(db, id)
    ensures forall id :: id in byIdentity ==> Agrees(db, id, byIdentity[id])
  {
    forall id ensures Decided(db.overrides, id) <==> HasOverride(db, id) { UndecidedIs(db, id); }
    forall id | id in byIdentity ensures Agrees(db, id, byIdentity[id]) {
      if Decided(db.overrides, id) { DecidedAgrees(db, members, byIdentity, id); } else { UndecidedIs(db, id); }
    }
  }

  ghost predicate Decided(overrides: seq<Override>, id: Id) {
    exists j :: 0 <= j < |overrides| && overrides[j].identity == id
  }

  lemma DecidedSnoc(overrides: seq<Override>, o: Override)
    ensures forall id :: Decided(overrides + [o], id) <==> Decided(overrides, id) || id == o.identity
  {
    var more := overrides + [o];
    forall id ensures Decided(more, id) <==> Decided(overrides, id) || id == o.identity {
      if j :| 0 <= j < |overrides| && overrides[j].identity == id { assert more[j].identity == id; }
      assert more[|overrides|] == o;
    }
  }

  function Overriding(members: map<Id, Manager>, o: Override): Manager {
    var m := if o.identity in members then members[o.identity] else Manager(false, false, false, false);
    m.(hasOverride := true, manage := o.granted)
  }

  lemma UndecidedIs(db: Database, id: Id)
    ensures Decided(db.overrides, id) <==> HasOverride(db, id)
  {
    if j :| 0 <= j < |db.overrides| && db.overrides[j].identity == id {
      assert db.overrides[j] == Override(id, db.overrides[j].granted);
    }
  }

  lemma DecidedAgrees(db: Database, members: map<Id, Manager>, byIdentity: map<Id, Manager>, id: Id)
    requires Valid(db) && MembersOnly(db, members) && Decided(db.overrides, id) && id in byIdentity
    requires forall j :: 0 <= j < |db.overrides| ==>
        db.overrides[j].identity in byIdentity && byIdentity[db.overrides[j].identity] == Overriding(members, db.overrides[j])
    ensures Agrees(db, id, byIdentity[id])
  {
    var j :| 0 <= j < |db.overrides| && db.overrides[j].identity == id;
    UndecidedIs(db, id);
    assert db.overrides[j] == Override(id, db.overrides[j].granted);
  }
}
