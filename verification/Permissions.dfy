/** Permissions on a bot: names as they are stored, and sets. */
module Permissions {
  import opened Text
  import opened Wrappers

  datatype Permission = Chat | WorkspaceRead | WorkspaceWrite | WorkspaceExec | Manage

  const ALL: seq<Permission> := [Chat, WorkspaceRead, WorkspaceWrite, WorkspaceExec, Manage]

  const NAMES: seq<string> := ["chat", "workspace_read", "workspace_write", "workspace_exec", "manage"]

  function Name(p: Permission): string {
    match p
    case Chat => NAMES[0]
    case WorkspaceRead => NAMES[1]
    case WorkspaceWrite => NAMES[2]
    case WorkspaceExec => NAMES[3]
    case Manage => NAMES[4]
  }

  /** The first of the first upTo permissions that has this name. */
  function Find(key: string, upTo: nat): (r: Option<Permission>)
    requires upTo <= |ALL|
  {
    if upTo == 0 then None
    else if Find(key, upTo - 1).Some? then Find(key, upTo - 1)
    else if Name(ALL[upTo - 1]) == key then Some(ALL[upTo - 1])
    else None
  }

  /** A stored name after trimming and lower-casing: one of the five, or nothing. */
  function Lookup(key: string): Option<Permission> { Find(key, |ALL|) }

  lemma {:induction false} FindIs(key: string, upTo: nat)
    requires upTo <= |ALL|
    ensures Find(key, upTo).Some? ==> Name(Find(key, upTo).value) == key
    ensures Find(key, upTo).None? ==> forall i :: 0 <= i < upTo ==> Name(ALL[i]) != key
  {
    if upTo > 0 { FindIs(key, upTo - 1); }
  }

  lemma NamesDiffer(p: Permission, q: Permission)
    ensures Name(p) == Name(q) ==> p == q
  {
    if Name(p) == Name(q) {
      assert |Name(p)| == |Name(q)| && Name(p)[0] == Name(q)[0];
      assert |Name(p)| > 11 ==> Name(p)[11] == Name(q)[11];
    }
  }

  lemma InAll(p: Permission)
    ensures p in ALL
  {
    match p
    case Chat => assert ALL[0] == p;
    case WorkspaceRead => assert ALL[1] == p;
    case WorkspaceWrite => assert ALL[2] == p;
    case WorkspaceExec => assert ALL[3] == p;
    case Manage => assert ALL[4] == p;
  }

  lemma LookupIs(key: string, p: Permission)
    ensures Lookup(key) == Some(p) <==> Name(p) == key
  {
    FindIs(key, |ALL|);
    InAll(p);
    if Lookup(key).Some? { NamesDiffer(p, Lookup(key).value); }
  }

  function Parse(name: string): Option<Permission> { Lookup(Lower(Trim(name))) }

  lemma ParseName(p: Permission)
    ensures Parse(Name(p)) == Some(p)
  {
    var n := Name(p);
    assert n != [] && !IsSpace(n[0]) && !IsSpace(n[|n| - 1]);
    TrimFixed(n);
    LowerFixed(n);
    LookupIs(n, p);
  }

  lemma {:induction false} LowerFixed(s: string)
    requires forall i :: 0 <= i < |s| ==> LowerChar(s[i]) == s[i]
    ensures Lower(s) == s
  {
    if s != [] { LowerFixed(s[1..]); }
  }

  /** The permissions that a list of names mentions; unknown names stand for nothing. */
  ghost function Known(names: seq<string>): set<Permission> {
    set i | 0 <= i < |names| && Parse(names[i]).Some? :: Parse(names[i]).value
  }

  /** manage implies every permission, and workspace_write implies workspace_read. */
  ghost predicate Closed(s: set<Permission>) {
    (Manage in s ==> forall p: Permission :: p in s) && (WorkspaceWrite in s ==> WorkspaceRead in s)
  }

  ghost function Closure(s: set<Permission>): set<Permission> {
    var all := if Manage in s then {Chat, WorkspaceRead, WorkspaceWrite, WorkspaceExec, Manage} else s;
    if WorkspaceWrite in all then all + {WorkspaceRead} else all
  }

  /** Expansion gives the least closed set above its argument. */
  lemma ClosureIsLeast(s: set<Permission>, t: set<Permission>)
    ensures s <= Closure(s) && Closed(Closure(s))
    ensures s <= t && Closed(t) ==> Closure(s) <= t
  {
    forall p: Permission | Manage in s ensures p in Closure(s) { assert p.Chat? || p.WorkspaceRead? || p.WorkspaceWrite? || p.WorkspaceExec? || p.Manage?; }
  }

  /** Hence it is idempotent and monotone, commutes with union, and never makes manage out of anything else. */
  lemma ClosureLaws(s: set<Permission>, t: set<Permission>)
    ensures Closure(Closure(s)) == Closure(s)
    ensures s <= t ==> Closure(s) <= Closure(t)
    ensures Closure(s + t) == Closure(s) + Closure(t)
    ensures Manage in Closure(s) <==> Manage in s
  {
    ClosureIsLeast(Closure(s), Closure(s));
    ClosureIsLeast(s, Closure(t));
    ClosureIsLeast(s, Closure(s));
    ClosureIsLeast(t, Closure(t));
    ClosureIsLeast(t, Closure(s + t));
    ClosureIsLeast(s, Closure(s + t));
    ClosureIsLeast(s + t, Closure(s) + Closure(t));
    ClosureIsLeast(s + t, Closure(s + t));
  }

  /** A set as the canonical list of names. */
  ghost function Listing(s: set<Permission>, upTo: nat): seq<string>
    requires upTo <= |ALL|
  {
    if upTo == 0 then []
    else Listing(s, upTo - 1) + if ALL[upTo - 1] in s then [Name(ALL[upTo - 1])] else []
  }

  ghost function Names(s: set<Permission>): seq<string> { Listing(s, |ALL|) }

  lemma {:induction false} ListingIn(s: set<Permission>, upTo: nat)
    requires upTo <= |ALL|
    ensures forall name :: name in Listing(s, upTo) <==> exists i :: 0 <= i < upTo && ALL[i] in s && name == Name(ALL[i])
  {
    if upTo > 0 { ListingIn(s, upTo - 1); }
  }

  lemma NameListed(s: set<Permission>, key: string)
    ensures key in Names(s) <==> Lookup(key).Some? && Lookup(key).value in s
  {
    ListingIn(s, |ALL|);
    if key in Names(s) {
      var i :| 0 <= i < |ALL| && ALL[i] in s && key == Name(ALL[i]);
      LookupIs(key, ALL[i]);
    }
    match Lookup(key)
    case None =>
    case Some(p) =>
      LookupIs(key, p);
      InAll(p);
  }

  lemma MentionedByNames(s: set<Permission>, p: Permission)
    ensures p in Known(Names(s)) <==> p in s
  {
    LookupIs(Name(p), p);
    NameListed(s, Name(p));
    ParseName(p);
    if p in s {
      var i :| 0 <= i < |Names(s)| && Names(s)[i] == Name(p);
      assert Parse(Names(s)[i]) == Some(p);
    }
    if p in Known(Names(s)) {
      var i :| 0 <= i < |Names(s)| && Parse(Names(s)[i]) == Some(p);
      ListingIn(s, |ALL|);
      assert Names(s)[i] in Names(s);
      var k :| 0 <= k < |ALL| && ALL[k] in s && Names(s)[i] == Name(ALL[k]);
      ParseName(ALL[k]);
    }
  }

  /** The names of a set mention exactly that set. */
  lemma KnownOfNames(s: set<Permission>)
    ensures Known(Names(s)) == s
  {
    forall p: Permission ensures p in Known(Names(s)) <==> p in s { MentionedByNames(s, p); }
  }

  /** expandPermissionSet. */
  method ExpandPermissionSet(mentioned: set<Permission>) returns (out: seq<string>)
    ensures out == Names(Closure(mentioned))
  {
    var seen := mentioned;
    if Manage in seen {
      for i := 0 to |ALL|
        invariant mentioned <= seen && forall p :: p in seen <==> p in mentioned || p in ALL[..i]
      {
        seen := seen + {ALL[i]};
      }
    }
    if WorkspaceWrite in seen { seen := seen + {WorkspaceRead}; }
    assert ALL[..|ALL|] == ALL;
    assert Manage in mentioned ==> forall p: Permission :: p in seen by {
      forall p: Permission | Manage in mentioned ensures p in seen { InAll(p); }
    }
    ClosureIsLeast(mentioned, seen);
    assert seen == Closure(mentioned);
    out := [];
    for i := 0 to |ALL|
      invariant out == Listing(seen, i)
    {
      if ALL[i] in seen { out := out + [Name(ALL[i])]; }
    }
  }

  /** expandPermissions. */
  method ExpandPermissions(names: seq<string>) returns (out: seq<string>)
    ensures out == Names(Closure(Known(names)))
  {
    var seen: set<Permission> := {};
    for i := 0 to |names|
      invariant seen == Known(names[..i])
    {
      KnownSnoc(names, i);
      var p := Parse(names[i]);
      if p.Some? { seen := seen + {p.value}; }
    }
    assert names[..|names|] == names;
    out := ExpandPermissionSet(seen);
  }

  ghost function Just(name: string): set<Permission> {
    match Parse(name) case Some(p) => {p} case None => {}
  }

  lemma KnownAppend(names: seq<string>, name: string)
    ensures Known(names + [name]) == Known(names) + Just(name)
  {
    var more := names + [name];
    forall p ensures p in Known(more) <==> p in Known(names) || p in Just(name) {
      if p in Known(names) {
        var i :| 0 <= i < |names| && Parse(names[i]) == Some(p);
        assert more[i] == names[i];
      }
      if p in Just(name) { assert more[|names|] == name; }
    }
  }

  lemma KnownSnoc(names: seq<string>, k: nat)
    requires k < |names|
    ensures Known(names[..k + 1]) == Known(names[..k]) + Just(names[k])
  {
    assert names[..k + 1] == names[..k] + [names[k]];
    KnownAppend(names[..k], names[k]);
  }

  /** hasPermission: a blank requirement means manage, and an unknown one is never satisfied. */
  method HasPermission(granted: seq<string>, required: string) returns (ok: bool)
    ensures Blank(required) ==> (ok <==> Manage in Known(granted))
    ensures !Blank(required) ==> (ok <==> Parse(required).Some? && Parse(required).value in Closure(Known(granted)))
  {
    var key := Lower(Trim(required));
    TrimEmpty(required);
    if key == "" { key := Name(Manage); }
    var perms := ExpandPermissions(granted);
    ghost var held := Closure(Known(granted));
    ListingIn(held, |ALL|);
    ClosureLaws(Known(granted), {});
    ok := key in perms;
    NameListed(held, key);
    LookupIs(key, Manage);
  }

  lemma BlankName(name: string)
    ensures Lower(Trim(name)) == "" <==> Blank(name)
    ensures Blank(name) ==> Just(name) == {}
  {
    TrimEmpty(name);
    if Parse(name).Some? { LookupIs(Lower(Trim(name)), Parse(name).value); }
  }

  /** A name that is neither blank nor one of the five. */
  ghost predicate Unknown(name: string) { !Blank(name) && Just(name) == {} }

  /** The names that are known are the five, trimmed and in any case. */
  lemma UnknownIs(name: string)
    ensures Unknown(name) <==> !Blank(name) && forall p: Permission :: Lower(Trim(name)) != Name(p)
    ensures forall p: Permission :: p in Just(name) <==> Lower(Trim(name)) == Name(p)
  {
    forall p: Permission ensures p in Just(name) <==> Lower(Trim(name)) == Name(p) { LookupIs(Lower(Trim(name)), p); }
  }

  ghost predicate NoneUnknown(names: seq<string>) {
    names == [] || (NoneUnknown(names[..|names| - 1]) && !Unknown(names[|names| - 1]))
  }

  lemma {:induction false} NoneUnknownIs(names: seq<string>)
    ensures NoneUnknown(names) <==> forall i :: 0 <= i < |names| ==> !Unknown(names[i])
  {
    if names != [] {
      NoneUnknownIs(names[..|names| - 1]);
      assert names == names[..|names| - 1] + [names[|names| - 1]];
    }
  }

  lemma NamesSnoc(names: seq<string>, k: nat)
    requires k < |names|
    ensures Known(names[..k + 1]) == Known(names[..k]) + Just(names[k])
    ensures NoneUnknown(names[..k + 1]) <==> NoneUnknown(names[..k]) && !Unknown(names[k])
  {
    KnownSnoc(names, k);
    assert names[..k + 1][..k] == names[..k];
  }

  /** normalizePermissions fails on an unknown name, and on a list that names no permission at all. */
  method NormalizePermissions(raw: seq<string>) returns (out: Option<seq<string>>)
    ensures out.None? <==> Known(raw) == {} || exists i :: 0 <= i < |raw| && Unknown(raw[i])
    ensures out.Some? ==> out.value == Names(Closure(Known(raw)))
  {
    NoneUnknownIs(raw);
    var ok, seen := ReadNames(raw);
    if !ok { return None; }
    out := NamesOrNone(seen);
  }

  /** The loop over the names. */
  method ReadNames(raw: seq<string>) returns (ok: bool, seen: set<Permission>)
    ensures ok <==> NoneUnknown(raw)
    ensures ok ==> seen == Known(raw)
  {
    seen := {};
    for i := 0 to |raw|
      invariant NoneUnknown(raw[..i]) && seen == Known(raw[..i])
    {
      NamesSnoc(raw, i);
      var known, read := ReadName(raw[i]);
      if !known {
        UnknownStays(raw, i + 1);
        return false, seen;
      }
      seen := seen + read;
    }
    assert raw[..|raw|] == raw;
    ok := true;
  }

  lemma UnknownStays(names: seq<string>, k: nat)
    requires k <= |names| && !NoneUnknown(names[..k])
    ensures !NoneUnknown(names)
  {
    NoneUnknownIs(names[..k]);
    NoneUnknownIs(names);
    var i :| 0 <= i < k && Unknown(names[..k][i]);
    assert Unknown(names[i]);
  }

  /** One name of the loop: a blank one stands for nothing, and an unknown one is an error. */
  method ReadName(name: string) returns (known: bool, read: set<Permission>)
    ensures known <==> !Unknown(name)
    ensures read == Just(name)
  {
    BlankName(name);
    match Parse(name)
    case Some(p) =>
      return true, {p};
    case None =>
      return Lower(Trim(name)) == "", {};
  }

  method NamesOrNone(seen: set<Permission>) returns (out: Option<seq<string>>)
    ensures out == if seen == {} then None else Some(Names(Closure(seen)))
  {
    var names := ExpandPermissionSet(seen);
    NamesEmpty(Closure(seen));
    ClosureIsLeast(seen, {});
    out := if |names| == 0 then None else Some(names);
  }

  lemma NamesEmpty(s: set<Permission>)
    ensures Names(s) == [] <==> s == {}
  {
    KnownOfNames(s);
    ListingOfNone(|ALL|);
  }

  lemma {:induction false} ListingOfNone(upTo: nat)
    requires upTo <= |ALL|
    ensures Listing({}, upTo) == []
  {
    if upTo > 0 { ListingOfNone(upTo - 1); }
  }

  /** decodePermissions: a payload that is not a list of names stands for none. */
  method DecodePermissions(payload: Option<seq<string>>) returns (out: seq<string>)
    ensures out == Names(Closure(KnownIn(payload)))
  {
    if payload.None? { ListingOfNone(|ALL|); return []; }
    var names := payload.value;
    var keys: seq<string> := [];
    for i := 0 to |names|
      invariant Known(keys) == Known(names[..i])
    {
      KnownSnoc(names, i);
      var p := Parse(names[i]);
      if p.Some? {
        ParseName(p.value);
        KnownAppend(keys, Name(p.value));
        keys := keys + [Name(p.value)];
      }
    }
    assert names[..|names|] == names;
    out := ExpandPermissions(keys);
  }

  /** What is stored reads back as it was written: decoding normalized names gives the same names. */
  lemma StoredNamesAreStable(s: set<Permission>)
    ensures Names(Closure(Known(Names(Closure(s))))) == Names(Closure(s))
  {
    KnownOfNames(Closure(s));
    ClosureLaws(s, s);
  }

  ghost function KnownIn(payload: Option<seq<string>>): set<Permission> {
    match payload case Some(names) => Known(names) case None => {}
  }
}
