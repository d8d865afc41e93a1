/** Enriching provider templates: the reasoning metadata of a model entry is set, or corrected, in its YAML node.
    A node is a value; a model entry is an object whose node is replaced.  The content of a mapping is the list of its
    keys and values in turn, as the YAML library has it. */
module Enricher {
  import opened Seqs
  import opened Wrappers

  datatype Kind = Scalar | Sequence | Mapping | OtherKind

  /** A YAML node; the content of a mapping alternates between keys and values. */
  datatype Node = Node(kind: Kind, value: string, content: seq<Node>)

  const THINKING: string := "thinking_mode"
  const EFFORTS: string := "reasoning_efforts"
  const COMPATIBILITIES: string := "compatibilities"
  const REASONING: string := "reasoning"
  const CONFIG: string := "config"
  const NONE: string := "none"

  function Text(value: string): Node { Node(Scalar, value, []) }

  // ----- reading and writing the content of a mapping -----

  function GetIn(content: seq<Node>, key: string): Option<Node> {
    if |content| < 2 then None
    else if content[0].value == key then Some(content[1])
    else GetIn(content[2..], key)
  }

  function SetIn(content: seq<Node>, key: string, value: Node): seq<Node> {
    if |content| < 2 then content + [Text(key), value]
    else if content[0].value == key then content[1 := value]
    else content[..2] + SetIn(content[2..], key, value)
  }

  function DeleteIn(content: seq<Node>, key: string): seq<Node> {
    if |content| < 2 then content
    else if content[0].value == key then content[2..]
    else content[..2] + DeleteIn(content[2..], key)
  }

  /** mapValue: only a mapping has values. */
  function Get(n: Node, key: string): Option<Node> { if n.kind.Mapping? then GetIn(n.content, key) else None }

  /** mapSet does not look at the kind of the node, mapDelete does. */
  function Set(n: Node, key: string, value: Node): Node { n.(content := SetIn(n.content, key, value)) }

  function Delete(n: Node, key: string): Node { if n.kind.Mapping? then n.(content := DeleteIn(n.content, key)) else n }

  method MapValue(n: Node, key: string) returns (value: Option<Node>)
    ensures value == Get(n, key)
  {
    if !n.kind.Mapping? { return None; }
    var i := 0;
    while i + 1 < |n.content|
      invariant 0 <= i <= |n.content| && GetIn(n.content, key) == GetIn(n.content[i..], key)
    {
      if n.content[i].value == key { return Some(n.content[i + 1]); }
      assert n.content[i..][2..] == n.content[i + 2..];
      i := i + 2;
    }
    return None;
  }

  method MapSet(n: Node, key: string, value: Node) returns (r: Node)
    ensures r == Set(n, key, value)
  {
    var i := 0;
    EmptyEnds(SetIn(n.content, key, value));
    while i + 1 < |n.content|
      invariant 0 <= i <= |n.content|
      invariant SetIn(n.content, key, value) == n.content[..i] + SetIn(n.content[i..], key, value)
    {
      if n.content[i].value == key {
        SetHere(n.content, i, value);
        return n.(content := n.content[i + 1 := value]);
      }
      SkipPair(n.content, i, SetIn(n.content[i + 2..], key, value));
      i := i + 2;
    }
    Halves(n.content, i);
    Assoc(n.content[..i], n.content[i..], [Text(key), value]);
    r := n.(content := n.content + [Text(key), value]);
  }

  lemma SetHere(content: seq<Node>, i: nat, value: Node)
    requires i + 1 < |content|
    ensures content[..i] + content[i..][1 := value] == content[i + 1 := value]
  {
  }

  /** A pair that is passed over goes to the front part. */
  lemma SkipPair(content: seq<Node>, i: nat, rest: seq<Node>)
    requires i + 1 < |content|
    ensures content[i..][2..] == content[i + 2..]
    ensures content[..i] + (content[i..][..2] + rest) == content[..i + 2] + rest
  {
    DropMore(content, i, 2);
    TakeOfDrop(content, i, 2);
    TakeMore(content, i, i + 2);
    Assoc(content[..i], content[i..][..2], rest);
  }

  method MapDelete(n: Node, key: string) returns (r: Node)
    ensures r == Delete(n, key)
  {
    if !n.kind.Mapping? { return n; }
    var i := 0;
    EmptyEnds(DeleteIn(n.content, key));
    while i + 1 < |n.content|
      invariant 0 <= i <= |n.content|
      invariant DeleteIn(n.content, key) == n.content[..i] + DeleteIn(n.content[i..], key)
    {
      SkipPair(n.content, i, DeleteIn(n.content[i + 2..], key));
      if n.content[i].value == key { return n.(content := n.content[..i] + n.content[i + 2..]); }
      i := i + 2;
    }
    Halves(n.content, i);
    r := n;
  }

  // ----- sequences -----

  function ScalarValue(n: Option<Node>): string { if n.Some? && n.value.kind.Scalar? then n.value.value else "" }

  /** sameSeq: a sequence node with these values, in this order. */
  predicate SameSeq(n: Option<Node>, want: seq<string>) {
    && n.Some? && n.value.kind.Sequence? && |n.value.content| == |want|
    && forall i :: 0 <= i < |want| ==> n.value.content[i].value == want[i]
  }

  predicate SeqContains(n: Option<Node>, value: string) {
    n.Some? && n.value.kind.Sequence? && exists i :: 0 <= i < |n.value.content| && n.value.content[i].value == value
  }

  function FlowSeq(items: seq<string>): (n: Node)
    ensures SameSeq(Some(n), items)
  {
    Node(Sequence, "", seq(|items|, i requires 0 <= i < |items| => Text(items[i])))
  }

  /** The items with another value, in order. */
  function Without(items: seq<Node>, value: string): seq<Node> {
    if items == [] then []
    else Without(items[..|items| - 1], value) + if items[|items| - 1].value == value then [] else [items[|items| - 1]]
  }

  lemma {:induction false} WithoutHas(items: seq<Node>, value: string)
    ensures forall i :: 0 <= i < |Without(items, value)| ==> Without(items, value)[i].value != value
  {
    if items != [] { WithoutHas(items[..|items| - 1], value); }
  }

  /** removeSeqValue on a node that is there: the node without the value, and whether anything was removed. */
  function Removed(n: Node, value: string): Node {
    if n.kind.Sequence? then n.(content := Without(n.content, value)) else n
  }

  method RemoveSeqValue(n: Node, value: string) returns (r: Node, changed: bool)
    ensures r == Removed(n, value) && (changed <==> SeqContains(Some(n), value))
  {
    if !n.kind.Sequence? { return n, false; }
    var out: seq<Node> := [];
    changed := false;
    for i := 0 to |n.content|
      invariant out == Without(n.content[..i], value)
      invariant changed <==> exists j :: 0 <= j < i && n.content[j].value == value
    {
      assert n.content[..i + 1][..i] == n.content[..i];
      if n.content[i].value == value {
        changed := true;
        continue;
      }
      out := out + [n.content[i]];
    }
    assert n.content[..|n.content|] == n.content;
    r := n.(content := out);
  }

  // ----- what a discovery does to a config node -----

  const DEFAULT_EFFORTS: seq<string> := ["low", "medium", "high"]

  function Wanted(efforts: seq<string>): seq<string> { if efforts == [] then DEFAULT_EFFORTS else efforts }

  function WithMode(cfg: Node, mode: string): (Node, bool) {
    if ScalarValue(Get(cfg, THINKING)) == mode then (cfg, false) else (Set(cfg, THINKING, Text(mode)), true)
  }

  function WithEfforts(cfg: Node, efforts: seq<string>): (Node, bool) {
    if SameSeq(Get(cfg, EFFORTS), Wanted(efforts)) then (cfg, false) else (Set(cfg, EFFORTS, FlowSeq(Wanted(efforts))), true)
  }

  /** A positive discovery, on the config node: the new node, and whether it changed. */
  function Enriched(cfg: Node, mode: string, efforts: seq<string>): (Node, bool) {
    var (withMode, c1) := WithMode(cfg, mode);
    var (withEfforts, c2) := WithEfforts(withMode, efforts);
    (withEfforts, c1 || c2)
  }

  const EMPTY_CONFIG := Node(Mapping, "", [])

  /** applyToModel. */
  function Applied(model: Node, mode: string, efforts: seq<string>): (Node, bool) {
    var cfg := match Get(model, CONFIG) case Some(c) => c case None => EMPTY_CONFIG;
    var (enriched, changed) := Enriched(cfg, mode, efforts);
    (Set(model, CONFIG, enriched), changed)
  }

  predicate HasResidue(cfg: Node) {
    var mode := ScalarValue(Get(cfg, THINKING));
    (mode != "" && mode != NONE) || Get(cfg, EFFORTS).Some? || SeqContains(Get(cfg, COMPATIBILITIES), REASONING)
  }

  function WithoutEfforts(cfg: Node): (Node, bool) {
    if Get(cfg, EFFORTS).Some? then (Delete(cfg, EFFORTS), true) else (cfg, false)
  }

  function WithoutReasoning(cfg: Node): (Node, bool) {
    if !SeqContains(Get(cfg, COMPATIBILITIES), REASONING) then (cfg, false)
    else
      var rest := Removed(Get(cfg, COMPATIBILITIES).value, REASONING);
      (if rest.content == [] then Delete(cfg, COMPATIBILITIES) else Set(cfg, COMPATIBILITIES, rest), true)
  }

  /** A negative discovery, on a config node with residue. */
  function Cleared(cfg: Node): (Node, bool) {
    var (a, c1) := WithMode(cfg, NONE);
    var (b, c2) := WithoutEfforts(a);
    var (c, c3) := WithoutReasoning(b);
    (c, c1 || c2 || c3)
  }

  /** applyNoReasonToModel. */
  function NoReason(model: Node): (Node, bool) {
    match Get(model, CONFIG)
    case None => (model, false)
    case Some(cfg) =>
      if HasResidue(cfg) then (Set(model, CONFIG, Cleared(cfg).0), Cleared(cfg).1) else (model, false)
  }

  // ----- the same, in place -----

  /** The node of a model entry. */
  class ModelEntry {
    var node: Node

    constructor (node: Node)
      ensures this.node == node
    {
      this.node := node;
    }

    method ApplyToModel(mode: string, efforts: seq<string>) returns (changed: bool)
      modifies this
      ensures (node, changed) == Applied(old(node), mode, efforts)
    {
      var found := MapValue(node, CONFIG);
      var cfg := EMPTY_CONFIG;
      if found.Some? { cfg := found.value; }
      changed := false;
      var thinking := MapValue(cfg, THINKING);
      if ScalarValue(thinking) != mode {
        cfg := MapSet(cfg, THINKING, Text(mode));
        changed := true;
      }
      var want := efforts;
      if want == [] { want := DEFAULT_EFFORTS; }
      var listed := MapValue(cfg, EFFORTS);
      if !SameSeq(listed, want) {
        cfg := MapSet(cfg, EFFORTS, FlowSeq(want));
        changed := true;
      }
      node := MapSet(node, CONFIG, cfg);
    }

    method ApplyNoReasonToModel() returns (changed: bool)
      modifies this
      ensures (node, changed) == NoReason(old(node))
    {
      var found := MapValue(node, CONFIG);
      if found.None? || !HasResidue(found.value) { return false; }
      var cfg := found.value;
      changed := false;
      var thinking := MapValue(cfg, THINKING);
      if ScalarValue(thinking) != NONE {
        cfg := MapSet(cfg, THINKING, Text(NONE));
        changed := true;
      }
      var listed := MapValue(cfg, EFFORTS);
      if listed.Some? {
        cfg := MapDelete(cfg, EFFORTS);
        changed := true;
      }
      var compatibilities := MapValue(cfg, COMPATIBILITIES);
      if compatibilities.Some? {
        var rest, removed := RemoveSeqValue(compatibilities.value, REASONING);
        if removed {
          changed := true;
          if rest.content == [] {
            cfg := MapDelete(cfg, COMPATIBILITIES);
          } else {
            cfg := MapSet(cfg, COMPATIBILITIES, rest);
          }
        }
      }
      node := MapSet(node, CONFIG, cfg);
    }
  }

  // ----- laws of mappings -----

  predicate Paired(n: Node) { n.kind.Mapping? && |n.content| % 2 == 0 }

  lemma {:induction false} GetSet(content: seq<Node>, key: string, value: Node, other: string)
    requires |content| % 2 == 0
    ensures |SetIn(content, key, value)| % 2 == 0
    ensures GetIn(SetIn(content, key, value), other) == if other == key then Some(value) else GetIn(content, other)
  {
    if |content| >= 2 && content[0].value != key {
      GetSet(content[2..], key, value, other);
      var rest := SetIn(content[2..], key, value);
      assert (content[..2] + rest)[2..] == rest && content[..2][0] == content[0] && content[..2][1] == content[1];
    } else if |content| >= 2 {
      assert content[1 := value][2..] == content[2..];
    } else {
      assert content == [];
      assert ([] + [Text(key), value])[2..] == [];
    }
  }

  /** All values of a key, in order; only the first is ever read. */
  function Values(content: seq<Node>, key: string): seq<Node> {
    if |content| < 2 then [] else (if content[0].value == key then [content[1]] else []) + Values(content[2..], key)
  }

  function FirstOf(values: seq<Node>): Option<Node> { if values == [] then None else Some(values[0]) }

  lemma {:induction false} FirstIsRead(content: seq<Node>, key: string)
    ensures GetIn(content, key) == FirstOf(Values(content, key))
  {
    if |content| >= 2 { FirstIsRead(content[2..], key); }
  }

  lemma {:induction false} ValuesSet(content: seq<Node>, key: string, value: Node, other: string)
    requires |content| % 2 == 0 && other != key
    ensures Values(SetIn(content, key, value), other) == Values(content, other)
  {
    if |content| >= 2 && content[0].value != key {
      ValuesSet(content[2..], key, value, other);
      ConsPair(content, SetIn(content[2..], key, value));
    } else if |content| >= 2 {
      assert content[1 := value][2..] == content[2..];
    } else {
      assert ([] + [Text(key), value])[2..] == [];
    }
  }

  lemma {:induction false} ValuesDelete(content: seq<Node>, key: string, other: string)
    ensures Values(DeleteIn(content, key), other)
         == if other == key && Values(content, key) != [] then Values(content, key)[1..] else Values(content, other)
  {
    if |content| >= 2 && content[0].value != key {
      ValuesDelete(content[2..], key, other);
      ConsPair(content, DeleteIn(content[2..], key));
    }
  }

  lemma {:induction false} GetDelete(content: seq<Node>, key: string, other: string)
    requires |content| % 2 == 0
    ensures |DeleteIn(content, key)| % 2 == 0
    ensures other != key ==> GetIn(DeleteIn(content, key), other) == GetIn(content, other)
  {
    if |content| >= 2 && content[0].value != key {
      GetDelete(content[2..], key, other);
      ConsPair(content, DeleteIn(content[2..], key));
    }
  }

  lemma ConsPair(content: seq<Node>, rest: seq<Node>)
    requires |content| >= 2
    ensures var r := content[..2] + rest; |r| == 2 + |rest| && r[0] == content[0] && r[1] == content[1] && r[2..] == rest
  {
  }

  // ----- one run reaches a fixpoint -----

  lemma GetSetNode(n: Node, key: string, value: Node, other: string)
    requires Paired(n)
    ensures Paired(Set(n, key, value))
    ensures Get(Set(n, key, value), other) == if other == key then Some(value) else Get(n, other)
  {
    GetSet(n.content, key, value, other);
  }

  lemma GetDeleteNode(n: Node, key: string, other: string)
    requires Paired(n)
    ensures Paired(Delete(n, key))
    ensures other != key ==> Get(Delete(n, key), other) == Get(n, other)
    ensures var values := Values(n.content, key);
      Get(Delete(n, key), key) == if |values| <= 1 then None else Some(values[1])
  {
    GetDelete(n.content, key, other);
    ValuesDelete(n.content, key, key);
    FirstIsRead(Delete(n, key).content, key);
  }

  lemma KeysDiffer()
    ensures THINKING != EFFORTS && THINKING != COMPATIBILITIES && EFFORTS != COMPATIBILITIES
  {
    assert THINKING[0] == 't' && EFFORTS[0] == 'r' && COMPATIBILITIES[0] == 'c';
  }

  /** An enriched config node says what was discovered. */
  lemma EnrichedIs(cfg: Node, mode: string, efforts: seq<string>)
    requires Paired(cfg)
    ensures var e := Enriched(cfg, mode, efforts).0;
      Paired(e) && ScalarValue(Get(e, THINKING)) == mode && SameSeq(Get(e, EFFORTS), Wanted(efforts))
  {
    KeysDiffer();
    var (a, c1) := WithMode(cfg, mode);
    if c1 { GetSetNode(cfg, THINKING, Text(mode), THINKING); }
    GetSetNode(a, EFFORTS, FlowSeq(Wanted(efforts)), EFFORTS);
    GetSetNode(a, EFFORTS, FlowSeq(Wanted(efforts)), THINKING);
  }

  lemma EnrichedTwice(cfg: Node, mode: string, efforts: seq<string>)
    requires Paired(cfg)
    ensures Enriched(Enriched(cfg, mode, efforts).0, mode, efforts) == (Enriched(cfg, mode, efforts).0, false)
  {
    EnrichedIs(cfg, mode, efforts);
  }

  lemma {:induction false} SetSame(content: seq<Node>, key: string, value: Node)
    requires GetIn(content, key) == Some(value)
    ensures SetIn(content, key, value) == content
  {
    if content[0].value != key { SetSame(content[2..], key, value); }
  }

  /** A config that is there but is no mapping can never be enriched: every run reports a change. */
  predicate Enrichable(model: Node) {
    match Get(model, CONFIG) case None => true case Some(cfg) => cfg.kind.Mapping?
  }

  /** A second run of applyToModel changes nothing, and says so, exactly when config is absent or a mapping. */
  lemma AppliedTwice(model: Node, mode: string, efforts: seq<string>)
    requires Paired(model) && (Get(model, CONFIG).Some? && Get(model, CONFIG).value.kind.Mapping? ==> Paired(Get(model, CONFIG).value))
    ensures Applied(Applied(model, mode, efforts).0, mode, efforts).1 <==> !Enrichable(model)
    ensures Enrichable(model) ==> Applied(Applied(model, mode, efforts).0, mode, efforts).0 == Applied(model, mode, efforts).0
  {
    var cfg := match Get(model, CONFIG) case Some(c) => c case None => EMPTY_CONFIG;
    var e := Enriched(cfg, mode, efforts).0;
    GetSetNode(model, CONFIG, e, CONFIG);
    if Enrichable(model) {
      EnrichedTwice(cfg, mode, efforts);
      SetSame(Applied(model, mode, efforts).0.content, CONFIG, e);
    } else {
      assert !e.kind.Mapping? && Get(e, EFFORTS).None?;
    }
  }

  // ----- a negative discovery -----

  predicate Has(list: Node, value: string) { SeqContains(Some(list), value) }

  /** What one correction does not clear: an effort list behind another, or a compatibility list with the reasoning entry
      behind one that has no other entry and goes. */
  predicate LeavesResidue(cfg: Node) {
    var efforts, lists := Values(cfg.content, EFFORTS), Values(cfg.content, COMPATIBILITIES);
    || |efforts| >= 2
    || (|lists| >= 2 && Has(lists[0], REASONING) && Removed(lists[0], REASONING).content == [] && Has(lists[1], REASONING))
  }

  lemma WithModeKeeps(cfg: Node, mode: string)
    requires Paired(cfg)
    ensures var a := WithMode(cfg, mode).0;
      && Paired(a) && ScalarValue(Get(a, THINKING)) == mode
      && Values(a.content, EFFORTS) == Values(cfg.content, EFFORTS)
      && Values(a.content, COMPATIBILITIES) == Values(cfg.content, COMPATIBILITIES)
  {
    KeysDiffer();
    GetSetNode(cfg, THINKING, Text(mode), THINKING);
    ValuesSet(cfg.content, THINKING, Text(mode), EFFORTS);
    ValuesSet(cfg.content, THINKING, Text(mode), COMPATIBILITIES);
  }

  lemma WithoutEffortsKeeps(cfg: Node)
    requires Paired(cfg)
    ensures var b := WithoutEfforts(cfg).0;
      && Paired(b) && (Get(b, EFFORTS).Some? <==> |Values(cfg.content, EFFORTS)| >= 2)
      && Get(b, THINKING) == Get(cfg, THINKING) && Values(b.content, COMPATIBILITIES) == Values(cfg.content, COMPATIBILITIES)
  {
    KeysDiffer();
    FirstIsRead(cfg.content, EFFORTS);
    GetDeleteNode(cfg, EFFORTS, THINKING);
    ValuesDelete(cfg.content, EFFORTS, COMPATIBILITIES);
  }

  lemma WithoutReasoningKeeps(cfg: Node)
    requires Paired(cfg)
    ensures var c := WithoutReasoning(cfg).0; var lists := Values(cfg.content, COMPATIBILITIES);
      && Paired(c) && Get(c, THINKING) == Get(cfg, THINKING) && Get(c, EFFORTS) == Get(cfg, EFFORTS)
      && (SeqContains(Get(c, COMPATIBILITIES), REASONING) <==>
            |lists| >= 2 && Has(lists[0], REASONING) && Removed(lists[0], REASONING).content == [] && Has(lists[1], REASONING))
  {
    KeysDiffer();
    FirstIsRead(cfg.content, COMPATIBILITIES);
    if SeqContains(Get(cfg, COMPATIBILITIES), REASONING) {
      var rest := Removed(Get(cfg, COMPATIBILITIES).value, REASONING);
      WithoutHas(Get(cfg, COMPATIBILITIES).value.content, REASONING);
      GetDeleteNode(cfg, COMPATIBILITIES, THINKING);
      GetDeleteNode(cfg, COMPATIBILITIES, EFFORTS);
      GetSetNode(cfg, COMPATIBILITIES, rest, THINKING);
      GetSetNode(cfg, COMPATIBILITIES, rest, EFFORTS);
      GetSetNode(cfg, COMPATIBILITIES, rest, COMPATIBILITIES);
    }
  }

  /** A run that finds residue reports a change, and leaves residue only in keys that are repeated. */
  lemma ClearedIs(cfg: Node)
    requires Paired(cfg) && HasResidue(cfg)
    ensures Cleared(cfg).1 && Paired(Cleared(cfg).0) && ScalarValue(Get(Cleared(cfg).0, THINKING)) == NONE
    ensures HasResidue(Cleared(cfg).0) <==> LeavesResidue(cfg)
  {
    WithModeKeeps(cfg, NONE);
    var a := WithMode(cfg, NONE).0;
    FirstIsRead(cfg.content, EFFORTS);
    FirstIsRead(a.content, EFFORTS);
    FirstIsRead(cfg.content, COMPATIBILITIES);
    WithoutEffortsKeeps(a);
    FirstIsRead(WithoutEfforts(a).0.content, COMPATIBILITIES);
    WithoutReasoningKeeps(WithoutEfforts(a).0);
  }

  /** A second run of applyNoReasonToModel changes something exactly when the first found residue and left some. */
  lemma NoReasonTwice(model: Node)
    requires Paired(model) && (Get(model, CONFIG).Some? && Get(model, CONFIG).value.kind.Mapping? ==> Paired(Get(model, CONFIG).value))
    ensures var once, found := NoReason(model).0, Get(model, CONFIG);
      var more := found.Some? && HasResidue(found.value) && LeavesResidue(found.value);
      && (NoReason(once).1 <==> more)
      && (!more ==> NoReason(once).0 == once)
  {
    match Get(model, CONFIG)
    case None =>
    case Some(cfg) =>
      if HasResidue(cfg) {
        ClearedIs(cfg);
        GetSetNode(model, CONFIG, Cleared(cfg).0, CONFIG);
        if LeavesResidue(cfg) { ClearedIs(Cleared(cfg).0); }
      }
  }

  // ----- everything else stays where it is -----

  /** The content without the keys that are touched. */
  function Others(content: seq<Node>, touched: set<string>): seq<Node> {
    if |content| < 2 then content
    else (if content[0].value in touched then [] else content[..2]) + Others(content[2..], touched)
  }

  lemma {:induction false} OthersSet(content: seq<Node>, key: string, value: Node, touched: set<string>)
    requires |content| % 2 == 0 && key in touched
    ensures Others(SetIn(content, key, value), touched) == Others(content, touched)
  {
    if |content| >= 2 && content[0].value != key {
      OthersSet(content[2..], key, value, touched);
      ConsPair(content, SetIn(content[2..], key, value));
      assert (content[..2] + SetIn(content[2..], key, value))[..2] == content[..2];
    } else if |content| >= 2 {
      assert content[1 := value][2..] == content[2..];
    } else {
      assert ([] + [Text(key), value])[2..] == [];
    }
  }

  lemma {:induction false} OthersDelete(content: seq<Node>, key: string, touched: set<string>)
    requires key in touched
    ensures Others(DeleteIn(content, key), touched) == Others(content, touched)
  {
    if |content| >= 2 && content[0].value != key {
      OthersDelete(content[2..], key, touched);
      ConsPair(content, DeleteIn(content[2..], key));
      assert (content[..2] + DeleteIn(content[2..], key))[..2] == content[..2];
    }
  }

  const REASONING_KEYS := {THINKING, EFFORTS, COMPATIBILITIES}

  /** Both discoveries leave all other keys of the config as they are and in order, and all other keys of the model. */
  lemma OtherKeysStay(model: Node, mode: string, efforts: seq<string>)
    requires Paired(model)
    ensures Others(Applied(model, mode, efforts).0.content, {CONFIG}) == Others(model.content, {CONFIG})
    ensures Others(NoReason(model).0.content, {CONFIG}) == Others(model.content, {CONFIG})
  {
    var cfg := match Get(model, CONFIG) case Some(c) => c case None => EMPTY_CONFIG;
    OthersSet(model.content, CONFIG, Enriched(cfg, mode, efforts).0, {CONFIG});
    OthersSet(model.content, CONFIG, Cleared(cfg).0, {CONFIG});
  }

  lemma OtherConfigKeysStay(cfg: Node, mode: string, efforts: seq<string>)
    requires Paired(cfg)
    ensures Others(Enriched(cfg, mode, efforts).0.content, {THINKING, EFFORTS}) == Others(cfg.content, {THINKING, EFFORTS})
    ensures Others(Cleared(cfg).0.content, REASONING_KEYS) == Others(cfg.content, REASONING_KEYS)
  {
    var a := WithMode(cfg, mode).0;
    GetSetNode(cfg, THINKING, Text(mode), THINKING);
    OthersSet(cfg.content, THINKING, Text(mode), {THINKING, EFFORTS});
    OthersSet(a.content, EFFORTS, FlowSeq(Wanted(efforts)), {THINKING, EFFORTS});
    var n := WithMode(cfg, NONE).0;
    GetSetNode(cfg, THINKING, Text(NONE), THINKING);
    OthersSet(cfg.content, THINKING, Text(NONE), REASONING_KEYS);
    OthersDelete(n.content, EFFORTS, REASONING_KEYS);
    GetDeleteNode(n, EFFORTS, THINKING);
    ReasoningStays(WithoutEfforts(n).0);
  }

  lemma ReasoningStays(cfg: Node)
    requires Paired(cfg)
    ensures Others(WithoutReasoning(cfg).0.content, REASONING_KEYS) == Others(cfg.content, REASONING_KEYS)
  {
    if SeqContains(Get(cfg, COMPATIBILITIES), REASONING) {
      OthersDelete(cfg.content, COMPATIBILITIES, REASONING_KEYS);
      OthersSet(cfg.content, COMPATIBILITIES, Removed(Get(cfg, COMPATIBILITIES).value, REASONING), REASONING_KEYS);
    }
  }
}
