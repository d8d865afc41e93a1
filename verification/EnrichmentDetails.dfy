/** What an enriched node says, and when a run reports a change. */
module EnrichmentDetails {
  import opened Enricher
  import opened Seqs
  import opened Wrappers

  /** The values of a list node. */
  function Listed(n: Node): seq<string> { seq(|n.content|, i requires 0 <= i < |n.content| => n.content[i].value) }

  function Efforts(efforts: seq<string>): seq<string> { if |efforts| > 0 then efforts else ["low", "medium", "high"] }

  lemma SameSeqIs(n: Option<Node>, want: seq<string>)
    ensures SameSeq(n, want) <==> n.Some? && n.value.kind.Sequence? && Listed(n.value) == want
  {
    if n.Some? && Listed(n.value) == want { assert forall i :: 0 <= i < |want| ==> Listed(n.value)[i] == n.value.content[i].value; }
  }

  /** After an enrichment the efforts are a list of those that were discovered, in order, or of the usual three if none were;
      and the mode, unless it is empty, is the scalar that was discovered. */
  lemma EnrichedSays(cfg: Node, mode: string, efforts: seq<string>)
    requires Paired(cfg)
    ensures var e := Enriched(cfg, mode, efforts).0;
      && Get(e, "reasoning_efforts").Some? && Get(e, "reasoning_efforts").value.kind.Sequence?
      && Listed(Get(e, "reasoning_efforts").value) == Efforts(efforts)
      && (mode != "" ==> Get(e, "thinking_mode").Some? && Get(e, "thinking_mode").value.kind.Scalar?
                         && Get(e, "thinking_mode").value.value == mode)
  {
    EnrichedIs(cfg, mode, efforts);
    SameSeqIs(Get(Enriched(cfg, mode, efforts).0, EFFORTS), Efforts(efforts));
  }

  /** It reports a change exactly if it makes one. */
  lemma ChangeIsReported(cfg: Node, mode: string, efforts: seq<string>)
    requires Paired(cfg)
    ensures Enriched(cfg, mode, efforts).1 <==> Enriched(cfg, mode, efforts).0 != cfg
  {
    KeysDiffer();
    var (a, c1) := WithMode(cfg, mode);
    EnrichedIs(cfg, mode, efforts);
    if c1 { GetSetNode(cfg, THINKING, Text(mode), EFFORTS); }
  }

  /** A correction leaves the mode at "none", and no entry for reasoning in the list of compatibilities that it has kept. */
  lemma ClearedSays(cfg: Node)
    requires Paired(cfg) && HasResidue(cfg)
    ensures Get(Cleared(cfg).0, "thinking_mode").Some? && Get(Cleared(cfg).0, "thinking_mode").value.kind.Scalar?
    ensures Get(Cleared(cfg).0, "thinking_mode").value.value == "none"
  {
    ClearedIs(cfg);
    var c := Cleared(cfg).0;
    assert ScalarValue(Get(c, THINKING)) == NONE && NONE != "";
  }

  /** There is something to correct if the mode is a scalar other than "none", if efforts are listed, or if reasoning is among the
      compatibilities. */
  lemma ResidueIs(cfg: Node)
    ensures HasResidue(cfg) <==>
      || (Get(cfg, "thinking_mode").Some? && Get(cfg, "thinking_mode").value.kind.Scalar?
          && Get(cfg, "thinking_mode").value.value != "" && Get(cfg, "thinking_mode").value.value != "none")
      || Get(cfg, "reasoning_efforts").Some?
      || (Get(cfg, "compatibilities").Some? && Get(cfg, "compatibilities").value.kind.Sequence?
          && "reasoning" in Listed(Get(cfg, "compatibilities").value))
  {
    var list := Get(cfg, COMPATIBILITIES);
    if list.Some? {
      if SeqContains(list, REASONING) {
        var i :| 0 <= i < |list.value.content| && list.value.content[i].value == REASONING;
        assert Listed(list.value)[i] == REASONING;
      }
      if list.value.kind.Sequence? && REASONING in Listed(list.value) {
        var i :| 0 <= i < |Listed(list.value)| && Listed(list.value)[i] == REASONING;
        assert list.value.content[i].value == REASONING;
      }
    }
  }

  lemma {:induction false} WithoutIsShorter(items: seq<Node>, value: string)
    ensures |Without(items, value)| <= |items|
    ensures |Without(items, value)| == |items| <==> forall i :: 0 <= i < |items| ==> items[i].value != value
  {
    if items != [] { WithoutIsShorter(items[..|items| - 1], value); }
  }

  lemma {:induction false} WithoutNone(items: seq<Node>, value: string)
    requires forall i :: 0 <= i < |items| ==> items[i].value != value
    ensures Without(items, value) == items
  {
    if items != [] {
      WithoutNone(items[..|items| - 1], value);
      InitLast(items);
    }
  }

  /** A value is removed exactly if it was in the list, and then from every place. */
  lemma RemovedIff(n: Node, value: string)
    requires n.kind.Sequence?
    ensures (Removed(n, value) != n <==> value in Listed(n)) && value !in Listed(Removed(n, value))
  {
    WithoutIsShorter(n.content, value);
    WithoutHas(n.content, value);
    if value in Listed(n) {
      var i :| 0 <= i < |Listed(n)| && Listed(n)[i] == value;
      assert n.content[i].value == value;
    } else {
      forall i | 0 <= i < |n.content| ensures n.content[i].value != value { assert Listed(n)[i] == n.content[i].value; }
      WithoutNone(n.content, value);
    }
  }
}
