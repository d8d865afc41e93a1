/** What stripping the inline markers of a text a second time does. */
module InlineMarkup {
  import opened Format

  // A channel without Markdown gets its text with every "**" removed, from the left, and then every tick.  A "*" that is
  // left over can come to stand beside another once the ticks between them are gone.

  // ----- the condition, on the text before -----

  /** s[i..j] is a whole run of stars, of odd length. */
  ghost predicate OddRun(s: string, i: nat, j: nat) {
    && i < j <= |s| && (j - i) % 2 == 1
    && (forall k :: i <= k < j ==> s[k] == '*')
    && (i == 0 || s[i - 1] != '*') && (j == |s| || s[j] != '*')
  }

  ghost predicate OnlyMarkers(s: string, a: nat, b: nat) {
    b <= |s| && forall k :: a <= k < b ==> s[k] == '*' || s[k] == '`'
  }

  /** Two odd runs of stars with nothing but stars and ticks between them. */
  ghost predicate TwoOddRuns(s: string) {
    exists i: nat, j: nat, k: nat, l: nat :: OddRuns(s, i, j, k, l)
  }

  ghost predicate OddRuns(s: string, i: nat, j: nat, k: nat, l: nat) {
    OddRun(s, i, j) && OddRun(s, k, l) && j < k && OnlyMarkers(s, j, k)
  }

  /** An odd run with nothing but stars and ticks before it. */
  ghost predicate OddRunFirst(s: string) {
    exists k: nat, l: nat :: OddRun(s, k, l) && OnlyMarkers(s, 0, k)
  }

  // ----- runs behind a pair of stars, and behind a single character -----

  /** s is t behind something of length d. */
  ghost predicate Behind(s: string, t: string, d: nat) {
    |s| == |t| + d && forall k :: 0 <= k < |t| ==> t[k] == s[k + d]
  }

  lemma StarsBehind(s: string, t: string, d: nat, a: nat, b: nat)
    requires Behind(s, t, d) && d <= a && b <= |s|
    ensures (forall k :: a <= k < b ==> s[k] == '*') <==> (forall k :: a - d <= k < b - d ==> t[k] == '*')
  {
    if forall k :: a - d <= k < b - d ==> t[k] == '*' {
      forall k | a <= k < b ensures s[k] == '*' { assert t[k - d] == s[k]; }
    }
  }

  lemma RunBehindPair(t: string, i: nat, j: nat)
    ensures OddRun("**" + t, i, j) <==>
      (i == 0 && j >= 3 && OddRun(t, 0, j - 2)) || (i >= 3 && j >= 2 && OddRun(t, i - 2, j - 2))
  {
    var s := "**" + t;
    assert Behind(s, t, 2) && s[0] == '*' && s[1] == '*';
    if i < j <= |s| {
      RunBehindStars(s, t, i, j);
    }
  }

  lemma RunBehindStars(s: string, t: string, i: nat, j: nat)
    requires Behind(s, t, 2) && s[0] == '*' && s[1] == '*' && i < j <= |s|
    ensures OddRun(s, i, j) <==> (i == 0 && j >= 3 && OddRun(t, 0, j - 2)) || (i >= 3 && OddRun(t, i - 2, j - 2))
  {
    if i == 0 && j >= 2 {
      StarsBehind(s, t, 2, 2, j);
      assert (forall k :: 0 <= k < j ==> s[k] == '*') <==> (forall k :: 2 <= k < j ==> s[k] == '*');
    } else if i >= 2 {
      StarsBehind(s, t, 2, i, j);
      assert i >= 3 ==> t[i - 3] == s[i - 1];
    }
    assert 2 <= j < |s| ==> t[j - 2] == s[j];
  }

  /** A single star is a run of its own if no other follows. */
  lemma RunBehindOne(c: char, t: string, i: nat, j: nat)
    requires c == '*' && t != [] ==> t[0] != '*'
    ensures OddRun([c] + t, i, j) <==> (c == '*' && i == 0 && j == 1) || (i >= 1 && j >= 1 && OddRun(t, i - 1, j - 1))
  {
    var s := [c] + t;
    assert forall k :: 0 <= k < |t| ==> s[k + 1] == t[k];
    assert s[0] == c && (t != [] ==> s[1] == t[0]);
    if OddRun(s, i, j) {
      assert i == 0 ==> j == 1;
      assert i > 1 ==> s[i - 1] == t[i - 2];
      assert j < |s| ==> s[j] == t[j - 1];
      forall k | (if i == 0 then 0 else i - 1) <= k < j - 1 ensures t[k] == '*' { assert s[k + 1] == '*'; }
    }
    if i >= 1 && j >= 1 && OddRun(t, i - 1, j - 1) {
      assert t[i - 1] == '*';
      assert i > 1 ==> s[i - 1] == t[i - 2];
      assert j < |s| ==> s[j] == t[j - 1];
      forall k | i <= k < j ensures s[k] == '*' { assert s[k] == t[k - 1]; }
    }
  }

  lemma MarkersBehind(p: string, t: string, a: nat, b: nat)
    requires forall k :: 0 <= k < |p| ==> p[k] == '*' || p[k] == '`'
    ensures a >= |p| && b >= |p| ==> (OnlyMarkers(p + t, a, b) <==> OnlyMarkers(t, a - |p|, b - |p|))
    ensures a < |p| <= b ==> (OnlyMarkers(p + t, a, b) <==> OnlyMarkers(t, 0, b - |p|))
  {
    var s := p + t;
    assert forall k :: 0 <= k < |t| ==> s[k + |p|] == t[k];
    if b >= |p| && OnlyMarkers(s, a, b) {
      forall k | (if a >= |p| then a - |p| else 0) <= k < b - |p| ensures t[k] == '*' || t[k] == '`' { assert s[k + |p|] == t[k]; }
    }
    if b >= |p| && OnlyMarkers(t, if a >= |p| then a - |p| else 0, b - |p|) {
      forall k | a <= k < b ensures s[k] == '*' || s[k] == '`' { assert k >= |p| ==> s[k] == t[k - |p|]; }
    }
  }

  // ----- the runs of a text and of its tail -----

  lemma FirstBehindPair(t: string)
    ensures OddRunFirst("**" + t) <==> OddRunFirst(t)
  {
    var s := "**" + t;
    if OddRunFirst(s) {
      var k: nat, l: nat :| OddRun(s, k, l) && OnlyMarkers(s, 0, k);
      RunBehindPair(t, k, l);
      MarkersBehind("**", t, 0, k);
      if k == 0 { assert OddRun(t, 0, l - 2) && OnlyMarkers(t, 0, 0); } else { assert OddRun(t, k - 2, l - 2) && OnlyMarkers(t, 0, k - 2); }
    }
    if OddRunFirst(t) {
      var k: nat, l: nat :| OddRun(t, k, l) && OnlyMarkers(t, 0, k);
      var k' := if k == 0 then 0 else k + 2;
      RunBehindPair(t, k', l + 2);
      MarkersBehind("**", t, 0, k');
      assert OddRun(s, k', l + 2) && OnlyMarkers(s, 0, k');
    }
  }

  lemma RunsBehindPair(t: string, i: nat, j: nat, k: nat, l: nat)
    ensures OddRuns("**" + t, i, j, k, l) ==> TwoOddRuns(t)
    ensures OddRuns(t, i, j, k, l) ==> TwoOddRuns("**" + t)
  {
    var s := "**" + t;
    if OddRuns(s, i, j, k, l) {
      RunBehindPair(t, i, j);
      RunBehindPair(t, k, l);
      MarkersBehind("**", t, j, k);
      assert OddRuns(t, if i == 0 then 0 else i - 2, j - 2, k - 2, l - 2);
    }
    if OddRuns(t, i, j, k, l) {
      var i' := if i == 0 then 0 else i + 2;
      RunBehindPair(t, i', j + 2);
      RunBehindPair(t, k + 2, l + 2);
      MarkersBehind("**", t, j + 2, k + 2);
      assert OddRuns(s, i', j + 2, k + 2, l + 2);
    }
  }

  lemma TwoBehindPair(t: string)
    ensures TwoOddRuns("**" + t) <==> TwoOddRuns(t)
  {
    if i: nat, j: nat, k: nat, l: nat :| OddRuns("**" + t, i, j, k, l) { RunsBehindPair(t, i, j, k, l); }
    if i: nat, j: nat, k: nat, l: nat :| OddRuns(t, i, j, k, l) { RunsBehindPair(t, i, j, k, l); }
  }

  lemma FirstBehindOne(c: char, t: string)
    requires c == '*' && t != [] ==> t[0] != '*'
    ensures OddRunFirst([c] + t) <==> c == '*' || (c == '`' && OddRunFirst(t))
  {
    var s := [c] + t;
    if c == '*' {
      RunBehindOne(c, t, 0, 1);
      assert OddRun(s, 0, 1) && OnlyMarkers(s, 0, 0);
    } else if OddRunFirst(s) {
      var k: nat, l: nat :| OddRun(s, k, l) && OnlyMarkers(s, 0, k);
      RunBehindOne(c, t, k, l);
      assert s[0] == c;
      MarkersBehind([c], t, 0, k);
      assert OddRun(t, k - 1, l - 1) && OnlyMarkers(t, 0, k - 1);
    } else if c == '`' && OddRunFirst(t) {
      var k: nat, l: nat :| OddRun(t, k, l) && OnlyMarkers(t, 0, k);
      RunBehindOne(c, t, k + 1, l + 1);
      MarkersBehind([c], t, 0, k + 1);
    }
  }

  lemma RunsBehindOne(c: char, t: string, i: nat, j: nat, k: nat, l: nat)
    requires c == '*' && t != [] ==> t[0] != '*'
    ensures OddRuns([c] + t, i, j, k, l) ==> TwoOddRuns(t) || (c == '*' && OddRunFirst(t))
    ensures OddRuns(t, i, j, k, l) ==> TwoOddRuns([c] + t)
  {
    var s := [c] + t;
    if OddRuns(s, i, j, k, l) {
      RunBehindOne(c, t, i, j);
      RunBehindOne(c, t, k, l);
      Between(c, t, j, k);
      assert i > 0 ==> OddRuns(t, i - 1, j - 1, k - 1, l - 1);
    }
    if OddRuns(t, i, j, k, l) {
      RunBehindOne(c, t, i + 1, j + 1);
      RunBehindOne(c, t, k + 1, l + 1);
      Between(c, t, j + 1, k + 1);
      assert OddRuns(s, i + 1, j + 1, k + 1, l + 1);
    }
  }

  lemma StarBehindOne(t: string)
    requires OddRunFirst(t) && (t != [] ==> t[0] != '*')
    ensures TwoOddRuns("*" + t)
  {
    var k: nat, l: nat :| OddRun(t, k, l) && OnlyMarkers(t, 0, k);
    assert t[k] == '*';
    RunBehindOne('*', t, 0, 1);
    RunBehindOne('*', t, k + 1, l + 1);
    Between('*', t, 1, k + 1);
    assert OddRuns("*" + t, 0, 1, k + 1, l + 1);
  }

  lemma TwoBehindOne(c: char, t: string)
    requires c == '*' && t != [] ==> t[0] != '*'
    ensures TwoOddRuns([c] + t) <==> TwoOddRuns(t) || (c == '*' && OddRunFirst(t))
  {
    if i: nat, j: nat, k: nat, l: nat :| OddRuns([c] + t, i, j, k, l) { RunsBehindOne(c, t, i, j, k, l); }
    if i: nat, j: nat, k: nat, l: nat :| OddRuns(t, i, j, k, l) { RunsBehindOne(c, t, i, j, k, l); }
    if c == '*' && OddRunFirst(t) { StarBehindOne(t); }
  }

  lemma Between(c: char, t: string, a: nat, b: nat)
    requires 1 <= a <= b
    ensures OnlyMarkers([c] + t, a, b) <==> OnlyMarkers(t, a - 1, b - 1)
  {
    var s := [c] + t;
    if OnlyMarkers(s, a, b) {
      forall k | a - 1 <= k < b - 1 ensures t[k] == '*' || t[k] == '`' { assert s[k + 1] == t[k]; }
    }
    if OnlyMarkers(t, a - 1, b - 1) {
      forall k | a <= k < b ensures s[k] == '*' || s[k] == '`' { assert s[k] == t[k - 1]; }
    }
  }

  // ----- the text after -----

  predicate HasPair(s: string) { |s| >= 2 && ((s[0] == '*' && s[1] == '*') || HasPair(s[1..])) }

  predicate StarFirst(s: string) { s != [] && s[0] == '*' }

  lemma {:induction false} PairsGo(s: string)
    ensures |DropStars(s)| <= |s| && (DropStars(s) == s <==> !HasPair(s))
  {
    if |s| >= 2 && s[0] == '*' && s[1] == '*' {
      PairsGo(s[2..]);
    } else if s != [] {
      PairsGo(s[1..]);
      assert s == [s[0]] + s[1..];
    }
  }

  lemma {:induction false} TicksGo(s: string)
    ensures '`' !in DropTicks(s) && ('`' !in s ==> DropTicks(s) == s)
  {
    if s != [] {
      TicksGo(s[1..]);
      assert s == [s[0]] + s[1..];
    }
  }

  /** Stars come to stand together exactly between odd runs. */
  lemma {:induction false} PairsLeft(s: string)
    ensures HasPair(StripInlineMarkup(s)) <==> TwoOddRuns(s)
    ensures StarFirst(StripInlineMarkup(s)) <==> OddRunFirst(s)
    decreases |s|
  {
    if s == [] {
    } else if |s| >= 2 && s[0] == '*' && s[1] == '*' {
      var t := s[2..];
      assert s == "**" + t;
      PairsLeft(t);
      FirstBehindPair(t);
      TwoBehindPair(t);
    } else {
      var c, t := s[0], s[1..];
      assert s == [c] + t;
      PairsLeft(t);
      FirstBehindOne(c, t);
      TwoBehindOne(c, t);
      OneStripped(c, t);
    }
  }

  lemma OneStripped(c: char, t: string)
    requires c == '*' && t != [] ==> t[0] != '*'
    ensures var r := StripInlineMarkup(t);
      && StripInlineMarkup([c] + t) == (if c == '`' then r else [c] + r)
      && (HasPair([c] + r) <==> HasPair(r) || (c == '*' && StarFirst(r)))
  {
    var s, r := [c] + t, StripInlineMarkup(t);
    assert s[1..] == t && ([c] + r)[1..] == r;
    assert DropStars(s) == [c] + DropStars(t);
    assert ([c] + DropStars(t))[1..] == DropStars(t);
  }

  /** Removing stars adds no tick. */
  lemma {:induction false} DroppedFrom(s: string)
    ensures forall c :: c in DropStars(s) ==> c in s
    decreases |s|
  {
    if |s| >= 2 && s[0] == '*' && s[1] == '*' {
      DroppedFrom(s[2..]);
    } else if s != [] {
      DroppedFrom(s[1..]);
    }
  }

  /** Stripping a second time changes a text exactly if it had two odd runs of stars with only stars and ticks between. */
  lemma StripTwice(s: string)
    ensures StripInlineMarkup(StripInlineMarkup(s)) == StripInlineMarkup(s) <==> !TwoOddRuns(s)
  {
    var r := StripInlineMarkup(s);
    PairsLeft(s);
    PairsGo(r);
    TicksGo(DropStars(s));
    TicksGo(DropStars(r));
    DroppedFrom(r);
  }

  /** It can: a marker appears when another one goes. */
  lemma StrippingIsNotIdempotent()
    ensures StripInlineMarkup("*`*") == "**" && StripInlineMarkup("**") == ""
  {
    var s := "*`*";
    assert s[1..] == "`*" && s[1..][1..] == "*" && DropStars("*") == "*";
    assert DropStars(s) == s;
    assert DropTicks("*") == "*" && DropTicks("`*") == "*";
    assert DropStars("**") == "";
  }

  // ----- what one pass leaves -----

  /** A run of odd length ends before position j. */
  ghost predicate RunEnds(s: string, j: nat) { exists k: nat, l: nat :: l == j && OddRun(s, k, l) }

  /** What stays: every character that is no marker, and of a run of stars the last one if it has no partner. */
  ghost predicate KeptAt(s: string, i: nat)
    requires i < |s|
  {
    s[i] != '`' && (s[i] == '*' ==> RunEnds(s, i + 1))
  }

  ghost function KeptFrom(s: string, i: nat): string
    requires i <= |s|
    decreases |s| - i
  {
    if i == |s| then [] else (if KeptAt(s, i) then [s[i]] else []) + KeptFrom(s, i + 1)
  }

  lemma KeptBehindPair(t: string, i: nat)
    requires i < |t|
    ensures KeptAt("**" + t, i + 2) <==> KeptAt(t, i)
  {
    var s := "**" + t;
    assert s[i + 2] == t[i];
    if k: nat, l: nat :| l == i + 3 && OddRun(s, k, l) {
      RunBehindPair(t, k, i + 3);
      assert OddRun(t, if k == 0 then 0 else k - 2, i + 1);
    }
    if k: nat, l: nat :| l == i + 1 && OddRun(t, k, l) {
      RunBehindPair(t, if k == 0 then 0 else k + 2, i + 3);
    }
  }

  lemma PairGoes(t: string)
    ensures !KeptAt("**" + t, 0) && !KeptAt("**" + t, 1)
  {
    var s := "**" + t;
    assert s[0] == '*' && s[1] == '*';
    assert forall k: nat, l: nat :: l == 1 || l == 2 ==> !OddRun(s, k, l);
  }

  lemma KeptBehindOne(c: char, t: string, i: nat)
    requires (c == '*' && t != [] ==> t[0] != '*') && i < |t|
    ensures KeptAt([c] + t, i + 1) <==> KeptAt(t, i)
  {
    var s := [c] + t;
    assert s[i + 1] == t[i];
    if t[i] == '*' {
      if k: nat, l: nat :| l == i + 2 && OddRun(s, k, l) {
        RunBehindOne(c, t, k, i + 2);
        assert OddRun(t, k - 1, i + 1);
      }
      if k: nat, l: nat :| l == i + 1 && OddRun(t, k, l) { RunBehindOne(c, t, k + 1, i + 2); }
    }
  }

  lemma OneKept(c: char, t: string)
    requires c == '*' && t != [] ==> t[0] != '*'
    ensures KeptAt([c] + t, 0) <==> c != '`'
  {
    if c == '*' {
      RunBehindOne(c, t, 0, 1);
      assert OddRun([c] + t, 0, 1);
    }
  }

  lemma {:induction false} KeptTail(s: string, t: string, d: nat, i: nat)
    requires Behind(s, t, d) && i <= |t|
    requires forall k :: 0 <= k < |t| ==> (KeptAt(t, k) <==> KeptAt(s, k + d))
    ensures KeptFrom(s, i + d) == KeptFrom(t, i)
    decreases |t| - i
  {
    if i < |t| {
      KeptTail(s, t, d, i + 1);
      assert t[i] == s[i + d] && (KeptAt(t, i) <==> KeptAt(s, i + d));
    }
  }

  lemma KeptTailBehindOne(c: char, t: string)
    requires c == '*' && t != [] ==> t[0] != '*'
    ensures KeptFrom([c] + t, 1) == KeptFrom(t, 0)
  {
    forall k | 0 <= k < |t| ensures KeptAt(t, k) <==> KeptAt([c] + t, k + 1) { KeptBehindOne(c, t, k); }
    KeptTail([c] + t, t, 1, 0);
  }

  lemma KeptPair(t: string)
    ensures KeptFrom("**" + t, 0) == KeptFrom(t, 0)
  {
    PairGoes(t);
    forall k | 0 <= k < |t| ensures KeptAt(t, k) <==> KeptAt("**" + t, k + 2) { KeptBehindPair(t, k); }
    KeptTail("**" + t, t, 2, 0);
    assert KeptFrom("**" + t, 1) == KeptFrom("**" + t, 2);
  }

  /** One pass removes the ticks and the pairs of stars, and keeps every other character in order. */
  lemma {:induction false} StripKeeps(s: string)
    ensures StripInlineMarkup(s) == KeptFrom(s, 0)
    decreases |s|
  {
    if s == [] {
    } else if |s| >= 2 && s[0] == '*' && s[1] == '*' {
      var t := s[2..];
      assert s == "**" + t;
      StripKeeps(t);
      KeptPair(t);
    } else {
      var c, t := s[0], s[1..];
      assert s == [c] + t;
      StripKeeps(t);
      OneStripped(c, t);
      OneKept(c, t);
      KeptTailBehindOne(c, t);
    }
  }

  /** So a text without markers stays as it is. */
  lemma {:induction false} NothingToStrip(s: string, i: nat)
    requires i <= |s| && '*' !in s && '`' !in s
    ensures KeptFrom(s, i) == s[i..]
    decreases |s| - i
  {
    if i < |s| {
      NothingToStrip(s, i + 1);
      assert s[i] in s && s[i..] == [s[i]] + s[i + 1..];
    }
  }
}
