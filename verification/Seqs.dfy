/** Laws of sequences, each by itself.  They say what the slices of a concatenation are, how slices of slices are taken,
    and that concatenation is associative.  A proof names the laws it rests on, at the sequences it needs them for, so that
    it does not depend on the order in which a solver tries them; that keeps the proofs about texts, which are all built
    from long concatenations, short and quick.  Every law is stated for any type of element, and each one is about
    one equation or two. */
module Seqs {

  lemma Dropped<T>(a: seq<T>, b: seq<T>)
    ensures (a + b)[..|a|] == a
    ensures (a + b)[|a|..] == b
  {
  }

  lemma DroppedMore<T>(a: seq<T>, b: seq<T>, n: nat)
    requires n <= |b|
    ensures (a + b)[|a| + n..] == b[n..]
  {
  }

  lemma Assoc<T>(a: seq<T>, b: seq<T>, c: seq<T>)
    ensures (a + b) + c == a + (b + c)
  {
  }

  lemma Slice<T>(s: seq<T>, a: nat, b: nat, c: nat, d: nat)
    requires a <= b <= |s| && c <= d <= b - a
    ensures s[a..b][c..d] == s[a + c..a + d]
  {
    forall i | 0 <= i < d - c ensures s[a..b][c..d][i] == s[a + c..a + d][i] {
    }
  }

  lemma Halves<T>(s: seq<T>, k: nat)
    requires k <= |s|
    ensures s[..k] + s[k..] == s
  {
  }

  lemma TakeMore<T>(s: seq<T>, i: nat, j: nat)
    requires i <= j <= |s|
    ensures s[..j] == s[..i] + s[i..j]
  {
  }

  lemma DropMore<T>(s: seq<T>, i: nat, j: nat)
    requires i + j <= |s|
    ensures s[i..][j..] == s[i + j..]
  {
  }

  /** A stretch of a stretch. */
  lemma Inside<T>(s: seq<T>, t: seq<T>, at: nat, k: nat, n: nat)
    requires at + |t| <= |s| && s[at..at + |t|] == t && k + n <= |t|
    ensures s[at + k..at + k + n] == t[k..][..n]
  {
    forall i | 0 <= i < n ensures s[at + k..at + k + n][i] == t[k..][..n][i] {
      assert s[at..at + |t|][k + i] == t[k + i];
    }
  }

  lemma TakeOfDrop<T>(s: seq<T>, i: nat, j: nat)
    requires i + j <= |s|
    ensures s[i..][..j] == s[i..i + j]
  {
  }

  /** The last element on its own. */
  lemma InitLast<T>(s: seq<T>)
    requires s != []
    ensures s == s[..|s| - 1] + [s[|s| - 1]]
  {
  }

  lemma ToTheEnd<T>(s: seq<T>, i: nat)
    requires i <= |s|
    ensures s[i..|s|] == s[i..]
  {
  }

  lemma FrontSlice<T>(s: seq<T>, n: nat, i: nat, j: nat)
    requires i <= j <= n <= |s|
    ensures s[..n][i..j] == s[i..j]
  {
  }

  /** A tail, from the tail without the last element. */
  lemma TailSnoc<T>(s: seq<T>, i: nat)
    requires i < |s|
    ensures s[i..] == s[..|s| - 1][i..] + [s[|s| - 1]]
  {
  }

  lemma EmptyEnds<T>(s: seq<T>)
    ensures s + [] == s && [] + s == s
  {
  }

  lemma Tail<T>(a: seq<T>, b: seq<T>)
    requires a != []
    ensures (a + b)[0] == a[0] && (a + b)[1..] == a[1..] + b
  {
  }

  lemma Ends<T>(a: seq<T>, b: seq<T>, c: seq<T>)
    requires a != [] && c != []
    ensures var s := a + b + c; s != [] && s[0] == a[0] && s[|s| - 1] == c[|c| - 1]
  {
  }
}
