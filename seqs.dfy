/** Facts about sequence concatenation and slicing, stated once for any element type so that
    the logs of browser calls can be rearranged without comparing their elements. */
module Seqs {
  lemma AppendAssoc<T>(x: seq<T>, y: seq<T>, z: seq<T>)
    ensures (x + y) + z == x + (y + z)
  {
  }

  lemma AppendAssoc4<T>(a: seq<T>, b: seq<T>, c: seq<T>, d: seq<T>)
    ensures ((a + b) + c) + d == a + ((b + c) + d)
  {
  }

  /** The head and the tail of a concatenation with a non-empty front. */
  lemma AppendFront<T>(a: seq<T>, b: seq<T>)
    requires a != []
    ensures (a + b)[0] == a[0] && (a + b)[1..] == a[1..] + b
  {
  }

  /** Dropping the last element of a concatenation with a non-empty back. */
  lemma AppendBack<T>(a: seq<T>, b: seq<T>)
    requires b != []
    ensures (a + b)[..|a + b| - 1] == a + b[..|b| - 1]
  {
  }

  /** The front of a concatenation is its first part. */
  lemma AppendTake<T>(a: seq<T>, b: seq<T>)
    ensures (a + b)[..|a|] == a
  {
  }

  /** A non-empty sequence is its head before its tail. */
  lemma HeadTail<T>(s: seq<T>)
    requires s != []
    ensures s == [s[0]] + s[1..]
  {
  }

  lemma PrefixOfAppend<T>(a: seq<T>, b: seq<T>)
    ensures a <= a + b
  {
  }

  /** What occurs in a prefix occurs in the whole. */
  lemma InPrefix<T>(x: T, a: seq<T>, b: seq<T>)
    requires x in a && a <= b
    ensures x in b
  {
  }

  lemma PrefixTrans<T>(a: seq<T>, b: seq<T>, c: seq<T>)
    requires a <= b && b <= c
    ensures a <= c
  {
  }

  lemma PrefixCons<T>(x: T, a: seq<T>, b: seq<T>)
    requires a <= b
    ensures [x] + a <= [x] + b
  {
  }

  /** Short displays split before their last element. */
  lemma SplitLast2<T>(a: T, b: T)
    ensures [a, b] == [a] + [b]
  {
  }

  lemma SplitLast4<T>(a: T, b: T, c: T, d: T)
    ensures [a, b, c, d] == [a, b, c] + [d]
  {
  }

  /** A non-empty sequence is its front before its last element. */
  lemma DropLast<T>(s: seq<T>)
    requires s != []
    ensures s == s[..|s| - 1] + [s[|s| - 1]]
  {
  }

  /** What occurs in a concatenation but not in its front occurs in its back. */
  lemma InBack<T>(x: T, a: seq<T>, b: seq<T>, c: seq<T>)
    requires c == a + b && x in c && x !in a
    ensures x in b
  {
  }
}
