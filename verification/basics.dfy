/** Small shared vocabulary: an optional value, duplicate-freedom, and the
    sum / concatenation folds that the read projections are built from. */
module Basics {

  /** Python's `None` or a present value. */
  datatype Option<T> = None | Some(value: T) {

    /** `dict.get(key, default)` style fallback. */
    function GetOr(default: T): T {
      if Some? then value else default
    }
  }

  /** No element occurs twice. */
  ghost predicate NoDup<T>(s: seq<T>) {
    forall i, j :: 0 <= i < j < |s| ==> s[i] != s[j]
  }

  /** Dropping the head of a duplicate-free sequence keeps it duplicate-free,
      and the head does not occur again. */
  lemma NoDupTail<T>(s: seq<T>)
    requires NoDup(s) && s != []
    ensures NoDup(s[1..]) && s[0] !in s[1..]
  {
    forall i, j | 0 <= i < j < |s[1..]| ensures s[1..][i] != s[1..][j] {
      assert s[1..][i] == s[i + 1] && s[1..][j] == s[j + 1];
    }
    forall j | 0 <= j < |s[1..]| ensures s[1..][j] != s[0] {
      assert s[1..][j] == s[j + 1];
    }
  }

  /** Dropping the last element of a duplicate-free sequence keeps it
      duplicate-free, and the last element does not occur before. */
  lemma NoDupFront<T>(s: seq<T>)
    requires NoDup(s) && s != []
    ensures NoDup(s[..|s| - 1]) && s[|s| - 1] !in s[..|s| - 1]
  {
    var front := s[..|s| - 1];
    assert forall i :: 0 <= i < |front| ==> front[i] == s[i];
  }

  /** Being a prefix is transitive. */
  lemma PrefixOfPrefix<T>(a: seq<T>, b: seq<T>, c: seq<T>)
    requires a <= b && b <= c
    ensures a <= c
  {
    assert a == b[..|a|] == c[..|b|][..|a|];
  }

  /** Sum of a sequence, folding from the front like a `for` loop with `+=`. */
  function Sum(xs: seq<int>): int {
    if xs == [] then 0 else Sum(xs[..|xs| - 1]) + xs[|xs| - 1]
  }

  /** Concatenation of a sequence of sequences, as `result += block` in a loop. */
  function Concat<T>(blocks: seq<seq<T>>): seq<T> {
    if blocks == [] then [] else Concat(blocks[..|blocks| - 1]) + blocks[|blocks| - 1]
  }

  /** The length of a concatenation, the sum of the block lengths. */
  lemma {:induction false} ConcatLengthOf<T>(blocks: seq<seq<T>>, lens: seq<int>)
    requires |lens| == |blocks| && forall i :: 0 <= i < |blocks| ==> |blocks[i]| == lens[i]
    ensures |Concat(blocks)| == Sum(lens)
  {
    if blocks != [] {
      ConcatLengthOf(blocks[..|blocks| - 1], lens[..|lens| - 1]);
    }
  }

  /** An element of one block is in the concatenation. */
  lemma ConcatHas<T>(blocks: seq<seq<T>>, i: int, x: T)
    requires 0 <= i < |blocks| && x in blocks[i]
    ensures x in Concat(blocks)
  {
    ConcatMember(blocks, x);
  }

  /** An element is in a concatenation exactly when it is in one of the blocks. */
  lemma {:induction false} ConcatMember<T>(blocks: seq<seq<T>>, x: T)
    ensures x in Concat(blocks) <==> exists i :: 0 <= i < |blocks| && x in blocks[i]
  {
    if blocks != [] {
      var front := blocks[..|blocks| - 1];
      ConcatMember(front, x);
      if x in Concat(blocks) && x !in blocks[|blocks| - 1] {
        assert x in Concat(front);
        var i :| 0 <= i < |front| && x in front[i];
        assert x in blocks[i];
      }
      if exists i :: 0 <= i < |blocks| && x in blocks[i] {
        var i :| 0 <= i < |blocks| && x in blocks[i];
        if i < |front| {
          assert x in front[i];
        }
      }
    }
  }
}
