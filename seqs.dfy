/** Sequence helpers shared by the training-data transforms: the order-keeping
    filter that JavaScript's Array.prototype.filter performs, and the
    "keys are pairwise distinct" invariant that the record ids are meant to keep. */
module Seqs {

  /** The elements of `s` for which `keep` holds, in their original order. */
  function Filter<T>(s: seq<T>, keep: T -> bool): (r: seq<T>)
    ensures |r| <= |s|
    ensures forall i :: 0 <= i < |r| ==> r[i] in s && keep(r[i])
    ensures forall i :: 0 <= i < |s| && keep(s[i]) ==> s[i] in r
    ensures (forall i :: 0 <= i < |s| ==> keep(s[i])) ==> r == s
  {
    if s == [] then []
    else if keep(s[0]) then [s[0]] + Filter(s[1..], keep)
    else Filter(s[1..], keep)
  }

  /** Filtering distributes over concatenation: the relative order of the kept
      elements is the order they had in the input. */
  lemma {:induction false} FilterConcat<T>(a: seq<T>, b: seq<T>, keep: T -> bool)
    ensures Filter(a + b, keep) == Filter(a, keep) + Filter(b, keep)
  {
    if a == [] {
      assert a + b == b;
    } else {
      assert (a + b)[1..] == a[1..] + b;
      FilterConcat(a[1..], b, keep);
    }
  }

  /** No two elements of `s` share a key. */
  ghost predicate UniqueKeys<T>(s: seq<T>, key: T -> string)
  {
    forall i, j :: 0 <= i < j < |s| ==> key(s[i]) != key(s[j])
  }

  /** `k` is not the key of any element of `s`. */
  ghost predicate KeyAbsent<T>(s: seq<T>, key: T -> string, k: string)
  {
    forall i :: 0 <= i < |s| ==> key(s[i]) != k
  }

  /** Filtering keeps keys distinct. */
  lemma {:induction false} FilterKeepsUniqueKeys<T>(s: seq<T>, keep: T -> bool, key: T -> string)
    requires UniqueKeys(s, key)
    ensures UniqueKeys(Filter(s, keep), key)
  {
    if s != [] {
      var tail := s[1..];
      assert UniqueKeys(tail, key) by {
        forall i, j | 0 <= i < j < |tail| ensures key(tail[i]) != key(tail[j]) {
          assert tail[i] == s[i + 1] && tail[j] == s[j + 1];
        }
      }
      FilterKeepsUniqueKeys(tail, keep, key);
      if keep(s[0]) {
        var r := Filter(s, keep);
        var rt := Filter(tail, keep);
        assert r == [s[0]] + rt;
        forall j | 0 < j < |r| ensures key(r[0]) != key(r[j]) {
          assert r[j] == rt[j - 1];
          assert r[j] in tail;
          var k :| 0 <= k < |tail| && tail[k] == r[j];
          assert tail[k] == s[k + 1];
        }
        forall i, j | 0 <= i < j < |r| ensures key(r[i]) != key(r[j]) {
          if i > 0 {
            assert r[i] == rt[i - 1] && r[j] == rt[j - 1];
          }
        }
      }
    }
  }

  /** Appending an element whose key is new keeps keys distinct. */
  lemma AppendKeepsUniqueKeys<T>(s: seq<T>, x: T, key: T -> string)
    requires UniqueKeys(s, key) && KeyAbsent(s, key, key(x))
    ensures UniqueKeys(s + [x], key)
  {
    var r := s + [x];
    forall i, j | 0 <= i < j < |r| ensures key(r[i]) != key(r[j]) {
      if j == |s| {
        assert r[i] == s[i];
      } else {
        assert r[i] == s[i] && r[j] == s[j];
      }
    }
  }

  /** Removing, by filter, every element carrying a key that is absent from
      `s` undoes appending an element with that key. */
  lemma AppendThenFilterOut<T>(s: seq<T>, x: T, keep: T -> bool)
    requires !keep(x) && forall i :: 0 <= i < |s| ==> keep(s[i])
    ensures Filter(s + [x], keep) == s
  {
    FilterConcat(s, [x], keep);
    assert Filter([x], keep) == [] by {
      assert [x][1..] == [];
    }
  }
}
