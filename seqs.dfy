/** Order-preserving filtering of sequences (`Array.prototype.filter`), and
    the facts about it that the store, the hooks and the history view use. */
module Seqs {

  function Filter<T(!new)>(s: seq<T>, keep: T -> bool): (r: seq<T>)
    ensures |r| <= |s|
    ensures forall x :: x in r <==> x in s && keep(x)
  {
    if s == [] then []
    else if keep(s[0]) then [s[0]] + Filter(s[1..], keep)
    else Filter(s[1..], keep)
  }

  /** Filtering distributes over concatenation: the survivors keep their
      relative order. */
  lemma {:induction false} FilterConcat<T(!new)>(a: seq<T>, b: seq<T>, keep: T -> bool)
    ensures Filter(a + b, keep) == Filter(a, keep) + Filter(b, keep)
  {
    if a == [] {
      assert a + b == b;
    } else {
      assert (a + b)[0] == a[0];
      assert (a + b)[1..] == a[1..] + b;
      FilterConcat(a[1..], b, keep);
    }
  }

  /** When every element is kept, filtering is the identity. */
  lemma {:induction false} FilterAll<T(!new)>(s: seq<T>, keep: T -> bool)
    requires forall i :: 0 <= i < |s| ==> keep(s[i])
    ensures Filter(s, keep) == s
  {
    if s != [] {
      FilterAll(s[1..], keep);
    }
  }

  /** The kept and the dropped elements together account for the whole
      sequence. */
  lemma {:induction false} FilterPartition<T(!new)>(s: seq<T>, keep: T -> bool, drop: T -> bool)
    requires forall x :: drop(x) == !keep(x)
    ensures |Filter(s, keep)| + |Filter(s, drop)| == |s|
  {
    if s != [] {
      FilterPartition(s[1..], keep, drop);
    }
  }

  /** Filtering, element by element judged by the same test, commutes with
      a map that preserves what the test looks at. */
  lemma {:induction false} FilterMapLength<T(!new), U(!new)>(s: seq<T>, t: seq<U>, keepS: T -> bool, keepT: U -> bool)
    requires |s| == |t|
    requires forall i :: 0 <= i < |s| ==> keepS(s[i]) == keepT(t[i])
    ensures |Filter(s, keepS)| == |Filter(t, keepT)|
  {
    if s != [] {
      FilterMapLength(s[1..], t[1..], keepS, keepT);
    }
  }

  /** The elements whose key differs from k, in their order
      (`s.filter(item => item.id !== id)`). */
  function WithoutKey<T(!new), K(==)>(s: seq<T>, key: T -> K, k: K): (r: seq<T>)
    ensures forall x :: x in r <==> x in s && key(x) != k
    ensures (forall i :: 0 <= i < |s| ==> key(s[i]) != k) ==> r == s
  {
    var keep := (x: T) => key(x) != k;
    assert (forall i :: 0 <= i < |s| ==> key(s[i]) != k) ==> Filter(s, keep) == s by {
      if forall i :: 0 <= i < |s| ==> key(s[i]) != k {
        FilterAll(s, keep);
      }
    }
    Filter(s, keep)
  }

  /** Removing by key works on each part of a sequence independently, so the
      survivors keep their order. */
  lemma WithoutKeyConcat<T(!new), K>(a: seq<T>, b: seq<T>, key: T -> K, k: K)
    ensures WithoutKey(a + b, key, k) == WithoutKey(a, key, k) + WithoutKey(b, key, k)
  {
    FilterConcat(a, b, (x: T) => key(x) != k);
  }
}
