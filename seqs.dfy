/** Order-preserving deletion between sequences. */
module Seqs {

  /** `a` can be obtained from `b` by deleting elements, keeping the order of the rest. */
  predicate Sub<T(==)>(a: seq<T>, b: seq<T>)
    decreases |b|
  {
    if |b| == 0 then |a| == 0
    else (|a| > 0 && a[|a| - 1] == b[|b| - 1] && Sub(a[..|a| - 1], b[..|b| - 1]))
         || Sub(a, b[..|b| - 1])
  }

  lemma {:induction false} SubLength<T>(a: seq<T>, b: seq<T>)
    requires Sub(a, b)
    ensures |a| <= |b|
    decreases |b|
  {
    if |b| > 0 {
      if |a| > 0 && a[|a| - 1] == b[|b| - 1] && Sub(a[..|a| - 1], b[..|b| - 1]) {
        SubLength(a[..|a| - 1], b[..|b| - 1]);
      } else {
        SubLength(a, b[..|b| - 1]);
      }
    }
  }

  lemma {:induction false} SubEmpty<T>(b: seq<T>)
    ensures Sub([], b)
    decreases |b|
  {
    if |b| > 0 {
      SubEmpty(b[..|b| - 1]);
    }
  }

  lemma {:induction false} SubReflexive<T>(a: seq<T>)
    ensures Sub(a, a)
    decreases |a|
  {
    if |a| > 0 {
      SubReflexive(a[..|a| - 1]);
    }
  }

  /** Deletions in two halves combine into a deletion of the whole. */
  lemma {:induction false} SubConcat<T>(a1: seq<T>, b1: seq<T>, a2: seq<T>, b2: seq<T>)
    requires Sub(a1, b1) && Sub(a2, b2)
    ensures Sub(a1 + a2, b1 + b2)
    decreases |b2|
  {
    if |b2| == 0 {
      assert a2 == [];
      assert a1 + a2 == a1 && b1 + b2 == b1;
    } else {
      var b2' := b2[..|b2| - 1];
      assert (b1 + b2)[..|b1 + b2| - 1] == b1 + b2';
      if |a2| > 0 && a2[|a2| - 1] == b2[|b2| - 1] && Sub(a2[..|a2| - 1], b2') {
        SubConcat(a1, b1, a2[..|a2| - 1], b2');
        assert (a1 + a2)[..|a1 + a2| - 1] == a1 + a2[..|a2| - 1];
      } else {
        SubConcat(a1, b1, a2, b2');
      }
    }
  }

  lemma {:induction false} SubTransitive<T>(x: seq<T>, y: seq<T>, z: seq<T>)
    requires Sub(x, y) && Sub(y, z)
    ensures Sub(x, z)
    decreases |z|
  {
    if |z| > 0 {
      var z' := z[..|z| - 1];
      if |y| > 0 && y[|y| - 1] == z[|z| - 1] && Sub(y[..|y| - 1], z') {
        var y' := y[..|y| - 1];
        if |x| > 0 && x[|x| - 1] == y[|y| - 1] && Sub(x[..|x| - 1], y') {
          SubTransitive(x[..|x| - 1], y', z');
        } else {
          SubTransitive(x, y', z');
        }
      } else {
        SubTransitive(x, y, z');
      }
    } else {
      SubLength(y, z);
      SubLength(x, y);
    }
  }

  /** Dropping a block from the middle of a sequence is a deletion. */
  lemma DeleteMiddle<T>(x: seq<T>, y: seq<T>, z: seq<T>)
    ensures Sub(x + z, x + (y + z))
  {
    SubReflexive(x);
    SubReflexive(z);
    SubEmpty(y);
    SubConcat([], y, z, z);
    assert [] + z == z;
    SubConcat(x, x, z, y + z);
  }

  /** The same, for a block `s[j..k]` of a suffix `s[i..]`. */
  lemma DeleteSlice<T>(s: seq<T>, i: nat, j: nat, k: nat)
    requires i <= j <= k <= |s|
    ensures Sub(s[i..j] + s[k..], s[i..])
  {
    DeleteMiddle(s[i..j], s[j..k], s[k..]);
    assert s[i..j] + (s[j..k] + s[k..]) == s[i..];
  }

  /** A prefix one longer is the prefix and the next element. */
  lemma TakeOneMore<T>(s: seq<T>, i: nat)
    requires i < |s|
    ensures s[..i + 1] == s[..i] + [s[i]]
  {
  }
}
