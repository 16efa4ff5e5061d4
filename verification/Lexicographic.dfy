/** Python's comparison of sequences: the first difference decides, and a proper prefix comes first. */
module Lexicographic {

  predicate LexLess<T(==)>(less: (T, T) -> bool, a: seq<T>, b: seq<T>) {
    if b == [] then false
    else if a == [] then true
    else if a[0] == b[0] then LexLess(less, a[1..], b[1..])
    else less(a[0], b[0])
  }

  ghost predicate StrictTotal<T(!new)>(less: (T, T) -> bool) {
    && (forall x :: !less(x, x))
    && (forall x, y :: x != y ==> (less(x, y) <==> !less(y, x)))
    && (forall x, y, z :: less(x, y) && less(y, z) ==> less(x, z))
  }

  /** `a` and `b` agree before `i` and `a` is smaller there, or `a` is a proper prefix of `b`. */
  ghost predicate SmallerFrom<T>(less: (T, T) -> bool, a: seq<T>, b: seq<T>, i: nat) {
    && i <= |a| && i < |b| && a[..i] == b[..i]
    && (i == |a| || (a[i] != b[i] && less(a[i], b[i])))
  }

  lemma {:induction false} LexFirstDifference<T>(less: (T, T) -> bool, a: seq<T>, b: seq<T>)
    ensures LexLess(less, a, b) <==> exists i: nat :: SmallerFrom(less, a, b, i)
  {
    if b == [] {
    } else if a == [] {
      assert SmallerFrom(less, a, b, 0);
    } else if a[0] == b[0] {
      LexFirstDifference(less, a[1..], b[1..]);
      if i: nat :| SmallerFrom(less, a[1..], b[1..], i) {
        assert a[..i + 1] == [a[0]] + a[1..][..i] && b[..i + 1] == [b[0]] + b[1..][..i];
        assert SmallerFrom(less, a, b, i + 1);
      }
      if i: nat :| SmallerFrom(less, a, b, i) {
        assert i > 0;
        assert a[..i][1..] == a[1..][..i - 1] && b[..i][1..] == b[1..][..i - 1];
        assert SmallerFrom(less, a[1..], b[1..], i - 1);
      }
    } else {
      forall i: nat | 0 < i <= |a| && i < |b| ensures a[..i] != b[..i] {
        assert a[..i][0] != b[..i][0];
      }
      assert SmallerFrom(less, a, b, 0) <==> less(a[0], b[0]);
    }
  }

  lemma {:induction false} LexTotal<T(!new)>(less: (T, T) -> bool, a: seq<T>, b: seq<T>)
    requires StrictTotal(less)
    ensures !LexLess(less, a, a)
    ensures a != b ==> (LexLess(less, a, b) <==> !LexLess(less, b, a))
  {
    if a != [] {
      LexTotal(less, a[1..], if b == [] then [] else b[1..]);
      if b != [] && a[0] == b[0] {
        assert a == [a[0]] + a[1..] && b == [b[0]] + b[1..];
      }
    }
  }

  lemma {:induction false} LexTransitive<T(!new)>(less: (T, T) -> bool, a: seq<T>, b: seq<T>, c: seq<T>)
    requires StrictTotal(less) && LexLess(less, a, b) && LexLess(less, b, c)
    ensures LexLess(less, a, c)
  {
    if a != [] && a[0] == b[0] && b[0] == c[0] {
      LexTransitive(less, a[1..], b[1..], c[1..]);
    }
  }
}
