/** Sequences without repetition, by their elements or by a value of each, and the sets of these. */
module Sequences {
  ghost predicate Distinct<T>(s: seq<T>) {
    forall i, j :: 0 <= i < j < |s| ==> s[i] != s[j]
  }

  function Elements<T>(s: seq<T>): set<T> {
    set x | x in s
  }

  lemma {:induction false} DistinctMeansCount<T>(s: seq<T>)
    ensures Distinct(s) <==> |Elements(s)| == |s|
    ensures |Elements(s)| <= |s|
  {
    if s == [] {
      assert Elements(s) == {};
    } else {
      var front, last := s[..|s| - 1], s[|s| - 1];
      DistinctMeansCount(front);
      assert s == front + [last];
      assert Elements(s) == Elements(front) + {last};
      if last in front {
        assert Elements(s) == Elements(front);
        var i :| 0 <= i < |front| && front[i] == last;
        assert s[i] == s[|s| - 1];
      }
    }
  }

  ghost predicate Apart<T>(a: seq<T>, b: seq<T>) {
    forall x :: x in a ==> x !in b
  }

  lemma DistinctConcat<T>(a: seq<T>, b: seq<T>)
    ensures Distinct(a + b) <==> Distinct(a) && Distinct(b) && Apart(a, b)
  {
    var s := a + b;
    if Distinct(s) {
      assert forall i :: 0 <= i < |a| ==> a[i] == s[i];
      assert forall i :: 0 <= i < |b| ==> b[i] == s[|a| + i];
    }
    if Distinct(a) && Distinct(b) && Apart(a, b) {
      forall i, j | 0 <= i < j < |s| ensures s[i] != s[j] {
        if i < |a| <= j {
          assert s[i] in a && s[j] in b;
        }
      }
    }
  }

  lemma DistinctHead<T>(s: seq<T>)
    requires s != []
    ensures Distinct(s) <==> s[0] !in s[1..] && Distinct(s[1..])
  {
    DistinctConcat([s[0]], s[1..]);
    assert s == [s[0]] + s[1..];
  }

  lemma TakeNext<T>(s: seq<T>, i: nat)
    requires i < |s|
    ensures s[..i + 1] == s[..i] + [s[i]]
  {
  }

  lemma DistinctPrefix<T>(a: seq<T>, b: seq<T>, c: seq<T>)
    ensures a + (b + c) == a + b + c
    ensures Distinct(a + (b + c)) ==> Distinct(a + b)
  {
    assert a + (b + c) == a + b + c;
    DistinctConcat(a + b, c);
  }

  lemma DistinctAppend<T>(s: seq<T>, x: T)
    requires Distinct(s) && x !in Elements(s)
    ensures Distinct(s + [x]) && Elements(s + [x]) == Elements(s) + {x}
  {
    forall a | 0 <= a < |s| ensures s[a] != x {
      assert s[a] in Elements(s);
    }
  }

  lemma PrefixElements<T>(s: seq<T>, i: nat)
    requires Distinct(s) && i < |s|
    ensures s[i] in Elements(s) && s[i] !in Elements(s[..i])
    ensures Elements(s[..i + 1]) == Elements(s[..i]) + {s[i]}
  {
    assert s[..i + 1] == s[..i] + [s[i]];
  }

  ghost predicate DistinctBy<T(!new), U(!new)>(s: seq<T>, f: T -> U) {
    forall i, j :: 0 <= i < j < |s| ==> f(s[i]) != f(s[j])
  }

  ghost function Image<T(!new), U(!new)>(s: seq<T>, f: T -> U): set<U> {
    set i | 0 <= i < |s| :: f(s[i])
  }

  /** What a loop that keeps the values seen so far learns from the next element. */
  lemma NextValue<T(!new), U(!new)>(s: seq<T>, f: T -> U, n: nat)
    requires n < |s|
    ensures Image(s[..n + 1], f) == Image(s[..n], f) + {f(s[n])}
    ensures DistinctBy(s[..n], f) && f(s[n]) !in Image(s[..n], f) ==> DistinctBy(s[..n + 1], f)
    ensures f(s[n]) in Image(s[..n], f) ==> !DistinctBy(s, f)
  {
    var before, with := s[..n], s[..n + 1];
    assert forall i :: 0 <= i < n ==> with[i] == before[i] == s[i];
    assert with[n] == s[n];
    forall x | x in Image(before, f) ensures x in Image(with, f) {
      var i :| 0 <= i < n && f(before[i]) == x;
      assert f(with[i]) == x;
    }
    forall x | x in Image(with, f) ensures x in Image(before, f) + {f(s[n])} {
      var i :| 0 <= i < n + 1 && f(with[i]) == x;
      if i < n {
        assert f(before[i]) == x;
      }
    }
    assert f(with[n]) in Image(with, f);
    if DistinctBy(before, f) && f(s[n]) !in Image(before, f) {
      forall i, j | 0 <= i < j < |with| ensures f(with[i]) != f(with[j]) {
        assert f(before[i]) in Image(before, f);
      }
    }
  }

  lemma {:induction false} ImageCount<T(!new), U(!new)>(s: seq<T>, f: T -> U)
    requires DistinctBy(s, f)
    ensures |Image(s, f)| == |s|
  {
    if s == [] {
      assert Image(s, f) == {};
    } else {
      var n := |s| - 1;
      NextValue(s, f, n);
      assert s[..n + 1] == s;
      ImageCount(s[..n], f);
      assert f(s[n]) !in Image(s[..n], f);
    }
  }

  lemma DistinctByConcat<T(!new), U(!new)>(a: seq<T>, b: seq<T>, f: T -> U)
    requires DistinctBy(a, f) && DistinctBy(b, f)
    requires forall x, y | x in a && y in b :: f(x) != f(y)
    ensures DistinctBy(a + b, f)
  {
    var s := a + b;
    forall i, j | 0 <= i < j < |s| ensures f(s[i]) != f(s[j]) {
      if i < |a| <= j {
        assert s[i] in a && s[j] in b;
      }
    }
  }
}
