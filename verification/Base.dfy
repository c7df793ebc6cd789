/** Small datatypes and sequence facts shared by the other modules. */
module Base {

  datatype Option<+T> = None | Some(value: T) {
    function GetOr(default: T): T {
      if Some? then value else default
    }
  }

  lemma ConcatAssoc<T>(a: seq<T>, b: seq<T>, c: seq<T>)
    ensures a + (b + c) == (a + b) + c
  {
  }

  /** `a` comes from `b` by leaving elements out. */
  predicate Subsequence<T(==)>(a: seq<T>, b: seq<T>)
    decreases |b|
  {
    if a == [] then true
    else if b == [] then false
    else
      || (a[|a| - 1] == b[|b| - 1] && Subsequence(a[..|a| - 1], b[..|b| - 1]))
      || Subsequence(a, b[..|b| - 1])
  }

  lemma {:induction false} SubsequenceOfItself<T>(a: seq<T>)
    ensures Subsequence(a, a)
  {
    if a != [] {
      SubsequenceOfItself(a[..|a| - 1]);
    }
  }

  lemma SubsequenceAppend<T>(a: seq<T>, b: seq<T>, x: T)
    requires Subsequence(a, b)
    ensures Subsequence(a + [x], b + [x])
  {
    assert (a + [x])[..|a|] == a && (b + [x])[..|b|] == b;
  }

  lemma {:induction false} SubsequenceTransitive<T>(a: seq<T>, b: seq<T>, c: seq<T>)
    requires Subsequence(a, b) && Subsequence(b, c)
    ensures Subsequence(a, c)
    decreases |b| + |c|
  {
    if a != [] {
      var (b1, c1) := (b[..|b| - 1], c[..|c| - 1]);
      if !(b[|b| - 1] == c[|c| - 1] && Subsequence(b1, c1)) {
        SubsequenceTransitive(a, b, c1);
      } else if a[|a| - 1] == b[|b| - 1] && Subsequence(a[..|a| - 1], b1) {
        SubsequenceTransitive(a[..|a| - 1], b1, c1);
      } else {
        SubsequenceTransitive(a, b1, c1);
      }
    }
  }

  /** Taking one element out of the middle. */
  lemma {:induction false} SubsequenceWithoutOne<T>(a: seq<T>, x: T, b: seq<T>)
    ensures Subsequence(a + b, a + [x] + b)
  {
    if b == [] {
      assert (a + [x] + b)[..|a|] == a && a + b == a;
      SubsequenceOfItself(a);
    } else {
      var b1 := b[..|b| - 1];
      SubsequenceWithoutOne(a, x, b1);
      assert (a + b)[..|a + b| - 1] == a + b1 && (a + [x] + b)[..|a + [x] + b| - 1] == a + [x] + b1;
    }
  }

  function Min(a: int, b: int): int {
    if a < b then a else b
  }
}
