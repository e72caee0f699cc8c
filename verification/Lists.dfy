/** Duplicate-free sequences standing for the kernel's intrusive lists. */
module Lists {

  datatype Option<+T> = None | Some(value: T)

  ghost predicate NoDup<T>(xs: seq<T>) {
    forall i, j :: 0 <= i < j < |xs| ==> xs[i] != xs[j]
  }

  /** list_del: drop the first occurrence of x, if there is one. */
  function Remove<T(==)>(xs: seq<T>, x: T): (r: seq<T>)
    ensures x !in xs ==> r == xs
    ensures x in xs ==> |r| == |xs| - 1
  {
    if xs == [] then []
    else if xs[0] == x then xs[1..]
    else [xs[0]] + Remove(xs[1..], x)
  }

  lemma {:induction false} RemoveKeepsOthers<T>(xs: seq<T>, x: T, y: T)
    requires y != x
    ensures y in Remove(xs, x) <==> y in xs
  {
    if xs != [] {
      assert xs == [xs[0]] + xs[1..];
      if xs[0] != x {
        RemoveKeepsOthers(xs[1..], x, y);
      }
    }
  }

  lemma RemoveSubset<T>(xs: seq<T>, x: T, y: T)
    requires y in Remove(xs, x)
    ensures y in xs
  {
    if y != x {
      RemoveKeepsOthers(xs, x, y);
    }
  }

  lemma {:induction false} RemoveNoDup<T>(xs: seq<T>, x: T)
    requires NoDup(xs)
    ensures NoDup(Remove(xs, x))
    ensures x !in Remove(xs, x)
  {
    if xs != [] {
      var rest := xs[1..];
      assert NoDup(rest);
      assert xs[0] !in rest;
      if xs[0] != x {
        RemoveNoDup(rest, x);
        var r := Remove(rest, x);
        if xs[0] in r {
          RemoveSubset(rest, x, xs[0]);
        }
        assert Remove(xs, x) == [xs[0]] + r;
      }
    }
  }

  /** Everything a caller needs about unlinking one element. */
  lemma RemoveSpec<T(!new)>(xs: seq<T>, x: T)
    requires NoDup(xs)
    ensures NoDup(Remove(xs, x))
    ensures forall y :: y in Remove(xs, x) <==> y in xs && y != x
  {
    RemoveNoDup(xs, x);
    forall y ensures y in Remove(xs, x) <==> y in xs && y != x {
      if y != x {
        RemoveKeepsOthers(xs, x, y);
      }
    }
  }

  lemma AppendNoDup<T(!new)>(xs: seq<T>, x: T)
    requires NoDup(xs) && x !in xs
    ensures NoDup(xs + [x])
    ensures forall y :: y in xs + [x] <==> y in xs || y == x
  {
  }

  lemma PrependNoDup<T(!new)>(xs: seq<T>, x: T)
    requires NoDup(xs) && x !in xs
    ensures NoDup([x] + xs)
    ensures forall y :: y in [x] + xs <==> y in xs || y == x
  {
  }

  lemma TailNoDup<T(!new)>(xs: seq<T>)
    requires NoDup(xs) && xs != []
    ensures NoDup(xs[1..]) && xs[0] !in xs[1..]
    ensures forall y :: y in xs[1..] <==> y in xs && y != xs[0]
  {
    assert xs == [xs[0]] + xs[1..];
  }
}
