/** Python's string order and its stable `sorted`. */
module Ordering {
  predicate LessEq(a: string, b: string) {
    a == "" || (b != "" && (a[0] < b[0] || (a[0] == b[0] && LessEq(a[1..], b[1..]))))
  }

  /** The order is by the first code point that differs, a prefix before its extensions. */
  lemma {:induction false} LessEqIsByCodePoint(a: string, b: string)
    ensures LessEq(a, b) <==>
              a <= b || exists i: nat :: i < |a| && i < |b| && a[..i] == b[..i] && a[i] as int < b[i] as int
  {
    if a != "" && b != "" {
      if a[0] == b[0] {
        LessEqIsByCodePoint(a[1..], b[1..]);
        if i: nat :| i < |a| && i < |b| && a[..i] == b[..i] && a[i] as int < b[i] as int {
          assert a[1..][..i - 1] == a[..i][1..] && b[1..][..i - 1] == b[..i][1..];
          assert a[1..][i - 1] as int < b[1..][i - 1] as int;
        }
        if i: nat :| i < |a| - 1 && i < |b| - 1 && a[1..][..i] == b[1..][..i] && a[1..][i] as int < b[1..][i] as int {
          assert a[..i + 1] == [a[0]] + a[1..][..i] && b[..i + 1] == [b[0]] + b[1..][..i];
          assert a[i + 1] as int < b[i + 1] as int;
        }
        assert a <= b <==> a[1..] <= b[1..];
      } else if a[0] < b[0] {
        assert a[..0] == b[..0] && a[0] as int < b[0] as int;
      }
    }
  }

  lemma {:induction false} Total(a: string, b: string)
    ensures LessEq(a, b) || LessEq(b, a)
  {
    if a != "" && b != "" && a[0] == b[0] { Total(a[1..], b[1..]); }
  }

  lemma {:induction false} Transitive(a: string, b: string, c: string)
    requires LessEq(a, b) && LessEq(b, c)
    ensures LessEq(a, c)
  {
    if a != "" && a[0] == b[0] && b[0] == c[0] { Transitive(a[1..], b[1..], c[1..]); }
  }

  lemma {:induction false} Antisymmetric(a: string, b: string)
    requires LessEq(a, b) && LessEq(b, a)
    ensures a == b
  {
    if a != "" {
      Antisymmetric(a[1..], b[1..]);
      assert a == [a[0]] + a[1..] && b == [b[0]] + b[1..];
    }
  }

  predicate Ordered<T>(xs: seq<T>, key: T -> string) {
    forall i: nat | i + 1 < |xs| :: LessEq(key(xs[i]), key(xs[i + 1]))
  }

  /** `x` goes after every element it is not smaller than. */
  function Insert<T>(xs: seq<T>, x: T, key: T -> string): (r: seq<T>)
    ensures |r| == |xs| + 1 && (r[|xs|] == x || (xs != [] && r[|xs|] == xs[|xs| - 1]))
  {
    if xs == [] || LessEq(key(xs[|xs| - 1]), key(x)) then xs + [x]
    else Insert(xs[..|xs| - 1], x, key) + [xs[|xs| - 1]]
  }

  function Sorted<T>(xs: seq<T>, key: T -> string): (r: seq<T>)
    ensures |r| == |xs|
  {
    if xs == [] then [] else Insert(Sorted(xs[..|xs| - 1], key), xs[|xs| - 1], key)
  }

  lemma OrderedExtends<T>(xs: seq<T>, x: T, key: T -> string)
    requires Ordered(xs, key) && (xs != [] ==> LessEq(key(xs[|xs| - 1]), key(x)))
    ensures Ordered(xs + [x], key)
  {
  }

  lemma {:induction false} InsertKeepsOrder<T>(xs: seq<T>, x: T, key: T -> string)
    requires Ordered(xs, key)
    ensures Ordered(Insert(xs, x, key), key)
  {
    if xs == [] || LessEq(key(xs[|xs| - 1]), key(x)) {
      OrderedExtends(xs, x, key);
    } else {
      var most, last := xs[..|xs| - 1], xs[|xs| - 1];
      InsertKeepsOrder(most, x, key);
      Total(key(x), key(last));
      if most != [] { assert LessEq(key(xs[|most| - 1]), key(xs[|most| - 1 + 1])); }
      OrderedExtends(Insert(most, x, key), last, key);
    }
  }

  lemma {:induction false} InsertAddsOne<T>(xs: seq<T>, x: T, key: T -> string)
    ensures multiset(Insert(xs, x, key)) == multiset(xs) + multiset{x}
  {
    hide LessEq;
    if xs != [] {
      InsertAddsOne(xs[..|xs| - 1], x, key);
      assert xs == xs[..|xs| - 1] + [xs[|xs| - 1]];
    }
  }

  lemma {:induction false} SortedIsOrdered<T>(xs: seq<T>, key: T -> string)
    ensures Ordered(Sorted(xs, key), key) && multiset(Sorted(xs, key)) == multiset(xs)
  {
    if xs != [] {
      SortedIsOrdered(xs[..|xs| - 1], key);
      InsertKeepsOrder(Sorted(xs[..|xs| - 1], key), xs[|xs| - 1], key);
      InsertAddsOne(Sorted(xs[..|xs| - 1], key), xs[|xs| - 1], key);
      assert xs == xs[..|xs| - 1] + [xs[|xs| - 1]];
    }
  }

  lemma {:induction false} SortingOrderedChangesNothing<T>(xs: seq<T>, key: T -> string)
    requires Ordered(xs, key)
    ensures Sorted(xs, key) == xs
  {
    if xs != [] {
      var most, last := xs[..|xs| - 1], xs[|xs| - 1];
      SortingOrderedChangesNothing(most, key);
      if most != [] { assert LessEq(key(most[|most| - 1]), key(last)); }
      assert xs == most + [last];
    }
  }

  lemma SortedHasTheSame<T>(xs: seq<T>, key: T -> string)
    ensures forall x :: x in Sorted(xs, key) <==> x in xs
  {
    SortedIsOrdered(xs, key);
    assert forall x :: x in multiset(xs) <==> x in xs;
    assert forall x :: x in multiset(Sorted(xs, key)) <==> x in Sorted(xs, key);
  }

  function Itself(s: string): string { s }

  lemma {:induction false} LastIsGreatest(xs: seq<string>, i: nat)
    requires Ordered(xs, Itself) && i < |xs|
    ensures LessEq(xs[i], xs[|xs| - 1])
    decreases |xs| - i
  {
    if i + 1 < |xs| {
      LastIsGreatest(xs, i + 1);
      Transitive(xs[i], xs[i + 1], xs[|xs| - 1]);
    } else {
      Total(xs[i], xs[i]);
    }
  }

  lemma LastOfSameStrings(xs: seq<string>, ys: seq<string>)
    requires Ordered(xs, Itself) && Ordered(ys, Itself) && multiset(xs) == multiset(ys) && xs != [] && ys != []
    ensures xs[|xs| - 1] == ys[|ys| - 1]
  {
    hide LessEq, Ordered;
    var x, y := xs[|xs| - 1], ys[|ys| - 1];
    assert x in multiset(ys) && y in multiset(xs);
    var i :| 0 <= i < |ys| && ys[i] == x;
    var j :| 0 <= j < |xs| && xs[j] == y;
    LastIsGreatest(ys, i);
    LastIsGreatest(xs, j);
    Antisymmetric(x, y);
  }

  lemma WithoutLast(xs: seq<string>)
    requires Ordered(xs, Itself) && xs != []
    ensures Ordered(xs[..|xs| - 1], Itself)
    ensures multiset(xs[..|xs| - 1]) == multiset(xs) - multiset{xs[|xs| - 1]} && xs == xs[..|xs| - 1] + [xs[|xs| - 1]]
  {
    hide LessEq;
    assert xs == xs[..|xs| - 1] + [xs[|xs| - 1]];
  }

  /** Two ordered lists of the same strings are the same list. */
  lemma {:induction false} OrderedIsUnique(xs: seq<string>, ys: seq<string>)
    requires Ordered(xs, Itself) && Ordered(ys, Itself) && multiset(xs) == multiset(ys)
    ensures xs == ys
  {
    hide LessEq, Ordered;
    assert |multiset(xs)| == |xs| && |multiset(ys)| == |ys|;
    if xs != [] {
      LastOfSameStrings(xs, ys);
      var x := xs[|xs| - 1];
      WithoutLast(xs);
      WithoutLast(ys);
      OrderedIsUnique(xs[..|xs| - 1], ys[..|ys| - 1]);
    }
  }

  lemma PermutationsSortAlike(xs: seq<string>, ys: seq<string>)
    requires multiset(xs) == multiset(ys)
    ensures Sorted(xs, Itself) == Sorted(ys, Itself)
  {
    SortedIsOrdered(xs, Itself);
    SortedIsOrdered(ys, Itself);
    OrderedIsUnique(Sorted(xs, Itself), Sorted(ys, Itself));
  }
}
