/** Options, finite sums, the pigeonhole principle and a stable way to put a
    finite set in order: the few generic facts the other modules share. */
module Support {

  datatype Option<+T> = None | Some(value: T)

  function Max(a: int, b: int): (m: int)
    ensures a <= m && b <= m && (m == a || m == b)
  {
    if a < b then b else a
  }

  function Min(a: int, b: int): (m: int)
    ensures m <= a && m <= b && (m == a || m == b)
  {
    if a < b then a else b
  }

  // ----- finite sums

  ghost function SumOver<K(!new)>(s: set<K>, f: K -> int): int
  {
    if s == {} then 0 else
      var x :| x in s;
      f(x) + SumOver(s - {x}, f)
  }

  // The sum does not depend on the order in which the elements are taken.
  lemma {:induction false} SumSplit<K(!new)>(s: set<K>, x: K, f: K -> int)
    requires x in s
    ensures SumOver(s, f) == f(x) + SumOver(s - {x}, f)
    decreases s
  {
    var y :| y in s && SumOver(s, f) == f(y) + SumOver(s - {y}, f);
    if y != x {
      SumSplit(s - {y}, x, f);
      SumSplit(s - {x}, y, f);
      assert s - {y} - {x} == s - {x} - {y};
    }
  }

  lemma {:induction false} SumAdd<K(!new)>(s: set<K>, x: K, f: K -> int)
    requires x !in s
    ensures SumOver(s + {x}, f) == f(x) + SumOver(s, f)
  {
    SumSplit(s + {x}, x, f);
    assert s + {x} - {x} == s;
  }

  lemma {:induction false} SumSame<K(!new)>(s: set<K>, f: K -> int, g: K -> int)
    requires forall x | x in s :: f(x) == g(x)
    ensures SumOver(s, f) == SumOver(s, g)
    decreases s
  {
    if s != {} {
      var x :| x in s;
      SumSplit(s, x, f);
      SumSplit(s, x, g);
      SumSame(s - {x}, f, g);
    }
  }

  lemma {:induction false} SumMonotone<K(!new)>(s: set<K>, f: K -> int, g: K -> int)
    requires forall x | x in s :: f(x) <= g(x)
    ensures SumOver(s, f) <= SumOver(s, g)
    decreases s
  {
    if s != {} {
      var x :| x in s;
      SumSplit(s, x, f);
      SumSplit(s, x, g);
      SumMonotone(s - {x}, f, g);
    }
  }

  lemma {:induction false} SumLinear<K(!new)>(s: set<K>, f: K -> int, g: K -> int, a: int, b: int)
    requires forall x | x in s :: g(x) == a * f(x) + b
    ensures SumOver(s, g) == a * SumOver(s, f) + b * |s|
    decreases s
  {
    if s != {} {
      var x :| x in s;
      var rest := s - {x};
      SumSplit(s, x, f);
      SumSplit(s, x, g);
      SumLinear(rest, f, g, a, b);
      Distribute(a, f(x), SumOver(rest, f));
      Distribute(b, |rest|, 1);
    }
  }

  lemma {:induction false} Distribute(a: int, x: int, y: int)
    ensures a * (x + y) == a * x + a * y
  {
  }

  // ----- pigeonhole

  // Keys that own pairwise distinct slots below n number at most n.
  lemma {:induction false} Pigeonhole<K>(keys: set<K>, slot: map<K, nat>, n: nat)
    requires keys <= slot.Keys
    requires forall k | k in keys :: slot[k] < n
    requires forall j, k | j in keys && k in keys && slot[j] == slot[k] :: j == k
    ensures |keys| <= n
    decreases n
  {
    if n > 0 {
      if k :| k in keys && slot[k] == n - 1 {
        Pigeonhole(keys - {k}, slot, n - 1);
      } else {
        Pigeonhole(keys, slot, n - 1);
      }
    } else {
      assert forall k :: k !in keys;
    }
  }

  ghost predicate Taken<K(!new)>(keys: set<K>, slot: map<K, nat>, i: nat)
    requires keys <= slot.Keys
  {
    exists k :: k in keys && slot[k] == i
  }

  // If every slot below n is taken, at least n keys hold one.
  lemma {:induction false} AllTaken<K(!new)>(keys: set<K>, slot: map<K, nat>, n: nat)
    requires keys <= slot.Keys
    requires forall i: nat | i < n :: Taken(keys, slot, i)
    ensures |keys| >= n
    decreases n
  {
    if n > 0 {
      assert Taken(keys, slot, n - 1);
      var k :| k in keys && slot[k] == n - 1;
      var rest := set j | j in keys && slot[j] != n - 1;
      forall i: nat | i < n - 1
        ensures Taken(rest, slot, i)
      {
        assert Taken(keys, slot, i);
        var j :| j in keys && slot[j] == i;
        assert j in rest;
      }
      AllTaken(rest, slot, n - 1);
      Smaller(rest, keys, k);
    }
  }

  lemma {:induction false} SubsetSize<T>(a: set<T>, b: set<T>)
    requires a <= b
    ensures |a| <= |b|
    decreases a
  {
    if a != {} {
      var x :| x in a;
      SubsetSize(a - {x}, b - {x});
    }
  }

  lemma {:induction false} Smaller<T>(a: set<T>, b: set<T>, x: T)
    requires a <= b && x in b && x !in a
    ensures |a| < |b|
  {
    SubsetSize(a, b - {x});
  }

  lemma {:induction false} MinusSize<K, V>(m: map<K, V>, gone: set<K>)
    requires gone <= m.Keys
    ensures |m - gone| == |m| - |gone| && m.Keys - (m - gone).Keys == gone
  {
    assert (m - gone).Keys == m.Keys - gone;
    assert |m - gone| == |(m - gone).Keys| && |m| == |m.Keys|;
  }

  lemma {:induction false} SplitSize<T>(a: set<T>, b: set<T>)
    requires a <= b
    ensures |a| + |b - a| == |b|
  {
    assert b == a + (b - a);
  }

  // ----- chains

  ghost predicate Preorder<S(!new)>(rel: (S, S) -> bool)
  {
    && (forall a :: rel(a, a))
    && (forall a, b, c :: rel(a, b) && rel(b, c) ==> rel(a, c))
  }

  // A preorder that holds from each state to the next holds from any state to any later one.
  lemma {:induction false} Chain<S(!new)>(run: seq<S>, rel: (S, S) -> bool, i: nat, j: nat)
    requires Preorder(rel) && i <= j < |run|
    requires forall m | 0 <= m < |run| - 1 :: rel(run[m], run[m + 1])
    ensures rel(run[i], run[j])
    decreases j
  {
    if i < j {
      Chain(run, rel, i, j - 1);
      assert rel(run[j - 1], run[j - 1 + 1]);
    }
  }

  // ----- ordering a finite set

  ghost predicate TotalPreorder<T(!new)>(le: (T, T) -> bool)
  {
    && (forall x, y :: le(x, y) || le(y, x))
    && (forall x, y, z :: le(x, y) && le(y, z) ==> le(x, z))
  }

  ghost predicate Ascending<T(!new)>(s: seq<T>, le: (T, T) -> bool)
  {
    forall i, j | 0 <= i < j < |s| :: le(s[i], s[j])
  }

  ghost predicate Distinct<T>(s: seq<T>)
  {
    forall i, j | 0 <= i < j < |s| :: s[i] != s[j]
  }

  /** `sorted(...)` on the elements of a finite set: every element once, in
      ascending order; equal-ranked elements come in any order. */
  method Sorted<T(!new, ==)>(elements: set<T>, le: (T, T) -> bool) returns (s: seq<T>)
    requires TotalPreorder(le)
    ensures Ascending(s, le) && Distinct(s)
    ensures forall x :: x in s <==> x in elements
    ensures |s| == |elements|
  {
    s := [];
    var rest := elements;
    while rest != {}
      invariant rest <= elements
      invariant Ascending(s, le) && Distinct(s)
      invariant forall x :: x in s <==> x in elements - rest
      invariant |s| + |rest| == |elements|
      decreases |rest|
    {
      var x :| x in rest;
      var i := 0;
      while i < |s| && le(s[i], x)
        invariant 0 <= i <= |s|
        invariant forall j | 0 <= j < i :: le(s[j], x)
      {
        i := i + 1;
      }
      Inserted(s, x, i, le);
      s := s[..i] + [x] + s[i..];
      rest := rest - {x};
    }
  }

  lemma {:induction false} Inserted<T(!new)>(s: seq<T>, x: T, i: nat, le: (T, T) -> bool)
    requires TotalPreorder(le) && Ascending(s, le) && Distinct(s)
    requires i <= |s| && x !in s
    requires forall j | 0 <= j < i :: le(s[j], x)
    requires i < |s| ==> !le(s[i], x)
    ensures var t := s[..i] + [x] + s[i..];
            && Ascending(t, le) && Distinct(t)
            && (forall y :: y in t <==> y in s || y == x)
  {
    var t := s[..i] + [x] + s[i..];
    assert forall j | 0 <= j < |t| :: t[j] == if j < i then s[j] else if j == i then x else s[j - 1];
    forall y
      ensures y in t <==> y in s || y == x
    {
      if y in s {
        var j :| 0 <= j < |s| && s[j] == y;
        assert t[if j < i then j else j + 1] == y;
      }
      if y == x {
        assert t[i] == y;
      }
    }
  }

  /** A random token, taken to be new: it differs from every token drawn before. */
  method DrawToken(drawn: set<nat>) returns (token: nat)
    ensures token !in drawn
  {
    token := 0;
    var rest := drawn;
    while rest != {}
      invariant rest <= drawn
      invariant forall g | g in drawn - rest :: g < token
      decreases |rest|
    {
      var g :| g in rest;
      if g >= token {
        token := g + 1;
      }
      assert drawn - (rest - {g}) == drawn - rest + {g};
      rest := rest - {g};
    }
    assert drawn - rest == drawn;
  }
}
