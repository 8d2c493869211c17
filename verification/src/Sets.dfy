/** Finite-set helpers: the aggregates the SQL queries use. */
module Sets {

  lemma Pick<T>(s: set<T>) returns (x: T)
    requires |s| > 0
    ensures x in s
  {
    x :| x in s;
  }

  ghost predicate IsMax(s: set<int>, m: int) {
    m in s && forall x | x in s :: x <= m
  }

  lemma {:induction false} MaxExists(s: set<int>)
    requires |s| > 0
    ensures exists m :: IsMax(s, m)
    decreases |s|
  {
    var x := Pick(s);
    var rest := s - {x};
    if |rest| == 0 {
      assert forall y | y in s :: y == x || y in rest;
      assert IsMax(s, x);
    } else {
      MaxExists(rest);
      var m :| IsMax(rest, m);
      assert forall y | y in s :: y == x || y in rest;
      assert IsMax(s, if x > m then x else m);
    }
  }

  function MaxOf(s: set<int>): (m: int)
    requires |s| > 0
    ensures IsMax(s, m)
  {
    MaxExists(s);
    var m :| m in s && forall x | x in s :: x <= m;
    m
  }

  ghost function Choice<T>(keys: set<T>): (x: T)
    requires |keys| > 0
    ensures x in keys
  {
    var x :| x in keys;
    x
  }

  ghost function Sum<T>(f: map<T, int>, keys: set<T>): int
    requires keys <= f.Keys
    decreases |keys|
  {
    if |keys| == 0 then 0 else f[Choice(keys)] + Sum(f, keys - {Choice(keys)})
  }

  /** A sum can be taken apart at any of its keys. */
  lemma {:induction false} SumSplit<T>(f: map<T, int>, keys: set<T>, x: T)
    requires keys <= f.Keys && x in keys
    ensures Sum(f, keys) == f[x] + Sum(f, keys - {x})
    decreases |keys|
  {
    var y := Choice(keys);
    if y != x {
      SumSplit(f, keys - {y}, x);
      SumSplit(f, keys - {x}, y);
      assert keys - {y} - {x} == keys - {x} - {y};
    }
  }

  lemma {:induction false} SumAgrees<T>(f: map<T, int>, g: map<T, int>, keys: set<T>)
    requires keys <= f.Keys && keys <= g.Keys
    requires forall x | x in keys :: f[x] == g[x]
    ensures Sum(f, keys) == Sum(g, keys)
    decreases |keys|
  {
    if |keys| > 0 {
      var x := Choice(keys);
      SumSplit(f, keys, x);
      SumSplit(g, keys, x);
      SumAgrees(f, g, keys - {x});
    }
  }

  lemma SubsetCard<T>(a: set<T>, b: set<T>)
    requires a <= b
    ensures |a| <= |b|
  {
    assert b == a + (b - a);
  }

  /** A sequence has at least as many entries as elements. */
  lemma {:induction false} SeqCard<T>(items: seq<T>, elements: set<T>)
    requires elements == set x | x in items
    ensures |elements| <= |items|
    decreases |items|
  {
    if items == [] {
      assert elements == {};
    } else {
      var rest := set x | x in items[1..];
      SeqCard(items[1..], rest);
      assert elements == rest + {items[0]};
    }
  }
}
