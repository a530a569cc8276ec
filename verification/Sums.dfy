/**
  Finite sums over maps. A `HashMap` or `BTreeMap` of the source is a Dafny map here,
  and a total over it does not depend on the order of iteration.
*/
module Sums {

  ghost function Sum<K>(m: map<K, nat>): nat
  {
    if m == map[] then 0
    else
      var k :| k in m;
      m[k] + Sum(m - {k})
  }

  /** Some element of a set still to be visited; a loop over a map may take its keys in any order. */
  method Choose<T>(s: set<T>) returns (x: T)
    requires s != {}
    ensures x in s
  {
    x :| x in s;
  }

  ghost function AnyKey<K, V>(m: map<K, V>): (k: K)
    requires m != map[]
    ensures k in m
  {
    var k :| k in m;
    k
  }

  ghost function Pick<T>(s: set<T>): (x: T)
    requires s != {}
    ensures x in s
  {
    var x :| x in s;
    x
  }

  /** Any key can be taken out first. */
  lemma {:induction false} SumSplit<K>(m: map<K, nat>, k: K)
    requires k in m
    ensures Sum(m) == m[k] + Sum(m - {k})
    decreases |m|
  {
    var j :| j in m && Sum(m) == m[j] + Sum(m - {j});
    if j != k {
      SumSplit(m - {j}, k);
      SumSplit(m - {k}, j);
      assert m - {j} - {k} == m - {k} - {j};
    }
  }

  /** The sum of the values of a map, one entry after the other. */
  method AddUp<K>(m: map<K, nat>) returns (total: nat)
    ensures total == Sum(m)
  {
    total := 0;
    var rest := m;
    while rest.Keys != {}
      invariant total + Sum(rest) == Sum(m)
      decreases rest.Keys
    {
      var k := Choose(rest.Keys);
      SumSplit(rest, k);
      total := total + rest[k];
      rest := rest - {k};
    }
    SumEmpty(rest);
  }

  /** Setting one key changes the total by the difference at that key only. */
  lemma SumUpdate<K>(m: map<K, nat>, k: K, v: nat)
    ensures Sum(m[k := v]) == Sum(m - {k}) + v
    ensures k !in m ==> Sum(m[k := v]) == Sum(m) + v
    ensures k in m ==> Sum(m[k := v]) == Sum(m) - m[k] + v
  {
    var m' := m[k := v];
    SumSplit(m', k);
    assert m' - {k} == m - {k};
    if k in m {
      SumSplit(m, k);
    } else {
      assert m - {k} == m;
    }
  }

  lemma SumSingleton<K>(k: K, v: nat)
    ensures Sum(map[k := v]) == v
  {
    SumUpdate(map[], k, v);
    assert map[][k := v] == map[k := v];
  }

  /** No single entry exceeds the total. */
  lemma SumAtLeast<K>(m: map<K, nat>, k: K)
    requires k in m
    ensures m[k] <= Sum(m)
  {
    SumSplit(m, k);
  }

  /** Two different entries together do not exceed the total. */
  lemma SumAtLeastTwo<K>(m: map<K, nat>, j: K, k: K)
    requires j in m && k in m && j != k
    ensures m[j] + m[k] <= Sum(m)
  {
    SumSplit(m, j);
    SumSplit(m - {j}, k);
  }

  lemma {:induction false} SumZero<K>(m: map<K, nat>)
    requires forall k :: k in m ==> m[k] == 0
    ensures Sum(m) == 0
    decreases |m|
  {
    if m == map[] {
    } else {
      hide Sum;
      var k :| k in m;
      SumSplit(m, k);
      SumZero(m - {k});
    }
  }

  /** A zero total means zero everywhere. */
  lemma SumZeroInv<K>(m: map<K, nat>)
    requires Sum(m) == 0
    ensures forall k :: k in m ==> m[k] == 0
  {
    forall k | k in m
      ensures m[k] == 0
    {
      SumAtLeast(m, k);
    }
  }

  lemma {:induction false} SumMonotone<K>(m: map<K, nat>, n: map<K, nat>)
    requires m.Keys == n.Keys
    requires forall k :: k in m ==> m[k] <= n[k]
    ensures Sum(m) <= Sum(n)
    decreases |m|
  {
    if m != map[] {
      hide Sum;
      var k :| k in m;
      SumSplit(m, k);
      SumSplit(n, k);
      SumMonotone(m - {k}, n - {k});
    } else {
      assert n == map[];
    }
  }

  /** Totals add up pointwise. */
  lemma {:induction false} SumAdd<K>(a: map<K, nat>, b: map<K, nat>, c: map<K, nat>)
    requires a.Keys == b.Keys == c.Keys
    requires forall k :: k in a ==> c[k] == a[k] + b[k]
    ensures Sum(c) == Sum(a) + Sum(b)
    decreases |a|
  {
    if a != map[] {
      hide Sum;
      var k :| k in a;
      SumSplit(a, k);
      SumSplit(b, k);
      SumSplit(c, k);
      SumAdd(a - {k}, b - {k}, c - {k});
    } else {
      assert b == map[] && c == map[];
    }
  }

  /** Entries that are zero can be dropped. */
  lemma {:induction false} SumSubset<K>(m: map<K, nat>, n: map<K, nat>)
    requires n.Keys <= m.Keys
    requires forall k :: k in n ==> n[k] == m[k]
    requires forall k :: k in m && k !in n ==> m[k] == 0
    ensures Sum(m) == Sum(n)
    decreases |m|
  {
    if m != map[] {
      hide Sum;
      var k :| k in m;
      SumSplit(m, k);
      if k in n {
        SumSplit(n, k);
        SumSubset(m - {k}, n - {k});
      } else {
        SumSubset(m - {k}, n);
      }
    } else {
      assert n == map[];
    }
  }

  /** Renaming keys injectively keeps the total. */
  lemma {:induction false} SumRename<K, L>(m: map<K, nat>, n: map<L, nat>, f: map<K, L>)
    requires f.Keys == m.Keys
    requires forall k :: k in m ==> f[k] in n && n[f[k]] == m[k]
    requires forall j, k :: j in m && k in m && f[j] == f[k] ==> j == k
    requires forall l :: l in n ==> exists k :: k in m && f[k] == l
    ensures Sum(m) == Sum(n)
    decreases |m|
  {
    if m != map[] {
      hide Sum;
      var k :| k in m;
      SumSplit(m, k);
      SumSplit(n, f[k]);
      forall l | l in n - {f[k]}
        ensures exists j :: j in m - {k} && (f - {k})[j] == l
      {
        var j :| j in m && f[j] == l;
        assert j in m - {k} && (f - {k})[j] == l;
      }
      SumRename(m - {k}, n - {f[k]}, f - {k});
    } else {
      assert forall l :: l !in n;
      assert n == map[];
    }
  }

  /** The entries of one group. */
  ghost function Group<K, G>(m: map<K, nat>, f: map<K, G>, g: G): map<K, nat>
    requires f.Keys == m.Keys
  {
    map k | k in m && f[k] == g :: m[k]
  }

  lemma UnionDrop<K>(a: map<K, nat>, b: map<K, nat>, k: K)
    requires a.Keys !! b.Keys && k in a
    ensures k in a + b && (a + b)[k] == a[k]
    ensures a + b - {k} == (a - {k}) + b
  {
    assert k !in b.Keys;
    var left, right := a + b - {k}, (a - {k}) + b;
    assert left.Keys == right.Keys;
    forall j | j in left
      ensures left[j] == right[j]
    {
    }
  }

  lemma {:induction false} SumDisjoint<K>(a: map<K, nat>, b: map<K, nat>)
    requires a.Keys !! b.Keys
    ensures Sum(a + b) == Sum(a) + Sum(b)
    decreases |a|
  {
    hide Sum;
    if a == map[] {
      assert a + b == b;
      SumEmpty(a);
    } else {
      var k := AnyKey(a);
      UnionDrop(a, b, k);
      SumSplit(a, k);
      SumSplit(a + b, k);
      SumDisjoint(a - {k}, b);
    }
  }

  lemma SumEmpty<K>(m: map<K, nat>)
    requires m == map[]
    ensures Sum(m) == 0
  {
  }

  /** The entries of all groups but one. */
  ghost function Outside<K, G, V>(m: map<K, V>, f: map<K, G>, g: G): map<K, V>
    requires f.Keys == m.Keys
  {
    map k | k in m && f[k] != g :: m[k]
  }

  lemma GroupSplits<K, G>(m: map<K, nat>, f: map<K, G>, g: G)
    requires f.Keys == m.Keys
    ensures Group(m, f, g).Keys !! Outside(m, f, g).Keys
    ensures Group(m, f, g) + Outside(m, f, g) == m
    ensures Outside(f, f, g).Keys == Outside(m, f, g).Keys
  {
    var all := Group(m, f, g) + Outside(m, f, g);
    assert all.Keys == m.Keys;
    forall k | k in m
      ensures all[k] == m[k]
    {
    }
  }

  /** The other groups are untouched when one is taken out. */
  lemma GroupOutside<K, G>(m: map<K, nat>, f: map<K, G>, g: G, h: G)
    requires f.Keys == m.Keys && h != g
    requires Outside(f, f, g).Keys == Outside(m, f, g).Keys
    ensures Group(Outside(m, f, g), Outside(f, f, g), h) == Group(m, f, h)
  {
    var left, right := Group(Outside(m, f, g), Outside(f, f, g), h), Group(m, f, h);
    assert left.Keys == right.Keys;
    forall k | k in right
      ensures left[k] == right[k]
    {
    }
  }

  /** A total can be taken group by group. */
  lemma {:induction false} SumGroups<K, G>(m: map<K, nat>, f: map<K, G>, totals: map<G, nat>)
    requires f.Keys == m.Keys
    requires forall k :: k in m ==> f[k] in totals
    requires forall g :: g in totals ==> totals[g] == Sum(Group(m, f, g))
    ensures Sum(m) == Sum(totals)
    decreases |totals|
  {
    hide Sum;
    if totals == map[] {
      assert m.Keys == {};
      SumEmpty(m);
      SumEmpty(totals);
    } else {
      var g := AnyKey(totals);
      GroupSplits(m, f, g);
      hide Group;
      forall h | h in totals - {g}
        ensures (totals - {g})[h] == Sum(Group(Outside(m, f, g), Outside(f, f, g), h))
      {
        GroupOutside(m, f, g, h);
      }
      SumGroups(Outside(m, f, g), Outside(f, f, g), totals - {g});
      SumDisjoint(Group(m, f, g), Outside(m, f, g));
      SumSplit(totals, g);
    }
  }

  // ---------------------------------------------------------------- sums of floors

  /** A product; proofs about whole maps hide its body. */
  function Times(x: nat, c: nat): nat {
    x * c
  }

  lemma TimesSum(x: nat, y: nat, c: nat)
    ensures Times(x + y, c) == Times(x, c) + Times(y, c)
  {
  }

  lemma TimesZero(c: nat)
    ensures Times(0, c) == 0
  {
  }

  function Scale<K>(m: map<K, nat>, c: nat): map<K, nat> {
    map k | k in m :: Times(m[k], c)
  }

  lemma {:induction false} ScaleSum<K>(m: map<K, nat>, c: nat)
    ensures Sum(Scale(m, c)) == Times(Sum(m), c)
    decreases |m|
  {
    if m != map[] {
      hide Times, Scale, Sum;
      var k :| k in m;
      ScaleDrop(m, c, k);
      SumSplit(m, k);
      SumSplit(Scale(m, c), k);
      ScaleSum(m - {k}, c);
      TimesSum(m[k], Sum(m - {k}), c);
    } else {
      assert Scale(m, c) == map[];
      TimesZero(c);
    }
  }

  lemma ScaleDrop<K>(m: map<K, nat>, c: nat, k: K)
    requires k in m
    ensures k in Scale(m, c) && Scale(m, c)[k] == Times(m[k], c)
    ensures Scale(m, c) - {k} == Scale(m - {k}, c)
  {
    hide Times;
  }

  /** The keys with a positive value. */
  function Positive<K>(o: map<K, nat>): set<K> {
    set k | k in o && o[k] > 0
  }

  /** 1 at every positive entry. */
  function Marks<K>(o: map<K, nat>): map<K, nat> {
    map k | k in o :: if o[k] > 0 then 1 else 0
  }

  /** Taking a key out of the marked and of the positive ones. */
  lemma MarksDrop<K>(o: map<K, nat>, k: K)
    requires k in o
    ensures k in Marks(o) && Marks(o)[k] == (if o[k] > 0 then 1 else 0) && Marks(o) - {k} == Marks(o - {k})
    ensures Positive(o) == Positive(o - {k}) + (if o[k] > 0 then {k} else {})
    ensures k !in Positive(o - {k})
  {
    assert (Marks(o) - {k}).Keys == Marks(o - {k}).Keys;
  }

  lemma {:induction false} SumMarks<K>(o: map<K, nat>)
    ensures Sum(Marks(o)) == |Positive(o)|
    decreases |o|
  {
    if o == map[] {
      assert Marks(o) == map[];
    } else {
      hide Sum, Marks, Positive;
      var k := AnyKey(o);
      SumSplit(Marks(o), k) by { MarksDrop(o, k); }
      MarksDrop(o, k);
      SumMarks(o - {k});
    }
  }

  /** If each `f[k]` is at most `alloc * o[k] / total`, so is the total of the `f[k]`. */
  lemma FloorsUpper<K>(o: map<K, nat>, f: map<K, nat>, alloc: nat, total: nat)
    requires o.Keys == f.Keys
    requires forall k :: k in o ==> Times(f[k], total) <= Times(o[k], alloc)
    ensures Times(Sum(f), total) <= Times(Sum(o), alloc)
  {
    hide Times;
    SumMonotone(Scale(f, total), Scale(o, alloc));
    ScaleSum(f, total);
    ScaleSum(o, alloc);
  }

  /** `f * total`, plus one `total` wherever `o` is positive. */
  function Ceilings<K>(o: map<K, nat>, f: map<K, nat>, total: nat): map<K, nat>
    requires o.Keys == f.Keys
  {
    map k | k in o :: Times(f[k], total) + (if o[k] > 0 then total else 0)
  }

  lemma CeilingsSum<K>(o: map<K, nat>, f: map<K, nat>, total: nat)
    requires o.Keys == f.Keys
    ensures Sum(Ceilings(o, f, total)) == Times(Sum(f), total) + Times(|Positive(o)|, total)
  {
    hide Times, Sum;
    TimesOne(total);
    TimesZero(total);
    SumAdd(Scale(f, total), Scale(Marks(o), total), Ceilings(o, f, total));
    ScaleSum(f, total);
    ScaleSum(Marks(o), total);
    SumMarks(o);
  }

  /** Each floor loses less than one unit, and only where `o[k]` is positive. */
  lemma FloorsLower<K>(o: map<K, nat>, f: map<K, nat>, alloc: nat, total: nat)
    requires o.Keys == f.Keys
    requires forall k :: k in o && o[k] > 0 ==> Times(o[k], alloc) < Times(f[k], total) + total
    requires Positive(o) != {}
    ensures Times(Sum(o), alloc) < Times(Sum(f), total) + Times(|Positive(o)|, total)
  {
    hide Times, Sum;
    TimesZero(alloc);
    var k :| k in Positive(o);
    SumStrict(Scale(o, alloc), Ceilings(o, f, total), k);
    ScaleSum(o, alloc);
    CeilingsSum(o, f, total);
  }

  lemma SumStrict<K>(m: map<K, nat>, n: map<K, nat>, k: K)
    requires m.Keys == n.Keys
    requires forall j :: j in m ==> m[j] <= n[j]
    requires k in m && m[k] < n[k]
    ensures Sum(m) < Sum(n)
  {
    SumSplit(m, k);
    SumSplit(n, k);
    SumMonotone(m - {k}, n - {k});
  }

  lemma TimesOne(c: nat)
    ensures Times(1, c) == c
  {
  }
}
