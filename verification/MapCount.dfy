/** Counting the entries of a map that satisfy a predicate. */
module MapCount {

  function Where<K, V>(m: map<K, V>, f: V -> bool): set<K> {
    set k | k in m && f(m[k])
  }

  lemma WhereUpdateSet<K, V>(m: map<K, V>, f: V -> bool, k: K, v: V)
    ensures Where(m[k := v], f) == if f(v) then Where(m, f) + {k} else Where(m, f) - {k}
  {
    var after := m[k := v];
    forall x
      ensures x in Where(after, f) <==> if x == k then f(v) else x in Where(m, f)
    {
      assert x in after <==> x == k || x in m;
    }
  }

  lemma SizeWithOrWithout<K>(s: set<K>, k: K)
    ensures |s + {k}| == |s| + (if k in s then 0 else 1)
    ensures |s - {k}| == |s| - (if k in s then 1 else 0)
  {
    if k in s {
      assert s + {k} == s;
    } else {
      assert s - {k} == s;
    }
  }

  lemma WhereUpdate<K, V>(m: map<K, V>, f: V -> bool, k: K, v: V)
    ensures Where(m[k := v], f) == if f(v) then Where(m, f) + {k} else Where(m, f) - {k}
    ensures |Where(m[k := v], f)|
         == |Where(m, f)| - (if k in m && f(m[k]) then 1 else 0) + (if f(v) then 1 else 0)
  {
    WhereUpdateSet(m, f, k, v);
    SizeWithOrWithout(Where(m, f), k);
    assert k in Where(m, f) <==> k in m && f(m[k]);
  }

  lemma WhereSubset<K, V(!new)>(m: map<K, V>, f: V -> bool, g: V -> bool)
    requires forall v :: f(v) ==> g(v)
    ensures |Where(m, f)| <= |Where(m, g)|
  {
    SubsetSize(Where(m, f), Where(m, g));
  }

  /** Some element of the set, if there is one. */
  ghost function AnyOr<T>(s: set<T>, default: T): (x: T)
    ensures s != {} ==> x in s
  {
    if s == {} then default else var x :| x in s; x
  }

  lemma {:induction false} SubsetSize<T>(a: set<T>, b: set<T>)
    requires a <= b
    ensures |a| <= |b|
  {
    if a != {} {
      var x :| x in a;
      SubsetSize(a - {x}, b - {x});
    }
  }

  lemma WhereNone<K, V>(m: map<K, V>, f: V -> bool)
    ensures Where(m, f) == {} <==> forall k :: k in m ==> !f(m[k])
  {
    if Where(m, f) == {} {
      forall k | k in m
        ensures !f(m[k])
      {
        assert k !in Where(m, f);
      }
    }
  }
}
