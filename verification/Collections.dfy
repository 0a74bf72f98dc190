/** Small facts about finite sets, maps and sequences that several components share. */
module Collections {

  datatype Option<+T> = None | Some(value: T)

  ghost function Pick<T>(s: set<T>): (x: T)
    requires s != {}
    ensures x in s
  {
    var x :| x in s;
    x
  }

  lemma Empty<K, V>(m: map<K, V>)
    requires forall k :: k !in m
    ensures m == map[]
  {
  }

  lemma SameSet<T>(a: set<T>, b: set<T>)
    requires forall x :: x in a <==> x in b
    ensures a == b
  {
  }

  lemma Within<T>(a: set<T>, b: set<T>)
    requires forall x :: x in a ==> x in b
    ensures a <= b
  {
  }

  lemma {:induction false} Fewer<T>(a: set<T>, b: set<T>)
    requires a <= b
    ensures |a| <= |b|
  {
    if a != {} {
      var x := Pick(a);
      Fewer(a - {x}, b - {x});
    }
  }

  /** A loop over a set takes one more of what is left. */
  lemma MovesOver<T>(all: set<T>, done: set<T>, left: set<T>, x: T)
    requires done + left == all && done !! left && x in left
    ensures done + {x} + (left - {x}) == all && done + {x} !! left - {x}
  {
    SameSet(done + {x} + (left - {x}), all);
  }

  lemma SameMap<K, V>(a: map<K, V>, b: map<K, V>)
    requires forall k :: (k in a <==> k in b) && (k in a ==> a[k] == b[k])
    ensures a == b
  {
  }

  lemma WithNothing<K, V, T>(m: map<K, V>, s: set<T>)
    ensures m + map[] == m && m - {} == m && s + {} == s
  {
  }

  /** The first key of an ordered map or set of numbers. */
  function Min(s: set<int>): (m: int)
    requires s != {}
    ensures m in s
    ensures forall x :: x in s ==> m <= x
  {
    MinExists(s);
    var m :| m in s && forall x :: x in s ==> m <= x;
    m
  }

  lemma {:induction false} MinExists(s: set<int>)
    requires s != {}
    ensures exists m :: m in s && forall x :: x in s ==> m <= x
  {
    var a := Pick(s);
    var rest := s - {a};
    if rest == {} {
      assert s == {a};
    } else {
      MinExists(rest);
      var b :| b in rest && forall x :: x in rest ==> b <= x;
      assert forall x :: x in s ==> x == a || x in rest;
      var m := if a <= b then a else b;
      assert m in s && forall x :: x in s ==> m <= x;
    }
  }

  /** The last key of an ordered map or set of numbers. */
  function Max(s: set<int>): (m: int)
    requires s != {}
    ensures m in s
    ensures forall x :: x in s ==> x <= m
  {
    MaxExists(s);
    var m :| m in s && forall x :: x in s ==> x <= m;
    m
  }

  lemma {:induction false} MaxExists(s: set<int>)
    requires s != {}
    ensures exists m :: m in s && forall x :: x in s ==> x <= m
  {
    var a := Pick(s);
    var rest := s - {a};
    if rest == {} {
      assert s == {a};
    } else {
      MaxExists(rest);
      var b :| b in rest && forall x :: x in rest ==> x <= b;
      assert forall x :: x in s ==> x == a || x in rest;
      var m := if a <= b then b else a;
      assert m in s && forall x :: x in s ==> x <= m;
    }
  }

  /** The sum of the values of a map. */
  function Total(m: map<int, nat>): nat {
    if m == map[] then 0
    else
      var k := Min(m.Keys);
      m[k] + Total(m - {k})
  }

  /** The sum does not depend on which key is taken out first. */
  lemma {:induction false} TotalWithout(m: map<int, nat>, k: int)
    requires k in m
    ensures Total(m) == m[k] + Total(m - {k})
    decreases |m|
  {
    var first := Min(m.Keys);
    if first != k {
      TotalWithout(m - {first}, k);
      TotalWithout(m - {k}, first);
      assert m - {first} - {k} == m - {k} - {first};
    }
  }

  lemma TotalWith(m: map<int, nat>, k: int, v: nat)
    ensures Total(m[k := v]) == Total(m - {k}) + v
    ensures k in m ==> Total(m[k := v]) == Total(m) - m[k] + v
    ensures k !in m ==> Total(m[k := v]) == Total(m) + v
  {
    TotalWithout(m[k := v], k);
    assert m[k := v] - {k} == m - {k};
    if k in m {
      TotalWithout(m, k);
    } else {
      assert m - {k} == m;
    }
  }

  lemma {:induction false} TotalIsAtMost(m: map<int, nat>, bound: nat)
    requires forall k :: k in m ==> m[k] <= bound
    ensures Total(m) <= |m| * bound
    decreases |m|
  {
    if m != map[] {
      var k := Min(m.Keys);
      var rest := m - {k};
      TotalIsAtMost(rest, bound);
      Smaller(m, k);
      OneMore(|rest|, bound);
    }
  }

  lemma Smaller<T>(m: map<int, T>, k: int)
    requires k in m
    ensures |m - {k}| == |m| - 1
  {
    assert (m - {k}).Keys == m.Keys - {k};
  }

  lemma OneMore(n: nat, bound: nat)
    ensures (n + 1) * bound == n * bound + bound
  {
  }

  // ---- Counting ------------------------------------------------------------------------

  /** The keys that `m` maps to `x`. */
  function Having<T(==)>(m: map<int, T>, x: T): set<int> {
    set k | k in m && m[k] == x
  }

  lemma HavingWith<T>(m: map<int, T>, k: int, v: T, x: T)
    requires k !in m
    ensures |Having(m[k := v], x)| == |Having(m, x)| + if v == x then 1 else 0
  {
    var before, after := Having(m, x), Having(m[k := v], x);
    if v == x {
      forall j ensures j in after <==> j in before + {k} {
      }
      SameSet(after, before + {k});
    } else {
      forall j ensures j in after <==> j in before {
      }
      SameSet(after, before);
    }
  }

  lemma HavingWithout<T>(m: map<int, T>, k: int, x: T)
    requires k in m
    ensures |Having(m, x)| == |Having(m - {k}, x)| + if m[k] == x then 1 else 0
  {
    HavingWith(m - {k}, k, m[k], x);
    SameMap((m - {k})[k := m[k]], m);
  }

  lemma NoneHaving<T>(m: map<int, T>, x: T)
    requires m == map[]
    ensures |Having(m, x)| == 0
  {
    assert Having(m, x) == {};
  }
}
