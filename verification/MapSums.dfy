/** Sums over the entries of a finite map: total lamports, tokens held, rent. */
module MapSums {

  ghost function Sum<K>(w: map<K, int>): int {
    if w == map[] then 0
    else
      var k :| k in w;
      w[k] + Sum(w - {k})
  }

  lemma {:induction false} Remove<K>(w: map<K, int>, k: K)
    requires k in w
    ensures Sum(w) == w[k] + Sum(w - {k})
    decreases w
  {
    var j :| j in w && Sum(w) == w[j] + Sum(w - {j});
    if j != k {
      Remove(w - {j}, k);
      Remove(w - {k}, j);
      assert w - {j} - {k} == w - {k} - {j};
    }
  }

  /** Replacing one entry moves the sum by the difference of the two values. */
  lemma Update<K>(w: map<K, int>, k: K, v: int)
    ensures Sum(w[k := v]) == Sum(w) + v - (if k in w then w[k] else 0)
  {
    Remove(w[k := v], k);
    if k in w {
      Remove(w, k);
      assert w[k := v] - {k} == w - {k};
    } else {
      assert w[k := v] - {k} == w;
    }
  }

  lemma {:induction false} NonNegative<K>(w: map<K, int>)
    requires forall k :: k in w ==> w[k] >= 0
    ensures Sum(w) >= 0
    decreases w
  {
    if w != map[] {
      var k :| k in w;
      NonNegative(w - {k});
      Remove(w, k);
    }
  }

  lemma Bound<K>(w: map<K, int>, k: K)
    requires forall j :: j in w ==> w[j] >= 0
    requires k in w
    ensures w[k] <= Sum(w)
  {
    Remove(w, k);
    NonNegative(w - {k});
  }

  lemma BoundPair<K>(w: map<K, int>, k: K, l: K)
    requires forall j :: j in w ==> w[j] >= 0
    requires k in w && l in w && k != l
    ensures w[k] + w[l] <= Sum(w)
  {
    Remove(w, k);
    Bound(w - {k}, l);
  }

  function At<K>(w: map<K, int>, k: K): int {
    if k in w then w[k] else 0
  }

  lemma {:induction false} AllZero<K>(w: map<K, int>)
    requires forall k :: k in w ==> w[k] == 0
    ensures Sum(w) == 0
    decreases w
  {
    if w != map[] {
      var k :| k in w;
      Remove(w, k);
      AllZero(w - {k});
    }
  }

  /** Maps that agree once absent keys count as zero have the same sum. */
  lemma {:induction false} SameValues<K(!new)>(u: map<K, int>, v: map<K, int>)
    requires forall k :: At(u, k) == At(v, k)
    ensures Sum(u) == Sum(v)
    decreases u
  {
    if u == map[] {
      assert forall k :: k in v ==> v[k] == At(v, k) == At(u, k);
      AllZero(v);
    } else {
      var k :| k in u;
      assert At(u, k) == At(v, k);
      Remove(u, k);
      if k in v { Remove(v, k); } else { assert v - {k} == v; }
      forall j ensures At(u - {k}, j) == At(v - {k}, j) { assert At(u, j) == At(v, j); }
      SameValues(u - {k}, v - {k});
    }
  }

  lemma RemoveAt<K>(w: map<K, int>, k: K)
    ensures Sum(w) == At(w, k) + Sum(w - {k})
  {
    if k in w { Remove(w, k); } else { assert w - {k} == w; }
  }

  lemma AddsWithout<K(!new)>(u: map<K, int>, v: map<K, int>, w: map<K, int>, k: K)
    requires forall j :: At(u, j) + At(v, j) == At(w, j)
    ensures forall j :: At(u - {k}, j) + At(v - {k}, j) == At(w - {k}, j)
  {
    forall j ensures At(u - {k}, j) + At(v - {k}, j) == At(w - {k}, j) {
      assert At(u, j) + At(v, j) == At(w, j);
    }
  }

  /** Sums add up when the entries do, absent ones counting as zero. */
  lemma {:induction false} SumAdds<K(!new)>(u: map<K, int>, v: map<K, int>, w: map<K, int>)
    requires forall k :: At(u, k) + At(v, k) == At(w, k)
    ensures Sum(u) + Sum(v) == Sum(w)
    decreases u.Keys + v.Keys + w.Keys
  {
    var all := u.Keys + v.Keys + w.Keys;
    if all == {} {
      assert u == map[] && v == map[] && w == map[];
    } else {
      var k :| k in all;
      RemoveAt(u, k);
      RemoveAt(v, k);
      RemoveAt(w, k);
      assert At(u, k) + At(v, k) == At(w, k);
      AddsWithout(u, v, w, k);
      assert (u - {k}).Keys + (v - {k}).Keys + (w - {k}).Keys == all - {k};
      SumAdds(u - {k}, v - {k}, w - {k});
    }
  }

  function Restrict<K, V>(w: map<K, V>, ks: set<K>): map<K, V> {
    map k | k in w && k in ks :: w[k]
  }

  /** One more key of `w`. */
  lemma RestrictStep<K>(w: map<K, int>, ks: set<K>, k: K)
    requires k !in ks
    ensures Sum(Restrict(w, ks + {k})) == Sum(Restrict(w, ks)) + At(w, k)
  {
    if k in w {
      assert Restrict(w, ks + {k}) == Restrict(w, ks)[k := w[k]];
      Update(Restrict(w, ks), k, w[k]);
    } else {
      assert Restrict(w, ks + {k}) == Restrict(w, ks);
    }
  }

  lemma {:induction false} RestrictBound<K>(w: map<K, int>, ks: set<K>)
    requires forall k :: k in w ==> w[k] >= 0
    ensures Sum(Restrict(w, ks)) <= Sum(w)
    decreases w
  {
    if w != map[] {
      var k :| k in w;
      Remove(w, k);
      RestrictBound(w - {k}, ks);
      RemoveAt(Restrict(w, ks), k);
      assert Restrict(w, ks) - {k} == Restrict(w - {k}, ks);
    }
  }
}
