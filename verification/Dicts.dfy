/** Insertion-ordered dictionaries and the `merge_dicts` reducer of graph/state.py.
    The order matters in two channels only (results and pending_approvals), because
    the approval nodes pick the first matching entry. */
module Dicts {
  datatype Option<+T> = None | Some(value: T)

  ghost predicate Distinct<T>(s: seq<T>) {
    forall i, j :: 0 <= i < j < |s| ==> s[i] != s[j]
  }

  datatype Dict<K(==, !new), V> = Dict(keys: seq<K>, vals: map<K, V>) {
    ghost predicate Valid() {
      && Distinct(keys)
      && (forall k :: k in keys ==> k in vals)
      && (forall k :: k in vals ==> k in keys)
    }
  }

  function Empty<K(==, !new), V>(): Dict<K, V> {
    Dict([], map[])
  }

  function Single<K(==, !new), V>(k: K, v: V): Dict<K, V> {
    Dict([k], map[k := v])
  }

  /** The keys of `ks` that are not yet in `m`, in order. */
  function NewKeys<K(==, !new), V>(m: map<K, V>, ks: seq<K>): (r: seq<K>)
    ensures forall k :: k in r <==> k in ks && k !in m
    ensures (forall k :: k in ks ==> k in m) ==> r == []
  {
    if ks == [] then []
    else
      var front := NewKeys(m, ks[..|ks| - 1]);
      var k := ks[|ks| - 1];
      assert ks == ks[..|ks| - 1] + [k];
      if k in m then front else front + [k]
  }

  /** merge_dicts: a key already on the left keeps its place, new keys are appended. */
  function Merge<K(==, !new), V>(left: Dict<K, V>, right: Dict<K, V>): Dict<K, V> {
    Dict(left.keys + NewKeys(left.vals, right.keys), left.vals + right.vals)
  }

  lemma {:induction false} NewKeysDistinct<K(!new), V>(m: map<K, V>, ks: seq<K>)
    requires Distinct(ks)
    ensures Distinct(NewKeys(m, ks))
  {
    if ks != [] {
      var front := ks[..|ks| - 1];
      NewKeysDistinct(m, front);
      assert ks[|ks| - 1] !in NewKeys(m, front);
    }
  }

  lemma MergeValid<K(!new), V>(left: Dict<K, V>, right: Dict<K, V>)
    requires left.Valid() && right.Valid()
    ensures Merge(left, right).Valid()
  {
    NewKeysDistinct(left.vals, right.keys);
    var ks, n := NewKeys(left.vals, right.keys), |left.keys|;
    var m := Merge(left, right);
    forall i, j | 0 <= i < j < |m.keys| ensures m.keys[i] != m.keys[j] {
      if j < n {
        assert m.keys[i] == left.keys[i] && m.keys[j] == left.keys[j];
      } else if i < n {
        assert left.keys[i] in left.vals && ks[j - n] in ks;
      } else {
        assert ks[i - n] != ks[j - n];
      }
    }
  }

  lemma MergeSingle<K(!new), V>(d: Dict<K, V>, k: K, v: V)
    ensures Merge(d, Single(k, v)) == Dict(if k in d.vals then d.keys else d.keys + [k], d.vals[k := v])
  {
    assert NewKeys(d.vals, [k][..0]) == [];
    assert d.vals + map[k := v] == d.vals[k := v];
  }

  /** The fan-in of one super-step: the reducer folded over the updates of its branches. */
  function MergeAll<K(==, !new), V>(left: Dict<K, V>, updates: seq<Dict<K, V>>): Dict<K, V> {
    if updates == [] then left
    else Merge(MergeAll(left, updates[..|updates| - 1]), updates[|updates| - 1])
  }

  lemma NewKeysOneMore<K(!new), V>(m: map<K, V>, ks: seq<K>, k: K)
    ensures NewKeys(m, ks + [k]) == if k in m then NewKeys(m, ks) else NewKeys(m, ks) + [k]
  {
    assert (ks + [k])[..|ks|] == ks;
  }

  lemma Associative<T>(a: seq<T>, b: seq<T>, c: seq<T>)
    ensures a + (b + c) == a + b + c
  {
  }

  lemma {:induction false} NewKeysAppend<K(!new), V>(m: map<K, V>, a: seq<K>, b: seq<K>)
    ensures NewKeys(m, a + b) == NewKeys(m, a) + NewKeys(m, b)
  {
    if b == [] {
      assert a + b == a;
    } else {
      var front, k := b[..|b| - 1], b[|b| - 1];
      assert b == front + [k];
      NewKeysAppend(m, a, front);
      NewKeysOneMore(m, a + front, k);
      NewKeysOneMore(m, front, k);
      Associative(a, front, [k]);
      Associative(NewKeys(m, a), NewKeys(m, front), [k]);
    }
  }

  lemma {:induction false} NewKeysTwice<K(!new), V>(m: map<K, V>, n: map<K, V>, ks: seq<K>)
    ensures NewKeys(m, NewKeys(n, ks)) == NewKeys(m + n, ks)
  {
    if ks != [] {
      var front, k := ks[..|ks| - 1], ks[|ks| - 1];
      NewKeysTwice(m, n, front);
      NewKeysOneMore(m, NewKeys(n, front), k);
    }
  }

  lemma {:induction false} FirstNewKey<K(!new), V>(m: map<K, V>, ks: seq<K>)
    requires ks != [] && ks[0] !in m
    ensures NewKeys(m, ks) != [] && NewKeys(m, ks)[0] == ks[0]
  {
    if |ks| > 1 {
      FirstNewKey(m, ks[..|ks| - 1]);
    } else {
      assert NewKeys(m, ks[..0]) == [];
    }
  }

  lemma NewKeysMerged<K(!new), V>(m: map<K, V>, n: map<K, V>, a: seq<K>, b: seq<K>)
    ensures NewKeys(m, a + NewKeys(n, b)) == NewKeys(m, a) + NewKeys(m + n, b)
  {
    NewKeysTwice(m, n, b);
    NewKeysAppend(m, a, NewKeys(n, b));
  }

  lemma MapsAssociative<K(!new), V>(a: map<K, V>, b: map<K, V>, c: map<K, V>)
    ensures (a + b) + c == a + (b + c)
  {
  }

  lemma MergeAssociative<K(!new), V>(a: Dict<K, V>, b: Dict<K, V>, c: Dict<K, V>)
    ensures Merge(Merge(a, b), c) == Merge(a, Merge(b, c))
  {
    NewKeysMerged(a.vals, b.vals, b.keys, c.keys);
    Associative(a.keys, NewKeys(a.vals, b.keys), NewKeys(a.vals + b.vals, c.keys));
    MapsAssociative(a.vals, b.vals, c.vals);
  }

  /** The branches may as well be merged among themselves first. So what was there keeps its
      place, and the order in which new keys follow depends on the branches alone. */
  lemma {:induction false} MergedApart<K(!new), V>(left: Dict<K, V>, updates: seq<Dict<K, V>>)
    ensures MergeAll(left, updates) == Merge(left, MergeAll(Empty(), updates))
  {
    var apart := Empty<K, V>();
    if updates == [] {
      assert left.keys + NewKeys(left.vals, apart.keys) == left.keys && left.vals + apart.vals == left.vals;
    } else {
      var n := |updates| - 1;
      MergedApart(left, updates[..n]);
      MergeAssociative(left, MergeAll(apart, updates[..n]), updates[n]);
    }
  }

  ghost predicate Agree<K(!new), V>(u: Dict<K, V>, v: Dict<K, V>) {
    forall k :: k in u.vals && k in v.vals ==> u.vals[k] == v.vals[k]
  }

  /** No two branches write different values to one key. */
  ghost predicate Compatible<K(!new), V>(updates: seq<Dict<K, V>>) {
    forall i, j :: 0 <= i < |updates| && 0 <= j < |updates| ==> Agree(updates[i], updates[j])
  }

  lemma CompatibleFront<K(!new), V>(updates: seq<Dict<K, V>>)
    requires Compatible(updates) && updates != []
    ensures Compatible(updates[..|updates| - 1])
  {
    var front := updates[..|updates| - 1];
    forall i, j | 0 <= i < |front| && 0 <= j < |front| ensures Agree(front[i], front[j]) {
      assert Agree(updates[i], updates[j]);
    }
  }

  lemma {:induction false} MergedKeys<K(!new), V>(left: Dict<K, V>, updates: seq<Dict<K, V>>, k: K)
    ensures k in MergeAll(left, updates).vals <==>
              k in left.vals || exists i :: 0 <= i < |updates| && k in updates[i].vals
    ensures (forall i :: 0 <= i < |updates| ==> k !in updates[i].vals) && k in left.vals ==>
              MergeAll(left, updates).vals[k] == left.vals[k]
  {
    if updates != [] {
      var n := |updates| - 1;
      MergedKeys(left, updates[..n], k);
      assert forall i :: 0 <= i < n ==> updates[..n][i] == updates[i];
    }
  }

  lemma {:induction false} MergedValue<K(!new), V>(left: Dict<K, V>, updates: seq<Dict<K, V>>, k: K, i: nat)
    requires Compatible(updates) && i < |updates| && k in updates[i].vals
    ensures k in MergeAll(left, updates).vals && MergeAll(left, updates).vals[k] == updates[i].vals[k]
  {
    var n := |updates| - 1;
    assert Agree(updates[i], updates[n]);
    if k !in updates[n].vals {
      CompatibleFront(updates);
      MergedValue(left, updates[..n], k, i);
    }
  }

  lemma MergeAllAt<K(!new), V>(left: Dict<K, V>, updates: seq<Dict<K, V>>, k: K)
    requires Compatible(updates)
    ensures var m := MergeAll(left, updates).vals;
            && (k in m <==> k in left.vals || exists i :: 0 <= i < |updates| && k in updates[i].vals)
            && (forall i :: 0 <= i < |updates| && k in updates[i].vals ==> m[k] == updates[i].vals[k])
            && ((forall i :: 0 <= i < |updates| ==> k !in updates[i].vals) && k in left.vals ==> m[k] == left.vals[k])
  {
    MergedKeys(left, updates, k);
    forall i | 0 <= i < |updates| && k in updates[i].vals
      ensures MergeAll(left, updates).vals[k] == updates[i].vals[k]
    {
      MergedValue(left, updates, k, i);
    }
  }

  lemma {:induction false} MergeAllValid<K(!new), V>(left: Dict<K, V>, updates: seq<Dict<K, V>>)
    requires left.Valid() && forall u :: u in updates ==> u.Valid()
    ensures MergeAll(left, updates).Valid()
  {
    if updates != [] {
      MergeAllValid(left, updates[..|updates| - 1]);
      MergeValid(MergeAll(left, updates[..|updates| - 1]), updates[|updates| - 1]);
    }
  }

  /** Fan-in confluence: the merged map depends only on which updates arrive, not on their
      order, nor on an update being delivered twice. */
  lemma FanInConfluence<K(!new), V>(left: Dict<K, V>, updates: seq<Dict<K, V>>, reordered: seq<Dict<K, V>>)
    requires Compatible(updates)
    requires forall u :: u in updates <==> u in reordered
    ensures MergeAll(left, updates).vals == MergeAll(left, reordered).vals
  {
    forall i, j | 0 <= i < |reordered| && 0 <= j < |reordered| ensures Agree(reordered[i], reordered[j]) {
      assert reordered[i] in updates && reordered[j] in updates;
      var a :| 0 <= a < |updates| && updates[a] == reordered[i];
      var b :| 0 <= b < |updates| && updates[b] == reordered[j];
      assert Agree(updates[a], updates[b]);
    }
    var m, r := MergeAll(left, updates).vals, MergeAll(left, reordered).vals;
    forall k ensures (k in m <==> k in r) && (k in m ==> m[k] == r[k]) {
      MergeAllAt(left, updates, k);
      MergeAllAt(left, reordered, k);
      if i :| 0 <= i < |updates| && k in updates[i].vals {
        assert updates[i] in reordered;
      }
      if j :| 0 <= j < |reordered| && k in reordered[j].vals {
        assert reordered[j] in updates;
      }
    }
  }
}
