/** `_span_tree` of api/server.py: the trace forest rebuilt from flat span rows.
    One loop makes a node per span id, a second one puts each node into its
    parent's list or among the roots. Parents may come in any order, be unknown,
    or run in circles; a node on such a circle hangs in a list that no walk from
    the roots reaches. */
module Spans {
  import opened Dicts
  import Plans

  /** A missing parent is the empty string, which is falsy too. */
  datatype SpanRow = SpanRow(spanId: string, parentSpanId: string)

  class SpanNode {
    const row: SpanRow
    var children: seq<SpanNode>

    constructor (row: SpanRow)
      ensures this.row == row && children == []
    {
      this.row := row;
      children := [];
    }
  }

  // ------------------------------------------------------------ the table of rows

  /** The dict comprehension: the last row of a span id wins, at the place of the first. */
  function Table(rows: seq<SpanRow>): Dict<string, SpanRow> {
    if rows == [] then Empty()
    else
      var row := rows[|rows| - 1];
      Merge(Table(rows[..|rows| - 1]), Single(row.spanId, row))
  }

  lemma {:induction false} TableValid(rows: seq<SpanRow>)
    ensures Table(rows).Valid()
    ensures forall k :: k in Table(rows).vals ==> Table(rows).vals[k].spanId == k
  {
    if rows != [] {
      TableValid(rows[..|rows| - 1]);
      var row := rows[|rows| - 1];
      assert Single(row.spanId, row).Valid();
      MergeValid(Table(rows[..|rows| - 1]), Single(row.spanId, row));
    }
  }

  predicate HasParent(t: map<string, SpanRow>, k: string) {
    k in t && t[k].parentSpanId != "" && t[k].parentSpanId in t
  }

  predicate IsChild(t: map<string, SpanRow>, k: string, parent: string) {
    HasParent(t, k) && t[k].parentSpanId == parent
  }

  function RootsOf(t: map<string, SpanRow>, keys: seq<string>): seq<string> {
    if keys == [] then []
    else RootsOf(t, keys[..|keys| - 1]) + if HasParent(t, keys[|keys| - 1]) then [] else [keys[|keys| - 1]]
  }

  function ChildrenOf(t: map<string, SpanRow>, keys: seq<string>, parent: string): seq<string> {
    if keys == [] then []
    else
      var last := keys[|keys| - 1];
      ChildrenOf(t, keys[..|keys| - 1], parent) + if IsChild(t, last, parent) then [last] else []
  }

  // ------------------------------------------------------------ the linked forest

  ghost predicate Linked(nodes: map<string, SpanNode>, ids: seq<string>, list: seq<SpanNode>) {
    |list| == |ids| && forall i :: 0 <= i < |ids| ==> ids[i] in nodes && list[i] == nodes[ids[i]]
  }

  ghost predicate NodesFor(nodes: map<string, SpanNode>, t: map<string, SpanRow>) {
    && nodes.Keys == t.Keys
    && (forall k :: k in nodes ==> nodes[k].row == t[k])
    && forall a, b :: a in nodes && b in nodes && a != b ==> nodes[a] != nodes[b]
  }

  lemma TableNext(rows: seq<SpanRow>, n: nat)
    requires n < |rows|
    ensures var t, id := Table(rows[..n]), rows[n].spanId;
            Table(rows[..n + 1]) == Dict(if id in t.vals then t.keys else t.keys + [id], t.vals[id := rows[n]])
  {
    assert rows[..n + 1][..n] == rows[..n];
    MergeSingle(Table(rows[..n]), rows[n].spanId, rows[n]);
  }

  /** Row `i` is the last of the first `n` rows that has this span id. */
  ghost predicate LastRow(rows: seq<SpanRow>, n: nat, k: string, i: nat) {
    && i < n <= |rows| && rows[i].spanId == k && forall j :: i < j < n ==> rows[j].spanId != k
  }

  ghost predicate FirstRow(rows: seq<SpanRow>, k: string, i: nat) {
    i < |rows| && rows[i].spanId == k && forall j :: 0 <= j < i ==> rows[j].spanId != k
  }

  /** `vals` has the last of the first `n` rows with this span id, and nothing if there is none. */
  ghost predicate HoldsRow(rows: seq<SpanRow>, n: nat, k: string, i: nat, vals: map<string, SpanRow>)
    requires n <= |rows|
  {
    if k in vals then LastRow(rows, n, k, i) && vals[k] == rows[i]
    else forall j :: 0 <= j < n ==> rows[j].spanId != k
  }

  lemma HoldsNext(rows: seq<SpanRow>, n: nat, k: string, i: nat, vals: map<string, SpanRow>)
    requires n < |rows| && HoldsRow(rows, n, k, i, vals)
    ensures HoldsRow(rows, n + 1, k, if rows[n].spanId == k then n else i, vals[rows[n].spanId := rows[n]])
  {
  }

  lemma HoldsLonger(front: seq<SpanRow>, rows: seq<SpanRow>, k: string, i: nat, vals: map<string, SpanRow>)
    requires front <= rows && HoldsRow(front, |front|, k, i, vals)
    ensures HoldsRow(rows, |front|, k, i, vals)
  {
  }

  lemma TableLast(rows: seq<SpanRow>)
    requires rows != []
    ensures var t, row := Table(rows[..|rows| - 1]), rows[|rows| - 1];
            && Table(rows).vals == t.vals[row.spanId := row]
            && Table(rows).keys == if row.spanId in t.vals then t.keys else t.keys + [row.spanId]
  {
    var row := rows[|rows| - 1];
    MergeSingle(Table(rows[..|rows| - 1]), row.spanId, row);
  }

  /** A span id is in the table exactly if some row has it, and the table has its last row. */
  lemma {:induction false} LastRowWins(rows: seq<SpanRow>, k: string) returns (i: nat)
    ensures HoldsRow(rows, |rows|, k, i, Table(rows).vals)
    decreases |rows|
  {
    if rows == [] {
      i := 0;
    } else {
      var n, front := |rows| - 1, rows[..|rows| - 1];
      i := LastRowWins(front, k);
      HoldsLonger(front, rows, k, i, Table(front).vals);
      HoldsNext(rows, n, k, i, Table(front).vals);
      TableLast(rows);
      i := if rows[n].spanId == k then n else i;
    }
  }

  /** The keys, with the rows where they first appear. */
  ghost predicate AppearAt(rows: seq<SpanRow>, n: nat, keys: seq<string>, at: seq<nat>) {
    && |at| == |keys|
    && (forall a :: 0 <= a < |at| ==> at[a] < n && FirstRow(rows, keys[a], at[a]))
    && forall a, b :: 0 <= a < b < |at| ==> at[a] < at[b]
  }

  lemma AppearNext(rows: seq<SpanRow>, n: nat, keys: seq<string>, at: seq<nat>)
    requires n < |rows| && AppearAt(rows, n, keys, at)
    ensures AppearAt(rows, n + 1, keys, at)
    ensures FirstRow(rows, rows[n].spanId, n) ==> AppearAt(rows, n + 1, keys + [rows[n].spanId], at + [n])
  {
  }

  lemma AppearLonger(front: seq<SpanRow>, rows: seq<SpanRow>, keys: seq<string>, at: seq<nat>)
    requires front <= rows && AppearAt(front, |front|, keys, at)
    ensures AppearAt(rows, |front|, keys, at)
  {
    forall a | 0 <= a < |at| ensures FirstRow(rows, keys[a], at[a]) {
      assert FirstRow(front, keys[a], at[a]);
    }
  }

  lemma NewIsFirst(rows: seq<SpanRow>, n: nat, i: nat, vals: map<string, SpanRow>)
    requires n < |rows| && HoldsRow(rows, n, rows[n].spanId, i, vals) && rows[n].spanId !in vals
    ensures FirstRow(rows, rows[n].spanId, n)
  {
  }

  /** The spans come in the order in which their ids first appear. */
  lemma {:induction false} KeysInOrder(rows: seq<SpanRow>) returns (at: seq<nat>)
    ensures AppearAt(rows, |rows|, Table(rows).keys, at)
    decreases |rows|
  {
    if rows == [] {
      at := [];
    } else {
      var n, front := |rows| - 1, rows[..|rows| - 1];
      at := KeysInOrder(front);
      AppearLonger(front, rows, Table(front).keys, at);
      AppearNext(rows, n, Table(front).keys, at);
      TableLast(rows);
      if rows[n].spanId !in Table(front).vals {
        var i := LastRowWins(front, rows[n].spanId);
        HoldsLonger(front, rows, rows[n].spanId, i, Table(front).vals);
        NewIsFirst(rows, n, i, Table(front).vals);
        at := at + [n];
      }
    }
  }

  lemma NodesForPut(nodes: map<string, SpanNode>, t: map<string, SpanRow>, id: string, node: SpanNode)
    requires NodesFor(nodes, t) && forall k :: k in nodes ==> nodes[k] != node
    ensures NodesFor(nodes[id := node], t[id := node.row])
  {
  }

  /** The first loop: one fresh, childless node per span id. */
  method MakeNodes(rows: seq<SpanRow>) returns (nodes: map<string, SpanNode>, keys: seq<string>)
    ensures keys == Table(rows).keys && NodesFor(nodes, Table(rows).vals)
    ensures forall k :: k in nodes ==> fresh(nodes[k]) && nodes[k].children == []
  {
    nodes, keys := map[], [];
    for n := 0 to |rows|
      invariant keys == Table(rows[..n]).keys && NodesFor(nodes, Table(rows[..n]).vals)
      invariant forall k :: k in nodes ==> fresh(nodes[k]) && nodes[k].children == []
    {
      TableNext(rows, n);
      var id := rows[n].spanId;
      var node := new SpanNode(rows[n]);
      NodesForPut(nodes, Table(rows[..n]).vals, id, node);
      keys := if id in nodes then keys else keys + [id];
      nodes := nodes[id := node];
    }
    assert rows[..|rows|] == rows;
  }

  /** The lists of the forest after the first `n` keys were placed. */
  ghost predicate Placed(nodes: map<string, SpanNode>, t: map<string, SpanRow>, keys: seq<string>, roots: seq<SpanNode>)
    reads nodes.Values
  {
    && Linked(nodes, RootsOf(t, keys), roots)
    && forall p :: p in nodes ==> Linked(nodes, ChildrenOf(t, keys, p), nodes[p].children)
  }

  lemma LinkedMore(nodes: map<string, SpanNode>, ids: seq<string>, list: seq<SpanNode>, k: string)
    requires Linked(nodes, ids, list) && k in nodes
    ensures Linked(nodes, ids + [k], list + [nodes[k]])
  {
  }

  lemma ListsNext(t: map<string, SpanRow>, keys: seq<string>, k: string, p: string)
    ensures RootsOf(t, keys + [k]) == RootsOf(t, keys) + if HasParent(t, k) then [] else [k]
    ensures ChildrenOf(t, keys + [k], p) == ChildrenOf(t, keys, p) + if IsChild(t, k, p) then [k] else []
  {
    assert (keys + [k])[..|keys|] == keys;
  }

  lemma RootPlaced(nodes: map<string, SpanNode>, t: map<string, SpanRow>, keys: seq<string>, k: string,
                   roots: seq<SpanNode>)
    requires NodesFor(nodes, t) && Placed(nodes, t, keys, roots) && k in nodes && !HasParent(t, k)
    ensures Placed(nodes, t, keys + [k], roots + [nodes[k]])
  {
    LinkedMore(nodes, RootsOf(t, keys), roots, k);
    forall p | p in nodes ensures Linked(nodes, ChildrenOf(t, keys + [k], p), nodes[p].children) {
      ListsNext(t, keys, k, p);
    }
    ListsNext(t, keys, k, "");
  }

  /** `k` joins the children of its parent; the other lists stay. */
  method Adopt(nodes: map<string, SpanNode>, ghost t: map<string, SpanRow>, ghost keys: seq<string>, k: string,
               parent: string, ghost roots: seq<SpanNode>)
    requires NodesFor(nodes, t) && Placed(nodes, t, keys, roots) && k in nodes && IsChild(t, k, parent)
    modifies nodes.Values
    ensures Placed(nodes, t, keys + [k], roots)
  {
    ListsNext(t, keys, k, parent);
    LinkedMore(nodes, ChildrenOf(t, keys, parent), nodes[parent].children, k);
    nodes[parent].children := nodes[parent].children + [nodes[k]];
    forall p | p in nodes ensures Linked(nodes, ChildrenOf(t, keys + [k], p), nodes[p].children) {
      ListsNext(t, keys, k, p);
      if p != parent {
        assert nodes[p].children == old(nodes[p].children);
      }
    }
  }

  /** The body of the second loop: a node goes to its parent's list, or to the roots. */
  method Place(nodes: map<string, SpanNode>, ghost t: map<string, SpanRow>, ghost keys: seq<string>, k: string,
               roots: seq<SpanNode>) returns (next: seq<SpanNode>)
    requires NodesFor(nodes, t) && Placed(nodes, t, keys, roots) && k in nodes
    modifies nodes.Values
    ensures Placed(nodes, t, keys + [k], next)
  {
    var parent := nodes[k].row.parentSpanId;
    if parent != "" && parent in nodes {
      Adopt(nodes, t, keys, k, parent, roots);
      next := roots;
    } else {
      RootPlaced(nodes, t, keys, k, roots);
      next := roots + [nodes[k]];
    }
  }

  lemma NothingPlaced(nodes: map<string, SpanNode>, t: map<string, SpanRow>)
    requires forall k :: k in nodes ==> nodes[k].children == []
    ensures Placed(nodes, t, [], [])
  {
  }

  /** The key at `n` is next. */
  method PlaceNext(nodes: map<string, SpanNode>, ghost t: map<string, SpanRow>, keys: seq<string>, n: nat,
                   roots: seq<SpanNode>) returns (next: seq<SpanNode>)
    requires n < |keys| && keys[n] in nodes && NodesFor(nodes, t) && Placed(nodes, t, keys[..n], roots)
    modifies nodes.Values
    ensures Placed(nodes, t, keys[..n + 1], next)
  {
    assert keys[..n + 1] == keys[..n] + [keys[n]];
    next := Place(nodes, t, keys[..n], keys[n], roots);
  }

  /** The second loop. */
  method PlaceAll(nodes: map<string, SpanNode>, ghost t: map<string, SpanRow>, keys: seq<string>)
    returns (roots: seq<SpanNode>)
    requires NodesFor(nodes, t) && forall k :: k in keys ==> k in nodes
    requires forall k :: k in nodes ==> nodes[k].children == []
    modifies nodes.Values
    ensures Placed(nodes, t, keys, roots)
  {
    roots := [];
    NothingPlaced(nodes, t);
    assert keys[..0] == [];
    for n := 0 to |keys|
      invariant Placed(nodes, t, keys[..n], roots)
    {
      roots := PlaceNext(nodes, t, keys, n, roots);
    }
    assert keys[..|keys|] == keys;
  }

  /** The forest of a table: one node per key, placed by the parent relation. */
  ghost predicate Forest(nodes: map<string, SpanNode>, t: Dict<string, SpanRow>, roots: seq<SpanNode>)
    reads nodes.Values
  {
    t.Valid() && NodesFor(nodes, t.vals) && Placed(nodes, t.vals, t.keys, roots)
  }

  /** `_span_tree`. */
  method SpanTree(rows: seq<SpanRow>) returns (roots: seq<SpanNode>, nodes: map<string, SpanNode>)
    ensures Forest(nodes, Table(rows), roots)
  {
    TableValid(rows);
    var made, keys := MakeNodes(rows);
    roots := PlaceAll(made, Table(rows).vals, keys);
    nodes := made;
  }

  // ------------------------------------------------------------ one place for every span

  function Occurrences(ids: seq<string>, k: string): nat {
    if ids == [] then 0 else Occurrences(ids[..|ids| - 1], k) + if ids[|ids| - 1] == k then 1 else 0
  }

  lemma {:induction false} RootOccurrences(t: map<string, SpanRow>, keys: seq<string>, k: string)
    ensures Occurrences(RootsOf(t, keys), k) == if HasParent(t, k) then 0 else Occurrences(keys, k)
  {
    if keys != [] {
      var front, last := RootsOf(t, keys[..|keys| - 1]), keys[|keys| - 1];
      RootOccurrences(t, keys[..|keys| - 1], k);
      assert (front + [last])[..|front|] == front;
      assert front + [] == front;
    }
  }

  lemma {:induction false} ChildOccurrences(t: map<string, SpanRow>, keys: seq<string>, p: string, k: string)
    ensures Occurrences(ChildrenOf(t, keys, p), k) == if IsChild(t, k, p) then Occurrences(keys, k) else 0
  {
    if keys != [] {
      var front, last := ChildrenOf(t, keys[..|keys| - 1], p), keys[|keys| - 1];
      ChildOccurrences(t, keys[..|keys| - 1], p, k);
      assert (front + [last])[..|front|] == front;
      assert front + [] == front;
    }
  }

  lemma {:induction false} DistinctOccurrences(keys: seq<string>, k: string)
    requires Distinct(keys)
    ensures Occurrences(keys, k) == if k in keys then 1 else 0
  {
    if keys != [] {
      var n := |keys| - 1;
      assert Distinct(keys[..n]);
      DistinctOccurrences(keys[..n], k);
    }
  }

  /** Every span stands in exactly one list, once: among the roots, or among the children of
      its one parent. */
  lemma OnePlace(rows: seq<SpanRow>, k: string, p: string)
    requires k in Table(rows).vals
    ensures var t := Table(rows);
            var parent := t.vals[k].parentSpanId;
            && Occurrences(RootsOf(t.vals, t.keys), k) == (if parent != "" && parent in t.vals then 0 else 1)
            && Occurrences(ChildrenOf(t.vals, t.keys, p), k) ==
               (if parent != "" && parent in t.vals && p == parent then 1 else 0)
  {
    TableValid(rows);
    var t := Table(rows);
    DistinctOccurrences(t.keys, k);
    RootOccurrences(t.vals, t.keys, k);
    ChildOccurrences(t.vals, t.keys, p, k);
  }

  /** `list` is made of the keys at rising positions. */
  ghost predicate PickedAt(keys: seq<string>, list: seq<string>, at: seq<nat>) {
    && |at| == |list|
    && (forall i :: 0 <= i < |at| ==> at[i] < |keys| && list[i] == keys[at[i]])
    && forall i, j :: 0 <= i < j < |at| ==> at[i] < at[j]
  }

  lemma PickedLonger(front: seq<string>, keys: seq<string>, list: seq<string>, at: seq<nat>)
    requires keys != [] && front == keys[..|keys| - 1] && PickedAt(front, list, at)
    ensures PickedAt(keys, list, at) && PickedAt(keys, list + [keys[|keys| - 1]], at + [|keys| - 1])
  {
  }

  /** The roots, and the children of each span, come in the order of the spans. */
  lemma {:induction false} ListsInOrder(t: map<string, SpanRow>, keys: seq<string>, p: string)
    returns (roots: seq<nat>, children: seq<nat>)
    ensures PickedAt(keys, RootsOf(t, keys), roots) && PickedAt(keys, ChildrenOf(t, keys, p), children)
  {
    if keys == [] {
      roots, children := [], [];
    } else {
      var n, front := |keys| - 1, keys[..|keys| - 1];
      roots, children := ListsInOrder(t, front, p);
      PickedLonger(front, keys, RootsOf(t, front), roots);
      PickedLonger(front, keys, ChildrenOf(t, front, p), children);
      if !HasParent(t, keys[n]) {
        roots := roots + [n];
      }
      if IsChild(t, keys[n], p) {
        children := children + [n];
      }
    }
  }

  // ------------------------------------------------------------ reachability

  /** A way down from a root to `k`. */
  ghost predicate DownPath(t: map<string, SpanRow>, path: seq<string>, k: string) {
    && path != [] && path[|path| - 1] == k && path[0] in t && !HasParent(t, path[0])
    && forall i :: 0 < i < |path| ==> IsChild(t, path[i], path[i - 1])
  }

  /** The `n`-th ancestor, if the parent chain is that long. */
  function Ancestor(t: map<string, SpanRow>, k: string, n: nat): Option<string> {
    if n == 0 then Some(k)
    else
      match Ancestor(t, k, n - 1)
      case None => None
      case Some(a) => if HasParent(t, a) then Some(t[a].parentSpanId) else None
  }

  ghost predicate ChainEnds(t: map<string, SpanRow>, k: string) {
    exists n: nat :: Ancestor(t, k, n).None?
  }

  lemma {:induction false} AncestorOfParent(t: map<string, SpanRow>, k: string, n: nat)
    requires HasParent(t, k)
    ensures Ancestor(t, k, n + 1) == Ancestor(t, t[k].parentSpanId, n)
  {
    if n > 0 {
      AncestorOfParent(t, k, n - 1);
    }
  }

  lemma {:induction false} PathFromEnd(t: map<string, SpanRow>, k: string, n: nat) returns (path: seq<string>)
    requires k in t && Ancestor(t, k, n).None?
    ensures DownPath(t, path, k)
    decreases n
  {
    if !HasParent(t, k) {
      path := [k];
    } else {
      AncestorOfParent(t, k, n - 1);
      var up := PathFromEnd(t, t[k].parentSpanId, n - 1);
      path := up + [k];
    }
  }

  lemma {:induction false} PathEnds(t: map<string, SpanRow>, path: seq<string>, k: string)
    requires DownPath(t, path, k)
    ensures Ancestor(t, k, |path|).None?
  {
    var n := |path| - 1;
    if n == 0 {
      assert Ancestor(t, k, 0) == Some(k);
    } else {
      assert IsChild(t, path[n], path[n - 1]);
      PathEnds(t, path[..n], path[n - 1]);
      AncestorOfParent(t, k, n);
    }
  }

  lemma {:induction false} PathsAreUnique(t: map<string, SpanRow>, one: seq<string>, other: seq<string>, k: string)
    requires DownPath(t, one, k) && DownPath(t, other, k)
    ensures one == other
  {
    var m, n := |one| - 1, |other| - 1;
    if HasParent(t, k) {
      assert m > 0 && n > 0;
      assert IsChild(t, one[m], one[m - 1]) && IsChild(t, other[n], other[n - 1]);
      PathsAreUnique(t, one[..m], other[..n], t[k].parentSpanId);
      assert one == one[..m] + [k] && other == other[..n] + [k];
    } else {
      assert m > 0 ==> IsChild(t, one[m], one[m - 1]);
      assert n > 0 ==> IsChild(t, other[n], other[n - 1]);
    }
  }

  // ------------------------------------------------------------ reachability along the nodes

  /** A way down the returned lists: from one of the roots along `children`. */
  ghost predicate NodePath(roots: seq<SpanNode>, path: seq<SpanNode>, node: SpanNode)
    reads path
  {
    && path != [] && path[0] in roots && path[|path| - 1] == node
    && forall i :: 0 < i < |path| ==> StepsDown(path, i)
  }

  ghost predicate StepsDown(path: seq<SpanNode>, i: nat)
    requires 0 < i < |path|
    reads path
  {
    path[i] in path[i - 1].children
  }

  lemma {:induction false} ListMembers(t: map<string, SpanRow>, keys: seq<string>, p: string, k: string)
    ensures k in RootsOf(t, keys) <==> k in keys && !HasParent(t, k)
    ensures k in ChildrenOf(t, keys, p) <==> k in keys && IsChild(t, k, p)
  {
    if keys != [] {
      ListMembers(t, keys[..|keys| - 1], p, k);
    }
  }

  /** A node in the root list is that of a span without a known parent, */
  lemma RootNode(nodes: map<string, SpanNode>, t: map<string, SpanRow>, keys: seq<string>, roots: seq<SpanNode>,
                 node: SpanNode)
    returns (k: string)
    requires Linked(nodes, RootsOf(t, keys), roots) && node in roots
    ensures k in nodes && nodes[k] == node && k in keys && !HasParent(t, k)
  {
    var i :| 0 <= i < |roots| && roots[i] == node;
    k := RootsOf(t, keys)[i];
    ListMembers(t, keys, "", k);
  }

  /** and a node in a list of children that of a child. */
  lemma ChildNode(nodes: map<string, SpanNode>, t: map<string, SpanRow>, keys: seq<string>, p: string,
                  list: seq<SpanNode>, node: SpanNode)
    returns (k: string)
    requires Linked(nodes, ChildrenOf(t, keys, p), list) && node in list
    ensures k in nodes && nodes[k] == node && IsChild(t, k, p)
  {
    var i :| 0 <= i < |list| && list[i] == node;
    k := ChildrenOf(t, keys, p)[i];
    ListMembers(t, keys, p, k);
  }

  ghost predicate NodesAlong(nodes: map<string, SpanNode>, ids: seq<string>, path: seq<SpanNode>) {
    |path| == |ids| && forall i :: 0 <= i < |ids| ==> ids[i] in nodes && nodes[ids[i]] == path[i]
  }

  lemma InList(nodes: map<string, SpanNode>, ids: seq<string>, list: seq<SpanNode>, k: string)
    requires Linked(nodes, ids, list) && k in ids
    ensures k in nodes && nodes[k] in list
  {
    var i :| 0 <= i < |ids| && ids[i] == k;
    assert list[i] == nodes[k];
  }

  /** What paths need of a forest: its lists are those of the parent relation. */
  ghost predicate Woven(nodes: map<string, SpanNode>, t: map<string, SpanRow>, keys: seq<string>, roots: seq<SpanNode>)
    reads nodes.Values
  {
    nodes.Keys == t.Keys && (forall k :: k in t ==> k in keys) && Placed(nodes, t, keys, roots)
  }

  lemma ChildOnPath(nodes: map<string, SpanNode>, t: map<string, SpanRow>, keys: seq<string>, roots: seq<SpanNode>,
                    p: string, node: SpanNode)
    returns (k: string)
    requires Woven(nodes, t, keys, roots) && p in nodes && node in nodes[p].children
    ensures k in nodes && nodes[k] == node && IsChild(t, k, p)
  {
    assert Linked(nodes, ChildrenOf(t, keys, p), nodes[p].children);
    k := ChildNode(nodes, t, keys, p, nodes[p].children, node);
  }

  lemma NodePathFront(roots: seq<SpanNode>, path: seq<SpanNode>, node: SpanNode)
    requires NodePath(roots, path, node) && |path| > 1
    ensures var front := path[..|path| - 1];
            NodePath(roots, front, front[|front| - 1]) && node in front[|front| - 1].children
  {
    var front := path[..|path| - 1];
    assert StepsDown(path, |path| - 1);
    forall i | 0 < i < |front| ensures StepsDown(front, i) {
      assert StepsDown(path, i);
    }
  }

  lemma DownPathExtends(t: map<string, SpanRow>, up: seq<string>, k: string)
    requires up != [] && DownPath(t, up, up[|up| - 1]) && IsChild(t, k, up[|up| - 1])
    ensures DownPath(t, up + [k], k)
  {
    var ids := up + [k];
    forall i | 0 < i < |ids| ensures IsChild(t, ids[i], ids[i - 1]) {
      assert i < |up| ==> IsChild(t, up[i], up[i - 1]);
    }
  }

  lemma FrontAndLast<T>(s: seq<T>)
    requires s != []
    ensures s == s[..|s| - 1] + [s[|s| - 1]]
  {
  }

  /** One more node on a path is one more id. */
  lemma IdsExtend(nodes: map<string, SpanNode>, t: map<string, SpanRow>, keys: seq<string>, roots: seq<SpanNode>,
                  up: seq<string>, front: seq<SpanNode>, node: SpanNode)
    returns (ids: seq<string>)
    requires Woven(nodes, t, keys, roots) && NodesAlong(nodes, up, front)
    requires front != [] && DownPath(t, up, up[|up| - 1])
    requires node in front[|front| - 1].children
    ensures NodesAlong(nodes, ids, front + [node]) && DownPath(t, ids, ids[|ids| - 1])
  {
    var k := ChildOnPath(nodes, t, keys, roots, up[|up| - 1], node);
    DownPathExtends(t, up, k);
    ids := up + [k];
  }

  lemma {:induction false} IdsOfPath(nodes: map<string, SpanNode>, t: map<string, SpanRow>, keys: seq<string>,
                                     roots: seq<SpanNode>, path: seq<SpanNode>, node: SpanNode)
    returns (ids: seq<string>)
    requires Woven(nodes, t, keys, roots) && NodePath(roots, path, node)
    ensures NodesAlong(nodes, ids, path) && DownPath(t, ids, ids[|ids| - 1])
  {
    var front := path[..|path| - 1];
    FrontAndLast(path);
    if front == [] {
      var k := RootNode(nodes, t, keys, roots, node);
      ids := [k];
    } else {
      NodePathFront(roots, path, node);
      var up := IdsOfPath(nodes, t, keys, roots, front, front[|front| - 1]);
      ids := IdsExtend(nodes, t, keys, roots, up, front, node);
    }
  }

  lemma RootIsListed(nodes: map<string, SpanNode>, t: map<string, SpanRow>, keys: seq<string>, roots: seq<SpanNode>,
                     k: string)
    requires Linked(nodes, RootsOf(t, keys), roots) && k in keys && !HasParent(t, k)
    ensures k in nodes && nodes[k] in roots
  {
    ListMembers(t, keys, "", k);
    InList(nodes, RootsOf(t, keys), roots, k);
  }

  lemma ChildIsListed(nodes: map<string, SpanNode>, t: map<string, SpanRow>, keys: seq<string>, p: string,
                      list: seq<SpanNode>, k: string)
    requires Linked(nodes, ChildrenOf(t, keys, p), list) && k in keys && IsChild(t, k, p)
    ensures k in nodes && nodes[k] in list
  {
    ListMembers(t, keys, p, k);
    InList(nodes, ChildrenOf(t, keys, p), list, k);
  }

  lemma NodePathExtends(roots: seq<SpanNode>, path: seq<SpanNode>, node: SpanNode, child: SpanNode)
    requires NodePath(roots, path, node) && child in node.children
    ensures NodePath(roots, path + [child], child)
  {
    var longer := path + [child];
    forall i | 0 < i < |longer| ensures StepsDown(longer, i) {
      assert i < |path| ==> StepsDown(path, i);
    }
  }

  lemma {:induction false} PathOfIds(nodes: map<string, SpanNode>, t: map<string, SpanRow>, keys: seq<string>,
                                     roots: seq<SpanNode>, ids: seq<string>, k: string)
    returns (path: seq<SpanNode>)
    requires Woven(nodes, t, keys, roots) && DownPath(t, ids, k)
    ensures k in nodes && NodePath(roots, path, nodes[k])
  {
    var n := |ids| - 1;
    if n == 0 {
      RootIsListed(nodes, t, keys, roots, k);
      path := [nodes[k]];
    } else {
      var p := ids[n - 1];
      assert IsChild(t, ids[n], p);
      path := PathOfIds(nodes, t, keys, roots, ids[..n], p);
      ChildIsListed(nodes, t, keys, p, nodes[p].children, k);
      NodePathExtends(roots, path, nodes[p], nodes[k]);
      path := path + [nodes[k]];
    }
  }

  /** The end of a path to a node is the node's own span. */
  lemma PathOfSpan(nodes: map<string, SpanNode>, t: Dict<string, SpanRow>, roots: seq<SpanNode>, k: string,
                   path: seq<SpanNode>)
    returns (ids: seq<string>)
    requires Forest(nodes, t, roots) && k in nodes && NodePath(roots, path, nodes[k])
    ensures NodesAlong(nodes, ids, path) && DownPath(t.vals, ids, k)
  {
    ids := IdsOfPath(nodes, t.vals, t.keys, roots, path, nodes[k]);
    assert nodes[ids[|ids| - 1]] == nodes[k];
  }

  lemma EndingChainReached(nodes: map<string, SpanNode>, t: Dict<string, SpanRow>, roots: seq<SpanNode>, k: string)
    returns (path: seq<SpanNode>)
    requires Forest(nodes, t, roots) && k in nodes && ChainEnds(t.vals, k)
    ensures NodePath(roots, path, nodes[k])
  {
    var n: nat :| Ancestor(t.vals, k, n).None?;
    var ids := PathFromEnd(t.vals, k, n);
    path := PathOfIds(nodes, t.vals, t.keys, roots, ids, k);
  }

  lemma NodePathsAreUnique(nodes: map<string, SpanNode>, t: Dict<string, SpanRow>, roots: seq<SpanNode>, k: string,
                           one: seq<SpanNode>, other: seq<SpanNode>)
    requires Forest(nodes, t, roots) && k in nodes && NodePath(roots, one, nodes[k]) && NodePath(roots, other, nodes[k])
    ensures one == other
  {
    var ids := PathOfSpan(nodes, t, roots, k, one);
    var ids' := PathOfSpan(nodes, t, roots, k, other);
    PathsAreUnique(t.vals, ids, ids', k);
  }

  /** Walking the returned nodes from the roots along `children` reaches the node of a span
      exactly when the span's parent chain ends, and then in exactly one way. */
  lemma NodeReachableIffChainEnds(nodes: map<string, SpanNode>, t: Dict<string, SpanRow>, roots: seq<SpanNode>,
                                  k: string)
    requires Forest(nodes, t, roots) && k in nodes
    ensures (exists path :: NodePath(roots, path, nodes[k])) <==> ChainEnds(t.vals, k)
    ensures forall one, other :: NodePath(roots, one, nodes[k]) && NodePath(roots, other, nodes[k]) ==> one == other
  {
    if path :| NodePath(roots, path, nodes[k]) {
      var ids := PathOfSpan(nodes, t, roots, k, path);
      PathEnds(t.vals, ids, k);
    }
    if ChainEnds(t.vals, k) {
      var path := EndingChainReached(nodes, t, roots, k);
    }
    forall one, other | NodePath(roots, one, nodes[k]) && NodePath(roots, other, nodes[k]) ensures one == other {
      NodePathsAreUnique(nodes, t, roots, k, one, other);
    }
  }

  lemma {:induction false} AncestorAdds(t: map<string, SpanRow>, k: string, i: nat, n: nat)
    requires Ancestor(t, k, i).Some?
    ensures Ancestor(t, k, i + n) == Ancestor(t, Ancestor(t, k, i).value, n)
  {
    if n > 0 {
      AncestorAdds(t, k, i, n - 1);
    }
  }

  lemma {:induction false} CycleNeverEnds(t: map<string, SpanRow>, k: string, period: nat, n: nat)
    requires period > 0 && Ancestor(t, k, period) == Some(k)
    ensures Ancestor(t, k, n).Some?
  {
    if n > period {
      CycleNeverEnds(t, k, period, n - period);
      AncestorAdds(t, k, period, n - period);
    } else if Ancestor(t, k, n).Some? {
    } else {
      EndsForGood(t, k, n, period);
    }
  }

  lemma {:induction false} EndsForGood(t: map<string, SpanRow>, k: string, i: nat, j: nat)
    requires i <= j && Ancestor(t, k, i).None?
    ensures Ancestor(t, k, j).None?
  {
    if i < j {
      EndsForGood(t, k, i, j - 1);
    }
  }

  lemma {:induction false} AncestorsKnown(t: map<string, SpanRow>, k: string, n: nat)
    requires k in t && Ancestor(t, k, n).Some?
    ensures Ancestor(t, k, n).value in t
  {
    if n > 0 {
      AncestorsKnown(t, k, n - 1);
    }
  }

  /** Some ancestor comes back. */
  ghost predicate RunsInCircle(t: map<string, SpanRow>, k: string) {
    exists i: nat, j: nat :: i < j && Ancestor(t, k, i).Some? && Ancestor(t, k, i) == Ancestor(t, k, j)
  }

  lemma EndlessRepeats(t: map<string, SpanRow>, k: string)
    requires k in t && !ChainEnds(t, k)
    ensures RunsInCircle(t, k)
  {
    forall n: nat ensures Ancestor(t, k, n).Some? && Ancestor(t, k, n).value in t {
      assert !Ancestor(t, k, n).None?;
      AncestorsKnown(t, k, n);
    }
    var chain := seq(|t.Keys| + 1, (n: nat) => if Ancestor(t, k, n).Some? then Ancestor(t, k, n).value else k);
    var i, j := Plans.Repetition(chain, t.Keys);
    assert Ancestor(t, k, i) == Ancestor(t, k, j);
  }

  /** A parent chain ends exactly when it does not run in a circle, so the spans the forest
      loses are those on a cycle of parents or below one. */
  lemma ChainEndsIffNoCircle(t: map<string, SpanRow>, k: string)
    requires k in t
    ensures ChainEnds(t, k) <==> !RunsInCircle(t, k)
  {
    if i: nat, j: nat :| i < j && Ancestor(t, k, i).Some? && Ancestor(t, k, i) == Ancestor(t, k, j) {
      var a := Ancestor(t, k, i).value;
      AncestorAdds(t, k, i, j - i);
      forall n: nat ensures Ancestor(t, k, n).Some? {
        if n <= i {
          if Ancestor(t, k, n).None? { EndsForGood(t, k, n, i); }
        } else {
          CycleNeverEnds(t, a, j - i, n - i);
          AncestorAdds(t, k, i, n - i);
        }
      }
    } else if !ChainEnds(t, k) {
      EndlessRepeats(t, k);
    }
  }
}
