/**
 An unordered array of entries with distinct ids, read as a map. Both registries keep their
 entries this way: appended at the end, and removed by moving the last entry into the hole.
 */
module KeyedTables {

  datatype Entry<V> = Entry(id: nat, value: V)

  ghost predicate DistinctIds<V>(es: seq<Entry<V>>) {
    forall i, j :: 0 <= i < j < |es| ==> es[i].id != es[j].id
  }

  /** The table that a sequence of entries stands for; their order does not matter. */
  ghost function Table<V>(es: seq<Entry<V>>): (t: map<nat, V>)
    ensures forall id :: id in t <==> exists i :: 0 <= i < |es| && es[i].id == id
  {
    if es == [] then map[]
    else
      var n := |es| - 1;
      assert forall i :: 0 <= i < n ==> es[..n][i] == es[i];
      Table(es[..n])[es[n].id := es[n].value]
  }

  lemma {:induction false} TableAt<V>(es: seq<Entry<V>>, i: nat)
    requires DistinctIds(es) && i < |es|
    ensures es[i].id in Table(es) && Table(es)[es[i].id] == es[i].value
  {
    var n := |es| - 1;
    if i < n {
      assert es[..n][i] == es[i];
      TableAt(es[..n], i);
    }
  }

  /** A table is determined by its entries, whatever order they stand in. */
  lemma TableIs<V>(es: seq<Entry<V>>, t: map<nat, V>)
    requires DistinctIds(es)
    requires forall i :: 0 <= i < |es| ==> es[i].id in t && t[es[i].id] == es[i].value
    requires forall id :: id in t ==> exists i :: 0 <= i < |es| && es[i].id == id
    ensures Table(es) == t
  {
    forall id | id in t ensures Table(es)[id] == t[id] {
      var i :| 0 <= i < |es| && es[i].id == id;
      TableAt(es, i);
    }
  }

  lemma TableCovers<V>(es: seq<Entry<V>>, id: nat) returns (i: nat)
    requires DistinctIds(es) && id in Table(es)
    ensures i < |es| && es[i] == Entry(id, Table(es)[id])
  {
    i :| 0 <= i < |es| && es[i].id == id;
    TableAt(es, i);
  }

  lemma {:induction false} TableSize<V>(es: seq<Entry<V>>)
    requires DistinctIds(es)
    ensures |Table(es)| == |es|
  {
    var n := |es| - 1;
    if es != [] {
      TableSize(es[..n]);
      assert forall i :: 0 <= i < n ==> es[..n][i] == es[i];
      assert es[n].id !in Table(es[..n]);
    }
  }

  lemma AppendExtends<V>(es: seq<Entry<V>>, e: Entry<V>)
    requires DistinctIds(es) && e.id !in Table(es)
    ensures DistinctIds(es + [e]) && Table(es + [e]) == Table(es)[e.id := e.value]
  {
    assert forall i :: 0 <= i < |es| ==> es[i].id in Table(es);
    assert (es + [e])[..|es|] == es;
  }

  function SwapRemove<T>(xs: seq<T>, i: nat): seq<T>
    requires i < |xs|
  {
    xs[i := xs[|xs| - 1]][..|xs| - 1]
  }

  lemma SwapRemoveKeepsTheRest<V>(es: seq<Entry<V>>, i: nat, k: nat) returns (j: nat)
    requires DistinctIds(es) && i < |es| && k < |es| - 1
    ensures j < |es| && j != i && SwapRemove(es, i)[k] == es[j]
    ensures es[j].id != es[i].id
  {
    j := if k == i then |es| - 1 else k;
  }

  lemma SwapRemoveKeepsDistinct<V>(es: seq<Entry<V>>, i: nat)
    requires DistinctIds(es) && i < |es|
    ensures DistinctIds(SwapRemove(es, i))
  {
  }

  lemma SwapRemoveDeletes<V>(es: seq<Entry<V>>, i: nat)
    requires DistinctIds(es) && i < |es|
    ensures DistinctIds(SwapRemove(es, i))
    ensures Table(SwapRemove(es, i)) == Table(es) - {es[i].id}
  {
    var left, t := SwapRemove(es, i), Table(es) - {es[i].id};
    SwapRemoveKeepsDistinct(es, i);
    hide DistinctIds;
    forall k | 0 <= k < |left| ensures left[k].id in t && t[left[k].id] == left[k].value {
      var j := SwapRemoveKeepsTheRest(es, i, k);
      TableAt(es, j);
    }
    forall id | id in t ensures exists k :: 0 <= k < |left| && left[k].id == id {
      var j := TableCovers(es, id);
      assert left[if j == |es| - 1 then i else j].id == id;
    }
    TableIs(left, t);
  }

  lemma UpdateRewrites<V>(es: seq<Entry<V>>, i: nat, value: V)
    requires DistinctIds(es) && i < |es|
    ensures var id := es[i].id;
      DistinctIds(es[i := Entry(id, value)]) && Table(es[i := Entry(id, value)]) == Table(es)[id := value]
  {
    var id := es[i].id;
    var now, t := es[i := Entry(id, value)], Table(es)[id := value];
    forall k | 0 <= k < |now| ensures now[k].id in t && t[now[k].id] == now[k].value {
      TableAt(es, k);
    }
    forall d | d in t ensures exists k :: 0 <= k < |now| && now[k].id == d {
      if d != id {
        var k :| 0 <= k < |es| && es[k].id == d;
        assert now[k].id == d;
      } else {
        assert now[i].id == d;
      }
    }
    TableIs(now, t);
  }
}
