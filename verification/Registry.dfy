/** The list of known nodes: a sorted array filled by insertion in place, and the table that inverts
    it. */
module Registry {
  import opened Globals

  const MAX_NODE_ID: nat := 20

  // The abstract list.

  /** Sorted insertion; an id equal to listed ones goes after them. */
  function Insert(s: seq<nat>, id: nat): (r: seq<nat>)
    ensures |r| == |s| + 1
  {
    if s == [] || s[0] > id then [id] + s else [s[0]] + Insert(s[1..], id)
  }

  function InsertAll(s: seq<nat>, ids: seq<nat>): seq<nat> {
    if ids == [] then s else Insert(InsertAll(s, ids[..|ids| - 1]), ids[|ids| - 1])
  }

  ghost predicate Ascending(s: seq<nat>) {
    forall i, j :: 0 <= i < j < |s| ==> s[i] <= s[j]
  }

  ghost predicate StrictlyAscending(s: seq<nat>) {
    forall i, j :: 0 <= i < j < |s| ==> s[i] < s[j]
  }

  ghost predicate Distinct(s: seq<nat>) {
    forall i, j :: 0 <= i < j < |s| ==> s[i] != s[j]
  }

  /** The index the table keeps for `id`: its last position in the list, zero if it is not listed. */
  function IndexOf(s: seq<nat>, id: nat): (i: nat)
    ensures id in s ==> i < |s| && s[i] == id && forall j :: i < j < |s| ==> s[j] != id
    ensures id !in s ==> i == 0
  {
    if s == [] then 0
    else if s[|s| - 1] == id then |s| - 1
    else
      var init := s[..|s| - 1];
      assert s == init + [s[|s| - 1]];
      IndexOf(init, id)
  }

  lemma {:induction false} InsertAt(s: seq<nat>, id: nat, i: nat)
    requires i <= |s| && (forall k :: 0 <= k < i ==> s[k] <= id) && (i < |s| ==> s[i] > id)
    ensures Insert(s, id) == s[..i] + [id] + s[i..]
  {
    if i > 0 {
      var rest := s[1..];
      InsertAt(rest, id, i - 1);
      assert s[0] <= id;
      assert s[..i] == [s[0]] + rest[..i - 1];
      assert s[i..] == rest[i - 1..];
      assert [s[0]] + (rest[..i - 1] + [id] + rest[i - 1..]) == [s[0]] + rest[..i - 1] + [id] + rest[i - 1..];
    } else {
      assert s[..0] == [] && s[0..] == s;
    }
  }

  lemma InsertKeeps(s: seq<nat>, id: nat)
    requires Ascending(s)
    ensures Ascending(Insert(s, id)) && multiset(Insert(s, id)) == multiset(s) + multiset{id}
  {
    InsertAscending(s, id);
    InsertElements(s, id);
  }

  lemma {:induction false} InsertElements(s: seq<nat>, id: nat)
    ensures multiset(Insert(s, id)) == multiset(s) + multiset{id}
  {
    if s != [] && s[0] <= id {
      InsertElements(s[1..], id);
      assert s == [s[0]] + s[1..];
    }
  }

  lemma {:induction false} InsertAscending(s: seq<nat>, id: nat)
    requires Ascending(s)
    ensures Ascending(Insert(s, id)) && Insert(s, id)[0] == if s == [] || s[0] > id then id else s[0]
  {
    if s == [] {
    } else if s[0] > id {
      Cons(id, s);
    } else {
      assert Ascending(s[1..]);
      InsertAscending(s[1..], id);
      Cons(s[0], Insert(s[1..], id));
    }
  }

  lemma Cons(x: nat, s: seq<nat>)
    requires Ascending(s) && s != [] && x <= s[0]
    ensures Ascending([x] + s)
  {
    assert forall j :: 0 <= j < |s| ==> s[0] <= s[j];
  }

  lemma {:induction false} InsertAllKeeps(s: seq<nat>, ids: seq<nat>)
    requires Ascending(s)
    ensures Ascending(InsertAll(s, ids)) && multiset(InsertAll(s, ids)) == multiset(s) + multiset(ids)
  {
    if ids != [] {
      var init, last := ids[..|ids| - 1], ids[|ids| - 1];
      InsertAllKeeps(s, init);
      InsertKeeps(InsertAll(s, init), last);
      assert ids == init + [last];
    }
  }

  lemma {:induction false} SortedIsUnique(a: seq<nat>, b: seq<nat>)
    requires Ascending(a) && Ascending(b) && multiset(a) == multiset(b)
    ensures a == b
  {
    if a == [] {
      assert |multiset(b)| == 0;
    } else {
      SameFirst(a, b);
      SortedIsUnique(a[1..], b[1..]);
      assert a == [a[0]] + a[1..] && b == [b[0]] + b[1..];
    }
  }

  lemma SameFirst(a: seq<nat>, b: seq<nat>)
    requires Ascending(a) && Ascending(b) && multiset(a) == multiset(b) && a != []
    ensures b != [] && a[0] == b[0]
    ensures multiset(a[1..]) == multiset(b[1..]) && Ascending(a[1..]) && Ascending(b[1..])
  {
    assert |multiset(a)| == |multiset(b)|;
    hide Ascending;
    FirstIsLeast(a, b[0]);
    FirstIsLeast(b, a[0]);
    Tail(a);
    Tail(b);
  }

  lemma FirstIsLeast(s: seq<nat>, x: nat)
    requires Ascending(s) && s != []
    ensures x in multiset(s) ==> s[0] <= x
    ensures s[0] in multiset(s)
  {
  }

  lemma Tail(s: seq<nat>)
    requires s != []
    ensures multiset(s[1..]) == multiset(s) - multiset{s[0]}
    ensures Ascending(s) ==> Ascending(s[1..])
  {
    assert s == [s[0]] + s[1..];
  }

  /** Nodes that start from their own ids and hear each other's end with the same list, whatever the order
      they hear them in and duplicates included. */
  lemma NodesAgree(own: nat, a: seq<nat>, own': nat, b: seq<nat>)
    requires multiset([own] + a) == multiset([own'] + b)
    ensures InsertAll([own], a) == InsertAll([own'], b)
  {
    InsertAllKeeps([own], a);
    InsertAllKeeps([own'], b);
    SortedIsUnique(InsertAll([own], a), InsertAll([own'], b));
  }

  /** Distinct ids give the strictly ascending list of exactly those ids, which the index inverts. */
  lemma DistinctIds(own: nat, ids: seq<nat>)
    requires Distinct([own] + ids)
    ensures var list := InsertAll([own], ids);
            && StrictlyAscending(list) && |list| == 1 + |ids|
            && (forall id :: id in list <==> id == own || id in ids)
            && (forall i :: 0 <= i < |list| ==> IndexOf(list, list[i]) == i)
  {
    var list, all := InsertAll([own], ids), [own] + ids;
    InsertAllKeeps([own], ids);
    assert multiset(list) == multiset(all);
    assert |multiset(list)| == |multiset(all)|;
    DistinctOnce(all);
    forall i, j | 0 <= i < j < |list| ensures list[i] < list[j] {
      if list[i] == list[j] {
        Twice(list, i, j);
      }
    }
    forall id ensures id in list <==> id == own || id in ids {
      assert id in list <==> id in multiset(list);
      assert id in all <==> id in multiset(all);
    }
  }

  lemma {:induction false} DistinctOnce(s: seq<nat>)
    requires Distinct(s)
    ensures forall x :: multiset(s)[x] <= 1
  {
    if s != [] {
      DistinctOnce(s[1..]);
      assert s == [s[0]] + s[1..];
      assert s[0] !in multiset(s[1..]);
    }
  }

  lemma Twice(s: seq<nat>, i: nat, j: nat)
    requires i < j < |s| && s[i] == s[j]
    ensures multiset(s)[s[i]] >= 2
  {
    assert s == s[..i] + [s[i]] + s[i + 1..j] + [s[j]] + s[j + 1..];
  }

  // The firmware's arrays.

  class Registry {
    const nodesList: array<nat>
    const nodeIndexOnGainMatrix: array<nat>
    var numTotalNodes: nat
    const nodeId: nat

    /** The list is sorted and followed by zeros; the table is the one IndexOf describes. */
    ghost predicate Valid()
      reads this, nodesList, nodeIndexOnGainMatrix
    {
      && nodesList.Length == MAX_NUM_NODES && nodeIndexOnGainMatrix.Length == MAX_NODE_ID + 1
      && nodesList != nodeIndexOnGainMatrix
      && 1 <= nodeId <= MAX_NODE_ID
      && numTotalNodes <= MAX_NUM_NODES
      && Ascending(Known())
      && (forall i :: 0 <= i < numTotalNodes ==> 1 <= nodesList[i] <= MAX_NODE_ID)
      && (forall i :: numTotalNodes <= i < MAX_NUM_NODES ==> nodesList[i] == 0)
      && (forall id :: 0 <= id <= MAX_NODE_ID ==> nodeIndexOnGainMatrix[id] == IndexOf(Known(), id))
    }

    ghost function Known(): seq<nat>
      requires numTotalNodes <= nodesList.Length
      reads this, nodesList
    {
      nodesList[..numTotalNodes]
    }

    /** setup(): all zero but for this node's own id. */
    constructor (id: nat)
      requires 1 <= id <= MAX_NODE_ID
      ensures Valid() && fresh(nodesList) && fresh(nodeIndexOnGainMatrix) && nodeId == id && Known() == [id]
      ensures nodesList.Length == 7 && nodeIndexOnGainMatrix.Length == 21
    {
      nodesList := new nat[MAX_NUM_NODES](_ => 0);
      nodeIndexOnGainMatrix := new nat[MAX_NODE_ID + 1](_ => 0);
      numTotalNodes := 0;
      nodeId := id;
      new;
      RegisterNewNode(id);
      assert Known() == Insert([], id);
    }

    /** registerNewNode. */
    method RegisterNewNode(id: nat)
      requires Valid() && numTotalNodes < MAX_NUM_NODES && 1 <= id <= MAX_NODE_ID
      modifies this`numTotalNodes, nodesList, nodeIndexOnGainMatrix
      ensures Valid() && Known() == Insert(old(Known()), id)
    {
      InsertSorted(id);
      numTotalNodes := numTotalNodes + 1;
      InsertKeeps(old(Known()), id);
      Members(old(Known()), id, Known());
      assert forall i :: 0 <= i < numTotalNodes ==> nodesList[i] in Known();
      assert forall x :: x in old(Known()) ==> 1 <= x <= MAX_NODE_ID;
      RewriteTable();
    }

    /** The two nested loops of registerNewNode: find the place, move the rest down, put the id. */
    method InsertSorted(id: nat)
      requires Valid() && numTotalNodes < MAX_NUM_NODES && 1 <= id
      modifies nodesList
      ensures nodesList[..numTotalNodes + 1] == Insert(old(Known()), id)
      ensures forall i :: numTotalNodes < i < MAX_NUM_NODES ==> nodesList[i] == 0
    {
      ghost var s := Known();
      var i := 0;
      while i < numTotalNodes + 1
        invariant i <= numTotalNodes && nodesList[..] == old(nodesList[..])
        invariant forall k :: 0 <= k < i ==> s[k] <= id
        decreases numTotalNodes - i
      {
        if nodesList[i] > id || nodesList[i] == 0 {
          InsertAt(s, id, i);
          InsertHere(i, id);
          break;
        }
        i := i + 1;
      }
    }

    method InsertHere(i: nat, id: nat)
      requires Valid() && i <= numTotalNodes < MAX_NUM_NODES
      modifies nodesList
      ensures nodesList[..numTotalNodes + 1] == old(Known())[..i] + [id] + old(Known())[i..]
      ensures forall k :: numTotalNodes < k < MAX_NUM_NODES ==> nodesList[k] == 0
    {
      hide IndexOf, Ascending;
      ShiftDown(i);
      nodesList[i] := id;
    }

    /** The inner loop: everything from `i` on moves one place down, up to the first free place. */
    method ShiftDown(i: nat)
      requires Valid() && i <= numTotalNodes < MAX_NUM_NODES
      modifies nodesList
      ensures forall k :: 0 <= k < i ==> nodesList[k] == old(nodesList[k])
      ensures forall k :: i < k <= numTotalNodes ==> nodesList[k] == old(nodesList[k - 1])
      ensures forall k :: numTotalNodes < k < MAX_NUM_NODES ==> nodesList[k] == 0
    {
      var oldVal := nodesList[i];
      var j := i + 1;
      while j < numTotalNodes + 1
        invariant i < j <= numTotalNodes + 1
        invariant oldVal == old(nodesList[j - 1])
        invariant forall k :: i < k < j ==> nodesList[k] == old(nodesList[k - 1])
        invariant forall k :: 0 <= k <= i || j <= k < MAX_NUM_NODES ==> nodesList[k] == old(nodesList[k])
      {
        var val := oldVal;
        oldVal := nodesList[j];
        nodesList[j] := val;
        j := j + 1;
        if oldVal == 0 {
          break;
        }
      }
    }

    /** registerNewNode's last loop. */
    method RewriteTable()
      requires nodesList.Length == MAX_NUM_NODES && nodeIndexOnGainMatrix.Length == MAX_NODE_ID + 1
      requires nodesList != nodeIndexOnGainMatrix && numTotalNodes <= MAX_NUM_NODES
      requires forall i :: 0 <= i < numTotalNodes ==> nodesList[i] <= MAX_NODE_ID
      requires forall id :: 0 <= id <= MAX_NODE_ID && id !in Known() ==> nodeIndexOnGainMatrix[id] == 0
      modifies nodeIndexOnGainMatrix
      ensures forall id :: 0 <= id <= MAX_NODE_ID ==> nodeIndexOnGainMatrix[id] == IndexOf(Known(), id)
    {
      for i := 0 to numTotalNodes
        invariant forall id :: 0 <= id <= MAX_NODE_ID && id !in nodesList[..i] && id !in Known() ==> nodeIndexOnGainMatrix[id] == 0
        invariant forall id :: id in nodesList[..i] ==> nodeIndexOnGainMatrix[id] == IndexOf(nodesList[..i], id)
      {
        nodeIndexOnGainMatrix[nodesList[i]] := i;
        assert nodesList[..i + 1] == nodesList[..i] + [nodesList[i]];
        assert nodesList[..i + 1][..i] == nodesList[..i];
      }
    }

    /** resetGlob: back to the own id alone. */
    method ResetGlob()
      requires Valid()
      modifies this`numTotalNodes, nodesList, nodeIndexOnGainMatrix
      ensures Valid() && Known() == [nodeId]
    {
      ClearAll();
      numTotalNodes := 0;
      RegisterNewNode(nodeId);
      assert Known() == Insert([], nodeId);
    }

    /** resetGlob's loop. */
    method ClearAll()
      requires Valid()
      modifies nodesList, nodeIndexOnGainMatrix
      ensures forall i :: 0 <= i < MAX_NUM_NODES ==> nodesList[i] == 0
      ensures forall id :: 0 <= id <= MAX_NODE_ID ==> nodeIndexOnGainMatrix[id] == 0
    {
      ghost var s := Known();
      for i := 0 to numTotalNodes
        invariant forall k :: 0 <= k < i || numTotalNodes <= k < MAX_NUM_NODES ==> nodesList[k] == 0
        invariant forall k :: i <= k < numTotalNodes ==> nodesList[k] == s[k]
        invariant forall id :: 0 <= id <= MAX_NODE_ID && (id in s[..i] || id !in s) ==> nodeIndexOnGainMatrix[id] == 0
      {
        nodeIndexOnGainMatrix[nodesList[i]] := 0;
        nodesList[i] := 0;
        assert s[..i + 1] == s[..i] + [s[i]];
      }
      assert s[..numTotalNodes] == s;
    }
  }

  lemma Members(s: seq<nat>, id: nat, r: seq<nat>)
    requires multiset(r) == multiset(s) + multiset{id}
    ensures forall x :: x in r <==> x in s || x == id
  {
    forall x ensures x in r <==> x in s || x == id {
      assert x in r <==> x in multiset(r);
      assert x in s <==> x in multiset(s);
    }
  }

  /** Two objects that know the same ids have identical arrays. */
  lemma SameArrays(a: Registry, b: Registry)
    requires a.Valid() && b.Valid() && a.Known() == b.Known()
    ensures a.nodesList[..] == b.nodesList[..] && a.nodeIndexOnGainMatrix[..] == b.nodeIndexOnGainMatrix[..]
  {
    forall i | 0 <= i < MAX_NUM_NODES ensures a.nodesList[i] == b.nodesList[i] {
      if i < |a.Known()| {
        assert a.Known()[i] == b.Known()[i];
      }
    }
  }
}
