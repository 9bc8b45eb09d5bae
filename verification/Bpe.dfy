// Byte-pair merging: the linked-node list with a lazily pruned priority queue
// refines "merge the lowest-ranked adjacent pair, leftmost first".

module Bpe {
  import opened SizeT

  type Id = nat

  datatype Tables = Tables(ranks: map<(Id, Id), nat>, results: map<(Id, Id), Id>)

  // What loading guarantees: each merge row has its own rank and a result.
  ghost predicate ValidTables(t: Tables) {
    && t.ranks.Keys == t.results.Keys
    && forall p, q :: p in t.ranks && q in t.ranks && t.ranks[p] == t.ranks[q] ==> p == q
  }

  // ---------------------------------------------------------------- reference algorithm

  predicate Mergeable(t: Tables, s: seq<Id>, i: nat) {
    i + 1 < |s| && (s[i], s[i + 1]) in t.ranks
  }

  function RankAt(t: Tables, s: seq<Id>, i: nat): nat
    requires Mergeable(t, s, i)
  {
    t.ranks[(s[i], s[i + 1])]
  }

  // Position i is merged no later than position j.
  predicate Precedes(t: Tables, s: seq<Id>, i: nat, j: nat)
    requires Mergeable(t, s, i) && Mergeable(t, s, j)
  {
    RankAt(t, s, i) < RankAt(t, s, j) || (RankAt(t, s, i) == RankAt(t, s, j) && i <= j)
  }

  // The lowest-ranked mergeable position below n, the leftmost one on ties.
  function NextMerge(t: Tables, s: seq<Id>, n: nat): (r: Option<nat>)
    ensures r.Some? ==> r.value < n && Mergeable(t, s, r.value)
    ensures r.Some? ==> forall j: nat :: j < n && Mergeable(t, s, j) ==>
      RankAt(t, s, r.value) < RankAt(t, s, j) || (RankAt(t, s, r.value) == RankAt(t, s, j) && r.value <= j)
    ensures r.None? ==> forall j: nat :: j < n ==> !Mergeable(t, s, j)
  {
    if n == 0 then None
    else
      var best := NextMerge(t, s, n - 1);
      if !Mergeable(t, s, n - 1) then best
      else if best.None? || RankAt(t, s, n - 1) < RankAt(t, s, best.value) then Some(n - 1)
      else best
  }

  function MergeAt(t: Tables, s: seq<Id>, i: nat): (r: seq<Id>)
    requires t.ranks.Keys == t.results.Keys
    requires Mergeable(t, s, i)
    ensures |r| == |s| - 1
  {
    s[..i] + [t.results[(s[i], s[i + 1])]] + s[i + 2..]
  }

  // Repeatedly merge the lowest-ranked adjacent pair, leftmost first.
  function Naive(t: Tables, s: seq<Id>): (r: seq<Id>)
    requires t.ranks.Keys == t.results.Keys
    decreases |s|
  {
    match NextMerge(t, s, |s|)
    case None => s
    case Some(i) => Naive(t, MergeAt(t, s, i))
  }

  // The reference algorithm stops only when no adjacent pair has a merge row.
  lemma {:induction false} NaiveIsFinal(t: Tables, s: seq<Id>)
    requires t.ranks.Keys == t.results.Keys
    ensures forall i: nat :: !Mergeable(t, Naive(t, s), i)
    decreases |s|
  {
    var best := NextMerge(t, s, |s|);
    if best.Some? { NaiveIsFinal(t, MergeAt(t, s, best.value)); }
  }

  // ---------------------------------------------------------------- linked nodes

  // kNoBpeIndex
  const NO_INDEX: nat := SIZE_MAX

  // max_size() of a vector of 40-byte nodes and of 48-byte heap entries.
  const MAX_NODES: nat := 0x7FFF_FFFF_FFFF_FFFF / 40
  const MAX_HEAP: nat := 0x7FFF_FFFF_FFFF_FFFF / 48

  datatype Node = Node(id: Id, previous: nat, next: nat, generation: nat, alive: bool)

  datatype Entry = Entry(rank: nat, left: nat, right: nat,
                         leftGeneration: nat, rightGeneration: nat, leftId: Id, rightId: Id)

  datatype Outcome = Done | SizeOverflow | InternalError

  // BpeHeapCompare: a strictly before b in pop order.
  predicate Before(a: Entry, b: Entry) {
    a.rank < b.rank
    || (a.rank == b.rank && a.left < b.left)
    || (a.rank == b.rank && a.left == b.left && a.right < b.right)
  }

  ghost predicate Increasing(live: seq<nat>) {
    forall i, j :: 0 <= i < j < |live| ==> live[i] < live[j]
  }

  // `live` lists the alive nodes in order; they form one doubly linked chain from node 0.
  ghost predicate Linked(nodes: seq<Node>, live: seq<nat>) {
    && |nodes| <= MAX_NODES
    && (nodes == [] <==> live == [])
    && (live != [] ==> live[0] == 0)
    && Increasing(live)
    && (forall i :: 0 <= i < |live| ==> live[i] < |nodes|)
    && (forall i :: 0 <= i < |live| ==> LinkedAt(nodes, live, i))
    && (forall x :: 0 <= x < |nodes| && nodes[x].alive ==> x in live)
  }

  ghost predicate LinkedAt(nodes: seq<Node>, live: seq<nat>, i: nat)
    requires i < |live| && live[i] < |nodes|
  {
    var n := nodes[live[i]];
    && n.alive
    && n.next == (if i + 1 < |live| then live[i + 1] else NO_INDEX)
    && n.previous == (if i > 0 then live[i - 1] else NO_INDEX)
    && n.generation + |live| <= |nodes|
  }

  ghost function Ids(nodes: seq<Node>, live: seq<nat>): (r: seq<Id>)
    requires forall i :: 0 <= i < |live| ==> live[i] < |nodes|
    ensures |r| == |live|
    ensures forall i :: 0 <= i < |live| ==> r[i] == nodes[live[i]].id
  {
    seq(|live|, i requires 0 <= i < |live| => nodes[live[i]].id)
  }

  // The chain as first built: every node alive, generation 0, linked to its neighbours.
  ghost predicate Pristine(nodes: seq<Node>) {
    && |nodes| <= MAX_NODES
    && forall i :: 0 <= i < |nodes| ==>
         && nodes[i].alive
         && nodes[i].generation == 0
         && nodes[i].next == (if i + 1 < |nodes| then i + 1 else NO_INDEX)
         && nodes[i].previous == (if i > 0 then i - 1 else NO_INDEX)
  }

  function AllIds(nodes: seq<Node>): (r: seq<Id>)
    ensures |r| == |nodes|
    ensures forall i :: 0 <= i < |nodes| ==> r[i] == nodes[i].id
  {
    seq(|nodes|, i requires 0 <= i < |nodes| => nodes[i].id)
  }

  // The result traversal: follow `next`, giving up on a broken link.
  function Walk(nodes: seq<Node>, index: nat, visited: nat): Option<seq<Id>>
    requires visited <= |nodes|
    decreases |nodes| - visited
  {
    if index == NO_INDEX then Some([])
    else if index >= |nodes| || !nodes[index].alive || visited >= |nodes| then None
    else
      var rest :- Walk(nodes, nodes[index].next, visited + 1);
      Some([nodes[index].id] + rest)
  }

  function Head(nodes: seq<Node>): nat {
    if nodes == [] then NO_INDEX else 0
  }

  lemma {:induction false} LiveBounds(nodes: seq<Node>, live: seq<nat>, i: nat)
    requires Linked(nodes, live)
    requires i < |live|
    ensures live[i] >= i
    ensures |live| <= |nodes|
  {
    if i > 0 { LiveBounds(nodes, live, i - 1); }
    if i + 1 < |live| { LastBound(live, |live| - 1); } else { LastBound(live, i); }
  }

  lemma {:induction false} LastBound(live: seq<nat>, i: nat)
    requires Increasing(live)
    requires i < |live|
    ensures live[i] >= i
  {
    if i > 0 { LastBound(live, i - 1); }
  }

  // Reading along `next` yields exactly the ids of the live nodes.
  lemma {:induction false} WalkReadsLive(nodes: seq<Node>, live: seq<nat>, i: nat)
    requires Linked(nodes, live)
    requires i < |live|
    ensures |live| <= |nodes|
    ensures Walk(nodes, live[i], i) == Some(Ids(nodes, live)[i..])
    decreases |live| - i
  {
    LiveBounds(nodes, live, i);
    assert LinkedAt(nodes, live, i);
    if i + 1 < |live| {
      WalkReadsLive(nodes, live, i + 1);
    }
    assert Ids(nodes, live)[i..] == [nodes[live[i]].id] + Ids(nodes, live)[i + 1..];
  }

  // ---------------------------------------------------------------- heap entries

  function EntryFor(t: Tables, nodes: seq<Node>, l: nat, r: nat): Entry
    requires l < |nodes| && r < |nodes|
    requires (nodes[l].id, nodes[r].id) in t.ranks
  {
    Entry(t.ranks[(nodes[l].id, nodes[r].id)], l, r,
          nodes[l].generation, nodes[r].generation, nodes[l].id, nodes[r].id)
  }

  // The staleness test of the merge loop.
  predicate Current(nodes: seq<Node>, e: Entry) {
    && e.left < |nodes| && e.right < |nodes|
    && nodes[e.left].alive && nodes[e.right].alive
    && nodes[e.left].next == e.right && nodes[e.right].previous == e.left
    && nodes[e.left].generation == e.leftGeneration
    && nodes[e.right].generation == e.rightGeneration
    && nodes[e.left].id == e.leftId && nodes[e.right].id == e.rightId
  }

  // Every entry, stale or not, carries the rank of the pair it names.
  ghost predicate HeapSound(t: Tables, heap: multiset<Entry>) {
    forall e :: e in heap ==>
      (e.leftId, e.rightId) in t.ranks && e.rank == t.ranks[(e.leftId, e.rightId)]
  }

  ghost predicate Queued(t: Tables, nodes: seq<Node>, live: seq<nat>, heap: multiset<Entry>, i: nat)
    requires forall i :: 0 <= i < |live| ==> live[i] < |nodes|
    requires i < |live|
  {
    && i + 1 < |live|
    && (nodes[live[i]].id, nodes[live[i + 1]].id) in t.ranks
    ==> EntryFor(t, nodes, live[i], live[i + 1]) in heap
  }

  // Every live adjacent mergeable pair is queued with its current generations.
  ghost predicate HeapComplete(t: Tables, nodes: seq<Node>, live: seq<nat>, heap: multiset<Entry>)
    requires forall i :: 0 <= i < |live| ==> live[i] < |nodes|
  {
    forall i :: 0 <= i < |live| ==> Queued(t, nodes, live, heap, i)
  }

  lemma {:induction false} MinimumOf(heap: multiset<Entry>) returns (w: Entry)
    requires heap != multiset{}
    ensures w in heap && forall f :: f in heap ==> !Before(f, w)
    decreases |heap|
  {
    var e :| e in heap;
    w := e;
    var rest := heap - multiset{e};
    if rest != multiset{} {
      var m := MinimumOf(rest);
      w := if Before(e, m) then e else m;
    }
    forall f | f in heap ensures !Before(f, w) {
      if f != e { assert f in rest; }
    }
  }

  // The entry the queue pops names a live pair exactly when it is current, and then that
  // pair is the one the reference algorithm merges next.
  lemma CurrentMinimumIsNext(t: Tables, nodes: seq<Node>, live: seq<nat>, heap: multiset<Entry>, e: Entry)
    returns (k: nat)
    requires ValidTables(t) && Linked(nodes, live)
    requires HeapSound(t, heap) && HeapComplete(t, nodes, live, heap)
    requires e in heap && Current(nodes, e)
    requires forall f :: f in heap ==> !Before(f, e)
    ensures k + 1 < |live| && live[k] == e.left && live[k + 1] == e.right
    ensures NextMerge(t, Ids(nodes, live), |live|) == Some(k)
  {
    k :| 0 <= k < |live| && live[k] == e.left;
    assert LinkedAt(nodes, live, k);
    var ids := Ids(nodes, live);
    assert Mergeable(t, ids, k);
    forall j: nat | j < |live| && Mergeable(t, ids, j)
      ensures Precedes(t, ids, k, j)
    {
      assert Queued(t, nodes, live, heap, j);
      var f := EntryFor(t, nodes, live[j], live[j + 1]);
      assert !Before(f, e);
      if j < k { assert live[j] < live[k]; }
    }
    var best := NextMerge(t, ids, |live|);
    assert Precedes(t, ids, best.value, k);
  }

  // An empty queue means no adjacent pair can be merged.
  lemma EmptyHeapMeansDone(t: Tables, nodes: seq<Node>, live: seq<nat>)
    requires t.ranks.Keys == t.results.Keys && Linked(nodes, live)
    requires HeapComplete(t, nodes, live, multiset{})
    ensures Naive(t, Ids(nodes, live)) == Ids(nodes, live)
  {
    var ids := Ids(nodes, live);
    forall j: nat | j < |live| ensures !Mergeable(t, ids, j) {
      assert Queued(t, nodes, live, multiset{}, j);
    }
  }

  // ---------------------------------------------------------------- one merge

  // What one merge of nodes l and r leaves at index x; `next` is r's successor.
  function MergedNode(nodes: seq<Node>, l: nat, r: nat, id: Id, x: nat): Node
    requires l < |nodes| && r < |nodes| && x < |nodes|
  {
    var n := nodes[x];
    if x == l then n.(id := id, next := nodes[r].next, generation := n.generation + 1)
    else if x == r then n.(alive := false, previous := NO_INDEX, next := NO_INDEX)
    else if x == nodes[r].next then n.(previous := l)
    else n
  }

  function MergedNodes(nodes: seq<Node>, l: nat, r: nat, id: Id): (n: seq<Node>)
    requires l < |nodes| && r < |nodes|
    ensures |n| == |nodes|
    ensures forall x :: 0 <= x < |n| ==> n[x] == MergedNode(nodes, l, r, id, x)
  {
    seq(|nodes|, x requires 0 <= x < |nodes| => MergedNode(nodes, l, r, id, x))
  }

  ghost function Drop(live: seq<nat>, k: nat): seq<nat>
    requires k < |live|
  {
    live[..k] + live[k + 1..]
  }

  lemma DropIndex(live: seq<nat>, k: nat, i: nat)
    requires k < |live| && i < |live| - 1
    ensures |Drop(live, k)| == |live| - 1
    ensures Drop(live, k)[i] == live[if i < k then i else i + 1]
  {
  }

  lemma DropNeighbours(live: seq<nat>, k: nat, i: nat)
    requires k < |live| && i < |live| - 1
    ensures |Drop(live, k)| == |live| - 1 && Drop(live, k)[i] == live[if i < k then i else i + 1]
    ensures i > 0 ==> Drop(live, k)[i - 1] == live[if i - 1 < k then i - 1 else i]
    ensures i + 1 < |live| - 1 ==> Drop(live, k)[i + 1] == live[if i + 1 < k then i + 1 else i + 2]
  {
    DropIndex(live, k, i);
    if i > 0 { DropIndex(live, k, i - 1); }
    if i + 1 < |live| - 1 { DropIndex(live, k, i + 1); }
  }

  // A node that is none of the three touched by the merge keeps its links.
  lemma MergeLinksElsewhere(nodes: seq<Node>, live: seq<nat>, k: nat, id: Id, i: nat)
    requires Increasing(live) && k + 1 < |live| && i < |live| - 1 && i != k && i != k + 1
    requires forall i :: 0 <= i < |live| ==> live[i] < |nodes|
    requires LinkedAt(nodes, live, k + 1) && LinkedAt(nodes, live, if i < k then i else i + 1) && |nodes| <= MAX_NODES
    ensures |Drop(live, k + 1)| == |live| - 1 && Drop(live, k + 1)[i] < |nodes|
    ensures LinkedAt(MergedNodes(nodes, live[k], live[k + 1], id), Drop(live, k + 1), i)
  {
    DropNeighbours(live, k + 1, i);
    var j := if i < k then i else i + 1;
    assert live[j] != live[k] && live[j] != live[k + 1] && (k + 2 < |live| ==> live[j] != live[k + 2]);
    hide Drop, Increasing;
    assert MergedNode(nodes, live[k], live[k + 1], id, live[j]) == nodes[live[j]];
  }

  lemma MergeLinksHere(nodes: seq<Node>, live: seq<nat>, k: nat, id: Id)
    requires Increasing(live) && k + 1 < |live| && forall i :: 0 <= i < |live| ==> live[i] < |nodes|
    requires LinkedAt(nodes, live, k) && LinkedAt(nodes, live, k + 1)
    ensures |Drop(live, k + 1)| == |live| - 1 && Drop(live, k + 1)[k] < |nodes|
    ensures LinkedAt(MergedNodes(nodes, live[k], live[k + 1], id), Drop(live, k + 1), k)
  {
    DropNeighbours(live, k + 1, k);
    hide Drop, Increasing;
    assert MergedNodes(nodes, live[k], live[k + 1], id)[live[k]] == MergedNode(nodes, live[k], live[k + 1], id, live[k]);
  }

  // The successor of the merged pair gets the merged node as its predecessor.
  lemma MergeLinksAfter(nodes: seq<Node>, live: seq<nat>, k: nat, id: Id)
    requires Increasing(live) && k + 2 < |live| && forall i :: 0 <= i < |live| ==> live[i] < |nodes|
    requires LinkedAt(nodes, live, k + 1) && LinkedAt(nodes, live, k + 2)
    ensures |Drop(live, k + 1)| == |live| - 1 && Drop(live, k + 1)[k + 1] < |nodes|
    ensures LinkedAt(MergedNodes(nodes, live[k], live[k + 1], id), Drop(live, k + 1), k + 1)
  {
    DropNeighbours(live, k + 1, k + 1);
    assert live[k] < live[k + 1] < live[k + 2];
    hide Drop, Increasing;
    assert MergedNodes(nodes, live[k], live[k + 1], id)[live[k + 2]] == MergedNode(nodes, live[k], live[k + 1], id, live[k + 2]);
  }

  lemma MergeLinksAt(nodes: seq<Node>, live: seq<nat>, k: nat, id: Id, i: nat)
    requires Increasing(live) && k + 1 < |live| && i < |live| - 1
    requires forall i :: 0 <= i < |live| ==> live[i] < |nodes|
    requires LinkedAt(nodes, live, k) && LinkedAt(nodes, live, k + 1)
    requires LinkedAt(nodes, live, if i <= k then i else i + 1)
    requires |nodes| <= MAX_NODES
    ensures |Drop(live, k + 1)| == |live| - 1 && Drop(live, k + 1)[i] < |nodes|
    ensures LinkedAt(MergedNodes(nodes, live[k], live[k + 1], id), Drop(live, k + 1), i)
  {
    hide Drop, Increasing, LinkedAt, MergedNodes;
    if i == k {
      MergeLinksHere(nodes, live, k, id);
    } else if i == k + 1 {
      MergeLinksAfter(nodes, live, k, id);
    } else {
      MergeLinksElsewhere(nodes, live, k, id, i);
    }
  }

  lemma DropSorted(live: seq<nat>, k: nat)
    requires k < |live|
    requires Increasing(live)
    ensures Increasing(Drop(live, k))
    ensures forall x :: x in live && x != live[k] ==> x in Drop(live, k)
  {
    forall x | x in live && x != live[k] ensures x in Drop(live, k) {
      var i :| 0 <= i < |live| && live[i] == x;
      assert x == Drop(live, k)[if i < k then i else i - 1];
    }
  }

  lemma MergeKeepsAlive(nodes: seq<Node>, live: seq<nat>, k: nat, id: Id, x: nat)
    requires Increasing(live) && k + 1 < |live|
    requires live[k] < |nodes| && live[k + 1] < |nodes| && x < |nodes|
    requires nodes[x].alive ==> x in live
    requires MergedNodes(nodes, live[k], live[k + 1], id)[x].alive
    ensures x in Drop(live, k + 1)
  {
    assert MergedNode(nodes, live[k], live[k + 1], id, x).alive;
    assert live[k] != live[k + 1];
    assert x in live && x != live[k + 1];
    DropSorted(live, k + 1);
  }

  lemma MergeLinksAll(nodes: seq<Node>, live: seq<nat>, k: nat, id: Id, n': seq<Node>, l': seq<nat>)
    requires Linked(nodes, live) && k + 1 < |live|
    requires n' == MergedNodes(nodes, live[k], live[k + 1], id) && l' == Drop(live, k + 1)
    ensures |l'| == |live| - 1
    ensures forall i :: 0 <= i < |l'| ==> l'[i] < |n'| && LinkedAt(n', l', i)
  {
    assert LinkedAt(nodes, live, k) && LinkedAt(nodes, live, k + 1);
    forall i | 0 <= i < |l'| ensures l'[i] < |n'| && LinkedAt(n', l', i) {
      MergeLinksAt(nodes, live, k, id, i);
    }
  }

  lemma MergeKeepsLinks(nodes: seq<Node>, live: seq<nat>, k: nat, id: Id)
    requires Linked(nodes, live) && k + 1 < |live|
    ensures Linked(MergedNodes(nodes, live[k], live[k + 1], id), Drop(live, k + 1))
  {
    var n', l' := MergedNodes(nodes, live[k], live[k + 1], id), Drop(live, k + 1);
    MergeLinksAll(nodes, live, k, id, n', l');
    DropIndex(live, k + 1, 0);
    DropSorted(live, k + 1);
    forall x | 0 <= x < |n'| && n'[x].alive ensures x in l' {
      MergeKeepsAlive(nodes, live, k, id, x);
    }
  }

  lemma MergeMatchesReference(t: Tables, nodes: seq<Node>, live: seq<nat>, k: nat)
    requires t.ranks.Keys == t.results.Keys
    requires Linked(nodes, live) && k + 1 < |live|
    requires Mergeable(t, Ids(nodes, live), k)
    ensures Linked(MergedNodes(nodes, live[k], live[k + 1],
                               t.results[(nodes[live[k]].id, nodes[live[k + 1]].id)]), Drop(live, k + 1))
    ensures Ids(MergedNodes(nodes, live[k], live[k + 1],
                            t.results[(nodes[live[k]].id, nodes[live[k + 1]].id)]), Drop(live, k + 1))
         == MergeAt(t, Ids(nodes, live), k)
  {
    var id := t.results[(nodes[live[k]].id, nodes[live[k + 1]].id)];
    MergeKeepsLinks(nodes, live, k, id);
    var n' := MergedNodes(nodes, live[k], live[k + 1], id);
    var l' := Drop(live, k + 1);
    var ids' := MergeAt(t, Ids(nodes, live), k);
    forall i | 0 <= i < |l'| ensures Ids(n', l')[i] == ids'[i] {
      assert l'[i] == (if i <= k then live[i] else live[i + 1]);
      if i < k { assert live[i] < live[k]; }
      if i > k { assert live[k + 1] < live[i + 1]; }
    }
  }

  // Pairs away from the merged node keep their queue entries.
  lemma MergeKeepsQueued(t: Tables, nodes: seq<Node>, live: seq<nat>, heap: multiset<Entry>, k: nat, id: Id, e: Entry, i: nat)
    requires Linked(nodes, live) && k + 1 < |live|
    requires HeapComplete(t, nodes, live, heap)
    requires e.left == live[k]
    requires i < |live| - 1 && i != k && i + 1 != k
    ensures Linked(MergedNodes(nodes, live[k], live[k + 1], id), Drop(live, k + 1))
    ensures |Drop(live, k + 1)| == |live| - 1
    ensures Queued(t, MergedNodes(nodes, live[k], live[k + 1], id), Drop(live, k + 1), heap - multiset{e}, i)
  {
    MergeKeepsLinks(nodes, live, k, id);
    DropNeighbours(live, k + 1, i);
    var i0 := if i < k then i else i + 1;
    assert Queued(t, nodes, live, heap, i0);
    if i0 + 1 < |live| {
      assert live[i0] != live[k] && live[i0] != live[k + 1] && live[i0 + 1] != live[k] && live[i0 + 1] != live[k + 1];
      hide Linked, HeapComplete, Drop;
      KeptQueued(t, nodes, live[k], live[k + 1], id, heap, e, live[i0], live[i0 + 1]);
    }
  }

  // An entry of two untouched nodes stays queued when the merged pair's entry is taken out.
  lemma KeptQueued(t: Tables, nodes: seq<Node>, l: nat, r: nat, id: Id, heap: multiset<Entry>, e: Entry, x: nat, y: nat)
    requires l < |nodes| && r < |nodes| && x < |nodes| && y < |nodes| && x != l && x != r && y != l && y != r && e.left == l
    requires (nodes[x].id, nodes[y].id) in t.ranks ==> EntryFor(t, nodes, x, y) in heap
    ensures var n' := MergedNodes(nodes, l, r, id);
      (n'[x].id, n'[y].id) in t.ranks ==> EntryFor(t, n', x, y) in heap - multiset{e}
  {
    var n' := MergedNodes(nodes, l, r, id);
    assert n'[x] == MergedNode(nodes, l, r, id, x) && n'[y] == MergedNode(nodes, l, r, id, y);
  }

  ghost predicate CompleteExcept(t: Tables, nodes: seq<Node>, live: seq<nat>, heap: multiset<Entry>, k: nat)
    requires forall i :: 0 <= i < |live| ==> live[i] < |nodes|
  {
    forall i :: 0 <= i < |live| && i != k && i + 1 != k ==> Queued(t, nodes, live, heap, i)
  }

  // After a merge at position k only the pairs touching k may be missing from the queue.
  lemma MergeKeepsHeap(t: Tables, nodes: seq<Node>, live: seq<nat>, heap: multiset<Entry>, k: nat, id: Id, e: Entry)
    requires Linked(nodes, live) && k + 1 < |live|
    requires HeapComplete(t, nodes, live, heap) && e.left == live[k]
    ensures Linked(MergedNodes(nodes, live[k], live[k + 1], id), Drop(live, k + 1))
    ensures CompleteExcept(t, MergedNodes(nodes, live[k], live[k + 1], id), Drop(live, k + 1), heap - multiset{e}, k)
  {
    MergeKeepsLinks(nodes, live, k, id);
    var n', l' := MergedNodes(nodes, live[k], live[k + 1], id), Drop(live, k + 1);
    forall i | 0 <= i < |l'| && i != k && i + 1 != k ensures Queued(t, n', l', heap - multiset{e}, i) {
      MergeKeepsQueued(t, nodes, live, heap, k, id, e, i);
    }
  }

  lemma PristineLinked(nodes: seq<Node>)
    requires Pristine(nodes)
    ensures Linked(nodes, seq(|nodes|, i => i))
    ensures Ids(nodes, seq(|nodes|, i => i)) == AllIds(nodes)
  {
    var live := seq(|nodes|, i => i);
    forall i | 0 <= i < |live| ensures LinkedAt(nodes, live, i) {
      assert live[i] == i;
    }
    forall x | 0 <= x < |nodes| ensures x in live { assert live[x] == x; }
  }

  // Queueing the pair that starts at `index` of the chain as first built.
  lemma QueuedUpTo(t: Tables, nodes: seq<Node>, live: seq<nat>, previous: multiset<Entry>, heap: multiset<Entry>, index: nat)
    requires Pristine(nodes) && index < |nodes| && live == seq(|nodes|, i => i) && HeapSound(t, previous)
    requires forall i :: 0 <= i < index ==> Queued(t, nodes, live, previous, i)
    requires var next := nodes[index].next;
      heap == if Queueable(t, nodes, index, next) then previous + multiset{EntryFor(t, nodes, index, next)} else previous
    ensures HeapSound(t, heap) && forall i :: 0 <= i <= index ==> Queued(t, nodes, live, heap, i)
  {
    forall i | 0 <= i <= index ensures Queued(t, nodes, live, heap, i) {
      if i < index { assert Queued(t, nodes, live, previous, i); }
    }
  }

  // Discarding an entry that fails the staleness test loses no live pair.
  lemma StaleIsNotNeeded(t: Tables, nodes: seq<Node>, live: seq<nat>, heap: multiset<Entry>, e: Entry)
    requires Linked(nodes, live)
    requires HeapComplete(t, nodes, live, heap) && !Current(nodes, e)
    ensures HeapComplete(t, nodes, live, heap - multiset{e})
  {
    forall i | 0 <= i < |live| ensures Queued(t, nodes, live, heap - multiset{e}, i) {
      assert Queued(t, nodes, live, heap, i);
      assert LinkedAt(nodes, live, i);
      if i + 1 < |live| { assert LinkedAt(nodes, live, i + 1); }
    }
  }

  // The entry that queueing the pair (l, r) adds, if any.
  ghost predicate Queueable(t: Tables, nodes: seq<Node>, l: nat, r: nat) {
    && l < |nodes| && r < |nodes|
    && nodes[l].alive && nodes[r].alive && nodes[l].next == r && nodes[r].previous == l
    && (nodes[l].id, nodes[r].id) in t.ranks
  }

  // The merge-loop invariant: merging on from here reaches `goal`.
  ghost predicate MergeInvariant(t: Tables, nodes: seq<Node>, live: seq<nat>, heap: multiset<Entry>, pushes: nat, goal: seq<Id>) {
    && ValidTables(t) && Linked(nodes, live)
    && HeapSound(t, heap) && HeapComplete(t, nodes, live, heap)
    && pushes + 2 * |live| <= 3 * |nodes|
    && Naive(t, Ids(nodes, live)) == goal
  }

  class SymbolList {
    var nodes: seq<Node>

    constructor ()
      ensures nodes == []
    {
      nodes := [];
    }

    // append_bpe_node; false stands for the symbol-count overflow.
    method Append(id: Id) returns (ok: bool)
      requires Pristine(nodes)
      modifies this
      ensures ok <==> |old(nodes)| < MAX_NODES
      ensures Pristine(nodes)
      ensures AllIds(nodes) == if ok then AllIds(old(nodes)) + [id] else AllIds(old(nodes))
    {
      if |nodes| >= MAX_NODES {
        return false;
      }
      var index := |nodes|;
      nodes := nodes + [Node(id, if index == 0 then NO_INDEX else index - 1, NO_INDEX, 0, true)];
      if index != 0 {
        nodes := nodes[index - 1 := nodes[index - 1].(next := index)];
      }
      ok := true;
    }

    // queue_pair, with the captured heap and push counter passed in and out.
    method QueuePair(t: Tables, heap: multiset<Entry>, pushes: nat, limit: nat, l: nat, r: nat)
      returns (outcome: Outcome, heap': multiset<Entry>, pushes': nat)
      requires t.ranks.Keys == t.results.Keys
      requires |nodes| <= MAX_NODES
      ensures outcome != SizeOverflow
      ensures outcome.InternalError? <==>
        || (l != NO_INDEX && r != NO_INDEX && (l >= |nodes| || r >= |nodes|))
        || (Queueable(t, nodes, l, r) && pushes >= limit)
      ensures outcome.Done? && Queueable(t, nodes, l, r) ==>
        heap' == heap + multiset{EntryFor(t, nodes, l, r)} && pushes' == pushes + 1
      ensures outcome.InternalError? || !Queueable(t, nodes, l, r) ==> heap' == heap && pushes' == pushes
    {
      outcome, heap', pushes' := Done, heap, pushes;
      if l == NO_INDEX || r == NO_INDEX {
        return;
      }
      if l >= |nodes| || r >= |nodes| {
        outcome := InternalError;
        return;
      }
      var left, right := nodes[l], nodes[r];
      if !left.alive || !right.alive || left.next != r || right.previous != l {
        return;
      }
      var pair := (left.id, right.id);
      if pair !in t.ranks {
        return;
      }
      if pair !in t.results || pushes >= limit {
        outcome := InternalError;
        return;
      }
      pushes' := pushes + 1;
      heap' := heap + multiset{Entry(t.ranks[pair], l, r, left.generation, right.generation, left.id, right.id)};
    }

    // The node updates of one merge; false stands for the invalid-successor error.
    method MergeNodes(l: nat, r: nat, id: Id) returns (ok: bool)
      requires l < |nodes| && r < |nodes| && l != r
      requires nodes[r].next != l && nodes[r].next != r && |nodes| <= MAX_NODES
      modifies this
      ensures ok <==> old(nodes)[r].next == NO_INDEX || old(nodes)[r].next < |old(nodes)|
      ensures ok ==> nodes == MergedNodes(old(nodes), l, r, id)
    {
      var next := nodes[r].next;
      nodes := nodes[l := nodes[l].(id := id, next := next, generation := nodes[l].generation + 1)];
      nodes := nodes[r := nodes[r].(alive := false, previous := NO_INDEX, next := NO_INDEX)];
      if next != NO_INDEX {
        if next >= |nodes| {
          return false;
        }
        nodes := nodes[next := nodes[next].(previous := l)];
      }
      ok := true;
    }

    // The two queue_pair calls after a merge complete the queue again.
    method RequeueAround(t: Tables, heap: multiset<Entry>, pushes: nat, limit: nat, ghost live: seq<nat>, ghost k: nat,
                         previous: nat, l: nat, next: nat)
      returns (outcome: Outcome, heap': multiset<Entry>, pushes': nat)
      requires ValidTables(t) && Linked(nodes, live) && k < |live|
      requires l == live[k] && previous == nodes[l].previous && next == nodes[l].next
      requires HeapSound(t, heap) && CompleteExcept(t, nodes, live, heap, k)
      requires pushes + 2 <= limit
      ensures outcome == Done
      ensures HeapSound(t, heap') && HeapComplete(t, nodes, live, heap')
      ensures pushes' <= pushes + 2
    {
      assert LinkedAt(nodes, live, k);
      outcome, heap', pushes' := QueuePair(t, heap, pushes, limit, previous, l);
      assert k > 0 ==> LinkedAt(nodes, live, k - 1) && Queued(t, nodes, live, heap', k - 1);
      if outcome.InternalError? { return; }
      ghost var between := heap';
      outcome, heap', pushes' := QueuePair(t, heap', pushes', limit, l, next);
      assert k + 1 < |live| ==> LinkedAt(nodes, live, k + 1);
      assert Queued(t, nodes, live, heap', k);
      forall i | 0 <= i < |live| ensures Queued(t, nodes, live, heap', i) {
        if i != k {
          assert Queued(t, nodes, live, between, i) by {
            assert i + 1 != k ==> Queued(t, nodes, live, heap, i);
          }
        }
      }
    }

    // The part of the merge loop that follows a successful staleness test.
    method MergeEntry(t: Tables, ghost before: multiset<Entry>, heap: multiset<Entry>, pushes: nat, limit: nat,
                      entry: Entry, ghost live: seq<nat>, ghost k: nat)
      returns (outcome: Outcome, heap': multiset<Entry>, pushes': nat)
      requires ValidTables(t) && Linked(nodes, live) && Current(nodes, entry)
      requires HeapSound(t, before) && HeapComplete(t, nodes, live, before)
      requires entry in before && heap == before - multiset{entry}
      requires k + 1 < |live| && live[k] == entry.left && live[k + 1] == entry.right
      requires limit == 3 * |nodes| && pushes + 2 * |live| <= limit
      modifies this
      ensures outcome == Done
      ensures |nodes| == |old(nodes)|
      ensures Linked(nodes, Drop(live, k + 1))
      ensures Mergeable(t, Ids(old(nodes), live), k)
      ensures Ids(nodes, Drop(live, k + 1)) == MergeAt(t, Ids(old(nodes), live), k)
      ensures HeapSound(t, heap') && HeapComplete(t, nodes, Drop(live, k + 1), heap')
      ensures pushes' <= pushes + 2
    {
      heap', pushes' := heap, pushes;
      assert (entry.leftId, entry.rightId) in t.ranks;
      assert LinkedAt(nodes, live, k) && LinkedAt(nodes, live, k + 1);
      var pair := (nodes[entry.left].id, nodes[entry.right].id);
      if pair !in t.results || nodes[entry.left].generation == SIZE_MAX {
        outcome := InternalError;
        return;
      }
      var next, previous := nodes[entry.right].next, nodes[entry.left].previous;
      MergeMatchesReference(t, nodes, live, k);
      MergeKeepsHeap(t, nodes, live, before, k, t.results[pair], entry);
      var ok := MergeNodes(entry.left, entry.right, t.results[pair]);
      if !ok {
        outcome := InternalError;
        return;
      }
      outcome, heap', pushes' := RequeueAround(t, heap', pushes', limit, Drop(live, k + 1), k, previous, entry.left, next);
    }

    // Queue every initially adjacent pair.
    method QueueAll(t: Tables, limit: nat) returns (outcome: Outcome, heap: multiset<Entry>, pushes: nat, ghost live: seq<nat>)
      requires ValidTables(t) && Pristine(nodes) && |nodes| <= limit
      ensures outcome == Done
      ensures Linked(nodes, live) && |live| == |nodes| && Ids(nodes, live) == AllIds(nodes)
      ensures HeapSound(t, heap) && HeapComplete(t, nodes, live, heap)
      ensures pushes <= |nodes|
    {
      outcome, heap, pushes, live := Done, multiset{}, 0, seq(|nodes|, i => i);
      PristineLinked(nodes);
      for index := 0 to |nodes|
        invariant pushes <= index && HeapSound(t, heap) && outcome == Done
        invariant forall i :: 0 <= i < index ==> Queued(t, nodes, live, heap, i)
      {
        ghost var previous := heap;
        outcome, heap, pushes := QueuePair(t, heap, pushes, limit, index, nodes[index].next);
        QueuedUpTo(t, nodes, live, previous, heap, index);
      }
    }

    // One iteration: pop the minimum, drop it when stale, otherwise merge and requeue.
    method PopAndMerge(t: Tables, queue: multiset<Entry>, queued: nat, limit: nat, ghost live: seq<nat>, ghost goal: seq<Id>)
      returns (outcome: Outcome, heap: multiset<Entry>, pushes: nat, ghost live': seq<nat>)
      requires queue != multiset{} && MergeInvariant(t, nodes, live, queue, queued, goal)
      requires limit == 3 * |nodes|
      modifies this
      ensures outcome == Done
      ensures |nodes| == |old(nodes)| && MergeInvariant(t, nodes, live', heap, pushes, goal)
      ensures |live'| < |live| || (|live'| == |live| && |heap| < |queue|)
    {
      ghost var w := MinimumOf(queue);
      var entry :| entry in queue && forall f :: f in queue ==> !Before(f, entry);
      outcome, heap, pushes, live' := Done, queue - multiset{entry}, queued, live;
      if !Current(nodes, entry) {
        StaleIsNotNeeded(t, nodes, live, queue, entry);
        return;
      }
      ghost var k := CurrentMinimumIsNext(t, nodes, live, queue, entry);
      LiveBounds(nodes, live, k);
      outcome, heap, pushes := MergeEntry(t, queue, heap, pushes, limit, entry, live, k);
      live' := Drop(live, k + 1);
    }

    method DrainQueue(t: Tables, queue: multiset<Entry>, queued: nat, limit: nat, ghost start: seq<nat>, ghost goal: seq<Id>)
      returns (outcome: Outcome)
      requires MergeInvariant(t, nodes, start, queue, queued, goal)
      requires limit == 3 * |nodes|
      modifies this
      ensures outcome == Done
      ensures |nodes| == |old(nodes)|
      ensures Walk(nodes, Head(nodes), 0) == Some(goal)
    {
      var heap, pushes := queue, queued;
      ghost var live := start;
      outcome := Done;
      while heap != multiset{} && outcome.Done?
        invariant outcome == Done && |nodes| == |old(nodes)|
        invariant MergeInvariant(t, nodes, live, heap, pushes, goal)
        decreases |live|, |heap|
      {
        outcome, heap, pushes, live := PopAndMerge(t, heap, pushes, limit, live, goal);
      }
      EmptyHeapMeansDone(t, nodes, live);
      if nodes != [] { WalkReadsLive(nodes, live, 0); }
      assert Ids(nodes, live)[0..] == Ids(nodes, live);
    }

    // apply_encode_bpe: the surviving ids, read along `next`, are those of the reference algorithm.
    method ApplyMerges(t: Tables) returns (outcome: Outcome)
      requires ValidTables(t) && Pristine(nodes)
      modifies this
      ensures outcome == if 3 * |old(nodes)| > MAX_HEAP then SizeOverflow else Done
      ensures outcome.SizeOverflow? ==> nodes == old(nodes)
      ensures outcome.Done? ==> Walk(nodes, Head(nodes), 0) == Some(Naive(t, AllIds(old(nodes))))
      ensures |nodes| == |old(nodes)|
    {
      if nodes == [] {
        return Done;
      }
      if 3 * |nodes| > MAX_HEAP {
        return SizeOverflow;
      }
      var result, heap, pushes, live := QueueAll(t, 3 * |nodes|);
      outcome := DrainQueue(t, heap, pushes, 3 * |nodes|, live, Naive(t, AllIds(nodes)));
    }
  }
}
