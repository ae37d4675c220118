/** Off-chain reconciliation (packages/reconciliation, and fork detection in packages/offline-ledger):
    fork points, inherited conflicts, and the mirror of the on-chain pro-rata allocation. */
module Reconciliation {
  import opened Collections
  import opened ProRata
  import opened States
  import opened OfflineLedger
  import Protocol

  // ----- Fork points -----

  /** The branches name each child with the credential hash of its edge. */
  datatype ForkPoint = ForkPoint(parent: StateHash, sequence: nat, branches: map<StateHash, nat>)

  /** Edges as the graph gives them: the state each leads to commits to its parent and sequence. */
  predicate Committed(edges: seq<StateEdge>)
  {
    forall i :: 0 <= i < |edges| ==>
      edges[i].child.Payment? && edges[i].parent == edges[i].child.prev && edges[i].sequence == edges[i].child.sequence
  }

  function ChildStates(edges: seq<StateEdge>): set<StateHash> { set i | 0 <= i < |edges| :: edges[i].child }

  lemma ChildStatesAfter(edges: seq<StateEdge>, n: nat)
    requires n < |edges|
    ensures ChildStates(edges[..n + 1]) == ChildStates(edges[..n]) + {edges[n].child}
  {
    var more := edges[..n + 1];
    forall e ensures e in ChildStates(more) <==> e in ChildStates(edges[..n]) || e == edges[n].child {
      if e in ChildStates(edges[..n]) {
        var i :| 0 <= i < n && edges[..n][i].child == e;
        assert more[i].child == e;
      }
      if e == edges[n].child { assert more[n].child == e; }
      if e in ChildStates(more) {
        var i :| 0 <= i < n + 1 && more[i].child == e;
        assert i < n ==> edges[..n][i].child == e;
      }
    }
  }

  /** The credential hash of the last edge to a state. */
  function WrapperOf(edges: seq<StateEdge>, e: StateHash): nat
    requires e in ChildStates(edges)
  {
    var n := |edges| - 1;
    if edges[n].child == e then edges[n].credentialHash
    else
      ChildStatesAfter(edges, n);
      assert edges[..n + 1] == edges;
      WrapperOf(edges[..n], e)
  }

  lemma {:induction false} WrapperAt(edges: seq<StateEdge>, e: StateHash) returns (i: nat)
    requires e in ChildStates(edges)
    ensures i < |edges| && edges[i].child == e && edges[i].credentialHash == WrapperOf(edges, e)
    decreases |edges|
  {
    i := |edges| - 1;
    if edges[i].child != e {
      ChildStatesAfter(edges, i);
      assert edges[..i + 1] == edges;
      i := WrapperAt(edges[..i], e);
    }
  }

  function Branches(edges: seq<StateEdge>, parent: StateHash, sequence: nat): map<StateHash, nat>
  {
    map e | e in ChildStates(edges) && e in Children(ChildStates(edges), parent, sequence) :: WrapperOf(edges, e)
  }

  lemma BranchCount(edges: seq<StateEdge>, parent: StateHash, sequence: nat)
    ensures Branches(edges, parent, sequence).Keys == Children(ChildStates(edges), parent, sequence)
    ensures |Branches(edges, parent, sequence)| == |Children(ChildStates(edges), parent, sequence)|
  {
    var b := Branches(edges, parent, sequence);
    assert b.Keys == Children(ChildStates(edges), parent, sequence);
    assert |b| == |b.Keys|;
  }

  /** detectForksFromVerifiedEdges: edges are grouped by parent and sequence, and a group with two
      distinct children is a fork point naming all of them and their credentials. */
  method DetectForks(edges: seq<StateEdge>) returns (forks: set<ForkPoint>)
    requires Committed(edges)
    ensures ForkPoints(edges, forks)
  {
    var groups: map<Protocol.ForkSeed, map<StateHash, nat>> := map[];
    var i := 0;
    hide Branches;
    NoBranches();
    while i < |edges|
      invariant 0 <= i <= |edges|
      invariant forall k :: k in groups ==> groups[k] == Branches(edges[..i], k.parent, k.sequence)
      invariant forall p, q :: Protocol.ForkSeed(p, q) !in groups ==> Branches(edges[..i], p, q) == map[]
    {
      var e := edges[i];
      var key := Protocol.ForkSeed(e.parent, e.sequence);
      var group := if key in groups then groups[key] else map[];
      GroupGrows(edges, i);
      groups := groups[key := group[e.child := e.credentialHash]];
      i := i + 1;
    }
    assert edges[..i] == edges;
    forks := set k | k in groups && 2 <= |groups[k]| :: ForkPoint(k.parent, k.sequence, groups[k]);
    forall f ensures f in forks <==> 2 <= |f.branches| && f.branches == Branches(edges, f.parent, f.sequence) {
      var k := Protocol.ForkSeed(f.parent, f.sequence);
      if 2 <= |f.branches| && f.branches == Branches(edges, f.parent, f.sequence) {
        assert k in groups;
      }
    }
  }

  lemma NoBranches()
    ensures forall p, q :: Branches([], p, q) == map[]
  {
  }

  lemma GroupGrows(edges: seq<StateEdge>, i: nat)
    requires i < |edges| && Committed(edges)
    ensures forall p, q ::
      Branches(edges[..i + 1], p, q)
      == if p == edges[i].parent && q == edges[i].sequence
         then Branches(edges[..i], p, q)[edges[i].child := edges[i].credentialHash] else Branches(edges[..i], p, q)
  {
    forall p, q
      ensures Branches(edges[..i + 1], p, q)
           == if p == edges[i].parent && q == edges[i].sequence
              then Branches(edges[..i], p, q)[edges[i].child := edges[i].credentialHash] else Branches(edges[..i], p, q)
    {
      BranchesGrow(edges, i, p, q);
    }
  }

  lemma BranchesGrow(edges: seq<StateEdge>, i: nat, p: StateHash, q: nat)
    requires i < |edges| && Committed(edges)
    ensures Branches(edges[..i + 1], p, q)
         == if p == edges[i].parent && q == edges[i].sequence
            then Branches(edges[..i], p, q)[edges[i].child := edges[i].credentialHash] else Branches(edges[..i], p, q)
  {
    ChildStatesAfter(edges, i);
    var more := edges[..i + 1];
    assert more[..i] == edges[..i];
    forall e | e in ChildStates(more)
      ensures WrapperOf(more, e) == if e == edges[i].child then edges[i].credentialHash else WrapperOf(edges[..i], e)
    {
    }
    hide WrapperOf, ChildStates;
  }

  // ----- Conflicts -----

  /** Every parent that is itself a payment is among the edges. */
  predicate ParentsPresent(edges: seq<StateEdge>)
  {
    forall e :: e in ChildStates(edges) && e.Payment? && e.prev !in ChildStates(edges) ==> !e.prev.Payment?
  }

  ghost predicate ForkPoints(edges: seq<StateEdge>, forks: set<ForkPoint>)
  {
    forall f :: f in forks <==> 2 <= |f.branches| && f.branches == Branches(edges, f.parent, f.sequence)
  }

  ghost predicate AllTainted(states: set<StateHash>, conflicting: set<StateHash>)
  {
    conflicting <= states && forall e :: e in conflicting ==> Tainted(states, e)
  }

  predicate HoldsForked(states: set<StateHash>, conflicting: set<StateHash>)
  {
    forall e :: e in states && e.Payment? && 2 <= |Children(states, e.prev, e.sequence)| ==> e in conflicting
  }

  predicate ClosedUpTo(edges: seq<StateEdge>, conflicting: set<StateHash>, n: nat)
    requires n <= |edges|
  {
    forall i :: 0 <= i < n && edges[i].parent in conflicting ==> edges[i].child in conflicting
  }

  /** conflictingChildHashes: a fixed point over the edges in whatever order they come. It ends with
      exactly the edges that have a sibling or descend from one that has. */
  method ConflictingChildHashes(edges: seq<StateEdge>, forks: set<ForkPoint>) returns (conflicting: set<StateHash>)
    requires Committed(edges) && ParentsPresent(edges) && ForkPoints(edges, forks)
    ensures forall e :: e in conflicting <==> e in ChildStates(edges) && Tainted(ChildStates(edges), e)
  {
    ghost var states := ChildStates(edges);
    conflicting := set f, e | f in forks && e in f.branches :: e;
    ForkChildren(edges, forks, conflicting);
    hide Tainted, Children, ChildStates, Branches, ForkPoints;
    var changed := true;
    while changed
      invariant AllTainted(states, conflicting) && HoldsForked(states, conflicting)
      invariant !changed ==> ClosedUpTo(edges, conflicting, |edges|)
      decreases |states - conflicting|, changed
    {
      ghost var before := conflicting;
      conflicting, changed := Spread(edges, conflicting);
      if changed { ProperSubset(states, before, conflicting); }
    }
    forall e | e in states && Tainted(states, e) ensures e in conflicting { FixedPoint(edges, conflicting, e); }
  }

  /** One sweep over the edges. */
  method Spread(edges: seq<StateEdge>, conflicting: set<StateHash>) returns (more: set<StateHash>, changed: bool)
    requires Committed(edges) && AllTainted(ChildStates(edges), conflicting)
    ensures AllTainted(ChildStates(edges), more) && conflicting <= more
    ensures changed <==> more != conflicting
    ensures !changed ==> ClosedUpTo(edges, more, |edges|)
  {
    more, changed := conflicting, false;
    var i := 0;
    while i < |edges|
      invariant 0 <= i <= |edges| && AllTainted(ChildStates(edges), more) && conflicting <= more
      invariant changed <==> more != conflicting
      invariant !changed ==> ClosedUpTo(edges, more, i)
    {
      var edge := edges[i];
      if edge.child !in more && edge.parent in more {
        assert edge.child in ChildStates(edges);
        assert edge.child.prev in more;
        more := more + {edge.child};
        changed := true;
      }
      i := i + 1;
    }
  }

  lemma ProperSubset(states: set<StateHash>, before: set<StateHash>, after: set<StateHash>)
    requires before <= after <= states && before != after
    ensures |states - after| < |states - before|
  {
    var x :| x in after && x !in before;
    assert states - after <= states - before - {x};
    SubsetSize(states - after, states - before - {x});
  }

  lemma ForkChildren(edges: seq<StateEdge>, forks: set<ForkPoint>, conflicting: set<StateHash>)
    requires ForkPoints(edges, forks)
    requires conflicting == set f, e | f in forks && e in f.branches :: e
    ensures AllTainted(ChildStates(edges), conflicting) && HoldsForked(ChildStates(edges), conflicting)
  {
    var states := ChildStates(edges);
    forall e | e in conflicting ensures e in states && e.Payment? && 2 <= |Children(states, e.prev, e.sequence)| {
      var f :| f in forks && e in f.branches;
      BranchCount(edges, f.parent, f.sequence);
      assert e in Children(states, f.parent, f.sequence);
    }
    forall e | e in states && e.Payment? && 2 <= |Children(states, e.prev, e.sequence)| ensures e in conflicting {
      var f := ForkPoint(e.prev, e.sequence, Branches(edges, e.prev, e.sequence));
      BranchCount(edges, e.prev, e.sequence);
      assert f in forks && e in f.branches;
    }
  }

  /** A set closed under children that holds every forked edge holds every tainted one. */
  lemma {:induction false} FixedPoint(edges: seq<StateEdge>, conflicting: set<StateHash>, e: StateHash)
    requires Committed(edges) && ParentsPresent(edges)
    requires HoldsForked(ChildStates(edges), conflicting) && ClosedUpTo(edges, conflicting, |edges|)
    requires e in ChildStates(edges) && Tainted(ChildStates(edges), e)
    ensures e in conflicting
    decreases e
  {
    var states := ChildStates(edges);
    if |Children(states, e.prev, e.sequence)| < 2 {
      assert Tainted(states, e.prev);
      FixedPoint(edges, conflicting, e.prev);
      var i :| 0 <= i < |edges| && edges[i].child == e;
    }
  }
}
