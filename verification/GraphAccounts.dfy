/** Every received credential is accounted for exactly once in the state graph: as an edge, as a
    duplicate of an edge, or as a rejection with the reason validation gives. */
module GraphAccounts {
  import opened Collections
  import opened States
  import opened Protocol
  import opened Credentials
  import opened OfflineLedger
  import opened StateGraphs

  ghost predicate RefusedAs(ctx: TrustContext, cert: Certificate, done: set<Credential>, h: nat, code: ErrorCode)
  {
    exists c :: c in done && c.hash == h && Verdict(ctx, cert, c) == Refused(code)
  }

  ghost predicate RepeatsEdge(ctx: TrustContext, cert: Certificate, done: set<Credential>, g: Build, h: nat, k: nat)
    requires NodesOk(cert, g)
  {
    exists c :: c in done && c.hash == h && h != k && Sound(ctx, cert, c) && c.newState in g.nodes
                && c.newState != RootOf(cert) && AcceptedHash(cert, g, c.newState) == k
  }

  ghost predicate InvalidOk(ctx: TrustContext, cert: Certificate, done: set<Credential>, g: Build)
  {
    forall h, code :: g.invalid[Invalid(h, code)] == if RefusedAs(ctx, cert, done, h, code) then 1 else 0
  }

  ghost predicate DuplicatesOk(ctx: TrustContext, cert: Certificate, done: set<Credential>, g: Build)
    requires NodesOk(cert, g)
  {
    forall h, k :: g.duplicates[Duplicate(h, k, DuplicateStateEdge)]
                == if RepeatsEdge(ctx, cert, done, g, h, k) then 1 else 0
  }

  /** The edge list holds each accepted edge once, and each is some credential's. */
  ghost predicate EdgesOk(ctx: TrustContext, cert: Certificate, done: set<Credential>, g: Build)
  {
    && EdgeListOk(g.accepted, g.edges)
    && (forall id :: id in g.accepted ==> exists c :: c in done && Sound(ctx, cert, c) && g.accepted[id] == EdgeOf(c))
  }

  ghost predicate EdgeListOk(accepted: map<Identity, StateEdge>, edges: seq<StateEdge>)
  {
    && (forall id :: id in accepted ==> accepted[id] in edges)
    && (forall i :: 0 <= i < |edges| ==> exists id :: id in accepted && accepted[id] == edges[i])
    && (forall i, j :: 0 <= i < j < |edges| ==> edges[i].child != edges[j].child)
  }

  ghost predicate Accounted(ctx: TrustContext, cert: Certificate, done: set<Credential>, g: Build)
  {
    && NodesOk(cert, g) && InvalidOk(ctx, cert, done, g) && DuplicatesOk(ctx, cert, done, g) && EdgesOk(ctx, cert, done, g)
    && Considered(ctx, cert, done, g) && KnownParents(cert, g)
  }

  ghost predicate Considered(ctx: TrustContext, cert: Certificate, done: set<Credential>, g: Build)
  {
    forall c :: c in done ==> c.previousState in g.nodes && (Sound(ctx, cert, c) ==> c.newState in g.nodes)
  }

  lemma ConsideredGrows(ctx: TrustContext, cert: Certificate, done: set<Credential>, g: Build, g': Build, c: Credential)
    requires Considered(ctx, cert, done, g) && g.nodes.Keys <= g'.nodes.Keys
    requires c.previousState in g'.nodes && (Sound(ctx, cert, c) ==> c.newState in g'.nodes)
    ensures Considered(ctx, cert, done + {c}, g')
  {
    hide Sound;
  }

  lemma ParentsKept(cert: Certificate, g: Build, g': Build)
    requires KnownParents(cert, g) && g'.nodes == g.nodes
    ensures KnownParents(cert, g')
  {
  }

  lemma ParentsGrow(cert: Certificate, g: Build, g': Build, e: StateHash)
    requires KnownParents(cert, g) && g'.nodes.Keys == g.nodes.Keys + {e} && (e.Payment? ==> e.prev in g.nodes)
    ensures KnownParents(cert, g')
  {
    hide RootOf;
  }

  ghost predicate KnownParents(cert: Certificate, g: Build)
  {
    forall e :: e in g.nodes && e != RootOf(cert) && e.Payment? ==> e.prev in g.nodes
  }

  ghost predicate FreshHash(done: set<Credential>, c: Credential) { forall d :: d in done ==> d.hash != c.hash }

  lemma RefusedGrows(ctx: TrustContext, cert: Certificate, done: set<Credential>, c: Credential, h: nat, code: ErrorCode)
    ensures RefusedAs(ctx, cert, done + {c}, h, code)
       <==> RefusedAs(ctx, cert, done, h, code) || (h == c.hash && Verdict(ctx, cert, c) == Refused(code))
  {
    hide Verdict;
    assert c in done + {c};
    if d :| d in done && d.hash == h && Verdict(ctx, cert, d) == Refused(code) { assert d in done + {c}; }
  }

  lemma InvalidGrows(ctx: TrustContext, cert: Certificate, done: set<Credential>, g: Build, g': Build, c: Credential)
    requires InvalidOk(ctx, cert, done, g) && FreshHash(done, c)
    requires g'.invalid == g.invalid + (if Sound(ctx, cert, c) then multiset{} else multiset{Invalid(c.hash, Verdict(ctx, cert, c).code)})
    ensures InvalidOk(ctx, cert, done + {c}, g')
  {
    forall h, code ensures g'.invalid[Invalid(h, code)] == if RefusedAs(ctx, cert, done + {c}, h, code) then 1 else 0 {
      RefusedGrows(ctx, cert, done, c, h, code);
      hide Verdict;
    }
  }

  lemma RepeatsGrows(ctx: TrustContext, cert: Certificate, done: set<Credential>, g: Build, g': Build, c: Credential, h: nat, k: nat)
    requires NodesOk(cert, g) && NodesOk(cert, g') && g.nodes.Keys <= g'.nodes.Keys
    requires forall e :: e in g.nodes && e != RootOf(cert) ==> AcceptedHash(cert, g', e) == AcceptedHash(cert, g, e)
    requires Considered(ctx, cert, done, g)
    ensures RepeatsEdge(ctx, cert, done + {c}, g', h, k)
       <==> RepeatsEdge(ctx, cert, done, g, h, k) || RepeatsEdge(ctx, cert, {c}, g', h, k)
  {
    assert forall e :: e in g.nodes && e != RootOf(cert) ==> e.Payment? && IdOf(e) in g.accepted;
    assert forall e :: e in g'.nodes && e != RootOf(cert) ==> e.Payment? && IdOf(e) in g'.accepted;
    hide Sound, NodesOk, AcceptedHash, RootOf;
    if RepeatsEdge(ctx, cert, done + {c}, g', h, k) {
      var d :| d in done + {c} && d.hash == h && h != k && Sound(ctx, cert, d) && d.newState in g'.nodes
               && d.newState != RootOf(cert) && AcceptedHash(cert, g', d.newState) == k;
      if d != c { assert d in done; } else { assert d in {c}; }
    }
    if RepeatsEdge(ctx, cert, done, g, h, k) {
      var d :| d in done && d.hash == h && h != k && Sound(ctx, cert, d) && d.newState in g.nodes
               && d.newState != RootOf(cert) && AcceptedHash(cert, g, d.newState) == k;
      assert d in done + {c};
    }
    if RepeatsEdge(ctx, cert, {c}, g', h, k) { assert c in done + {c}; }
  }

  lemma DuplicatesGrow(ctx: TrustContext, cert: Certificate, done: set<Credential>, g: Build, g': Build, c: Credential)
    requires NodesOk(cert, g) && NodesOk(cert, g') && g.nodes.Keys <= g'.nodes.Keys && DuplicatesOk(ctx, cert, done, g)
    requires forall e :: e in g.nodes && e != RootOf(cert) ==> AcceptedHash(cert, g', e) == AcceptedHash(cert, g, e)
    requires Considered(ctx, cert, done, g)
    requires FreshHash(done, c) && (Sound(ctx, cert, c) ==> c.newState in g'.nodes && c.newState != RootOf(cert))
    requires g'.duplicates == g.duplicates
      + (if Sound(ctx, cert, c) && AcceptedHash(cert, g', c.newState) != c.hash
         then multiset{Duplicate(c.hash, AcceptedHash(cert, g', c.newState), DuplicateStateEdge)} else multiset{})
    ensures DuplicatesOk(ctx, cert, done + {c}, g')
  {
    hide Sound, NodesOk, AcceptedHash, RootOf;
    forall h, k ensures g'.duplicates[Duplicate(h, k, DuplicateStateEdge)]
                     == if RepeatsEdge(ctx, cert, done + {c}, g', h, k) then 1 else 0
    {
      RepeatsGrows(ctx, cert, done, g, g', c, h, k);
      assert c in {c};
    }
  }

  lemma AddCredential(ctx: TrustContext, cert: Certificate, done: set<Credential>, g: Build, c: Credential)
    requires Accounted(ctx, cert, done, g) && FreshHash(done, c) && c.previousState in g.nodes
    ensures Accounted(ctx, cert, done + {c}, Consider(ctx, cert, g, c))
  {
    assert NodesOk(cert, g);
    ConsiderIs(ctx, cert, g, c);
    hide Accounted, NodesOk, Sound, Verdict, Consider, Grown;
    if Sound(ctx, cert, c) && c.newState !in g.nodes {
      AddEdge(ctx, cert, done, g, c);
    } else {
      AddOther(ctx, cert, done, g, Consider(ctx, cert, g, c), c);
    }
  }

  lemma AddEdge(ctx: TrustContext, cert: Certificate, done: set<Credential>, g: Build, c: Credential)
    requires Accounted(ctx, cert, done, g) && FreshHash(done, c) && c.previousState in g.nodes
    requires Sound(ctx, cert, c) && c.newState !in g.nodes
    ensures c.newState.Payment? && Accounted(ctx, cert, done + {c}, Grown(g, c))
  {
    GrownNodes(ctx, cert, g, c);
    SoundFacts(ctx, cert, c);
    var g' := Grown(g, c);
    assert g'.nodes.Keys == g.nodes.Keys + {c.newState} && g'.invalid == g.invalid && g'.duplicates == g.duplicates;
    EdgesGrow(ctx, cert, done, g, c);
    hide Sound, Verdict, NodesOk, AcceptedHash, RootOf, InvalidOk, DuplicatesOk, EdgesOk, Grown, Considered, KnownParents,
         FreshHash;
    ConsideredGrows(ctx, cert, done, g, g', c);
    ParentsGrow(cert, g, g', c.newState);
    InvalidGrows(ctx, cert, done, g, g', c);
    DuplicatesGrow(ctx, cert, done, g, g', c);
  }

  lemma AddOther(ctx: TrustContext, cert: Certificate, done: set<Credential>, g: Build, g': Build, c: Credential)
    requires Accounted(ctx, cert, done, g) && FreshHash(done, c) && c.previousState in g.nodes
    requires Sound(ctx, cert, c) ==> c.newState in g.nodes && c.newState.Payment? && IdOf(c.newState) in g.accepted
    requires Sound(ctx, cert, c) ==>
      g' == g.(duplicates := g.duplicates
                             + multiset{Duplicate(c.hash, AcceptedHash(cert, g, c.newState), DuplicateStateEdge)})
    requires !Sound(ctx, cert, c) ==>
      g' == g.(invalid := g.invalid + multiset{Invalid(c.hash, Verdict(ctx, cert, c).code)})
    ensures Accounted(ctx, cert, done + {c}, g')
  {
    assert g'.nodes == g.nodes && g'.accepted == g.accepted && g'.edges == g.edges;
    hide Sound, Verdict, NodesOk, AcceptedHash, RootOf, InvalidOk, DuplicatesOk, EdgesOk, Considered, KnownParents,
         FreshHash;
    ConsideredGrows(ctx, cert, done, g, g', c);
    ParentsKept(cert, g, g');
    if Sound(ctx, cert, c) { NotRepeated(ctx, cert, done, g, c); SoundFacts(ctx, cert, c); }
    SameHashes(cert, g, g');
    InvalidGrows(ctx, cert, done, g, g', c);
    DuplicatesGrow(ctx, cert, done, g, g', c);
    EdgesStay(ctx, cert, done, g, g', c);
  }

  lemma SameHashes(cert: Certificate, g: Build, g': Build)
    requires NodesOk(cert, g) && g'.nodes == g.nodes && g'.accepted == g.accepted
    ensures NodesOk(cert, g')
    ensures forall e :: e in g.nodes && e != RootOf(cert) ==> AcceptedHash(cert, g', e) == AcceptedHash(cert, g, e)
  {
  }

  /** The wrapper of an existing edge is another credential. */
  lemma NotRepeated(ctx: TrustContext, cert: Certificate, done: set<Credential>, g: Build, c: Credential)
    requires Accounted(ctx, cert, done, g) && FreshHash(done, c) && Sound(ctx, cert, c) && c.newState in g.nodes
    ensures c.newState.Payment? && IdOf(c.newState) in g.accepted && AcceptedHash(cert, g, c.newState) != c.hash
  {
    SoundFacts(ctx, cert, c);
    hide Sound, InvalidOk, DuplicatesOk;
  }

  lemma EdgesStay(ctx: TrustContext, cert: Certificate, done: set<Credential>, g: Build, g': Build, c: Credential)
    requires EdgesOk(ctx, cert, done, g) && g'.accepted == g.accepted && g'.edges == g.edges
    ensures EdgesOk(ctx, cert, done + {c}, g')
  {
    hide Sound;
  }

  lemma EdgesGrow(ctx: TrustContext, cert: Certificate, done: set<Credential>, g: Build, c: Credential)
    requires NodesOk(cert, g) && EdgesOk(ctx, cert, done, g) && Sound(ctx, cert, c) && c.newState !in g.nodes
    ensures c.newState.Payment? && EdgesOk(ctx, cert, done + {c}, Grown(g, c))
  {
    SoundFacts(ctx, cert, c);
    var id := IdOf(c.newState);
    assert id !in g.accepted;
    OneMoreEdge(g.accepted, g.edges, id, EdgeOf(c));
    hide Sound, NodesOk, EdgeOf, EdgeListOk;
    assert c in done + {c};
    forall i | i in Grown(g, c).accepted
      ensures exists d :: d in done + {c} && Sound(ctx, cert, d) && Grown(g, c).accepted[i] == EdgeOf(d)
    {
      if i != id {
        var d :| d in done && Sound(ctx, cert, d) && g.accepted[i] == EdgeOf(d);
        assert d in done + {c};
      }
    }
  }

  lemma OneMoreEdge(accepted: map<Identity, StateEdge>, edges: seq<StateEdge>, id: Identity, x: StateEdge)
    requires id !in accepted && EdgeListOk(accepted, edges) && forall i :: i in accepted ==> accepted[i].child != x.child
    ensures EdgeListOk(accepted[id := x], edges + [x])
  {
    var more, all := accepted[id := x], edges + [x];
    assert all[|edges|] == x && more[id] == x;
    forall i | 0 <= i < |all| ensures exists j :: j in more && more[j] == all[i] {
      if i < |edges| {
        assert all[i] == edges[i];
        var j :| j in accepted && accepted[j] == edges[i];
        assert more[j] == all[i];
      }
    }
  }

  // ----- Over the passes -----

  function Elements(q: seq<Credential>): set<Credential> { set c | c in q }

  lemma {:induction false} PassAccounts(ctx: TrustContext, cert: Certificate, done: set<Credential>, g: Build, pending: seq<Credential>)
    requires Accounted(ctx, cert, done, g) && Ordered(pending)
    requires forall c :: c in pending ==> FreshHash(done, c)
    ensures var r := Pass(ctx, cert, g, pending);
      && Ordered(r.1) && Elements(r.1) <= Elements(pending)
      && Accounted(ctx, cert, done + (Elements(pending) - Elements(r.1)), r.0)
    decreases |pending|
  {
    hide Accounted, Consider;
    var r := Pass(ctx, cert, g, pending);
    if pending == [] {
      assert done + (Elements(pending) - Elements(r.1)) == done;
    } else {
      var c, rest := pending[0], pending[1..];
      FirstOfOrdered(pending);
      assert forall d :: d in rest ==> d in pending;
      if c.previousState !in g.nodes {
        PassAccounts(ctx, cert, done, g, rest);
        var s := Pass(ctx, cert, g, rest);
        PrependOrdered(c, s.1, rest);
        assert Elements(pending) - Elements(r.1) == Elements(rest) - Elements(s.1);
      } else {
        assert Accounted(ctx, cert, done, g);
        assert c in pending;
        AddCredential(ctx, cert, done, g, c);
        PassAccounts(ctx, cert, done + {c}, Consider(ctx, cert, g, c), rest);
        assert done + (Elements(pending) - Elements(r.1)) == (done + {c}) + (Elements(rest) - Elements(r.1));
      }
    }
  }

  lemma FirstOfOrdered(q: seq<Credential>)
    requires Ordered(q) && q != []
    ensures Ordered(q[1..]) && forall d :: d in q[1..] ==> q[0].hash < d.hash
    ensures Elements(q) == {q[0]} + Elements(q[1..]) && q[0] !in Elements(q[1..])
  {
    assert q == [q[0]] + q[1..];
  }

  lemma PrependOrdered(c: Credential, q: seq<Credential>, rest: seq<Credential>)
    requires Ordered(q) && Elements(q) <= Elements(rest) && forall d :: d in rest ==> c.hash < d.hash
    ensures Ordered([c] + q) && Elements([c] + q) == {c} + Elements(q)
  {
    forall d | d in q ensures c.hash < d.hash { assert d in Elements(q); }
    assert forall i :: 0 <= i < |q| ==> q[i] in q;
  }

  /** How a finished graph accounts for a credential. */
  ghost predicate Reconciled(ctx: TrustContext, cert: Certificate, all: set<Credential>, g: Build)
  {
    && NodesOk(cert, g) && DuplicatesOk(ctx, cert, all, g) && EdgesOk(ctx, cert, all, g)
    && forall h, code :: g.invalid[Invalid(h, code)] == if RejectedAs(ctx, cert, all, g, h, code) then 1 else 0
  }

  /** Rejected by validation, or for want of a parent. */
  ghost predicate RejectedAs(ctx: TrustContext, cert: Certificate, all: set<Credential>, g: Build, h: nat, code: ErrorCode)
  {
    exists c :: c in all && c.hash == h
      && (if c.previousState in g.nodes then Verdict(ctx, cert, c) == Refused(code) else code == InvalidParent)
  }

  lemma {:induction false} OrphanCount(q: seq<Credential>, h: nat, code: ErrorCode)
    requires Ordered(q)
    ensures Orphaned(q)[Invalid(h, code)] == if code == InvalidParent && (exists c :: c in q && c.hash == h) then 1 else 0
    decreases |q|
  {
    if q != [] {
      FirstOfOrdered(q);
      OrphanCount(q[1..], h, code);
      assert forall c :: c in q <==> c == q[0] || c in q[1..];
      hide Ordered;
    }
  }

  lemma {:induction false} PassesAccount(ctx: TrustContext, cert: Certificate, done: set<Credential>, g: Build, pending: seq<Credential>)
    requires Accounted(ctx, cert, done, g) && Ordered(pending)
    requires forall c :: c in pending ==> FreshHash(done, c)
    ensures Reconciled(ctx, cert, done + Elements(pending), Passes(ctx, cert, g, pending))
    decreases |pending|
  {
    hide Accounted, Reconciled, Ordered, FreshHash;
    if pending == [] {
      assert done + Elements(pending) == done;
      SettledWith(ctx, cert, done, g, pending);
      assert g.(invalid := g.invalid + Orphaned(pending)) == g;
    } else {
      var (next, deferred) := Pass(ctx, cert, g, pending);
      if |deferred| == |pending| {
        NoProgress(ctx, cert, g, pending);
        SettledWith(ctx, cert, done, g, pending);
      } else {
        PassAccounts(ctx, cert, done, g, pending);
        var more := done + (Elements(pending) - Elements(deferred));
        StillFresh(done, pending, deferred);
        PassesAccount(ctx, cert, more, next, deferred);
        assert more + Elements(deferred) == done + Elements(pending);
      }
    }
  }

  lemma StillFresh(done: set<Credential>, pending: seq<Credential>, deferred: seq<Credential>)
    requires Ordered(pending) && Elements(deferred) <= Elements(pending) && forall c :: c in pending ==> FreshHash(done, c)
    ensures forall c :: c in deferred ==> FreshHash(done + (Elements(pending) - Elements(deferred)), c)
  {
    forall c, d | c in deferred && d in done + (Elements(pending) - Elements(deferred)) ensures d.hash != c.hash {
      assert c in Elements(deferred);
      assert c in pending;
      if d !in done {
        assert d in pending && d != c;
        var i, j :| 0 <= i < |pending| && 0 <= j < |pending| && pending[i] == c && pending[j] == d;
      }
    }
  }

  lemma SettledWith(ctx: TrustContext, cert: Certificate, done: set<Credential>, g: Build, pending: seq<Credential>)
    requires Accounted(ctx, cert, done, g) && Ordered(pending)
    requires forall c :: c in pending ==> FreshHash(done, c) && c.previousState !in g.nodes
    ensures Reconciled(ctx, cert, done + Elements(pending), g.(invalid := g.invalid + Orphaned(pending)))
  {
    var all, g' := done + Elements(pending), g.(invalid := g.invalid + Orphaned(pending));
    forall h, code
      ensures g'.invalid[Invalid(h, code)] == if RejectedAs(ctx, cert, all, g', h, code) then 1 else 0
    {
      OrphanCount(pending, h, code);
      RejectedCases(ctx, cert, done, g, pending, h, code);
      hide Verdict, Orphaned, Ordered, NodesOk, Sound;
    }
    SameHashes(cert, g, g');
    forall h, k ensures RepeatsEdge(ctx, cert, all, g', h, k) <==> RepeatsEdge(ctx, cert, done, g, h, k) {
      RepeatsDone(ctx, cert, done, g, g', pending, h, k);
    }
    hide Verdict, Orphaned, Ordered, NodesOk, Sound, RepeatsEdge, RejectedAs, AcceptedHash, FreshHash;
    assert EdgesOk(ctx, cert, all, g') by { assert forall c :: c in done ==> c in all; }
  }

  lemma RejectedCases(ctx: TrustContext, cert: Certificate, done: set<Credential>, g: Build, pending: seq<Credential>, h: nat, code: ErrorCode)
    requires forall c :: c in done ==> c.previousState in g.nodes
    requires forall c :: c in pending ==> c.previousState !in g.nodes
    requires forall c :: c in pending ==> FreshHash(done, c)
    ensures var g' := g.(invalid := g.invalid + Orphaned(pending));
      RejectedAs(ctx, cert, done + Elements(pending), g', h, code)
      <==> RefusedAs(ctx, cert, done, h, code) || (code == InvalidParent && exists c :: c in pending && c.hash == h)
    ensures !(RefusedAs(ctx, cert, done, h, code) && exists c :: c in pending && c.hash == h)
  {
    hide Verdict, Orphaned;
    var all := done + Elements(pending);
    if c :| c in done && c.hash == h && Verdict(ctx, cert, c) == Refused(code) { assert c in all; }
    if c :| c in pending && c.hash == h { assert c in all; }
  }

  lemma RepeatsDone(ctx: TrustContext, cert: Certificate, done: set<Credential>, g: Build, g': Build, pending: seq<Credential>, h: nat, k: nat)
    requires NodesOk(cert, g) && NodesOk(cert, g') && g'.nodes == g.nodes && g'.accepted == g.accepted
    requires forall e :: e in g.nodes && e != RootOf(cert) ==> AcceptedHash(cert, g', e) == AcceptedHash(cert, g, e)
    requires KnownParents(cert, g) && forall c :: c in pending ==> c.previousState !in g.nodes
    ensures RepeatsEdge(ctx, cert, done + Elements(pending), g', h, k) <==> RepeatsEdge(ctx, cert, done, g, h, k)
  {
    assert forall e :: e in g.nodes && e != RootOf(cert) ==> e.Payment? && IdOf(e) in g.accepted;
    hide NodesOk, AcceptedHash, RootOf, Sound;
    if RepeatsEdge(ctx, cert, done + Elements(pending), g', h, k) {
      var c :| c in done + Elements(pending) && c.hash == h && h != k && Sound(ctx, cert, c) && c.newState in g'.nodes
               && c.newState != RootOf(cert) && AcceptedHash(cert, g', c.newState) == k;
      SoundFacts(ctx, cert, c);
      assert c.previousState in g.nodes;
      assert c in done;
    }
    if RepeatsEdge(ctx, cert, done, g, h, k) {
      var c :| c in done && c.hash == h && h != k && Sound(ctx, cert, c) && c.newState in g.nodes
               && c.newState != RootOf(cert) && AcceptedHash(cert, g, c.newState) == k;
      assert c in done + Elements(pending);
    }
  }
}
