/** What the off-chain state graph is: exactly the payments reachable from the genesis state, as a
    tree; which duplicate wrapper of an edge it keeps; and that input order is irrelevant. */
module StateGraphs {
  import opened Collections
  import opened States
  import opened Protocol
  import opened Credentials
  import opened OfflineLedger

  /** The node a state hash stands for, read off what it commits to. */
  function NodeOf(cert: Certificate, e: StateHash): ParentState
  {
    if e.Payment? then ParentState(e, e.sequence, e.newRemaining) else ParentState(e, 0, cert.limit)
  }

  function Verdict(ctx: TrustContext, cert: Certificate, c: Credential): Result<ParentState>
  {
    VerifyStateTransition(ctx, cert, NodeOf(cert, c.previousState), c)
  }

  predicate Sound(ctx: TrustContext, cert: Certificate, c: Credential) { Verdict(ctx, cert, c).Accepted? }

  function IdOf(e: StateHash): Identity
    requires e.Payment?
  {
    Identity(e.prev, e.sequence, e)
  }

  function RootOf(cert: Certificate): StateHash { Root(TermsOf(cert)) }

  /** A payment is reached by valid transitions from the genesis state, each by some credential. */
  ghost predicate Reached(ctx: TrustContext, cert: Certificate, all: set<Credential>, e: StateHash)
  {
    && e.Payment? && (exists c :: c in all && c.newState == e && Sound(ctx, cert, c))
    && (e.prev == RootOf(cert) || Reached(ctx, cert, all, e.prev))
  }

  // ----- The graph under construction -----

  ghost predicate NodesOk(cert: Certificate, g: Build)
  {
    && RootOf(cert) in g.nodes
    && (forall e :: e in g.nodes ==> g.nodes[e] == NodeOf(cert, e))
    && (forall e :: e in g.nodes && e != RootOf(cert) ==> e.Payment? && IdOf(e) in g.accepted)
    && (forall id :: id in g.accepted ==> id.child in g.nodes && id.child != RootOf(cert) && id.child.Payment?
                                          && id == IdOf(id.child) && g.accepted[id].child == id.child)
  }

  /** The wrapper accepted for a node. */
  function AcceptedHash(cert: Certificate, g: Build, e: StateHash): nat
    requires e.Payment? && IdOf(e) in g.accepted
  {
    g.accepted[IdOf(e)].credentialHash
  }

  function Grown(g: Build, c: Credential): Build
    requires c.newState.Payment?
  {
    g.(accepted := g.accepted[IdOf(c.newState) := EdgeOf(c)], edges := g.edges + [EdgeOf(c)],
       nodes := g.nodes[c.newState := ParentState(c.newState, c.sequence, c.newRemaining)])
  }

  lemma SoundFacts(ctx: TrustContext, cert: Certificate, c: Credential)
    requires Sound(ctx, cert, c)
    ensures c.newState == Successor(c) && c.newState.Payment? && c.newState != RootOf(cert)
    ensures IdOf(c.newState) == Identity(c.previousState, c.sequence, c.newState)
    ensures NodeOf(cert, c.newState) == ParentState(c.newState, c.sequence, c.newRemaining)
  {
  }

  /** The collision branch is never taken: a valid transition to an existing node repeats an edge. */
  lemma ConsiderIs(ctx: TrustContext, cert: Certificate, g: Build, c: Credential)
    requires NodesOk(cert, g) && c.previousState in g.nodes
    ensures !Sound(ctx, cert, c) ==>
      Consider(ctx, cert, g, c) == g.(invalid := g.invalid + multiset{Invalid(c.hash, Verdict(ctx, cert, c).code)})
    ensures Sound(ctx, cert, c) && c.newState in g.nodes ==>
      && c.newState.Payment? && IdOf(c.newState) in g.accepted
      && Consider(ctx, cert, g, c)
         == g.(duplicates := g.duplicates
                             + multiset{Duplicate(c.hash, AcceptedHash(cert, g, c.newState), DuplicateStateEdge)})
    ensures Sound(ctx, cert, c) && c.newState !in g.nodes ==>
      c.newState.Payment? && Consider(ctx, cert, g, c) == Grown(g, c)
  {
    if Sound(ctx, cert, c) { SoundFacts(ctx, cert, c); }
    hide ValidatePaymentCredential, VerifyStateTransition;
  }

  lemma GrownNodes(ctx: TrustContext, cert: Certificate, g: Build, c: Credential)
    requires NodesOk(cert, g) && Sound(ctx, cert, c) && c.newState !in g.nodes
    ensures c.newState.Payment? && NodesOk(cert, Grown(g, c))
    ensures AcceptedHash(cert, Grown(g, c), c.newState) == c.hash
    ensures forall e :: e in g.nodes && e != RootOf(cert) ==> AcceptedHash(cert, Grown(g, c), e) == AcceptedHash(cert, g, e)
  {
    SoundFacts(ctx, cert, c);
    hide Sound, RootOf;
  }

  // ----- Which wrapper is kept -----

  ghost function WrapperHashes(ctx: TrustContext, cert: Certificate, all: set<Credential>, e: StateHash): set<nat>
  {
    set c | c in all && c.newState == e && Sound(ctx, cert, c) :: c.hash
  }

  /** The wrapper the passes keep: the least one for a first payment, and otherwise the least one
      after the wrapper kept for the parent, or the least of all when there is none after it. */
  ghost function Kept(ctx: TrustContext, cert: Certificate, all: set<Credential>, e: StateHash): nat
  {
    var ws := WrapperHashes(ctx, cert, all, e);
    if ws == {} then 0
    else if !e.Payment? || e.prev == RootOf(cert) || Above(ws, Kept(ctx, cert, all, e.prev)) == {} then Min(ws)
    else Min(Above(ws, Kept(ctx, cert, all, e.prev)))
  }

  /** Everything that is or will be considered in this pass, in hash order. */
  predicate Ordered(q: seq<Credential>) { forall i, j :: 0 <= i < j < |q| ==> q[i].hash < q[j].hash }

  ghost predicate Faithful(all: set<Credential>)
  {
    forall c, d :: c in all && d in all && c.hash == d.hash ==> c == d
  }

  /** Credentials that have been considered. */
  ghost predicate Done(all: set<Credential>, rest: seq<Credential>, deferred: seq<Credential>, c: Credential)
  {
    c in all && c !in rest && c !in deferred
  }

  ghost predicate DoneOk(ctx: TrustContext, cert: Certificate, all: set<Credential>, g: Build, rest: seq<Credential>, deferred: seq<Credential>)
  {
    forall c :: Done(all, rest, deferred, c) ==>
      c.previousState in g.nodes && (Sound(ctx, cert, c) ==> c.newState in g.nodes)
  }

  /** A node accepted in this pass was accepted before what is left and after what was deferred for
      lack of it; a deferred credential's parent is not an older node. */
  ghost predicate RecentOk(cert: Certificate, g: Build, recent: set<StateHash>, rest: seq<Credential>, deferred: seq<Credential>)
    requires NodesOk(cert, g)
  {
    && recent <= g.nodes.Keys - {RootOf(cert)}
    && (forall c, e :: c in rest && e in recent ==> AcceptedHash(cert, g, e) < c.hash)
    && (forall c :: c in deferred && c.previousState in g.nodes ==>
          c.previousState in recent && c.hash < AcceptedHash(cert, g, c.previousState))
  }

  /** Nothing is left to consider after the wrapper kept for an older node. */
  ghost predicate StaleOk(cert: Certificate, g: Build, recent: set<StateHash>, rest: seq<Credential>)
    requires NodesOk(cert, g)
  {
    forall c :: c in rest && c.previousState in g.nodes && c.previousState != RootOf(cert) && c.previousState !in recent ==>
      c.hash < AcceptedHash(cert, g, c.previousState)
  }

  ghost predicate KeptOk(ctx: TrustContext, cert: Certificate, all: set<Credential>, g: Build)
    requires NodesOk(cert, g)
  {
    forall e :: e in g.nodes && e != RootOf(cert) ==>
      && e.prev in g.nodes
      && AcceptedHash(cert, g, e) in WrapperHashes(ctx, cert, all, e)
      && AcceptedHash(cert, g, e) == Kept(ctx, cert, all, e)
  }

  ghost predicate PassOk(ctx: TrustContext, cert: Certificate, all: set<Credential>, g: Build, recent: set<StateHash>,
                         rest: seq<Credential>, deferred: seq<Credential>)
  {
    && Faithful(all) && NodesOk(cert, g) && Ordered(deferred + rest)
    && (forall c :: c in rest || c in deferred ==> c in all)
    && DoneOk(ctx, cert, all, g, rest, deferred)
    && RecentOk(cert, g, recent, rest, deferred) && StaleOk(cert, g, recent, rest)
    && KeptOk(ctx, cert, all, g)
  }

  lemma OrderedFacts(rest: seq<Credential>, deferred: seq<Credential>, c: Credential)
    requires Ordered(deferred + ([c] + rest))
    ensures Ordered((deferred + [c]) + rest) && Ordered(deferred + rest)
    ensures forall d :: d in deferred ==> d.hash < c.hash
    ensures forall d :: d in rest ==> c.hash < d.hash
    ensures c !in deferred && c !in rest
  {
    var q := deferred + ([c] + rest);
    assert (deferred + [c]) + rest == q;
    assert q[|deferred|] == c;
    forall d | d in deferred ensures d.hash < c.hash {
      var i :| 0 <= i < |deferred| && deferred[i] == d;
      assert q[i] == d;
    }
    forall d | d in rest ensures c.hash < d.hash {
      var i :| 0 <= i < |rest| && rest[i] == d;
      assert q[|deferred| + 1 + i] == d;
    }
    var p := deferred + rest;
    forall i, j | 0 <= i < j < |p| ensures p[i].hash < p[j].hash {
      assert p[i] == q[if i < |deferred| then i else i + 1];
      assert p[j] == q[if j < |deferred| then j else j + 1];
    }
  }

  /** The wrapper about to be accepted is the one to keep. */
  lemma KeepsThis(ctx: TrustContext, cert: Certificate, all: set<Credential>, g: Build, recent: set<StateHash>,
                  rest: seq<Credential>, deferred: seq<Credential>, c: Credential)
    requires PassOk(ctx, cert, all, g, recent, [c] + rest, deferred)
    requires c.previousState in g.nodes && Sound(ctx, cert, c) && c.newState !in g.nodes
    ensures c.hash in WrapperHashes(ctx, cert, all, c.newState)
    ensures c.hash == Kept(ctx, cert, all, c.newState)
  {
    var e := c.newState;
    var ws := WrapperHashes(ctx, cert, all, e);
    SoundFacts(ctx, cert, c);
    OrderedFacts(rest, deferred, c);
    assert c in [c] + rest;
    assert c.hash in ws;
    var older := c.previousState == RootOf(cert) || c.previousState !in recent;
    forall h | h in ws ensures c.hash <= h || (!older && h < AcceptedHash(cert, g, c.previousState)) {
      var d :| d in all && d.newState == e && Sound(ctx, cert, d) && d.hash == h;
      SoundFacts(ctx, cert, d);
      assert d.previousState == c.previousState;
      assert !Done(all, [c] + rest, deferred, d);
    }
    hide Sound, NodesOk, DoneOk;
    if !older {
      var k := AcceptedHash(cert, g, c.previousState);
      assert c.hash in Above(ws, k);
      assert Min(Above(ws, k)) == c.hash;
    } else if c.previousState != RootOf(cert) {
      assert c.hash < AcceptedHash(cert, g, c.previousState);
      WrappersBelow(ctx, cert, all, g, recent, rest, deferred, c);
      assert Min(ws) == c.hash;
    } else {
      assert Min(ws) == c.hash;
    }
  }

  /** When the parent is an older node, every wrapper comes before the one kept for the parent. */
  lemma WrappersBelow(ctx: TrustContext, cert: Certificate, all: set<Credential>, g: Build, recent: set<StateHash>,
                      rest: seq<Credential>, deferred: seq<Credential>, c: Credential)
    requires PassOk(ctx, cert, all, g, recent, [c] + rest, deferred)
    requires c.previousState in g.nodes && c.previousState != RootOf(cert) && c.previousState !in recent
    requires Sound(ctx, cert, c) && c.newState !in g.nodes
    ensures Above(WrapperHashes(ctx, cert, all, c.newState), AcceptedHash(cert, g, c.previousState)) == {}
  {
    var ws := WrapperHashes(ctx, cert, all, c.newState);
    SoundFacts(ctx, cert, c);
    forall h | h in ws ensures h < AcceptedHash(cert, g, c.previousState) {
      var d :| d in all && d.newState == c.newState && Sound(ctx, cert, d) && d.hash == h;
      SoundFacts(ctx, cert, d);
      assert d.previousState == c.previousState;
      assert !Done(all, [c] + rest, deferred, d);
    }
  }

  // ----- One step of a pass -----

  lemma DeferStep(ctx: TrustContext, cert: Certificate, all: set<Credential>, g: Build, recent: set<StateHash>,
                  rest: seq<Credential>, deferred: seq<Credential>, c: Credential)
    requires PassOk(ctx, cert, all, g, recent, [c] + rest, deferred) && c.previousState !in g.nodes
    ensures PassOk(ctx, cert, all, g, recent, rest, deferred + [c])
  {
    OrderedFacts(rest, deferred, c);
    assert forall d :: d in [c] + rest <==> d == c || d in rest;
    assert forall d :: d in deferred + [c] <==> d == c || d in deferred;
    hide NodesOk, Sound, Ordered, KeptOk, Faithful;
    assert forall d :: Done(all, rest, deferred + [c], d) ==> Done(all, [c] + rest, deferred, d);
  }

  lemma SkipStep(ctx: TrustContext, cert: Certificate, all: set<Credential>, g: Build, g': Build, recent: set<StateHash>,
                 rest: seq<Credential>, deferred: seq<Credential>, c: Credential)
    requires PassOk(ctx, cert, all, g, recent, [c] + rest, deferred) && c.previousState in g.nodes
    requires Sound(ctx, cert, c) ==> c.newState in g.nodes
    requires g'.nodes == g.nodes && g'.accepted == g.accepted
    ensures PassOk(ctx, cert, all, g', recent, rest, deferred)
  {
    SameGraph(ctx, cert, all, g, g', recent, [c] + rest, deferred);
    OrderedFacts(rest, deferred, c);
    DoneShrinks(ctx, cert, all, g', rest, deferred, c);
    RestShrinks(cert, g', recent, rest, deferred, c);
    assert forall d :: d in rest ==> d in [c] + rest;
    hide NodesOk, Sound, Ordered, Faithful, DoneOk, RecentOk, StaleOk, KeptOk;
  }

  /** Nothing in the invariant of a pass depends on the rejected and the duplicates. */
  lemma SameGraph(ctx: TrustContext, cert: Certificate, all: set<Credential>, g: Build, g': Build, recent: set<StateHash>,
                  rest: seq<Credential>, deferred: seq<Credential>)
    requires PassOk(ctx, cert, all, g, recent, rest, deferred) && g'.nodes == g.nodes && g'.accepted == g.accepted
    ensures PassOk(ctx, cert, all, g', recent, rest, deferred)
  {
    assert NodesOk(cert, g');
    assert forall e :: e in g.nodes && e != RootOf(cert) ==> AcceptedHash(cert, g', e) == AcceptedHash(cert, g, e);
    hide NodesOk, Sound, Ordered, Faithful, AcceptedHash, Kept, WrapperHashes, RootOf, Done;
  }

  lemma DoneShrinks(ctx: TrustContext, cert: Certificate, all: set<Credential>, g: Build,
                    rest: seq<Credential>, deferred: seq<Credential>, c: Credential)
    requires DoneOk(ctx, cert, all, g, [c] + rest, deferred)
    requires c.previousState in g.nodes && (Sound(ctx, cert, c) ==> c.newState in g.nodes)
    ensures DoneOk(ctx, cert, all, g, rest, deferred)
  {
    hide Sound;
    assert forall d :: d in [c] + rest <==> d == c || d in rest;
    assert forall d :: Done(all, rest, deferred, d) ==> d == c || Done(all, [c] + rest, deferred, d);
  }

  lemma RestShrinks(cert: Certificate, g: Build, recent: set<StateHash>, rest: seq<Credential>,
                    deferred: seq<Credential>, c: Credential)
    requires NodesOk(cert, g)
    requires RecentOk(cert, g, recent, [c] + rest, deferred) && StaleOk(cert, g, recent, [c] + rest)
    ensures RecentOk(cert, g, recent, rest, deferred) && StaleOk(cert, g, recent, rest)
  {
    assert forall d :: d in rest ==> d in [c] + rest;
    hide AcceptedHash, RootOf, NodesOk;
  }

  lemma GrowStep(ctx: TrustContext, cert: Certificate, all: set<Credential>, g: Build, recent: set<StateHash>,
                 rest: seq<Credential>, deferred: seq<Credential>, c: Credential)
    requires PassOk(ctx, cert, all, g, recent, [c] + rest, deferred) && c.previousState in g.nodes
    requires Sound(ctx, cert, c) && c.newState !in g.nodes
    ensures c.newState.Payment? && PassOk(ctx, cert, all, Grown(g, c), recent + {c.newState}, rest, deferred)
  {
    var g' := Grown(g, c);
    OrderedFacts(rest, deferred, c);
    GrownNodes(ctx, cert, g, c);
    KeepsThis(ctx, cert, all, g, recent, rest, deferred, c);
    SoundFacts(ctx, cert, c);
    assert forall d :: d in [c] + rest <==> d == c || d in rest;
    assert g'.nodes.Keys == g.nodes.Keys + {c.newState};
    hide NodesOk, Sound, Ordered, Faithful, Grown, Kept, WrapperHashes, AcceptedHash, RootOf;
    GrownDone(ctx, cert, all, g, g', rest, deferred, c);
    GrownKept(ctx, cert, all, g, g', c);
    hide DoneOk, KeptOk;
    GrownRecent(cert, g, g', recent, rest, deferred, c);
  }

  lemma GrownRecent(cert: Certificate, g: Build, g': Build, recent: set<StateHash>, rest: seq<Credential>,
                    deferred: seq<Credential>, c: Credential)
    requires NodesOk(cert, g) && NodesOk(cert, g') && g'.nodes.Keys == g.nodes.Keys + {c.newState}
    requires forall e :: e in g.nodes && e != RootOf(cert) ==> AcceptedHash(cert, g', e) == AcceptedHash(cert, g, e)
    requires RecentOk(cert, g, recent, [c] + rest, deferred) && StaleOk(cert, g, recent, [c] + rest)
    requires c.newState != RootOf(cert) && AcceptedHash(cert, g', c.newState) == c.hash && c.newState !in g.nodes
    requires (forall d :: d in deferred ==> d.hash < c.hash) && (forall d :: d in rest ==> c.hash < d.hash)
    ensures RecentOk(cert, g', recent + {c.newState}, rest, deferred) && StaleOk(cert, g', recent + {c.newState}, rest)
  {
    assert forall d :: d in rest ==> d in [c] + rest;
    hide AcceptedHash, RootOf;
  }

  lemma GrownDone(ctx: TrustContext, cert: Certificate, all: set<Credential>, g: Build, g': Build,
                  rest: seq<Credential>, deferred: seq<Credential>, c: Credential)
    requires DoneOk(ctx, cert, all, g, [c] + rest, deferred) && c.previousState in g.nodes
    requires g'.nodes.Keys == g.nodes.Keys + {c.newState}
    ensures DoneOk(ctx, cert, all, g', rest, deferred)
  {
    hide Sound;
    assert forall d :: Done(all, rest, deferred, d) ==> d == c || Done(all, [c] + rest, deferred, d);
  }

  lemma GrownKept(ctx: TrustContext, cert: Certificate, all: set<Credential>, g: Build, g': Build, c: Credential)
    requires NodesOk(cert, g) && NodesOk(cert, g') && KeptOk(ctx, cert, all, g) && c.newState.Payment?
    requires g'.nodes.Keys == g.nodes.Keys + {c.newState} && c.newState != RootOf(cert)
    requires c.newState.prev == c.previousState && c.previousState in g.nodes
    requires AcceptedHash(cert, g', c.newState) == c.hash
    requires c.hash in WrapperHashes(ctx, cert, all, c.newState) && c.hash == Kept(ctx, cert, all, c.newState)
    requires forall e :: e in g.nodes && e != RootOf(cert) ==> AcceptedHash(cert, g', e) == AcceptedHash(cert, g, e)
    ensures KeptOk(ctx, cert, all, g')
  {
    hide Kept, WrapperHashes, AcceptedHash, RootOf;
  }

  // ----- A pass, and all passes -----

  lemma {:induction false} PassKeeps(ctx: TrustContext, cert: Certificate, all: set<Credential>, g: Build, recent: set<StateHash>,
                                     pending: seq<Credential>, deferred: seq<Credential>) returns (recent': set<StateHash>)
    requires PassOk(ctx, cert, all, g, recent, pending, deferred)
    ensures PassOk(ctx, cert, all, Pass(ctx, cert, g, pending).0, recent', [], deferred + Pass(ctx, cert, g, pending).1)
    decreases |pending|
  {
    hide PassOk, Sound, Grown;
    recent' := recent;
    if pending == [] {
      assert deferred + [] == deferred;
    } else {
      var c, rest := pending[0], pending[1..];
      assert pending == [c] + rest;
      if c.previousState !in g.nodes {
        DeferStep(ctx, cert, all, g, recent, rest, deferred, c);
        recent' := PassKeeps(ctx, cert, all, g, recent, rest, deferred + [c]);
        assert deferred + Pass(ctx, cert, g, pending).1 == (deferred + [c]) + Pass(ctx, cert, g, rest).1;
      } else {
        var g' := Consider(ctx, cert, g, c);
        var r := ConsiderKeeps(ctx, cert, all, g, recent, rest, deferred, c);
        recent' := PassKeeps(ctx, cert, all, g', r, rest, deferred);
      }
    }
  }

  lemma ConsiderKeeps(ctx: TrustContext, cert: Certificate, all: set<Credential>, g: Build, recent: set<StateHash>,
                      rest: seq<Credential>, deferred: seq<Credential>, c: Credential) returns (recent': set<StateHash>)
    requires PassOk(ctx, cert, all, g, recent, [c] + rest, deferred) && c.previousState in g.nodes
    ensures PassOk(ctx, cert, all, Consider(ctx, cert, g, c), recent', rest, deferred)
  {
    assert NodesOk(cert, g);
    ConsiderIs(ctx, cert, g, c);
    hide PassOk, Sound, Grown, Consider, NodesOk;
    if Sound(ctx, cert, c) && c.newState !in g.nodes {
      GrowStep(ctx, cert, all, g, recent, rest, deferred, c);
      recent' := recent + {c.newState};
    } else {
      SkipStep(ctx, cert, all, g, Consider(ctx, cert, g, c), recent, rest, deferred, c);
      recent' := recent;
    }
  }

  lemma NextPass(ctx: TrustContext, cert: Certificate, all: set<Credential>, g: Build, recent: set<StateHash>, deferred: seq<Credential>)
    requires PassOk(ctx, cert, all, g, recent, [], deferred)
    ensures PassOk(ctx, cert, all, g, {}, deferred, [])
  {
    assert deferred + [] == [] + deferred == deferred;
    hide NodesOk, Sound, Ordered, KeptOk, Faithful, AcceptedHash;
    assert forall d :: Done(all, deferred, [], d) ==> Done(all, [], deferred, d);
  }

  lemma {:induction false} NoProgress(ctx: TrustContext, cert: Certificate, g: Build, pending: seq<Credential>)
    requires |Pass(ctx, cert, g, pending).1| == |pending|
    ensures Pass(ctx, cert, g, pending).0 == g && Pass(ctx, cert, g, pending).1 == pending
    ensures forall c :: c in pending ==> c.previousState !in g.nodes
    decreases |pending|
  {
    if pending != [] && pending[0].previousState !in g.nodes {
      NoProgress(ctx, cert, g, pending[1..]);
    }
  }

  /** Nothing more can be accepted. */
  ghost predicate Final(ctx: TrustContext, cert: Certificate, all: set<Credential>, g: Build)
  {
    && NodesOk(cert, g) && KeptOk(ctx, cert, all, g)
    && forall c :: c in all && c.previousState in g.nodes && Sound(ctx, cert, c) ==> c.newState in g.nodes
  }

  lemma {:induction false} PassesFinish(ctx: TrustContext, cert: Certificate, all: set<Credential>, g: Build, pending: seq<Credential>)
    requires PassOk(ctx, cert, all, g, {}, pending, [])
    ensures Final(ctx, cert, all, Passes(ctx, cert, g, pending))
    decreases |pending|
  {
    if pending == [] {
      AllDone(ctx, cert, all, g, pending);
    } else {
      var (next, deferred) := Pass(ctx, cert, g, pending);
      if |deferred| == |pending| {
        NoProgress(ctx, cert, g, pending);
        AllDone(ctx, cert, all, g, pending);
        SameNodes(ctx, cert, all, g, next.(invalid := next.invalid + Orphaned(deferred)));
      } else {
        hide PassOk, Final;
        var recent := PassKeeps(ctx, cert, all, g, {}, pending, []);
        assert [] + deferred == deferred;
        NextPass(ctx, cert, all, next, recent, deferred);
        PassesFinish(ctx, cert, all, next, deferred);
      }
    }
  }

  lemma AllDone(ctx: TrustContext, cert: Certificate, all: set<Credential>, g: Build, pending: seq<Credential>)
    requires PassOk(ctx, cert, all, g, {}, pending, []) && forall c :: c in pending ==> c.previousState !in g.nodes
    ensures Final(ctx, cert, all, g)
  {
    hide NodesOk, Sound, KeptOk;
    assert forall c :: c in all && c !in pending ==> Done(all, pending, [], c);
  }

  lemma SameNodes(ctx: TrustContext, cert: Certificate, all: set<Credential>, g: Build, g': Build)
    requires Final(ctx, cert, all, g) && g'.nodes == g.nodes && g'.accepted == g.accepted
    ensures Final(ctx, cert, all, g')
  {
    assert NodesOk(cert, g');
    hide NodesOk, Sound;
  }

  // ----- The finished graph -----

  /** The distinct credentials of an input. */
  ghost function Unique(received: seq<Received>): set<Credential> { Distinct(received).Values }

  lemma {:induction false} DistinctHashes(received: seq<Received>)
    ensures forall h :: h in Distinct(received) ==> Distinct(received)[h].hash == h
  {
    if received != [] { DistinctHashes(received[..|received| - 1]); }
  }

  lemma UniqueFaithful(received: seq<Received>)
    ensures Faithful(Unique(received))
  {
    DistinctHashes(received);
    hide Distinct;
  }

  lemma SeedOk(cert: Certificate, received: seq<Received>)
    ensures NodesOk(cert, Seed(cert, received)) && Seed(cert, received).nodes.Keys == {RootOf(cert)}
  {
    hide Unreadables, Repeats;
  }

  lemma Started(ctx: TrustContext, cert: Certificate, received: seq<Received>)
    ensures PassOk(ctx, cert, Unique(received), Seed(cert, received), {}, Worklist(received), [])
  {
    UniqueFaithful(received);
    SeedOk(cert, received);
    WorklistElements(received);
    StartedWith(ctx, cert, Unique(received), Seed(cert, received), Worklist(received));
  }

  lemma StartedWith(ctx: TrustContext, cert: Certificate, all: set<Credential>, g: Build, q: seq<Credential>)
    requires Faithful(all) && NodesOk(cert, g) && g.nodes.Keys == {RootOf(cert)}
    requires Ordered(q) && forall c :: c in q <==> c in all
    ensures PassOk(ctx, cert, all, g, {}, q, [])
  {
    assert [] + q == q;
    hide NodesOk, Sound, Ordered, Faithful, AcceptedHash, RootOf;
  }

  lemma WorklistElements(received: seq<Received>)
    ensures Ordered(Worklist(received))
    ensures forall c :: c in Worklist(received) <==> c in Unique(received)
  {
    var distinct := Distinct(received);
    DistinctHashes(received);
    SortedElements(distinct.Keys);
    hide Distinct, Sorted;
    var hashes, q := Sorted(distinct.Keys), Worklist(received);
    forall c ensures c in q <==> c in distinct.Values {
      if c in q { var i :| 0 <= i < |q| && q[i] == c; assert hashes[i] in hashes; }
      if c in distinct.Values {
        var h :| h in distinct && distinct[h] == c;
        assert h in hashes;
        var i :| 0 <= i < |hashes| && hashes[i] == h;
        assert q[i] == c;
      }
    }
    forall i, j | 0 <= i < j < |q| ensures q[i].hash < q[j].hash {
      assert hashes[i] in hashes && hashes[j] in hashes;
    }
  }

  lemma {:induction false} NodeReached(ctx: TrustContext, cert: Certificate, all: set<Credential>, g: Build, e: StateHash)
    requires Final(ctx, cert, all, g) && e in g.nodes && e != RootOf(cert)
    ensures Reached(ctx, cert, all, e)
    decreases e
  {
    assert NodesOk(cert, g) && KeptOk(ctx, cert, all, g);
    hide Final, Sound;
    var h := AcceptedHash(cert, g, e);
    assert h in WrapperHashes(ctx, cert, all, e);
    var c :| c in all && c.newState == e && Sound(ctx, cert, c) && c.hash == h;
    if e.prev != RootOf(cert) { NodeReached(ctx, cert, all, g, e.prev); }
  }

  lemma {:induction false} ReachedNode(ctx: TrustContext, cert: Certificate, all: set<Credential>, g: Build, e: StateHash)
    requires Final(ctx, cert, all, g) && Reached(ctx, cert, all, e)
    ensures e in g.nodes && e != RootOf(cert)
    decreases e
  {
    if e.prev != RootOf(cert) { ReachedNode(ctx, cert, all, g, e.prev); }
    var c :| c in all && c.newState == e && Sound(ctx, cert, c);
    SoundFacts(ctx, cert, c);
  }

  /** The nodes are exactly the genesis state and the payments reachable from it by valid
      transitions, each with the sequence and balance its hash commits to; the edges accepted are one
      for each, and the wrapper each carries is the one Kept describes. */
  lemma GraphIsReachable(ctx: TrustContext, cert: Certificate, received: seq<Received>, e: StateHash)
    ensures var g, all := StateGraph(ctx, cert, received), Unique(received);
      && (e in g.nodes <==> e == RootOf(cert) || Reached(ctx, cert, all, e))
      && (e in g.nodes ==> g.nodes[e] == NodeOf(cert, e))
      && (Reached(ctx, cert, all, e) <==> e.Payment? && IdOf(e) in g.accepted)
      && (Reached(ctx, cert, all, e) ==>
            && g.accepted[IdOf(e)].credentialHash == Kept(ctx, cert, all, e)
            && exists c :: c in all && c.newState == e && Sound(ctx, cert, c) && c.hash == Kept(ctx, cert, all, e))
  {
    var g, all := StateGraph(ctx, cert, received), Unique(received);
    Started(ctx, cert, received);
    PassesFinish(ctx, cert, all, Seed(cert, received), Worklist(received));
    assert g == Passes(ctx, cert, Seed(cert, received), Worklist(received));
    hide StateGraph, Unique, Sound, Seed, Worklist, Passes;
    if e in g.nodes && e != RootOf(cert) { NodeReached(ctx, cert, all, g, e); }
    if Reached(ctx, cert, all, e) {
      ReachedNode(ctx, cert, all, g, e);
      var h := AcceptedHash(cert, g, e);
      assert h in WrapperHashes(ctx, cert, all, e);
    }
    hide Reached, Kept;
  }
}
