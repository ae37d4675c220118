/** Main results about buildStateGraph: complete accounting, independence of input order, the shape
    of the tree, and when the wrapper it keeps for an edge is the least one. */
module GraphTheorems {
  import opened Collections
  import opened ProRata
  import opened States
  import opened Protocol
  import opened Credentials
  import opened OfflineLedger
  import opened StateGraphs
  import opened GraphAccounts

  lemma StartAccounted(ctx: TrustContext, cert: Certificate, received: seq<Received>)
    ensures Accounted(ctx, cert, {}, Seed(cert, received))
  {
    var g := Seed(cert, received);
    SeedOk(cert, received);
    forall h, code ensures g.invalid[Invalid(h, code)] == 0 { OnlyUnreadable(received, h, code); }
    forall h, k ensures g.duplicates[Duplicate(h, k, DuplicateStateEdge)] == 0 { OnlyExact(received, h, k); }
    hide Unreadables, Repeats, NodesOk;
    assert g.nodes.Keys == {RootOf(cert)};
  }

  lemma {:induction false} OnlyUnreadable(received: seq<Received>, h: nat, code: ErrorCode)
    ensures Unreadables(received)[Invalid(h, code)] == 0
  {
    if received != [] { OnlyUnreadable(received[..|received| - 1], h, code); }
  }

  lemma {:induction false} OnlyExact(received: seq<Received>, h: nat, k: nat)
    ensures Repeats(received)[Duplicate(h, k, DuplicateStateEdge)] == 0
  {
    if received != [] { OnlyExact(received[..|received| - 1], h, k); }
  }

  lemma GraphSettled(ctx: TrustContext, cert: Certificate, received: seq<Received>)
    ensures Reconciled(ctx, cert, Unique(received), StateGraph(ctx, cert, received))
    ensures Final(ctx, cert, Unique(received), StateGraph(ctx, cert, received))
    ensures Faithful(Unique(received))
  {
    var q := Worklist(received);
    UniqueFaithful(received);
    StartAccounted(ctx, cert, received);
    Started(ctx, cert, received);
    PassesFinish(ctx, cert, Unique(received), Seed(cert, received), q);
    WorklistElements(received);
    assert {} + Elements(q) == Unique(received);
    hide Reconciled, Final, Accounted, Passes, Worklist, Seed, Ordered, Unique;
    PassesAccount(ctx, cert, {}, Seed(cert, received), q);
    GraphIs(ctx, cert, received);
  }

  lemma GraphIs(ctx: TrustContext, cert: Certificate, received: seq<Received>)
    ensures StateGraph(ctx, cert, received) == Passes(ctx, cert, Seed(cert, received), Worklist(received))
  {
  }

  /** Its parent is the genesis state or a payment reached from it. */
  ghost predicate Rooted(ctx: TrustContext, cert: Certificate, received: seq<Received>, c: Credential)
  {
    c.previousState == RootOf(cert) || Reached(ctx, cert, Unique(received), c.previousState)
  }

  /** Each distinct credential ends up exactly once in exactly one place. It is an edge if it is a
      valid transition from a reached state and the wrapper kept for it, a duplicate naming the kept
      wrapper if it is another one, and otherwise rejected with the reason validation gives or, when
      its parent is never reached, INVALID_PARENT. */
  lemma EachAccountedOnce(ctx: TrustContext, cert: Certificate, received: seq<Received>, c: Credential, k: nat, code: ErrorCode)
    requires c in Unique(received)
    ensures var g, all := StateGraph(ctx, cert, received), Unique(received);
      var valid := Rooted(ctx, cert, received, c) && Sound(ctx, cert, c);
      && (EdgeOf(c) in g.edges <==> valid && c.hash == Kept(ctx, cert, all, c.newState))
      && (g.duplicates[Duplicate(c.hash, k, DuplicateStateEdge)]
          == if valid && k == Kept(ctx, cert, all, c.newState) != c.hash then 1 else 0)
      && (g.invalid[Invalid(c.hash, code)]
          == if (if Rooted(ctx, cert, received, c) then Verdict(ctx, cert, c) == Refused(code) else code == InvalidParent)
             then 1 else 0)
  {
    var g, all := StateGraph(ctx, cert, received), Unique(received);
    GraphSettled(ctx, cert, received);
    GraphIsReachable(ctx, cert, received, c.previousState);
    hide StateGraph, Unique, Sound, Reached, Kept, Final;
    if Rooted(ctx, cert, received, c) && Sound(ctx, cert, c) {
      SoundFacts(ctx, cert, c);
      ValidNode(ctx, cert, all, g, c);
    }
    EdgeIff(ctx, cert, all, g, c);
    DuplicateIff(ctx, cert, all, g, c, k);
    RejectedIff(ctx, cert, all, g, c, code);
  }

  lemma ValidNode(ctx: TrustContext, cert: Certificate, all: set<Credential>, g: Build, c: Credential)
    requires Final(ctx, cert, all, g) && c in all && c.previousState in g.nodes && Sound(ctx, cert, c)
    ensures c.newState in g.nodes && c.newState.Payment? && IdOf(c.newState) in g.accepted && c.newState != RootOf(cert)
    ensures AcceptedHash(cert, g, c.newState) == Kept(ctx, cert, all, c.newState)
  {
    SoundFacts(ctx, cert, c);
    assert NodesOk(cert, g) && KeptOk(ctx, cert, all, g);
    hide Sound, Kept, WrapperHashes;
  }

  lemma EdgeIff(ctx: TrustContext, cert: Certificate, all: set<Credential>, g: Build, c: Credential)
    requires Reconciled(ctx, cert, all, g) && Final(ctx, cert, all, g) && Faithful(all) && c in all
    ensures EdgeOf(c) in g.edges
       <==> c.previousState in g.nodes && Sound(ctx, cert, c) && c.hash == Kept(ctx, cert, all, c.newState)
  {
    assert EdgesOk(ctx, cert, all, g) && EdgeListOk(g.accepted, g.edges) && NodesOk(cert, g) && KeptOk(ctx, cert, all, g);
    if EdgeOf(c) in g.edges {
      var i :| 0 <= i < |g.edges| && g.edges[i] == EdgeOf(c);
      var id :| id in g.accepted && g.accepted[id] == g.edges[i];
      var d :| d in all && Sound(ctx, cert, d) && g.accepted[id] == EdgeOf(d);
      assert d == c;
      SoundFacts(ctx, cert, c);
      assert id == IdOf(c.newState);
      hide Kept, Sound;
    }
    if c.previousState in g.nodes && Sound(ctx, cert, c) && c.hash == Kept(ctx, cert, all, c.newState) {
      ValidNode(ctx, cert, all, g, c);
      var id := IdOf(c.newState);
      var d :| d in all && Sound(ctx, cert, d) && g.accepted[id] == EdgeOf(d);
      assert d == c;
      hide Kept, Sound;
    }
  }

  lemma DuplicateIff(ctx: TrustContext, cert: Certificate, all: set<Credential>, g: Build, c: Credential, k: nat)
    requires Reconciled(ctx, cert, all, g) && Final(ctx, cert, all, g) && Faithful(all) && c in all
    ensures g.duplicates[Duplicate(c.hash, k, DuplicateStateEdge)]
         == if c.previousState in g.nodes && Sound(ctx, cert, c) && k == Kept(ctx, cert, all, c.newState) != c.hash then 1 else 0
  {
    assert NodesOk(cert, g) && DuplicatesOk(ctx, cert, all, g);
    if RepeatsEdge(ctx, cert, all, g, c.hash, k) {
      assert Sound(ctx, cert, c) && c.newState in g.nodes && c.newState != RootOf(cert)
             && AcceptedHash(cert, g, c.newState) == k && k != c.hash;
      SoundFacts(ctx, cert, c);
      assert KeptOk(ctx, cert, all, g);
      hide Kept, Sound;
    }
    if c.previousState in g.nodes && Sound(ctx, cert, c) { ValidNode(ctx, cert, all, g, c); }
    hide Kept, Sound, NodesOk, Reconciled, Final, RootOf;
  }

  lemma RejectedIff(ctx: TrustContext, cert: Certificate, all: set<Credential>, g: Build, c: Credential, code: ErrorCode)
    requires Reconciled(ctx, cert, all, g) && Faithful(all) && c in all
    ensures g.invalid[Invalid(c.hash, code)]
         == if (if c.previousState in g.nodes then Verdict(ctx, cert, c) == Refused(code) else code == InvalidParent) then 1 else 0
  {
    hide Verdict, NodesOk, EdgesOk, DuplicatesOk;
    assert RejectedAs(ctx, cert, all, g, c.hash, code)
      <==> if c.previousState in g.nodes then Verdict(ctx, cert, c) == Refused(code) else code == InvalidParent;
  }

  /** STATE_HASH_COLLISION never happens. */
  lemma NoCollision(ctx: TrustContext, cert: Certificate, received: seq<Received>, h: nat)
    ensures StateGraph(ctx, cert, received).invalid[Invalid(h, StateHashCollision)] == 0
  {
    GraphSettled(ctx, cert, received);
    var g, all := StateGraph(ctx, cert, received), Unique(received);
    hide StateGraph, Unique, NodesOk, EdgesOk, DuplicatesOk;
    assert !RejectedAs(ctx, cert, all, g, h, StateHashCollision);
  }

  // ----- Input order -----

  /** Equal hashes come from equal credentials. */
  ghost predicate CollisionFree(received: seq<Received>)
  {
    forall i, j ::
      (&& 0 <= i < |received| && 0 <= j < |received| && received[i].Readable? && received[j].Readable?
       && received[i].credential.hash == received[j].credential.hash) ==> received[i] == received[j]
  }

  lemma {:induction false} DistinctIs(received: seq<Received>, h: nat)
    requires CollisionFree(received)
    ensures h in Distinct(received) <==> exists c: Credential :: Readable(c) in received && c.hash == h
    ensures h in Distinct(received) ==> Readable(Distinct(received)[h]) in received && Distinct(received)[h].hash == h
  {
    if received != [] {
      var before, last := received[..|received| - 1], received[|received| - 1];
      DistinctIs(before, h);
      assert forall x :: x in received <==> x in before || x == last;
      hide CollisionFree;
      if last.Readable? { assert Readable(last.credential) in received; }
    }
  }

  lemma SameDistinct(received: seq<Received>, other: seq<Received>)
    requires CollisionFree(received) && CollisionFree(other) && multiset(received) == multiset(other)
    ensures Distinct(received) == Distinct(other)
  {
    assert forall x :: x in received <==> x in multiset(received);
    assert forall x :: x in other <==> x in multiset(other);
    forall h ensures h in Distinct(received) <==> h in Distinct(other) {
      DistinctIs(received, h);
      DistinctIs(other, h);
    }
    forall h | h in Distinct(received) ensures Distinct(received)[h] == Distinct(other)[h] {
      DistinctIs(received, h);
      DistinctIs(other, h);
      var a, b := Readable(Distinct(received)[h]), Readable(Distinct(other)[h]);
      assert a in received && b in received;
    }
    hide Distinct;
  }

  lemma {:induction false} UnreadableCount(received: seq<Received>, id: nat, code: ErrorCode)
    ensures Unreadables(received)[Unreadable(id, code)] == multiset(received)[Malformed(id, code)]
  {
    if received != [] {
      UnreadableCount(received[..|received| - 1], id, code);
      assert received == received[..|received| - 1] + [received[|received| - 1]];
    }
  }

  lemma SameUnreadables(received: seq<Received>, other: seq<Received>)
    requires multiset(received) == multiset(other)
    ensures Unreadables(received) == Unreadables(other)
  {
    forall x: Rejection ensures Unreadables(received)[x] == Unreadables(other)[x] {
      match x
      case Unreadable(id, code) => UnreadableCount(received, id, code); UnreadableCount(other, id, code);
      case Invalid(h, code) => OnlyUnreadable(received, h, code); OnlyUnreadable(other, h, code);
    }
  }

  /** All but one of the copies of a credential are duplicates. */
  lemma {:induction false} RepeatCount(received: seq<Received>, x: Duplicate)
    requires CollisionFree(received)
    ensures if x.reason.DuplicateCredential? && x.hash == x.canonical && x.hash in Distinct(received)
            then Repeats(received)[x] + 1 == multiset(received)[Readable(Distinct(received)[x.hash])]
            else Repeats(received)[x] == 0
  {
    if received != [] {
      var before, last := received[..|received| - 1], received[|received| - 1];
      assert received == before + [last];
      RepeatCount(before, x);
      DistinctIs(before, x.hash);
      DistinctIs(received, x.hash);
      LastAdds(received, x.hash);
      if last.Readable? && last.credential.hash == x.hash && x.hash in Distinct(before) {
        assert Readable(Distinct(before)[x.hash]) in received;
        assert Readable(Distinct(before)[x.hash]) == last;
      }
      if last.Readable? && last.credential.hash == x.hash && x.hash !in Distinct(before) {
        assert last !in before;
      }
      hide CollisionFree;
    }
  }

  lemma LastAdds(received: seq<Received>, h: nat)
    requires received != []
    ensures var before, last := received[..|received| - 1], received[|received| - 1];
      && (h in Distinct(received) <==> h in Distinct(before) || (last.Readable? && last.credential.hash == h))
      && (h in Distinct(before) ==> Distinct(received)[h] == Distinct(before)[h])
      && (h in Distinct(received) && h !in Distinct(before) ==> Readable(Distinct(received)[h]) == last)
  {
  }

  /** The whole result, list by list, is the same for every order in which the credentials arrive. */
  lemma InputOrderIrrelevant(ctx: TrustContext, cert: Certificate, received: seq<Received>, other: seq<Received>)
    requires CollisionFree(received) && multiset(received) == multiset(other)
    ensures StateGraph(ctx, cert, received) == StateGraph(ctx, cert, other)
  {
    assert forall x :: x in received <==> x in multiset(received);
    assert forall x :: x in other <==> x in multiset(other);
    assert forall i :: 0 <= i < |other| ==> other[i] in received;
    assert CollisionFree(other);
    SameDistinct(received, other);
    SameUnreadables(received, other);
    forall x: Duplicate ensures Repeats(received)[x] == Repeats(other)[x] {
      RepeatCount(received, x);
      RepeatCount(other, x);
    }
    assert Repeats(received) == Repeats(other);
    hide Distinct, Unreadables, Repeats, Passes, CollisionFree;
    assert Seed(cert, received) == Seed(cert, other);
    assert Worklist(received) == Worklist(other);
  }

  // ----- The tree -----

  function Depth(e: StateHash): nat { if e.Payment? then 1 + Depth(e.prev) else 0 }

  function PathSum(e: StateHash): nat { if e.Payment? then e.amount + PathSum(e.prev) else 0 }

  lemma {:induction false} TreePaths(root: StateHash, limit: nat, maxDepth: nat, states: set<StateHash>, e: StateHash)
    requires Tree(root, limit, maxDepth, states) && e in states
    ensures e.Payment? && e.sequence == Depth(e) && e.newRemaining + PathSum(e) == limit
    decreases e
  {
    assert Linked(root, limit, maxDepth, states, e);
    if e.sequence != 1 { TreePaths(root, limit, maxDepth, states, e.prev); }
  }

  lemma {:induction false} ReachedLinked(ctx: TrustContext, cert: Certificate, all: set<Credential>, e: StateHash)
    requires Reached(ctx, cert, all, e)
    ensures e.sequence <= cert.maxDepth && 0 < e.sequence && 0 < e.amount <= e.previousRemaining
    ensures e.newRemaining == e.previousRemaining - e.amount
    ensures if e.sequence == 1 then e.prev == RootOf(cert) && e.previousRemaining == cert.limit
            else Reached(ctx, cert, all, e.prev) && e.prev.sequence + 1 == e.sequence
                 && e.prev.newRemaining == e.previousRemaining
    decreases e
  {
    var c :| c in all && c.newState == e && Sound(ctx, cert, c);
    SoundFacts(ctx, cert, c);
    if e.prev != RootOf(cert) { ReachedLinked(ctx, cert, all, e.prev); }
  }

  /** The payments in the graph form a tree of legal payments below the genesis state: every node's
      sequence is its depth and its balance is the limit less what its path spends. */
  lemma GraphIsTree(ctx: TrustContext, cert: Certificate, received: seq<Received>, e: StateHash)
    ensures var states := StateGraph(ctx, cert, received).nodes.Keys - {RootOf(cert)};
      && Tree(RootOf(cert), cert.limit, cert.maxDepth, states)
      && (e in states ==> e.sequence == Depth(e) && e.newRemaining + PathSum(e) == cert.limit)
  {
    var g, all := StateGraph(ctx, cert, received), Unique(received);
    var states := g.nodes.Keys - {RootOf(cert)};
    forall d | d in states ensures Linked(RootOf(cert), cert.limit, cert.maxDepth, states, d) {
      NodeLinked(ctx, cert, received, d);
    }
    hide StateGraph, Unique, RootOf, Linked;
    assert RootOf(cert).Genesis? by { RootIsGenesis(cert); }
    if e in states { TreePaths(RootOf(cert), cert.limit, cert.maxDepth, states, e); }
  }

  lemma RootIsGenesis(cert: Certificate)
    ensures RootOf(cert).Genesis?
  {
  }

  lemma NodeLinked(ctx: TrustContext, cert: Certificate, received: seq<Received>, d: StateHash)
    requires d in StateGraph(ctx, cert, received).nodes && d != RootOf(cert)
    ensures Linked(RootOf(cert), cert.limit, cert.maxDepth, StateGraph(ctx, cert, received).nodes.Keys - {RootOf(cert)}, d)
  {
    GraphIsReachable(ctx, cert, received, d);
    hide StateGraph, Unique;
    ReachedLinked(ctx, cert, Unique(received), d);
    RootIsGenesis(cert);
    if d.sequence != 1 { GraphIsReachable(ctx, cert, received, d.prev); }
  }

  /** Every accepted edge says what the state it leads to commits to: parent, sequence, payee and amount;
      and it carries the hash of a received credential for exactly that payment. */
  lemma EdgesCommit(ctx: TrustContext, cert: Certificate, received: seq<Received>, id: Identity)
    requires id in StateGraph(ctx, cert, received).accepted
    ensures id.child.Payment?
    ensures var x, e := StateGraph(ctx, cert, received).accepted[id], id.child;
      && x.child == e && x.parent == e.prev == id.parent && x.sequence == e.sequence == id.sequence
      && x.merchant == e.merchant && x.amount == e.amount
      && x in StateGraph(ctx, cert, received).edges
      && exists c :: c in Unique(received) && c.hash == x.credentialHash && c.merchant == x.merchant && c.amount == x.amount
                     && e == Payment(c.previousState, c.sequence, c.merchant, c.amount, c.challenge, c.previousRemaining, c.newRemaining)
  {
    var g, all := StateGraph(ctx, cert, received), Unique(received);
    GraphSettled(ctx, cert, received);
    assert NodesOk(cert, g) && EdgesOk(ctx, cert, all, g) && EdgeListOk(g.accepted, g.edges);
    var c :| c in all && Sound(ctx, cert, c) && g.accepted[id] == EdgeOf(c);
    SoundFacts(ctx, cert, c);
    hide StateGraph, Unique, Sound, Reconciled, Final, RootOf, NodeOf;
  }

  /** The edge list holds the accepted edges, each state once. */
  lemma EdgesListed(ctx: TrustContext, cert: Certificate, received: seq<Received>, i: nat) returns (id: Identity)
    requires i < |StateGraph(ctx, cert, received).edges|
    ensures id in StateGraph(ctx, cert, received).accepted
    ensures StateGraph(ctx, cert, received).accepted[id] == StateGraph(ctx, cert, received).edges[i]
    ensures forall j :: 0 <= j < i ==> StateGraph(ctx, cert, received).edges[j].child != id.child
  {
    var g, all := StateGraph(ctx, cert, received), Unique(received);
    GraphSettled(ctx, cert, received);
    assert NodesOk(cert, g) && EdgesOk(ctx, cert, all, g) && EdgeListOk(g.accepted, g.edges);
    assert forall k :: k in g.accepted ==> g.accepted[k].child == k.child;
    hide StateGraph, Unique, Sound, Reconciled, Final, NodesOk, EdgesOk;
    id := ListedAt(g.accepted, g.edges, i);
  }

  lemma ListedAt(accepted: map<Identity, StateEdge>, edges: seq<StateEdge>, i: nat) returns (id: Identity)
    requires EdgeListOk(accepted, edges) && i < |edges|
    ensures id in accepted && accepted[id] == edges[i] && forall j :: 0 <= j < i ==> edges[j].child != edges[i].child
  {
    var x := edges[i];
    id :| id in accepted && accepted[id] == x;
  }

  /** Every node holds its depth and what is left of the limit on the way to it. */
  lemma NodesHold(ctx: TrustContext, cert: Certificate, received: seq<Received>, e: StateHash)
    requires e in StateGraph(ctx, cert, received).nodes
    ensures var n := StateGraph(ctx, cert, received).nodes[e];
      n.state == e && n.sequence == Depth(e) && n.remaining + PathSum(e) == cert.limit
  {
    var g := StateGraph(ctx, cert, received);
    GraphSettled(ctx, cert, received);
    GraphIsTree(ctx, cert, received, e);
    assert g.nodes[e] == NodeOf(cert, e) by { assert NodesOk(cert, g); }
    RootIsGenesis(cert);
    hide StateGraph, Unique, Sound, Reconciled, Final, RootOf, Linked, Faithful;
  }

  // ----- Repeated and unreadable credentials -----

  lemma {:induction false} PassLeaves(ctx: TrustContext, cert: Certificate, g: Build, pending: seq<Credential>, x: Duplicate, y: Rejection)
    requires x.reason.DuplicateCredential? && y.Unreadable?
    ensures Pass(ctx, cert, g, pending).0.duplicates[x] == g.duplicates[x]
    ensures Pass(ctx, cert, g, pending).0.invalid[y] == g.invalid[y]
    decreases |pending|
  {
    hide VerifyStateTransition;
    if pending != [] {
      if pending[0].previousState in g.nodes {
        PassLeaves(ctx, cert, Consider(ctx, cert, g, pending[0]), pending[1..], x, y);
      } else {
        PassLeaves(ctx, cert, g, pending[1..], x, y);
      }
    }
  }

  lemma {:induction false} OrphansReadable(pending: seq<Credential>, y: Rejection)
    requires y.Unreadable?
    ensures Orphaned(pending)[y] == 0
  {
    if pending != [] { OrphansReadable(pending[1..], y); }
  }

  lemma {:induction false} PassesLeave(ctx: TrustContext, cert: Certificate, g: Build, pending: seq<Credential>, x: Duplicate, y: Rejection)
    requires x.reason.DuplicateCredential? && y.Unreadable?
    ensures Passes(ctx, cert, g, pending).duplicates[x] == g.duplicates[x]
    ensures Passes(ctx, cert, g, pending).invalid[y] == g.invalid[y]
    decreases |pending|
  {
    hide Pass, Orphaned;
    if pending != [] {
      var next := Pass(ctx, cert, g, pending);
      PassLeaves(ctx, cert, g, pending, x, y);
      OrphansReadable(next.1, y);
      if |next.1| != |pending| { PassesLeave(ctx, cert, next.0, next.1, x, y); }
    }
  }

  /** Of several copies of one credential all but one are listed as its duplicates, and every credential
      that does not encode is listed with its own error. */
  lemma RepeatsListed(ctx: TrustContext, cert: Certificate, received: seq<Received>, c: Credential, id: nat, code: ErrorCode)
    requires CollisionFree(received) && c in Unique(received)
    ensures var g := StateGraph(ctx, cert, received);
      && g.duplicates[Duplicate(c.hash, c.hash, DuplicateReason.DuplicateCredential)] + 1 == multiset(received)[Readable(c)]
      && g.invalid[Unreadable(id, code)] == multiset(received)[Malformed(id, code)]
  {
    var x, y := Duplicate(c.hash, c.hash, DuplicateReason.DuplicateCredential), Unreadable(id, code);
    RepeatCount(received, x);
    UnreadableCount(received, id, code);
    UniqueAt(received, c);
    assert Seed(cert, received).duplicates == Repeats(received) && Seed(cert, received).invalid == Unreadables(received);
    GraphIs(ctx, cert, received);
    hide *;
    PassesLeave(ctx, cert, Seed(cert, received), Worklist(received), x, y);
  }

  lemma UniqueAt(received: seq<Received>, c: Credential)
    requires c in Unique(received)
    ensures c.hash in Distinct(received) && Distinct(received)[c.hash] == c
  {
    DistinctHashes(received);
    hide Distinct;
  }

  // ----- Which wrapper is kept -----

  /** The wrapper kept for a payment is the least one, as on-chain, exactly when the payment is a
      first one, or no wrapper comes after the one kept for its parent, or all of them do. */
  lemma KeepsLeastIff(ctx: TrustContext, cert: Certificate, received: seq<Received>, e: StateHash)
    requires Reached(ctx, cert, Unique(received), e)
    ensures var all := Unique(received);
      var ws, parent := WrapperHashes(ctx, cert, all, e), Kept(ctx, cert, all, e.prev);
      && ws != {}
      && (StateGraph(ctx, cert, received).accepted.Keys >= {IdOf(e)})
      && (StateGraph(ctx, cert, received).accepted[IdOf(e)].credentialHash == Min(ws)
          <==> e.prev == RootOf(cert) || (forall h :: h in ws ==> h <= parent) || (forall h :: h in ws ==> parent < h))
  {
    var all := Unique(received);
    var ws := WrapperHashes(ctx, cert, all, e);
    GraphIsReachable(ctx, cert, received, e);
    var c :| c in all && c.newState == e && Sound(ctx, cert, c) && c.hash == Kept(ctx, cert, all, e);
    assert c.hash in ws;
    hide Sound, Unique, StateGraph, Reached, WrapperHashes;
    var parent := Kept(ctx, cert, all, e.prev);
    var later := Above(ws, parent);
    assert later != {} ==> Min(later) in later;
    assert forall h :: h in ws && parent < h ==> h in later;
    assert Min(ws) in ws;
  }

  function SampleContext(): TrustContext { TrustContext(Config(1, 2, 3, 4), 5, 6) }

  function SampleCertificate(): Certificate
  {
    Certificate(Domain(1, SESSION_CERTIFICATE_OBJECT_TYPE, 2, 3, 4, 5), 5, 7, 8, 9, 10, 30, 30, 32, 0, 100,
                100 + CLAIM_GRACE_PERIOD_SECONDS, Root(Terms(5, 7, 8, 10, 30, 32, 0, 100, 100 + CLAIM_GRACE_PERIOD_SECONDS)),
                0, 6, true)
  }

  /** A payment of one unit from a parent state, delivered to one of the merchant's devices. */
  function SamplePayment(parent: ParentState, merchantDevice: nat, hash: nat): Credential
    requires 0 < parent.remaining
  {
    var state := Payment(parent.state, parent.sequence + 1, 11, 1, 1, parent.remaining, parent.remaining - 1);
    Credential(Domain(1, PAYMENT_CREDENTIAL_OBJECT_TYPE, 2, 3, 4, 5), 5, parent.sequence + 1, 7, 8, 11, merchantDevice, 1,
               parent.state, state, parent.remaining, parent.remaining - 1, 1, 50, 100, hash, true)
  }

  /** The hashes lie on one side of another. */
  predicate OneSided(hashes: set<nat>, h: nat)
  {
    (forall k :: k in hashes ==> k <= h) || (forall k :: k in hashes ==> h < k)
  }

  /** Of every later payment, either no wrapper comes after the least wrapper of the payment before it,
      or all of them do. This can be read off the credentials before any graph is built. */
  ghost predicate Aligned(ctx: TrustContext, cert: Certificate, received: seq<Received>)
  {
    var all := Unique(received);
    forall e :: Reached(ctx, cert, all, e) && e.prev != RootOf(cert) ==>
      WrapperHashes(ctx, cert, all, e.prev) != {}
      && OneSided(WrapperHashes(ctx, cert, all, e), Min(WrapperHashes(ctx, cert, all, e.prev)))
  }

  /** The least wrapper is the one kept. */
  ghost predicate KeptLeast(ctx: TrustContext, cert: Certificate, all: set<Credential>, e: StateHash)
  {
    WrapperHashes(ctx, cert, all, e) != {} && Kept(ctx, cert, all, e) == Min(WrapperHashes(ctx, cert, all, e))
  }

  lemma {:induction false} AlignedKeepsLeast(ctx: TrustContext, cert: Certificate, received: seq<Received>, e: StateHash)
    requires Aligned(ctx, cert, received) && Reached(ctx, cert, Unique(received), e)
    ensures KeptLeast(ctx, cert, Unique(received), e)
    decreases e
  {
    var all := Unique(received);
    KeepsLeastIff(ctx, cert, received, e);
    GraphIsReachable(ctx, cert, received, e);
    if e.prev != RootOf(cert) {
      AlignedKeepsLeast(ctx, cert, received, e.prev);
      hide StateGraph, Unique, WrapperHashes, Kept, RootOf;
      assert OneSided(WrapperHashes(ctx, cert, all, e), Min(WrapperHashes(ctx, cert, all, e.prev)));
    }
  }

  /** The graph keeps the least wrapper of every payment exactly on aligned credentials. */
  lemma LeastKeptIff(ctx: TrustContext, cert: Certificate, received: seq<Received>)
    ensures Aligned(ctx, cert, received)
       <==> forall e :: Reached(ctx, cert, Unique(received), e) ==> KeptLeast(ctx, cert, Unique(received), e)
  {
    var all := Unique(received);
    if Aligned(ctx, cert, received) {
      forall e | Reached(ctx, cert, all, e) ensures KeptLeast(ctx, cert, all, e) { AlignedKeepsLeast(ctx, cert, received, e); }
    }
    if forall e :: Reached(ctx, cert, all, e) ==> KeptLeast(ctx, cert, all, e) {
      forall e | Reached(ctx, cert, all, e) && e.prev != RootOf(cert)
        ensures WrapperHashes(ctx, cert, all, e.prev) != {}
        ensures OneSided(WrapperHashes(ctx, cert, all, e), Min(WrapperHashes(ctx, cert, all, e.prev)))
      {
        assert Reached(ctx, cert, all, e.prev);
        assert KeptLeast(ctx, cert, all, e.prev) && KeptLeast(ctx, cert, all, e);
        LeastMeansOneSided(ctx, cert, received, e);
      }
    }
  }

  lemma LeastMeansOneSided(ctx: TrustContext, cert: Certificate, received: seq<Received>, e: StateHash)
    requires Reached(ctx, cert, Unique(received), e) && e.prev != RootOf(cert)
    requires KeptLeast(ctx, cert, Unique(received), e) && KeptLeast(ctx, cert, Unique(received), e.prev)
    ensures OneSided(WrapperHashes(ctx, cert, Unique(received), e), Min(WrapperHashes(ctx, cert, Unique(received), e.prev)))
  {
    KeepsLeastIff(ctx, cert, received, e);
    GraphIsReachable(ctx, cert, received, e);
    hide StateGraph, Unique, WrapperHashes, Kept, RootOf;
  }

  /** Two wrappers A and B of a second payment whose first payment is X, with A < X < B: the graph
      keeps B although A is less, because A is deferred until X is accepted and B follows at once. */
  lemma KeepsGreaterWrapper()
    ensures exists ctx, cert, auth, received, e :: KeepsOther(ctx, cert, auth, received, e)
  {
    var ctx, cert, a, x, b := Samples();
    SampleUnique(a, x, b);
    SampleAccepted();
    hide *;
    SampleKept(ctx, cert, SampleAuthorization(), [Readable(a), Readable(x), Readable(b)], a, x, b);
  }

  function SampleAuthorization(): Authorization
  {
    Authorization(Domain(1, DEVICE_AUTHORIZATION_OBJECT_TYPE, 2, 3, 4, 5), 5, 7, 8, 9, 10, 30, 32, 0, 100, 0, true)
  }

  lemma SampleAccepted()
    ensures ValidateCertificateChain(SampleContext(), SampleCertificate(), SampleAuthorization()).Accepted?
    ensures SampleCertificate().genesis == Root(TermsOf(SampleCertificate()))
  {
  }

  lemma Samples() returns (ctx: TrustContext, cert: Certificate, a: Credential, x: Credential, b: Credential)
    ensures ctx == SampleContext() && cert == SampleCertificate()
    ensures Sound(ctx, cert, a) && Sound(ctx, cert, x) && Sound(ctx, cert, b)
    ensures a.hash == 1 && x.hash == 2 && b.hash == 3 && a.newState == b.newState != x.newState
    ensures x.previousState == RootOf(cert) && a.previousState == b.previousState == x.newState
    ensures x.amount == a.amount == b.amount == 1
  {
    ctx, cert := SampleContext(), SampleCertificate();
    x := SamplePayment(GenesisParent(cert), 1, 2);
    a, b := SamplePayment(ParentState(x.newState, 1, 9), 1, 1), SamplePayment(ParentState(x.newState, 1, 9), 2, 3);
    SamplesSound(1, 1);
    SamplesSound(2, 3);
    hide *;
  }

  lemma SamplesSound(device: nat, hash: nat)
    ensures var ctx, cert := SampleContext(), SampleCertificate();
      GenesisParent(cert).remaining == 10 &&
      var x := SamplePayment(GenesisParent(cert), 1, 2);
      var a := SamplePayment(ParentState(x.newState, 1, 9), device, hash);
      && Sound(ctx, cert, x) && Sound(ctx, cert, a) && x.previousState == RootOf(cert) && x.hash == 2 && a.hash == hash
      && a.previousState == x.newState != a.newState
      && a.newState == Payment(x.newState, 2, 11, 1, 1, 9, 8) && x.amount == a.amount == 1
  {
  }

  /** An input buildStateGraph takes, of which it keeps a wrapper of e that is not the least one. */
  ghost predicate KeepsOther(ctx: TrustContext, cert: Certificate, auth: Authorization, received: seq<Received>, e: StateHash)
  {
    var ws := WrapperHashes(ctx, cert, Unique(received), e);
    && ValidateCertificateChain(ctx, cert, auth).Accepted? && cert.genesis == Root(TermsOf(cert))
    && CollisionFree(received) && Reached(ctx, cert, Unique(received), e)
    && IdOf(e) in StateGraph(ctx, cert, received).accepted && ws != {}
    && StateGraph(ctx, cert, received).accepted[IdOf(e)].credentialHash > Min(ws)
  }

  lemma SampleKept(ctx: TrustContext, cert: Certificate, auth: Authorization, received: seq<Received>, a: Credential, x: Credential, b: Credential)
    requires ValidateCertificateChain(ctx, cert, auth).Accepted? && cert.genesis == Root(TermsOf(cert))
    requires CollisionFree(received) && Unique(received) == {a, x, b}
    requires Sound(ctx, cert, a) && Sound(ctx, cert, x) && Sound(ctx, cert, b)
    requires a.hash == 1 && x.hash == 2 && b.hash == 3 && a.newState == b.newState != x.newState
    requires x.previousState == RootOf(cert) && a.previousState == b.previousState == x.newState
    ensures KeepsOther(ctx, cert, auth, received, a.newState)
  {
    var all, e := Unique(received), a.newState;
    SoundFacts(ctx, cert, a);
    SoundFacts(ctx, cert, x);
    hide Sound, Unique, StateGraph, RootOf;
    assert x in all && a in all && b in all;
    assert Reached(ctx, cert, all, x.newState);
    assert Reached(ctx, cert, all, e);
    SampleWrappers(ctx, cert, all, a, x, b);
    hide WrapperHashes, Kept, Reached;
    KeepsLeastIff(ctx, cert, received, e);
    GraphIsReachable(ctx, cert, received, e);
    var ws := WrapperHashes(ctx, cert, all, e);
    assert 1 in ws && 3 in ws;
    KeptAmong(ctx, cert, all, e);
  }

  lemma KeptAmong(ctx: TrustContext, cert: Certificate, all: set<Credential>, e: StateHash)
    requires WrapperHashes(ctx, cert, all, e) != {}
    ensures Kept(ctx, cert, all, e) in WrapperHashes(ctx, cert, all, e)
    ensures Min(WrapperHashes(ctx, cert, all, e)) <= Kept(ctx, cert, all, e)
  {
    var ws := WrapperHashes(ctx, cert, all, e);
    hide WrapperHashes;
    assert e.Payment? ==> Above(ws, Kept(ctx, cert, all, e.prev)) <= ws;
  }

  lemma SampleUnique(a: Credential, x: Credential, b: Credential)
    requires a.hash == 1 && x.hash == 2 && b.hash == 3
    ensures Unique([Readable(a), Readable(x), Readable(b)]) == {a, x, b}
    ensures CollisionFree([Readable(a), Readable(x), Readable(b)])
  {
    var r := [Readable(a), Readable(x), Readable(b)];
    assert r[..2] == [Readable(a), Readable(x)];
    assert r[..2][..1] == [Readable(a)];
    assert r[..2][..1][..0] == [];
    assert Distinct(r[..2][..1]) == map[1 := a];
    assert Distinct(r[..2]) == map[1 := a, 2 := x];
    var d := Distinct(r);
    assert d == map[1 := a, 2 := x, 3 := b];
    assert d[1] in d.Values && d[2] in d.Values && d[3] in d.Values;
  }

  lemma SampleWrappers(ctx: TrustContext, cert: Certificate, all: set<Credential>, a: Credential, x: Credential, b: Credential)
    requires all == {a, x, b} && Sound(ctx, cert, a) && Sound(ctx, cert, x) && Sound(ctx, cert, b)
    requires a.hash == 1 && x.hash == 2 && b.hash == 3 && a.newState == b.newState != x.newState
    requires x.previousState == RootOf(cert) && a.previousState == b.previousState == x.newState
    ensures WrapperHashes(ctx, cert, all, a.newState) == {1, 3} && WrapperHashes(ctx, cert, all, x.newState) == {2}
    ensures Kept(ctx, cert, all, x.newState) == 2
  {
    SoundFacts(ctx, cert, x);
    hide Sound;
    assert a in all && x in all && b in all;
    assert 1 in WrapperHashes(ctx, cert, all, a.newState) && 3 in WrapperHashes(ctx, cert, all, a.newState);
    assert 2 in WrapperHashes(ctx, cert, all, x.newState);
    assert WrapperHashes(ctx, cert, all, x.newState) == {2};
  }
}
