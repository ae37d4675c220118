/** The off-chain reconciliation of what was submitted agrees with the program: same payments, same
    exposure, same conflicts, and the same payouts exactly on aligned credentials. */
module Agreement {
  import opened Collections
  import opened ProRata
  import opened States
  import opened Protocol
  import opened Invariants
  import opened Accounts
  import opened Runs
  import opened Confluence
  import opened FinalizationViews
  import opened Leaves
  import opened Credentials
  import opened OfflineLedger
  import opened StateGraphs
  import opened GraphAccounts
  import opened GraphTheorems
  import Reconciliation
  import Allocation

  /** The certificate describes the session and was issued in its environment. */
  ghost predicate Describes(ctx: TrustContext, cert: Certificate, w: World, sid: nat)
  {
    && sid in w.sessions && ctx.config == w.config && ctx.sessionId == sid
    && TermsOf(cert) == w.sessions[sid].terms && TrustedCertificate(ctx, cert)
  }

  lemma DescribesStays(ctx: TrustContext, cert: Certificate, w: World, sid: nat, a: Action)
    requires Describes(ctx, cert, w, sid) && Enabled(w, a)
    ensures Describes(ctx, cert, Next(w, a), sid)
  {
    BookAfter(w, a, sid);
    ConfigStays(w, a);
    hide Enabled, Next;
  }

  lemma ConfigStays(w: World, a: Action)
    requires Enabled(w, a)
    ensures Next(w, a).config == w.config
  {
    hide CanCreate, CanSubmit, CanClassify, CanAllocate, CanSettle, CanClose, CanBegin, Owed, Claims, MakesFork, Filed,
         Begun, Scanned, SettledOne, ReleaseSurplus, Rep, Successful;
  }

  /** A filed payment continues the node its parent hash stands for, within the session's bounds. */
  lemma FiledFollows(cert: Certificate, s: Session, c: Credential)
    requires BookOk(s) && s.terms == TermsOf(cert) && c.newState in s.filed.Values && c.newState == Successor(c)
    ensures Follows(NodeOf(cert, c.previousState), c)
    ensures NodeOf(cert, c.previousState).sequence <= cert.maxDepth && NodeOf(cert, c.previousState).remaining <= cert.limit
  {
    var e := c.newState;
    assert Linked(Root(s.terms), s.terms.limit, s.terms.maxDepth, s.filed.Values, e);
    if e.sequence != 1 {
      RemainingWithin(Root(s.terms), s.terms.limit, s.terms.maxDepth, s.filed.Values, e.prev);
      assert Linked(Root(s.terms), s.terms.limit, s.terms.maxDepth, s.filed.Values, e.prev);
    }
  }

  /** Every credential the program accepts is a valid transition off-chain. */
  lemma SubmittedSound(ctx: TrustContext, cert: Certificate, w: World, sid: nat, c: Credential, a: SubmitAccounts)
    requires WorldOk(w) && Describes(ctx, cert, w, sid) && CanSubmit(w, sid, c, a)
    ensures Sound(ctx, cert, c)
  {
    var s := w.sessions[sid];
    OpenSession(w, sid);
    BookAfterSubmit(w, sid, c, a);
    var t := Filed(w, s, c);
    PayloadIsBound(ctx, cert, w, sid, c, a);
    hide WorldOk, SessionOk, BookOk, CanSubmit, Filed, SessionIn;
    FiledFollows(cert, t, c);
    BoundFollows(ctx, cert, c);
  }

  lemma PayloadIsBound(ctx: TrustContext, cert: Certificate, w: World, sid: nat, c: Credential, a: SubmitAccounts)
    requires Describes(ctx, cert, w, sid) && CanSubmit(w, sid, c, a)
    ensures Bound(ctx, TermsOf(cert), c) && c.newState == Successor(c)
    ensures Filed(w, w.sessions[sid], c).terms == w.sessions[sid].terms
  {
    hide ParentOk, CountersFit, Rep, PreviousKey, NextKey;
  }

  lemma BoundFollows(ctx: TrustContext, cert: Certificate, c: Credential)
    requires TrustedCertificate(ctx, cert) && Bound(ctx, TermsOf(cert), c) && Follows(NodeOf(cert, c.previousState), c)
    requires NodeOf(cert, c.previousState).sequence <= cert.maxDepth && NodeOf(cert, c.previousState).remaining <= cert.limit
    ensures Sound(ctx, cert, c)
  {
    hide NodeOf;
  }

  lemma {:induction false} RunSound(ctx: TrustContext, cert: Certificate, w: World, run: seq<Action>, sid: nat)
    requires WorldOk(w) && CanRun(w, run) && Describes(ctx, cert, w, sid)
    ensures Describes(ctx, cert, End(w, run), sid)
    ensures forall c :: c in SubmittedIn(run, sid) ==> Sound(ctx, cert, c)
    decreases |run|
  {
    hide WorldOk, Enabled, Next, Describes, Sound;
    if run != [] {
      NextKeeps(w, run[0]);
      DescribesStays(ctx, cert, w, sid, run[0]);
      if run[0].Submit? && run[0].sid == sid { SubmitSound(ctx, cert, w, run[0]); }
      RunSound(ctx, cert, Next(w, run[0]), run[1..], sid);
    }
  }

  lemma SubmitSound(ctx: TrustContext, cert: Certificate, w: World, a: Action)
    requires WorldOk(w) && Enabled(w, a) && a.Submit? && Describes(ctx, cert, w, a.sid)
    ensures Sound(ctx, cert, a.c)
  {
    hide WorldOk, CanSubmit, Describes, Sound;
    SubmittedSound(ctx, cert, w, a.sid, a.c, a.accounts);
  }

  // ----- The graph of what was submitted -----

  /** The credentials received off-chain are those filed on-chain since the session was empty. */
  ghost predicate Mirrored(ctx: TrustContext, cert: Certificate, w: World, run: seq<Action>, sid: nat, received: seq<Received>)
    requires CanRun(w, run)
  {
    && WorldOk(w) && Describes(ctx, cert, w, sid) && w.sessions[sid].filed == map[]
    && Unique(received) == SubmittedIn(run, sid)
  }

  /** Book entries and submitted credentials correspond. */
  ghost predicate Corresponds(ctx: TrustContext, cert: Certificate, all: set<Credential>, s: Session)
  {
    && BookOk(s) && s.terms == TermsOf(cert)
    && (forall c :: c in all ==> Sound(ctx, cert, c) && c.hash in s.filed && s.filed[c.hash] == c.newState)
    && (forall h :: h in s.filed ==> exists c :: c in all && c.hash == h)
  }

  lemma MirrorCorresponds(ctx: TrustContext, cert: Certificate, w: World, run: seq<Action>, sid: nat, received: seq<Received>)
    requires CanRun(w, run) && Mirrored(ctx, cert, w, run, sid, received)
    ensures sid in End(w, run).sessions
    ensures Corresponds(ctx, cert, Unique(received), End(w, run).sessions[sid])
  {
    assert sid in w.sessions && TermsOf(cert) == w.sessions[sid].terms && w.sessions[sid].filed == map[];
    assert Unique(received) == SubmittedIn(run, sid);
    hide *;
    RunSound(ctx, cert, w, run, sid);
    BookIs(w, run, sid);
    RunKeeps(w, run);
    OpenSession(End(w, run), sid);
    MergedCorresponds(ctx, cert, SubmittedIn(run, sid), End(w, run).sessions[sid]);
  }

  lemma MergedCorresponds(ctx: TrustContext, cert: Certificate, all: set<Credential>, s: Session)
    requires SessionOk(s) && s.terms == TermsOf(cert) && Merged(map[], all, s.filed)
    requires forall c :: c in all ==> Sound(ctx, cert, c)
    ensures Corresponds(ctx, cert, all, s)
  {
    hide Sound, BookOk, PhaseOk;
  }

  lemma {:induction false} FiledReached(ctx: TrustContext, cert: Certificate, all: set<Credential>, s: Session, e: StateHash)
    requires Corresponds(ctx, cert, all, s) && e in s.filed.Values
    ensures Reached(ctx, cert, all, e)
    decreases e
  {
    assert Linked(Root(s.terms), s.terms.limit, s.terms.maxDepth, s.filed.Values, e);
    var h :| h in s.filed && s.filed[h] == e;
    var c :| c in all && c.hash == h;
    if e.sequence != 1 { FiledReached(ctx, cert, all, s, e.prev); }
  }

  lemma ReachedFiled(ctx: TrustContext, cert: Certificate, all: set<Credential>, s: Session, e: StateHash)
    requires Corresponds(ctx, cert, all, s) && Reached(ctx, cert, all, e)
    ensures e in s.filed.Values
  {
    var c :| c in all && c.newState == e && Sound(ctx, cert, c);
    assert s.filed[c.hash] == e;
  }

  lemma SameWrappers(ctx: TrustContext, cert: Certificate, all: set<Credential>, s: Session, e: StateHash)
    requires Corresponds(ctx, cert, all, s)
    ensures WrapperHashes(ctx, cert, all, e) == Wrappers(s.filed, e)
  {
    hide Sound, BookOk;
    forall h ensures h in WrapperHashes(ctx, cert, all, e) <==> h in Wrappers(s.filed, e) {
      if h in Wrappers(s.filed, e) {
        var c :| c in all && c.hash == h;
        assert c.newState == e;
      }
    }
  }

  /** The graph's payments are the session's edges, nothing submitted is rejected, and both sides
      see the same total exposure. */
  lemma SamePayments(ctx: TrustContext, cert: Certificate, w: World, run: seq<Action>, sid: nat, received: seq<Received>, c: Credential, code: ErrorCode)
    requires CanRun(w, run) && Mirrored(ctx, cert, w, run, sid, received)
    ensures sid in End(w, run).sessions
    ensures var g, l := StateGraph(ctx, cert, received), View(End(w, run).sessions[sid]);
      && g.nodes.Keys - {RootOf(cert)} == l.edges.Keys
      && l.session.aggregateOfflineExposure == Total(g.nodes.Keys - {RootOf(cert)})
      && (c in Unique(received) ==> g.invalid[Invalid(c.hash, code)] == 0)
  {
    MirrorCorresponds(ctx, cert, w, run, sid, received);
    var s := End(w, run).sessions[sid];
    hide *;
    SamePaymentsOf(ctx, cert, received, s);
    if c in Unique(received) { AllRooted(ctx, cert, received, s, c, code); }
  }

  lemma SamePaymentsOf(ctx: TrustContext, cert: Certificate, received: seq<Received>, s: Session)
    requires Corresponds(ctx, cert, Unique(received), s)
    ensures StateGraph(ctx, cert, received).nodes.Keys - {RootOf(cert)} == View(s).edges.Keys
    ensures View(s).session.aggregateOfflineExposure == Total(View(s).edges.Keys)
  {
    var g := StateGraph(ctx, cert, received);
    hide *;
    forall e ensures e in g.nodes && e != RootOf(cert) <==> e in s.filed.Values {
      NodeIsFiled(ctx, cert, received, s, e);
    }
    BookOf(ctx, cert, Unique(received), s);
    ExposureIsTotal(s.filed);
  }

  lemma NodeIsFiled(ctx: TrustContext, cert: Certificate, received: seq<Received>, s: Session, e: StateHash)
    requires Corresponds(ctx, cert, Unique(received), s)
    ensures e in StateGraph(ctx, cert, received).nodes && e != RootOf(cert) <==> e in s.filed.Values
  {
    var all := Unique(received);
    GraphIsReachable(ctx, cert, received, e);
    hide StateGraph, Unique;
    if e in s.filed.Values {
      FiledReached(ctx, cert, all, s, e);
      RootIsGenesis(cert);
    }
    if Reached(ctx, cert, all, e) { ReachedFiled(ctx, cert, all, s, e); RootIsGenesis(cert); }
    hide Corresponds;
  }

  lemma BookOf(ctx: TrustContext, cert: Certificate, all: set<Credential>, s: Session)
    requires Corresponds(ctx, cert, all, s)
    ensures View(s).edges.Keys == s.filed.Values
    ensures View(s).session.aggregateOfflineExposure == Sum(Eligible(s.filed))
  {
    forall e | e in s.filed.Values ensures e.Payment? {
      assert Linked(Root(s.terms), s.terms.limit, s.terms.maxDepth, s.filed.Values, e);
    }
    hide EdgeView;
  }

  lemma AllRooted(ctx: TrustContext, cert: Certificate, received: seq<Received>, s: Session, c: Credential, code: ErrorCode)
    requires Corresponds(ctx, cert, Unique(received), s) && c in Unique(received)
    ensures Rooted(ctx, cert, received, c) && Sound(ctx, cert, c)
    ensures StateGraph(ctx, cert, received).invalid[Invalid(c.hash, code)] == 0
  {
    var all := Unique(received);
    EachAccountedOnce(ctx, cert, received, c, 0, code);
    SoundFacts(ctx, cert, c);
    hide StateGraph, Unique;
    assert s.filed[c.hash] == c.newState;
    FiledReached(ctx, cert, all, s, c.newState);
    hide Corresponds, Sound;
  }

  // ----- Conflicts and payouts -----

  /** The edge list of a graph, as the reconciliation code gets it. */
  lemma GraphEdges(ctx: TrustContext, cert: Certificate, received: seq<Received>)
    ensures var g := StateGraph(ctx, cert, received);
      && Reconciliation.ChildStates(g.edges) == g.nodes.Keys - {RootOf(cert)}
      && Reconciliation.Committed(g.edges) && Reconciliation.ParentsPresent(g.edges)
  {
    var g, all := StateGraph(ctx, cert, received), Unique(received);
    GraphSettled(ctx, cert, received);
    hide StateGraph, Unique;
    EdgeChildren(ctx, cert, all, g);
    forall e | e in Reconciliation.ChildStates(g.edges) && e.Payment? && e.prev !in Reconciliation.ChildStates(g.edges)
      ensures !e.prev.Payment?
    {
      assert NodesOk(cert, g) && KeptOk(ctx, cert, all, g);
      RootIsGenesis(cert);
      hide Reconciled, Kept, WrapperHashes, Sound;
    }
    hide Reconciled, Final;
  }

  /** The credential a fork point names for a child is the one the graph kept. */
  lemma ForksNameKept(ctx: TrustContext, cert: Certificate, received: seq<Received>, e: StateHash)
    requires e in Reconciliation.ChildStates(StateGraph(ctx, cert, received).edges)
    ensures Reconciliation.WrapperOf(StateGraph(ctx, cert, received).edges, e) == Kept(ctx, cert, Unique(received), e)
  {
    var g := StateGraph(ctx, cert, received);
    GraphSettled(ctx, cert, received);
    assert NodesOk(cert, g) && KeptOk(ctx, cert, Unique(received), g) && EdgeListOk(g.accepted, g.edges);
    hide StateGraph, Unique, Reconciled, Final, Kept, WrapperHashes, Reconciliation.WrapperOf;
    var i := Reconciliation.WrapperAt(g.edges, e);
    var id :| id in g.accepted && g.accepted[id] == g.edges[i];
    assert id.child == e && id == IdOf(e);
  }

  lemma EdgeChildren(ctx: TrustContext, cert: Certificate, all: set<Credential>, g: Build)
    requires Reconciled(ctx, cert, all, g)
    ensures Reconciliation.ChildStates(g.edges) == g.nodes.Keys - {RootOf(cert)} && Reconciliation.Committed(g.edges)
  {
    assert NodesOk(cert, g) && EdgesOk(ctx, cert, all, g) && EdgeListOk(g.accepted, g.edges);
    forall i | 0 <= i < |g.edges|
      ensures g.edges[i].child in g.nodes && g.edges[i].child != RootOf(cert) && g.edges[i].child.Payment?
        && g.edges[i].parent == g.edges[i].child.prev && g.edges[i].sequence == g.edges[i].child.sequence
    {
      var x := g.edges[i];
      var id :| id in g.accepted && g.accepted[id] == x;
      var c :| c in all && Sound(ctx, cert, c) && g.accepted[id] == EdgeOf(c);
      SoundFacts(ctx, cert, c);
      hide Sound, Reconciled;
    }
    forall e | e in g.nodes && e != RootOf(cert) ensures e in Reconciliation.ChildStates(g.edges) {
      var x := g.accepted[IdOf(e)];
      assert x in g.edges;
      var i :| 0 <= i < |g.edges| && g.edges[i] == x;
      assert g.edges[i].child == e;
    }
    hide Reconciled, Sound;
  }

  /** Once an edge is classified on-chain, its conflict flag is membership in the off-chain fixed
      point over the same payments. */
  lemma SameConflicts(ctx: TrustContext, cert: Certificate, w: World, run: seq<Action>, sid: nat, received: seq<Received>,
                      conflicting: set<StateHash>, e: StateHash)
    requires CanRun(w, run) && Mirrored(ctx, cert, w, run, sid, received)
    requires var edges := StateGraph(ctx, cert, received).edges;
      forall d :: d in conflicting <==> d in Reconciliation.ChildStates(edges) && Tainted(Reconciliation.ChildStates(edges), d)
    ensures sid in End(w, run).sessions
    ensures var l := View(End(w, run).sessions[sid]);
      && (e in conflicting ==> e in l.edges)
      && (e in l.edges && l.edges[e].classified ==> (l.edges[e].conflicting <==> e in conflicting))
  {
    SamePayments(ctx, cert, w, run, sid, received, NoCredential(), InvalidParent);
    GraphEdges(ctx, cert, received);
    MirrorCorresponds(ctx, cert, w, run, sid, received);
    var s := End(w, run).sessions[sid];
    hide CanRun, End, StateGraph, Mirrored;
    BookOf(ctx, cert, Unique(received), s);
    hide Corresponds;
    if e in View(s).edges { EdgeFlag(s, e); }
    hide View, Tainted;
  }

  function NoCredential(): Credential
  {
    Credential(Domain(0, 0, 0, 0, 0, 0), 0, 0, 0, 0, 0, 0, 0, Unknown(0), Unknown(0), 0, 0, 0, 0, 0, 0, false)
  }

  lemma EdgeFlag(s: Session, e: StateHash)
    requires e in View(s).edges
    ensures View(s).edges[e].classified ==> (View(s).edges[e].conflicting <==> Tainted(s.filed.Values, e))
  {
    hide Tainted, Rep, Wrappers, Owed;
  }

  /** The claims reconciliation passes to the allocation: one for each edge. */
  function EligibleClaims(edges: seq<StateEdge>): seq<Allocation.EligibleClaim>
  {
    seq(|edges|, i requires 0 <= i < |edges| =>
      Allocation.EligibleClaim(edges[i].credentialHash, edges[i].merchant, edges[i].amount))
  }

  /** The graph kept the least wrapper of every payment. */
  ghost predicate KeepsLeast(ctx: TrustContext, cert: Certificate, received: seq<Received>)
  {
    var g := StateGraph(ctx, cert, received);
    forall id :: id in g.accepted ==>
      WrapperHashes(ctx, cert, Unique(received), id.child) != {}
      && g.accepted[id].credentialHash == Min(WrapperHashes(ctx, cert, Unique(received), id.child))
  }

  /** What the graph keeps is settled by the credentials it is given. */
  lemma KeepsLeastIffAligned(ctx: TrustContext, cert: Certificate, received: seq<Received>)
    ensures KeepsLeast(ctx, cert, received) <==> Aligned(ctx, cert, received)
  {
    var g, all := StateGraph(ctx, cert, received), Unique(received);
    GraphSettled(ctx, cert, received);
    assert NodesOk(cert, g);
    LeastKeptIff(ctx, cert, received);
    hide StateGraph, Unique, Aligned, Final, Reconciled, Faithful, RootOf;
    if KeepsLeast(ctx, cert, received) {
      forall e | Reached(ctx, cert, all, e) ensures KeptLeast(ctx, cert, all, e) {
        GraphIsReachable(ctx, cert, received, e);
        assert IdOf(e) in g.accepted && IdOf(e).child == e;
      }
    }
    if forall e :: Reached(ctx, cert, all, e) ==> KeptLeast(ctx, cert, all, e) {
      forall id | id in g.accepted
        ensures WrapperHashes(ctx, cert, all, id.child) != {}
                && g.accepted[id].credentialHash == Min(WrapperHashes(ctx, cert, all, id.child))
      {
        GraphIsReachable(ctx, cert, received, id.child);
        assert id == IdOf(id.child);
        assert KeptLeast(ctx, cert, all, id.child);
      }
    }
  }

  /** The claims passed to the allocation are exactly the session's economic claims. */
  lemma SameClaims(ctx: TrustContext, cert: Certificate, received: seq<Received>, s: Session)
    requires Corresponds(ctx, cert, Unique(received), s) && KeepsLeast(ctx, cert, received)
    ensures Allocation.DistinctHashes(EligibleClaims(StateGraph(ctx, cert, received).edges))
    ensures Allocation.AmountsOf(EligibleClaims(StateGraph(ctx, cert, received).edges)) == Claims(s)
  {
    var g, all := StateGraph(ctx, cert, received), Unique(received);
    GraphSettled(ctx, cert, received);
    EdgesAreReps(ctx, cert, received, s);
    RepsAreEdges(ctx, cert, received, s);
    hide StateGraph, Unique, KeepsLeast, Corresponds;
    DistinctEdges(ctx, cert, all, g);
    hide Reconciled, Final, Faithful;
    ListedClaims(g.edges, Claims(s));
  }

  lemma DistinctEdges(ctx: TrustContext, cert: Certificate, all: set<Credential>, g: Build)
    requires Reconciled(ctx, cert, all, g) && Faithful(all)
    ensures Allocation.DistinctHashes(EligibleClaims(g.edges))
  {
    assert EdgesOk(ctx, cert, all, g) && EdgeListOk(g.accepted, g.edges);
    forall i, j | 0 <= i < j < |g.edges| ensures g.edges[i].credentialHash != g.edges[j].credentialHash {
      var x, y := g.edges[i], g.edges[j];
      var p :| p in g.accepted && g.accepted[p] == x;
      var q :| q in g.accepted && g.accepted[q] == y;
      var c :| c in all && Sound(ctx, cert, c) && g.accepted[p] == EdgeOf(c);
      var d :| d in all && Sound(ctx, cert, d) && g.accepted[q] == EdgeOf(d);
      assert c != d;
      hide Sound, Reconciled;
    }
    hide Reconciled, Sound;
  }

  /** Every edge carries the representative of its payment. */
  lemma EdgesAreReps(ctx: TrustContext, cert: Certificate, received: seq<Received>, s: Session)
    requires Corresponds(ctx, cert, Unique(received), s) && KeepsLeast(ctx, cert, received)
    ensures var edges := StateGraph(ctx, cert, received).edges;
      forall i :: 0 <= i < |edges| ==> edges[i].credentialHash in Claims(s) && Claims(s)[edges[i].credentialHash] == edges[i].amount
  {
    var g, all := StateGraph(ctx, cert, received), Unique(received);
    GraphSettled(ctx, cert, received);
    assert NodesOk(cert, g) && EdgesOk(ctx, cert, all, g) && EdgeListOk(g.accepted, g.edges);
    hide StateGraph, Unique, NodesOk, Sound, EdgesOk, Reconciled, Final;
    forall i | 0 <= i < |g.edges|
      ensures g.edges[i].credentialHash in Claims(s) && Claims(s)[g.edges[i].credentialHash] == g.edges[i].amount
    {
      var x := g.edges[i];
      var id :| id in g.accepted && g.accepted[id] == x;
      EdgeIsRep(ctx, cert, received, s, id);
    }
  }

  lemma EdgeIsRep(ctx: TrustContext, cert: Certificate, received: seq<Received>, s: Session, id: Identity)
    requires Corresponds(ctx, cert, Unique(received), s) && KeepsLeast(ctx, cert, received)
    requires id in StateGraph(ctx, cert, received).accepted
    ensures var x := StateGraph(ctx, cert, received).accepted[id];
      && id.child in s.filed.Values && x.credentialHash == Rep(s.filed, id.child)
      && x.credentialHash in Claims(s) && Claims(s)[x.credentialHash] == x.amount
  {
    var g, all := StateGraph(ctx, cert, received), Unique(received);
    GraphSettled(ctx, cert, received);
    assert NodesOk(cert, g) && EdgesOk(ctx, cert, all, g);
    var e, x := id.child, g.accepted[id];
    var c :| c in all && Sound(ctx, cert, c) && x == EdgeOf(c);
    SoundFacts(ctx, cert, c);
    assert c.newState == e;
    SameWrappers(ctx, cert, all, s, e);
    assert s.filed[c.hash] == e;
    hide StateGraph, Unique, Sound, NodesOk, EdgesOk, Reconciled, Final;
    LeastIsRep(s.filed, e, x.credentialHash);
    EligibleKey(s.filed, x.credentialHash);
  }

  lemma LeastIsRep(f: Book, e: StateHash, h: nat)
    requires Wrappers(f, e) != {} && h == Min(Wrappers(f, e))
    ensures h in f && f[h] == e && e in f.Values && h == Rep(f, e)
  {
    assert h in Wrappers(f, e);
    assert f[h] == e;
    RepLeast(f, e);
    assert Rep(f, e) in Wrappers(f, e);
  }

  /** Every representative is some edge's wrapper. */
  lemma RepsAreEdges(ctx: TrustContext, cert: Certificate, received: seq<Received>, s: Session)
    requires Corresponds(ctx, cert, Unique(received), s) && KeepsLeast(ctx, cert, received)
    ensures var edges := StateGraph(ctx, cert, received).edges;
      forall h :: h in Claims(s) ==> exists i :: 0 <= i < |edges| && edges[i].credentialHash == h
  {
    var g, all := StateGraph(ctx, cert, received), Unique(received);
    GraphSettled(ctx, cert, received);
    assert NodesOk(cert, g) && EdgesOk(ctx, cert, all, g) && EdgeListOk(g.accepted, g.edges);
    hide StateGraph, Unique, Sound, EdgesOk, Reconciled, Final, Corresponds, KeepsLeast;
    forall h | h in Claims(s) ensures exists i :: 0 <= i < |g.edges| && g.edges[i].credentialHash == h {
      var e := s.filed[h];
      assert e in s.filed.Values;
      NodeIsFiled(ctx, cert, received, s, e);
      EligibleKey(s.filed, h);
      EdgeIsRep(ctx, cert, received, s, IdOf(e));
      var x := g.accepted[IdOf(e)];
      assert x in g.edges;
      var i :| 0 <= i < |g.edges| && g.edges[i] == x;
    }
  }

  lemma ListedClaims(edges: seq<StateEdge>, m: map<nat, nat>)
    requires Allocation.DistinctHashes(EligibleClaims(edges))
    requires forall i :: 0 <= i < |edges| ==> edges[i].credentialHash in m && m[edges[i].credentialHash] == edges[i].amount
    requires forall h :: h in m ==> exists i :: 0 <= i < |edges| && edges[i].credentialHash == h
    ensures Allocation.AmountsOf(EligibleClaims(edges)) == m
  {
    var q := EligibleClaims(edges);
    var a := Allocation.AmountsOf(q);
    Allocation.ByHashKeys(q, Allocation.AmountsIn(q));
    forall h | h in m ensures h in a && a[h] == m[h] {
      var i :| 0 <= i < |edges| && edges[i].credentialHash == h;
      Allocation.AmountAt(q, q[i]);
    }
    forall h | h in a ensures h in m {
      var c :| c in q && c.hash == h;
      var i :| 0 <= i < |q| && q[i] == c;
      assert edges[i].credentialHash == h;
    }
  }

  /** End to end: when the credentials filed are aligned, the mirror allocation is accepted, and once the program
      has allocated, every claim account holds exactly the merchant, amount and payout the mirror lists for it. */
  lemma SamePayouts(ctx: TrustContext, cert: Certificate, w: World, run: seq<Action>, sid: nat, received: seq<Received>,
                    x: Allocation.CoverageResult, i: nat)
    requires CanRun(w, run) && Mirrored(ctx, cert, w, run, sid, received) && Aligned(ctx, cert, received)
    requires Allocation.Mirrors(EligibleClaims(StateGraph(ctx, cert, received).edges), cert.cap, x) && i < |x.allocations|
    ensures sid in End(w, run).sessions
    ensures Allocation.Acceptable(EligibleClaims(StateGraph(ctx, cert, received).edges), cert.cap)
    ensures var s, l, a := End(w, run).sessions[sid], View(End(w, run).sessions[sid]), x.allocations[i];
      && x.exposure == l.session.aggregateOfflineExposure
      && a.hash in l.claims && !l.claims[a.hash].status.Rejected? && l.claims[a.hash].amount == a.amount
      && l.claims[a.hash].merchant == a.merchant
      && (l.session.allocationComplete ==>
            && l.claims[a.hash].allocatedAmount == a.payout && l.session.allocatedTotal == x.totalPayout
            && (l.session.coverageStatus.Underfunded? <==> x.insolvent))
  {
    MirrorCorresponds(ctx, cert, w, run, sid, received);
    var s := End(w, run).sessions[sid];
    var claims := EligibleClaims(StateGraph(ctx, cert, received).edges);
    hide *;
    KeepsLeastIffAligned(ctx, cert, received);
    SameClaims(ctx, cert, received, s);
    CorrespondsBook(ctx, cert, Unique(received), s);
    PayoutsMatch(s, claims, x, i);
    PayeesMatch(ctx, cert, received, s, x, i);
  }

  /** The mirror's line for a claim names the merchant the claim account does. */
  lemma PayeesMatch(ctx: TrustContext, cert: Certificate, received: seq<Received>, s: Session, x: Allocation.CoverageResult, i: nat)
    requires Corresponds(ctx, cert, Unique(received), s)
    requires Allocation.Mirrors(EligibleClaims(StateGraph(ctx, cert, received).edges), cert.cap, x) && i < |x.allocations|
    ensures var a := x.allocations[i]; a.hash in View(s).claims && View(s).claims[a.hash].merchant == a.merchant
  {
    var edges, a := StateGraph(ctx, cert, received).edges, x.allocations[i];
    assert Allocation.Share(EligibleClaims(edges), Allocation.AmountsOf(EligibleClaims(edges)), cert.cap, a);
    var k := LineEdge(edges, a);
    hide *;
    EdgePayee(ctx, cert, received, s, k);
    ClaimPayee(s, a.hash);
  }

  lemma LineEdge(edges: seq<StateEdge>, a: Allocation.CoverageAllocation) returns (k: nat)
    requires Allocation.EligibleClaim(a.hash, a.merchant, a.amount) in EligibleClaims(edges)
    ensures k < |edges| && edges[k].credentialHash == a.hash && edges[k].merchant == a.merchant
  {
    var q := EligibleClaims(edges);
    var j :| 0 <= j < |q| && q[j] == Allocation.EligibleClaim(a.hash, a.merchant, a.amount);
    k := j;
  }

  lemma EdgePayee(ctx: TrustContext, cert: Certificate, received: seq<Received>, s: Session, k: nat)
    requires Corresponds(ctx, cert, Unique(received), s) && k < |StateGraph(ctx, cert, received).edges|
    ensures var x := StateGraph(ctx, cert, received).edges[k];
      && x.credentialHash in s.filed && s.filed[x.credentialHash].Payment?
      && s.filed[x.credentialHash].merchant == x.merchant
  {
    var id := EdgesListed(ctx, cert, received, k);
    EdgesCommit(ctx, cert, received, id);
    var x := StateGraph(ctx, cert, received).accepted[id];
    var c :| c in Unique(received) && c.hash == x.credentialHash && c.merchant == x.merchant && c.amount == x.amount
             && id.child == Payment(c.previousState, c.sequence, c.merchant, c.amount, c.challenge, c.previousRemaining, c.newRemaining);
    hide StateGraph, Unique, BookOk;
    assert Sound(ctx, cert, c) && s.filed[c.hash] == c.newState;
    SoundFacts(ctx, cert, c);
  }

  lemma ClaimPayee(s: Session, h: nat)
    requires h in s.filed && s.filed[h].Payment?
    ensures h in View(s).claims && View(s).claims[h].merchant == s.filed[h].merchant
  {
    hide Claims, Owed, Tainted, NextKey, PreviousKey;
  }

  lemma CorrespondsBook(ctx: TrustContext, cert: Certificate, all: set<Credential>, s: Session)
    requires Corresponds(ctx, cert, all, s)
    ensures BookOk(s) && s.terms.cap == cert.cap
  {
    hide BookOk, Sound;
  }

  lemma PayoutsMatch(s: Session, claims: seq<Allocation.EligibleClaim>, x: Allocation.CoverageResult, i: nat)
    requires BookOk(s) && Allocation.DistinctHashes(claims) && Allocation.AmountsOf(claims) == Claims(s)
    requires Allocation.Mirrors(claims, s.terms.cap, x) && i < |x.allocations|
    ensures Allocation.Acceptable(claims, s.terms.cap)
    ensures var l, a := View(s), x.allocations[i];
      && x.exposure == l.session.aggregateOfflineExposure
      && a.hash in l.claims && !l.claims[a.hash].status.Rejected? && l.claims[a.hash].amount == a.amount
      && (l.session.allocationComplete ==>
            && l.claims[a.hash].allocatedAmount == a.payout && l.session.allocatedTotal == x.totalPayout
            && (l.session.coverageStatus.Underfunded? <==> x.insolvent))
  {
    ClaimsPositive(s);
    ClaimsAcceptable(s, claims);
    var a := x.allocations[i];
    assert Allocation.Share(claims, Claims(s), s.terms.cap, a);
    Allocation.AmountAt(claims, Allocation.EligibleClaim(a.hash, a.merchant, a.amount));
    assert a.payout == Owed(s, a.hash);
    ClaimAmounts(s, a.hash);
    SessionTotals(s);
    hide View, Claims, Owed, BookOk, Allocation.AmountsOf, Sum, Allocation.Acceptable;
  }

  lemma ClaimsAcceptable(s: Session, claims: seq<Allocation.EligibleClaim>)
    requires BookOk(s) && Positive(Claims(s)) && Allocation.DistinctHashes(claims) && Allocation.AmountsOf(claims) == Claims(s)
    ensures Allocation.Acceptable(claims, s.terms.cap)
  {
    Allocation.ByHashSum(claims, Allocation.AmountsIn(claims));
    forall i | 0 <= i < |claims| ensures 0 < claims[i].amount <= U64_MAX {
      Allocation.AmountAt(claims, claims[i]);
      SumRemove(Claims(s), claims[i].hash);
      hide Claims, Sum, BookOk;
    }
    hide Claims;
  }

  lemma ClaimAmounts(s: Session, h: nat)
    requires h in Claims(s)
    ensures h in View(s).claims && !View(s).claims[h].status.Rejected? && View(s).claims[h].amount == Claims(s)[h]
    ensures View(s).session.allocationComplete ==> View(s).claims[h].allocatedAmount == Owed(s, h)
  {
    hide NextKey, PreviousKey, Tainted, Payout;
  }

  lemma SessionTotals(s: Session)
    requires BookOk(s)
    ensures View(s).session.aggregateOfflineExposure == Sum(Claims(s))
    ensures View(s).session.allocationComplete ==>
      && View(s).session.allocatedTotal == Coverage(Claims(s), s.terms.cap)
      && (View(s).session.coverageStatus.Underfunded? <==> s.terms.cap < Sum(Claims(s)))
  {
    if Complete(s) { CompletionGuards(s); }
    hide Payout, Sum, Eligible, BookOk, Coverage;
  }

  lemma RepIsLeast(f: Book, e: StateHash, h: nat)
    requires h in f && f[h] == e && h in Eligible(f)
    ensures h in Wrappers(f, e) && h == Min(Wrappers(f, e))
  {
    assert h in Wrappers(f, e);
    assert Min(Wrappers(f, e)) in Wrappers(f, e);
    EligibleKey(f, h);
    RepLeast(f, e);
  }

  /** An accepted edge is listed, and is that of some received credential. */
  lemma AcceptedListed(ctx: TrustContext, cert: Certificate, received: seq<Received>, id: Identity) returns (c: Credential, i: nat)
    requires id in StateGraph(ctx, cert, received).accepted
    ensures c in Unique(received) && Sound(ctx, cert, c) && c.newState == id.child
    ensures var g := StateGraph(ctx, cert, received);
      i < |g.edges| && g.edges[i] == g.accepted[id] && g.edges[i].credentialHash == c.hash
      && Allocation.DistinctHashes(EligibleClaims(g.edges))
  {
    var g, all := StateGraph(ctx, cert, received), Unique(received);
    GraphSettled(ctx, cert, received);
    DistinctEdges(ctx, cert, all, g);
    assert NodesOk(cert, g) && EdgesOk(ctx, cert, all, g) && EdgeListOk(g.accepted, g.edges);
    hide StateGraph, Unique, Sound, Reconciled, Final, RootOf, Allocation.DistinctHashes, EligibleClaims;
    var x := g.accepted[id];
    c :| c in all && Sound(ctx, cert, c) && x == EdgeOf(c);
    i :| 0 <= i < |g.edges| && g.edges[i] == x;
  }

  lemma AgreeingEdgeIsLeast(ctx: TrustContext, cert: Certificate, received: seq<Received>, s: Session, id: Identity)
    requires Corresponds(ctx, cert, Unique(received), s) && id in StateGraph(ctx, cert, received).accepted
    requires Allocation.AmountsOf(EligibleClaims(StateGraph(ctx, cert, received).edges)) == Claims(s)
    ensures var ws := WrapperHashes(ctx, cert, Unique(received), id.child);
      ws != {} && StateGraph(ctx, cert, received).accepted[id].credentialHash == Min(ws)
  {
    var g := StateGraph(ctx, cert, received);
    var c, i := AcceptedListed(ctx, cert, received, id);
    assert c.hash in s.filed && s.filed[c.hash] == id.child;
    SameWrappers(ctx, cert, Unique(received), s, id.child);
    hide StateGraph, Unique, Sound, Corresponds, Claims;
    var q := EligibleClaims(g.edges);
    Allocation.AmountAt(q, q[i]);
    RepIsLeast(s.filed, id.child, c.hash);
  }

  /** The claims off-chain are the session's economic claims exactly when the credentials are aligned. */
  lemma SameClaimsIff(ctx: TrustContext, cert: Certificate, received: seq<Received>, s: Session)
    requires Corresponds(ctx, cert, Unique(received), s)
    ensures Allocation.AmountsOf(EligibleClaims(StateGraph(ctx, cert, received).edges)) == Claims(s)
       <==> Aligned(ctx, cert, received)
  {
    KeepsLeastIffAligned(ctx, cert, received);
    hide StateGraph, Unique, Corresponds, Claims, Aligned;
    if KeepsLeast(ctx, cert, received) { SameClaims(ctx, cert, received, s); }
    if Allocation.AmountsOf(EligibleClaims(StateGraph(ctx, cert, received).edges)) == Claims(s) {
      forall id | id in StateGraph(ctx, cert, received).accepted
        ensures WrapperHashes(ctx, cert, Unique(received), id.child) != {}
          && StateGraph(ctx, cert, received).accepted[id].credentialHash == Min(WrapperHashes(ctx, cert, Unique(received), id.child))
      {
        AgreeingEdgeIsLeast(ctx, cert, received, s, id);
      }
    }
  }
}
