/** Where the off-chain claims and the on-chain ones part: a run of the program, from the start, over
    credentials that are not aligned. */
module Disagreement {
  import opened Collections
  import opened ProRata
  import opened States
  import opened Protocol
  import opened Invariants
  import opened Runs
  import opened Confluence
  import opened Credentials
  import opened OfflineLedger
  import opened StateGraphs
  import opened GraphTheorems
  import opened Agreement
  import opened Submission
  import Allocation

  /** A run from the start opens the session of an accepted certificate, another submits to it exactly
      what is received off-chain, and the claims that reconciliation passes to the mirror allocation
      are not the claims the program pays. */
  ghost predicate ClaimsDiffer(ctx: TrustContext, cert: Certificate, auth: Authorization, w: World, setup: seq<Action>,
                               run: seq<Action>, sid: nat, received: seq<Received>)
  {
    && ValidateCertificateChain(ctx, cert, auth).Accepted? && cert.genesis == Root(TermsOf(cert))
    && Initial(w) && CanRun(w, setup) && CanRun(End(w, setup), run)
    && Mirrored(ctx, cert, End(w, setup), run, sid, received)
    && sid in End(End(w, setup), run).sessions
    && Allocation.AmountsOf(EligibleClaims(StateGraph(ctx, cert, received).edges)) != Claims(End(End(w, setup), run).sessions[sid])
  }

  /** With three payments of one unit, two of them wrappers of the same second payment. */
  lemma ClaimsCanDiffer()
    ensures exists ctx, cert, auth, w, setup, run, sid, received :: ClaimsDiffer(ctx, cert, auth, w, setup, run, sid, received)
  {
    hide *;
    var ctx, cert, a, x, b := Samples();
    SampleUnique(a, x, b);
    SampleAccepted();
    var w, setup := OpensSession();
    SamplesDiffer(ctx, cert, SampleAuthorization(), w, setup, [Readable(a), Readable(x), Readable(b)], a, x, b);
  }

  lemma SamplesDiffer(ctx: TrustContext, cert: Certificate, auth: Authorization, w: World, setup: seq<Action>,
                      received: seq<Received>, a: Credential, x: Credential, b: Credential)
    requires ValidateCertificateChain(ctx, cert, auth).Accepted? && cert.genesis == Root(TermsOf(cert))
    requires Initial(w) && CanRun(w, setup) && WorldOk(End(w, setup)) && Describes(ctx, cert, End(w, setup), 5)
    requires End(w, setup).sessions[5].filed == map[] && Receptive(End(w, setup), 5, 3, 3)
    requires CollisionFree(received) && Unique(received) == {a, x, b}
    requires Sound(ctx, cert, a) && Sound(ctx, cert, x) && Sound(ctx, cert, b)
    requires a.hash == 1 && x.hash == 2 && b.hash == 3 && a.newState == b.newState != x.newState
    requires x.previousState == RootOf(cert) && a.previousState == b.previousState == x.newState
    requires x.amount == a.amount == b.amount == 1
    ensures exists run :: ClaimsDiffer(ctx, cert, auth, w, setup, run, 5, received)
  {
    var v := End(w, setup);
    assert 5 in v.sessions;
    hide *;
    var run := SubmitsSamples(ctx, cert, v, a, x, b);
    MirrorsSamples(ctx, cert, v, run, received);
    MirrorCorresponds(ctx, cert, v, run, 5, received);
    SampleKept(ctx, cert, auth, received, a, x, b);
    NotAligned(ctx, cert, auth, received, a.newState);
    SameClaimsIff(ctx, cert, received, End(v, run).sessions[5]);
    Differs(ctx, cert, auth, w, setup, run, received);
  }

  lemma Differs(ctx: TrustContext, cert: Certificate, auth: Authorization, w: World, setup: seq<Action>, run: seq<Action>,
                received: seq<Received>)
    requires ValidateCertificateChain(ctx, cert, auth).Accepted? && cert.genesis == Root(TermsOf(cert))
    requires Initial(w) && CanRun(w, setup) && CanRun(End(w, setup), run)
    requires Mirrored(ctx, cert, End(w, setup), run, 5, received) && 5 in End(End(w, setup), run).sessions
    requires Allocation.AmountsOf(EligibleClaims(StateGraph(ctx, cert, received).edges)) != Claims(End(End(w, setup), run).sessions[5])
    ensures ClaimsDiffer(ctx, cert, auth, w, setup, run, 5, received)
  {
    hide CanRun, End, Mirrored, Initial, StateGraph, Claims, ValidateCertificateChain;
  }

  lemma NotAligned(ctx: TrustContext, cert: Certificate, auth: Authorization, received: seq<Received>, e: StateHash)
    requires KeepsOther(ctx, cert, auth, received, e)
    ensures !Aligned(ctx, cert, received)
  {
    KeepsLeastIffAligned(ctx, cert, received);
    assert e.Payment?;
    hide Aligned, StateGraph, Unique, WrapperHashes, Reached, ValidateCertificateChain;
    assert IdOf(e).child == e;
  }

  lemma MirrorsSamples(ctx: TrustContext, cert: Certificate, w: World, run: seq<Action>, received: seq<Received>)
    requires WorldOk(w) && Describes(ctx, cert, w, 5) && w.sessions[5].filed == map[]
    requires CanRun(w, run) && SubmittedIn(run, 5) == Unique(received)
    ensures Mirrored(ctx, cert, w, run, 5, received)
  {
    hide WorldOk, CanRun, Unique, SubmittedIn;
  }

  /** Depositing, creating and authorizing the session of the sample certificate. */
  lemma OpensSession() returns (w: World, setup: seq<Action>)
    ensures Initial(w) && CanRun(w, setup)
    ensures var x := End(w, setup);
      && WorldOk(x) && Describes(SampleContext(), SampleCertificate(), x, 5)
      && x.sessions[5].filed == map[] && Receptive(x, 5, 3, 3)
  {
    w := World(SampleContext().config, 7, false, 0, UserProfile(true, 0, 0, 0, 1000, None), CollateralVault(0, 0, 0), 0, map[]);
    InitialOk(w);
    var d, c, z := Deposit(30, 30), Create(5, 8, 30, 10, 100), Authorize(5, 1);
    setup := [d, c, z];
    hide WorldOk;
    var w1 := Next(w, d);
    assert w1 == w.(balance := 30, vault := CollateralVault(30, 0, 0));
    CreateSample(w1);
    var w2 := Next(w1, c);
    AuthorizeSample(w2);
    hide Enabled, Next, Describes, Receptive;
    ThreeSteps(w, d, c, z);
    RunKeeps(w, setup);
  }

  lemma CreateSample(w: World)
    requires w.config == SampleContext().config && w.owner == 7 && !w.paused && w.clock == 0 && w.balance == 30
    requires w.profile == UserProfile(true, 0, 0, 0, 1000, None) && w.vault == CollateralVault(30, 0, 0) && w.sessions == map[]
    ensures var c := Create(5, 8, 30, 10, 100);
      && Enabled(w, c)
      && var x := Next(w, c);
      && x.config == w.config && !x.paused && x.clock == 0 && x.profile.conflictCount == 0 && 5 in x.sessions
      && x.sessions[5] == NewSession(w, 5, 8, 30, 10, 100) && x.sessions[5].terms == TermsOf(SampleCertificate())
  {
  }

  lemma AuthorizeSample(w: World)
    requires w.config == SampleContext().config && !w.paused && w.clock == 0 && w.profile.conflictCount == 0 && 5 in w.sessions
    requires var s := w.sessions[5];
      && s.terms == TermsOf(SampleCertificate()) && !s.authorized && s.status.Active? && s.filed == map[]
    ensures var z := Authorize(5, 1);
      && Enabled(w, z)
      && var x := Next(w, z);
      && Describes(SampleContext(), SampleCertificate(), x, 5) && x.sessions[5].filed == map[] && Receptive(x, 5, 3, 3)
  {
    var x := Next(w, Authorize(5, 1));
    EmptyClaims(x.sessions[5].filed);
    hide Claims;
  }

  lemma ThreeSteps(w: World, a: Action, b: Action, c: Action)
    requires Enabled(w, a) && Enabled(Next(w, a), b) && Enabled(Next(Next(w, a), b), c)
    ensures CanRun(w, [a, b, c]) && End(w, [a, b, c]) == Next(Next(Next(w, a), b), c)
  {
    hide *;
    var x, y := Next(w, a), Next(Next(w, a), b);
    OneAction(y, c);
    Prepend(x, b, [c]);
    Prepend(w, a, [b] + [c]);
    assert [a] + ([b] + [c]) == [a, b, c];
  }

  /** The first payment, then both wrappers of the second. */
  lemma SubmitsSamples(ctx: TrustContext, cert: Certificate, w: World, a: Credential, x: Credential, b: Credential)
    returns (run: seq<Action>)
    requires WorldOk(w) && Describes(ctx, cert, w, 5) && w.sessions[5].filed == map[] && Receptive(w, 5, 3, 3)
    requires Sound(ctx, cert, a) && Sound(ctx, cert, x) && Sound(ctx, cert, b)
    requires a.hash == 1 && x.hash == 2 && b.hash == 3 && a.newState == b.newState != x.newState
    requires x.previousState == RootOf(cert) && a.previousState == b.previousState == x.newState
    requires x.amount == a.amount == b.amount == 1
    ensures CanRun(w, run) && SubmittedIn(run, 5) == {a, x, b}
  {
    hide *;
    DescribesSession(ctx, cert, w, 5);
    FirstParent(ctx, cert, w, x);
    LaterParent(ctx, cert, x, a);
    LaterParent(ctx, cert, x, b);
    var first := SubmitStep(ctx, cert, w, 5, GenesisParent(cert), x, 3, 3);
    var w1 := Next(w, first);
    var second := SubmitsAfter(ctx, cert, w1, x, a, 2);
    var third := SubmitsAfter(ctx, cert, Next(w1, second), x, b, 1);
    ThreeSteps(w, first, second, third);
    run := [first, second, third];
    ThreeSubmitted(first, second, third, a, x, b);
  }

  /** One more payment on top of one that is filed. */
  lemma SubmitsAfter(ctx: TrustContext, cert: Certificate, w: World, x: Credential, c: Credential, n: nat) returns (a: Action)
    requires WorldOk(w) && Describes(ctx, cert, w, 5) && Receptive(w, 5, n, n) && c.amount == 1 <= n
    requires x.newState == Successor(x) && 0 < x.sequence && x.newRemaining <= cert.limit
    requires x.hash in w.sessions[5].filed && w.sessions[5].filed[x.hash] == x.newState && c.hash !in w.sessions[5].filed
    requires ValidatePaymentCredential(ctx, cert, ParentState(x.newState, x.sequence, x.newRemaining), c).Accepted?
    ensures a.Submit? && a.sid == 5 && a.c == c && Enabled(w, a)
    ensures var y := Next(w, a);
      && WorldOk(y) && Describes(ctx, cert, y, 5) && 5 in y.sessions && Receptive(y, 5, n - 1, n - 1)
      && y.sessions[5].filed == w.sessions[5].filed[c.hash := c.newState]
  {
    assert 5 in w.sessions;
    hide *;
    FiledIsKnown(w, 5, x, w.sessions[5]);
    a := SubmitStep(ctx, cert, w, 5, ParentState(x.newState, x.sequence, x.newRemaining), c, n, n);
  }

  lemma FirstParent(ctx: TrustContext, cert: Certificate, w: World, x: Credential)
    requires Describes(ctx, cert, w, 5) && Sound(ctx, cert, x) && x.previousState == RootOf(cert)
    ensures 5 in w.sessions && Known(w.sessions[5], GenesisParent(cert)) && GenesisParent(cert).remaining <= cert.limit
    ensures ValidatePaymentCredential(ctx, cert, GenesisParent(cert), x).Accepted? && x.newState == Successor(x) && 0 < x.sequence
  {
  }

  lemma LaterParent(ctx: TrustContext, cert: Certificate, x: Credential, c: Credential)
    requires Sound(ctx, cert, x) && Sound(ctx, cert, c) && c.previousState == x.newState
    requires x.previousState == RootOf(cert)
    ensures ValidatePaymentCredential(ctx, cert, ParentState(x.newState, x.sequence, x.newRemaining), c).Accepted?
    ensures x.newRemaining <= cert.limit
  {
  }

  lemma ThreeSubmitted(first: Action, second: Action, third: Action, a: Credential, x: Credential, b: Credential)
    requires first.Submit? && second.Submit? && third.Submit? && first.sid == second.sid == third.sid == 5
    requires first.c == x && second.c == a && third.c == b
    ensures SubmittedIn([first, second, third], 5) == {a, x, b}
  {
    var run := [first, second, third];
    assert run[1..] == [second, third] && run[1..][1..] == [third] && run[1..][1..][1..] == [];
    assert SubmittedIn([third], 5) == {b};
    assert SubmittedIn(run[1..], 5) == {a, b};
  }
}
