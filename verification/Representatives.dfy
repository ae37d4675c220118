/** One economic representative per payment: what the claim, edge and session accounts of every
    reachable session say about duplicate wrappers of the same edge. */
module Representatives {
  import opened Collections
  import opened ProRata
  import opened States
  import opened Protocol
  import opened Invariants
  import opened Accounts
  import opened Runs
  import opened Forks
  import opened Leaves

  lemma {:induction false} OneClaimAnEdge(f: Book)
    ensures |Eligible(f)| == |f.Values|
    decreases |f|
  {
    hide Eligible, Sum, Amount;
    if f == map[] {
      EmptyBookSizes(f);
    } else {
      var h :| h in f;
      var g := f - {h};
      assert f == g[h := f[h]];
      OneClaimAnEdge(g);
      ExposureAfterFiling(g, h, f[h]);
      ValuesAfter(g, h, f[h]);
      assert f[h] in g.Values ==> f.Values == g.Values;
    }
  }

  lemma EmptyBookSizes(f: Book)
    requires f == map[]
    ensures |Eligible(f)| == |f.Values| == 0
  {
    assert f.Values == {};
  }

  /** The claim accounts that wrap an edge. */
  function WrappersOf(claims: map<nat, Claim>, e: StateHash): set<nat> { set h | h in claims && claims[h].newState == e }

  /** In every reachable world, each edge account names as representative the least hash among the
      claims that wrap it, only that claim is not rejected, the wrapper count is their number, and
      the session counts every distinct edge once. */
  lemma OneRepresentative(w: World, run: seq<Action>, sid: nat, e: StateHash, h: nat)
    requires Initial(w) && CanRun(w, run) && sid in End(w, run).sessions
    ensures var l := View(End(w, run).sessions[sid]);
      && l.session.aggregateOfflineExposure == Total(l.edges.Keys) && l.session.uniqueEdgeCount == |l.edges.Keys|
      && (h in l.claims ==> l.claims[h].newState in l.edges)
      && (e in l.edges ==>
            && WrappersOf(l.claims, e) != {} && l.edges[e].wrapperCount == |WrappersOf(l.claims, e)|
            && l.edges[e].representative == Min(WrappersOf(l.claims, e))
            && (h in WrappersOf(l.claims, e) ==> (l.claims[h].status.Rejected? <==> h != l.edges[e].representative)))
  {
    InitialOk(w);
    RunKeeps(w, run);
    var s := End(w, run).sessions[sid];
    OpenSession(End(w, run), sid);
    hide CanRun, End, WorldOk, SessionIn, PhaseOk;
    EdgesAre(s);
    ExposureIsTotal(s.filed);
    OneClaimAnEdge(s.filed);
    SessionSums(s);
    if e in View(s).edges { Represented(s, e, h); }
    if h in View(s).claims { ClaimOf(s, h); assert s.filed[h] in s.filed.Values; }
    hide View, Total, Eligible, BookOk;
  }

  lemma SessionSums(s: Session)
    ensures View(s).session.aggregateOfflineExposure == Sum(Eligible(s.filed))
    ensures View(s).session.uniqueEdgeCount == |Eligible(s.filed)|
  {
  }

  lemma ClaimOf(s: Session, h: nat)
    ensures h in View(s).claims <==> h in s.filed
    ensures h in s.filed ==> View(s).claims[h].newState == s.filed[h]
    ensures h in s.filed ==> (View(s).claims[h].status.Rejected? <==> h !in Eligible(s.filed))
  {
    hide Eligible, Payout, NextKey, PreviousKey, Tainted;
  }

  lemma EdgeOf(s: Session, e: StateHash)
    requires e in View(s).edges
    ensures e in s.filed.Values && View(s).edges[e].representative == Rep(s.filed, e)
    ensures View(s).edges[e].wrapperCount == |Wrappers(s.filed, e)|
  {
    hide Eligible, Payout, Tainted, Rep, Wrappers;
  }

  lemma Represented(s: Session, e: StateHash, h: nat)
    requires e in View(s).edges
    ensures var l := View(s);
      && WrappersOf(l.claims, e) != {} && l.edges[e].wrapperCount == |WrappersOf(l.claims, e)|
      && l.edges[e].representative == Min(WrappersOf(l.claims, e))
      && (h in WrappersOf(l.claims, e) ==> (l.claims[h].status.Rejected? <==> h != l.edges[e].representative))
  {
    EdgeOf(s, e);
    WrappersAreFiled(s, e);
    var r := Rep(s.filed, e);
    RepLeast(s.filed, e);
    ClaimOf(s, h);
    if h in s.filed && s.filed[h] == e { EligibleKey(s.filed, h); }
    assert r in Wrappers(s.filed, e);
    hide View, Eligible, Rep;
  }

  lemma WrappersAreFiled(s: Session, e: StateHash)
    ensures WrappersOf(View(s).claims, e) == Wrappers(s.filed, e)
  {
    hide View;
    forall k ensures k in WrappersOf(View(s).claims, e) <==> k in Wrappers(s.filed, e) { ClaimOf(s, k); }
  }
}
