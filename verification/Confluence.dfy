/** The order of submission does not matter: runs that file the same credentials, whatever else
    happens in between and however claims are interleaved, reach the same records and payouts. */
module Confluence {
  import opened Collections
  import opened ProRata
  import opened States
  import opened Protocol
  import opened Invariants
  import opened Accounts
  import opened Runs
  import opened Payments
  import opened Forks

  /** The credentials a run files in a session. */
  ghost function SubmittedIn(run: seq<Action>, sid: nat): set<Credential>
  {
    if run == [] then {}
    else (if run[0].Submit? && run[0].sid == sid then {run[0].c} else {}) + SubmittedIn(run[1..], sid)
  }

  /** A book holds what was there before and the submitted credentials. */
  ghost predicate Merged(before: Book, filed: set<Credential>, after: Book)
  {
    && (forall k :: k in after ==> k in before || exists c :: c in filed && c.hash == k)
    && (forall k :: k in before ==> k in after && after[k] == before[k])
    && (forall c :: c in filed ==> c.hash in after && after[c.hash] == c.newState)
  }

  lemma {:induction false} BookIs(w: World, run: seq<Action>, sid: nat)
    requires CanRun(w, run) && sid in w.sessions
    ensures sid in End(w, run).sessions && End(w, run).sessions[sid].terms == w.sessions[sid].terms
    ensures Merged(w.sessions[sid].filed, SubmittedIn(run, sid), End(w, run).sessions[sid].filed)
    decreases |run|
  {
    hide Enabled, Next;
    if run != [] {
      BookAfter(w, run[0], sid);
      BookIs(Next(w, run[0]), run[1..], sid);
      var f, g := w.sessions[sid].filed, Next(w, run[0]).sessions[sid].filed;
      if run[0].Submit? && run[0].sid == sid {
        MergedOne(f, run[0].c, g, SubmittedIn(run[1..], sid), End(w, run).sessions[sid].filed);
      }
    }
  }

  lemma MergedOne(f: Book, c: Credential, g: Book, rest: set<Credential>, after: Book)
    requires c.hash !in f && g == f[c.hash := c.newState] && Merged(g, rest, after)
    ensures Merged(f, {c} + rest, after)
  {
    assert c in {c} + rest;
    forall k | k in after && k !in f ensures exists d :: d in {c} + rest && d.hash == k {
      if k !in g {
        var d :| d in rest && d.hash == k;
        assert d in {c} + rest;
      }
    }
    forall k | k in f ensures k in after && after[k] == f[k] { assert k in g; }
    assert c.hash in g;
  }

  lemma SameCredentialsSameBook(w: World, run: seq<Action>, run': seq<Action>, sid: nat)
    requires CanRun(w, run) && CanRun(w, run') && sid in w.sessions && SubmittedIn(run, sid) == SubmittedIn(run', sid)
    ensures sid in End(w, run).sessions && sid in End(w, run').sessions
    ensures End(w, run).sessions[sid].filed == End(w, run').sessions[sid].filed
    ensures End(w, run).sessions[sid].terms == End(w, run').sessions[sid].terms
  {
    BookIs(w, run, sid);
    BookIs(w, run', sid);
    MergedUnique(w.sessions[sid].filed, SubmittedIn(run, sid), End(w, run).sessions[sid].filed, End(w, run').sessions[sid].filed);
  }

  lemma MergedUnique(before: Book, filed: set<Credential>, f: Book, g: Book)
    requires Merged(before, filed, f) && Merged(before, filed, g)
    ensures f == g
  {
    MergedWithin(before, filed, f, g);
    MergedWithin(before, filed, g, f);
  }

  lemma MergedWithin(before: Book, filed: set<Credential>, f: Book, g: Book)
    requires Merged(before, filed, f) && Merged(before, filed, g)
    ensures forall k :: k in f ==> k in g && f[k] == g[k]
  {
    forall k | k in f ensures k in g && f[k] == g[k] {
      if k !in before {
        var c :| c in filed && c.hash == k;
      }
    }
  }

  // ----- Records -----

  /** The same book, equally far through finalization. */
  ghost predicate Level(s: Session, t: Session)
  {
    && s.terms == t.terms && s.filed == t.filed && s.frozen == t.frozen
    && s.classified == t.classified && s.scanned == t.scanned && s.settled == t.settled
  }

  lemma LevelClaim(s: Session, t: Session, h: nat)
    requires Level(s, t) && h in s.filed
    ensures ClaimView(s, h) == ClaimView(t, h)
  {
    hide Eligible, Payout, NextKey, PreviousKey, Tainted;
  }

  lemma LevelClaims(s: Session, t: Session)
    requires Level(s, t)
    ensures ClaimsView(s) == ClaimsView(t)
  {
    hide ClaimView;
    forall h | h in s.filed ensures ClaimView(s, h) == ClaimView(t, h) { LevelClaim(s, t, h); }
  }

  lemma LevelEdges(s: Session, t: Session)
    requires Level(s, t)
    ensures EdgesView(s) == EdgesView(t)
  {
    forall e | e in s.filed.Values && e.Payment? ensures EdgeView(s, e) == EdgeView(t, e) {
      hide Eligible, Payout, Tainted, Rep, Wrappers;
      assert SessionBases(s) == SessionBases(t);
    }
    hide EdgeView;
  }

  lemma LevelSession(s: Session, t: Session)
    requires Level(s, t)
    ensures SessionView(s) == SessionView(t).(status := s.status, authorized := s.authorized, nextAllocationClaim := Cursor(s))
  {
    assert SessionBases(s) == SessionBases(t);
    hide Eligible, Payout, Tainted, HeadKey, TailKey, Sum, Coverage, Bases, Forked;
    assert OwedTo(s, s.settled) == OwedTo(t, t.settled);
    assert OwedTo(s, s.scanned) == OwedTo(t, t.scanned);
    assert Discharged(s) == Discharged(t);
    assert ConflictingClaims(s) == ConflictingClaims(t);
  }

  /** Fork records agree on everything but which two children came first. */
  lemma LevelForks(s: Session, t: Session, seed: ForkSeed)
    requires BookOk(s) && BookOk(t) && s.filed == t.filed
    ensures seed in View(s).forks <==> seed in View(t).forks
    ensures seed in View(s).forks ==> View(s).forks[seed].branchCount == View(t).forks[seed].branchCount
  {
    hide View, BookOk;
    BookForks(s, seed);
    BookForks(t, seed);
  }

  /** Both are still collecting claims, both have finished allocation unpaid, or both are closed. */
  ghost predicate SameStage(s: Session, t: Session)
  {
    || (!s.frozen && !t.frozen)
    || (Complete(s) && Complete(t) && s.settled == t.settled)
    || (s.status.Closed? && t.status.Closed?)
  }

  lemma StageLevel(s: Session, t: Session)
    requires SessionOk(s) && SessionOk(t) && s.filed == t.filed && s.terms == t.terms && SameStage(s, t)
    ensures Level(s, t)
  {
    assert Claims(s) == Claims(t);
    assert Payable(s) == Payable(t);
    if s.status.Closed? && t.status.Closed? { ClosedSettled(s); ClosedSettled(t); }
    hide BookOk, Claims, Payable, Forked, Overdrawn, ParentsClassified;
  }

  /** Submission order is irrelevant. Two runs from one world that file the same credentials in a
      session end with the same list, representatives, exposure, edges, branch counts and fork flag;
      once both have allocated, every credential is owed the same and conflicts the same; once both
      are closed, it has been paid the same. Only the first two children, the authorization and the
      clock-dependent part of the status can differ. */
  lemma SubmissionOrderIrrelevant(w: World, run: seq<Action>, run': seq<Action>, sid: nat, seed: ForkSeed)
    requires WorldOk(w) && CanRun(w, run) && CanRun(w, run') && sid in w.sessions
    requires SubmittedIn(run, sid) == SubmittedIn(run', sid)
    ensures sid in End(w, run).sessions && sid in End(w, run').sessions
    ensures var s, t := End(w, run).sessions[sid], End(w, run').sessions[sid];
      && (seed in View(s).forks <==> seed in View(t).forks)
      && (seed in View(s).forks ==> View(s).forks[seed].branchCount == View(t).forks[seed].branchCount)
      && (SameStage(s, t) ==>
            && View(s).claims == View(t).claims && View(s).edges == View(t).edges
            && View(s).session == View(t).session.(status := s.status, authorized := s.authorized,
                                                   nextAllocationClaim := View(s).session.nextAllocationClaim))
      && (!s.frozen && !t.frozen ==> (s.status.Conflicted? <==> t.status.Conflicted?))
  {
    SameCredentialsSameBook(w, run, run', sid);
    RunKeeps(w, run);
    RunKeeps(w, run');
    OpenSession(End(w, run), sid);
    OpenSession(End(w, run'), sid);
    var s, t := End(w, run).sessions[sid], End(w, run').sessions[sid];
    hide CanRun, End, WorldOk, SessionIn, SubmittedIn;
    CollectingStatus(s);
    CollectingStatus(t);
    hide View, SameStage, BookOk, PhaseOk;
    LevelForks(s, t, seed);
    if SameStage(s, t) {
      StageLevel(s, t);
      LevelRecords(s, t);
    }
  }

  lemma CollectingStatus(s: Session)
    requires SessionOk(s)
    ensures !s.frozen ==> (s.status.Conflicted? <==> Forked(s.filed.Values))
  {
    hide BookOk, ProgressOk, Forked;
  }

  lemma LevelRecords(s: Session, t: Session)
    requires Level(s, t)
    ensures View(s).claims == View(t).claims && View(s).edges == View(t).edges
    ensures View(s).session == View(t).session.(status := s.status, authorized := s.authorized,
                                                nextAllocationClaim := View(s).session.nextAllocationClaim)
  {
    LevelClaims(s, t);
    LevelEdges(s, t);
    LevelSession(s, t);
    assert SessionView(s).nextAllocationClaim == Cursor(s);
    hide SessionView, ClaimsView, EdgesView, ForksView, Level;
  }

  /** Whatever the order of submission and of the finalization steps, by the time the session is closed
      every credential hash has been paid the same amount. */
  lemma SamePaidAmounts(w: World, run: seq<Action>, run': seq<Action>, sid: nat, h: nat)
    requires WorldOk(w) && CanRun(w, run) && CanRun(w, run') && sid in w.sessions && !Complete(w.sessions[sid])
    requires SubmittedIn(run, sid) == SubmittedIn(run', sid)
    requires sid in End(w, run).sessions && End(w, run).sessions[sid].status.Closed?
    requires sid in End(w, run').sessions && End(w, run').sessions[sid].status.Closed?
    ensures PaidTo(w, run, sid, h) == PaidTo(w, run', sid, h)
  {
    SameCredentialsSameBook(w, run, run', sid);
    PaidInFull(w, run, sid, h);
    PaidInFull(w, run', sid, h);
    hide *;
    SameOwed(End(w, run).sessions[sid], End(w, run').sessions[sid], h);
  }

  lemma SameOwed(s: Session, t: Session, h: nat)
    requires s.filed == t.filed && s.terms == t.terms
    ensures Claims(s) == Claims(t) && (h in Claims(s) ==> Owed(s, h) == Owed(t, h))
  {
  }
}
