/** Confirmed forks: what the records say about them, and that they lock the owner out for good. */
module Forks {
  import opened Collections
  import opened ProRata
  import opened States
  import opened Protocol
  import opened Invariants
  import opened Accounts
  import opened Runs

  /** In the accounts of a reachable session, the session is flagged exactly when two distinct edges
      leave one parent with one sequence number, which is exactly when some fork record counts two
      branches; every record counts the children filed so far and names two of them. */
  lemma ForkConfirmed(w: World, run: seq<Action>, sid: nat, seed: ForkSeed)
    requires Initial(w) && CanRun(w, run) && sid in End(w, run).sessions
    ensures var s, l := End(w, run).sessions[sid], View(End(w, run).sessions[sid]);
      && (l.session.authenticatedFork <==> exists a, b :: a in l.edges && b in l.edges && a != b && a.Payment? && b.Payment?
                                                       && a.prev == b.prev && a.sequence == b.sequence)
      && (l.session.authenticatedFork <==> exists k :: k in l.forks && 2 <= l.forks[k].branchCount)
      && (seed in l.forks <==> Children(s.filed.Values, seed.parent, seed.sequence) != {})
      && (seed in l.forks ==>
            && l.forks[seed].branchCount == |Children(s.filed.Values, seed.parent, seed.sequence)|
            && l.forks[seed].firstChild in l.edges
            && (l.forks[seed].secondChild.Some? <==> 2 <= l.forks[seed].branchCount)
            && (l.forks[seed].secondChild.Some? ==>
                  && l.forks[seed].secondChild.value in l.edges
                  && l.forks[seed].secondChild.value != l.forks[seed].firstChild))
  {
    InitialOk(w);
    RunKeeps(w, run);
    var s := End(w, run).sessions[sid];
    OpenSession(End(w, run), sid);
    hide CanRun, End, WorldOk, SessionIn, PhaseOk;
    BookForks(s, seed);
    FlagForks(s);
    hide View, Forked;
    EdgesAre(s);
  }

  lemma EdgesAre(s: Session)
    requires BookOk(s)
    ensures View(s).edges.Keys == s.filed.Values
    ensures View(s).session.authenticatedFork == Forked(s.filed.Values)
  {
    forall e | e in s.filed.Values ensures e.Payment? {
      assert Linked(Root(s.terms), s.terms.limit, s.terms.maxDepth, s.filed.Values, e);
    }
    hide EdgeView;
  }

  lemma BookForks(s: Session, seed: ForkSeed)
    requires BookOk(s)
    ensures seed in View(s).forks <==> Children(s.filed.Values, seed.parent, seed.sequence) != {}
    ensures seed in View(s).forks ==>
      && View(s).forks[seed].branchCount == |Children(s.filed.Values, seed.parent, seed.sequence)|
      && View(s).forks[seed].firstChild in s.filed.Values
      && (View(s).forks[seed].secondChild.Some? <==> 2 <= View(s).forks[seed].branchCount)
      && (View(s).forks[seed].secondChild.Some? ==>
            && View(s).forks[seed].secondChild.value in s.filed.Values
            && View(s).forks[seed].secondChild.value != View(s).forks[seed].firstChild)
  {
    hide SessionView, ClaimsView, EdgesView, Claims;
    assert seed == ForkSeed(seed.parent, seed.sequence);
    assert ArrivalsOk(s.filed.Values, s.arrivals);
  }

  lemma FlagForks(s: Session)
    requires BookOk(s)
    ensures Forked(s.filed.Values) <==> exists k :: k in View(s).forks && 2 <= View(s).forks[k].branchCount
  {
    hide View, BookOk;
    if Forked(s.filed.Values) {
      var a, b :| a in s.filed.Values && b in s.filed.Values && a != b && a.Payment? && b.Payment?
                  && a.prev == b.prev && a.sequence == b.sequence;
      ForkSize(s.filed.Values, a, b);
      BookForks(s, ForkSeed(a.prev, a.sequence));
      assert a in Children(s.filed.Values, a.prev, a.sequence);
    }
    if k :| k in View(s).forks && 2 <= View(s).forks[k].branchCount {
      BookForks(s, k);
      TwoChildren(s.filed.Values, k.parent, k.sequence);
    }
  }

  lemma ForkedGrows(states: set<StateHash>, more: set<StateHash>)
    requires Forked(states) && states <= more
    ensures Forked(more)
  {
    var a, b :| a in states && b in states && a != b && a.Payment? && b.Payment?
                && a.prev == b.prev && a.sequence == b.sequence;
    assert a in more && b in more;
  }

  lemma ForkStep(w: World, a: Action, sid: nat)
    requires WorldOk(w) && Enabled(w, a) && sid in w.sessions && Forked(w.sessions[sid].filed.Values)
    ensures sid in Next(w, a).sessions && Forked(Next(w, a).sessions[sid].filed.Values)
    ensures Next(w, a).sessions.Keys == w.sessions.Keys
  {
    var s := w.sessions[sid];
    OpenSession(w, sid);
    BookAfter(w, a, sid);
    if a.Submit? && a.sid == sid { ValuesAfter(s.filed, a.c.hash, a.c.newState); }
    SessionsGrow(w, a);
    hide WorldOk, Enabled, Next, SessionOk, Forked;
    ForkedGrows(s.filed.Values, Next(w, a).sessions[sid].filed.Values);
  }

  lemma SessionsGrow(w: World, a: Action)
    requires Enabled(w, a)
    ensures w.sessions.Keys <= Next(w, a).sessions.Keys
    ensures !w.profile.offlineAccessEnabled ==> Next(w, a).sessions.Keys == w.sessions.Keys
  {
    hide PayloadOk, ParentOk, CountersFit, Claims, Owed, Filed, Begun, Scanned, SettledOne, MakesFork, Rep, Complete,
         ReleaseSurplus, ClassificationComplete, Payable, ParentReady, AllSettled, Successful;
  }

  lemma LockedOut(w: World, sid: nat, a: Action)
    requires WorldOk(w) && sid in w.sessions && Forked(w.sessions[sid].filed.Values)
    ensures !w.profile.offlineAccessEnabled && (a.Create? ==> !Enabled(w, a))
  {
    OpenSession(w, sid);
    hide WorldOk, SessionOk, Forked;
  }

  /** Once a session of the owner has a fork, in every later world offline access is disabled, no
      session can be created and none has been. */
  lemma {:induction false} ForkLocksOut(w: World, run: seq<Action>, sid: nat, a: Action)
    requires WorldOk(w) && CanRun(w, run) && sid in w.sessions && Forked(w.sessions[sid].filed.Values)
    ensures sid in End(w, run).sessions && Forked(End(w, run).sessions[sid].filed.Values)
    ensures !End(w, run).profile.offlineAccessEnabled && End(w, run).sessions.Keys == w.sessions.Keys
    ensures a.Create? ==> !Enabled(End(w, run), a)
    decreases |run|
  {
    hide WorldOk, Enabled, Next, Forked;
    if run == [] {
      LockedOut(w, sid, a);
    } else {
      NextKeeps(w, run[0]);
      ForkStep(w, run[0], sid);
      ForkLocksOut(Next(w, run[0]), run[1..], sid, a);
    }
  }
}
