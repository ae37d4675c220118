/** What the owner's profile says of the sessions: access is lost with the first fork, only one session
    ever forks, and the two counters count confirmed forks and sessions closed in good order. */
module Profiles {
  import opened Collections
  import opened ProRata
  import opened States
  import opened Protocol
  import opened Invariants
  import opened Runs
  import opened Forks
  import opened Histories

  ghost predicate HasFork(s: Session) { Forked(s.filed.Values) }

  /** Closed without a fork and with every claim covered. */
  ghost predicate InGoodOrder(s: Session)
  {
    s.status.Closed? && !Forked(s.filed.Values) && Exposure(Claims(s)) <= s.terms.cap
  }

  ghost function GoodSessions(w: World): set<nat> { set k | k in w.sessions && InGoodOrder(w.sessions[k]) }

  /** The places where at least two payments continue from one state. */
  ghost function Branchings(s: Session): set<ForkSeed>
  {
    set k | k in s.arrivals && |Children(s.filed.Values, k.parent, k.sequence)| >= 2
  }

  ghost predicate ForksOk(w: World)
  {
    && (w.profile.offlineAccessEnabled <==> forall k :: k in w.sessions ==> !HasFork(w.sessions[k]))
    && (forall k, j :: k in w.sessions && j in w.sessions && HasFork(w.sessions[k]) && j != k
                       ==> w.sessions[j].status.Closed? && !HasFork(w.sessions[j]))
    && (forall k :: k in w.sessions && HasFork(w.sessions[k]) ==> w.profile.conflictCount == |Branchings(w.sessions[k])|)
    && (w.profile.offlineAccessEnabled ==> w.profile.conflictCount == 0 && w.profile.revokedAt == 0)
  }

  ghost predicate ProfileOk(w: World) { ForksOk(w) && w.profile.successfulSessions == |GoodSessions(w)| }

  predicate SameForks(p: UserProfile, q: UserProfile)
  {
    p.offlineAccessEnabled == q.offlineAccessEnabled && p.conflictCount == q.conflictCount && p.revokedAt == q.revokedAt
  }

  lemma SameBranches(s: Session, t: Session)
    requires t.filed == s.filed && t.arrivals == s.arrivals
    ensures HasFork(t) == HasFork(s) && Branchings(t) == Branchings(s)
  {
    hide Forked, Children;
  }

  /** A step that leaves every book alone and reopens nothing. */
  lemma ForksStay(w: World, x: World, sid: nat, t: Session)
    requires ForksOk(w) && sid in w.sessions && SameForks(w.profile, x.profile) && x.sessions == w.sessions[sid := t]
    requires HasFork(t) == HasFork(w.sessions[sid]) && Branchings(t) == Branchings(w.sessions[sid])
    requires w.sessions[sid].status.Closed? ==> t.status.Closed?
    ensures ForksOk(x)
  {
    hide HasFork, Branchings;
    assert x.sessions.Keys == w.sessions.Keys;
    assert forall k :: k in w.sessions ==> HasFork(x.sessions[k]) == HasFork(w.sessions[k]);
    assert forall k :: k in w.sessions ==> Branchings(x.sessions[k]) == Branchings(w.sessions[k]);
  }

  lemma GoodAfter(w: World, x: World, sid: nat, t: Session)
    requires x.sessions == w.sessions[sid := t] && (sid in w.sessions ==> !InGoodOrder(w.sessions[sid]))
    ensures |GoodSessions(x)| == |GoodSessions(w)| + if InGoodOrder(t) then 1 else 0
  {
    hide InGoodOrder;
    assert GoodSessions(x) == GoodSessions(w) + if InGoodOrder(t) then {sid} else {};
    assert sid !in GoodSessions(w);
  }

  lemma GoodStay(w: World, x: World, sid: nat, t: Session)
    requires sid in w.sessions && x.sessions == w.sessions[sid := t] && (InGoodOrder(t) <==> InGoodOrder(w.sessions[sid]))
    ensures GoodSessions(x) == GoodSessions(w)
  {
    hide InGoodOrder;
  }

  lemma NewForks(w: World, x: World, sid: nat, t: Session)
    requires ForksOk(w) && sid !in w.sessions && x.sessions == w.sessions[sid := t] && SameForks(w.profile, x.profile)
    requires w.profile.offlineAccessEnabled && !HasFork(t)
    ensures ForksOk(x)
  {
    hide HasFork, Branchings;
  }

  /** A filing into the only open session. */
  lemma ForksFile(w: World, x: World, sid: nat, t: Session, fork: bool)
    requires ForksOk(w) && sid in w.sessions && x.sessions == w.sessions[sid := t] && !w.sessions[sid].status.Closed?
    requires HasFork(t) <==> HasFork(w.sessions[sid]) || fork
    requires |Branchings(t)| == |Branchings(w.sessions[sid])| + if fork then 1 else 0
    requires !HasFork(w.sessions[sid]) ==> |Branchings(w.sessions[sid])| == 0
    requires forall k :: k in w.sessions && k != sid ==> w.sessions[k].status.Closed?
    requires if fork then !x.profile.offlineAccessEnabled && x.profile.conflictCount == w.profile.conflictCount + 1
             else SameForks(w.profile, x.profile)
    ensures ForksOk(x)
  {
    hide HasFork, Branchings;
    assert x.sessions.Keys == w.sessions.Keys;
    forall k | k in w.sessions && k != sid ensures HasFork(x.sessions[k]) ==> HasFork(w.sessions[k]) && !HasFork(t) { }
    assert HasFork(t) ==> x.profile.conflictCount == |Branchings(t)|;
  }

  lemma ArrivalKeys(s: Session, k: ForkSeed)
    requires BookOk(s)
    ensures k in s.arrivals <==> Children(s.filed.Values, k.parent, k.sequence) != {}
    ensures k !in s.arrivals ==> |Children(s.filed.Values, k.parent, k.sequence)| == 0
  {
    assert k == ForkSeed(k.parent, k.sequence);
    assert ArrivalsOk(s.filed.Values, s.arrivals);
    hide Children;
  }

  lemma NoBranchings(s: Session)
    requires BookOk(s) && !HasFork(s)
    ensures |Branchings(s)| == 0
  {
    if k :| k in Branchings(s) { TwoChildren(s.filed.Values, k.parent, k.sequence); }
    hide BookOk, Forked;
    assert Branchings(s) == {};
  }

  lemma BranchingsNew(w: World, s: Session, c: Credential)
    requires c.newState == Successor(c) && IsNewEdge(s, c)
    requires Filed(w, s, c).filed.Values == s.filed.Values + {c.newState}
    requires var k := ForkSeed(c.previousState, c.sequence); k in s.arrivals <==> 1 <= |Siblings(s, c)|
    ensures |Branchings(Filed(w, s, c))| == |Branchings(s)| + if MakesFork(s, c) then 1 else 0
  {
    var t, seed := Filed(w, s, c), ForkSeed(c.previousState, c.sequence);
    FiledArrivals(w, s, c);
    forall k: ForkSeed | k != seed
      ensures Children(t.filed.Values, k.parent, k.sequence) == Children(s.filed.Values, k.parent, k.sequence)
    {
      OtherChildren(s.filed.Values, c.newState, k);
    }
    ChildrenAfter(s.filed.Values, c.newState, seed.parent, seed.sequence);
    ArrivalAfter(Siblings(s, c), c.newState);
    assert c.newState !in Siblings(s, c);
    hide Filed, Branchings, Children;
    BranchingSets(s, t, seed, |Siblings(s, c)|);
  }

  lemma FiledArrivals(w: World, s: Session, c: Credential)
    requires IsNewEdge(s, c)
    ensures Filed(w, s, c).arrivals.Keys == s.arrivals.Keys + {ForkSeed(c.previousState, c.sequence)}
  {
    hide FiledStatus, IsNewEdge;
  }

  lemma OtherChildren(states: set<StateHash>, e: StateHash, k: ForkSeed)
    requires e.Payment? && e !in states && k != ForkSeed(e.prev, e.sequence)
    ensures Children(states + {e}, k.parent, k.sequence) == Children(states, k.parent, k.sequence)
  {
    assert k == ForkSeed(k.parent, k.sequence);
    ChildrenAfter(states, e, k.parent, k.sequence);
  }

  lemma BranchingSets(s: Session, t: Session, seed: ForkSeed, n: nat)
    requires t.arrivals.Keys == s.arrivals.Keys + {seed} && (seed in s.arrivals <==> 1 <= n)
    requires |Children(s.filed.Values, seed.parent, seed.sequence)| == n
    requires |Children(t.filed.Values, seed.parent, seed.sequence)| == n + 1
    requires forall k: ForkSeed :: k != seed ==>
               Children(t.filed.Values, k.parent, k.sequence) == Children(s.filed.Values, k.parent, k.sequence)
    ensures |Branchings(t)| == |Branchings(s)| + if n == 1 then 1 else 0
  {
    hide Children;
    assert Branchings(t) == Branchings(s) + if 1 <= n then {seed} else {};
    assert seed in Branchings(s) <==> 2 <= n;
  }

  lemma BranchingsOld(w: World, s: Session, c: Credential)
    requires !IsNewEdge(s, c) && Filed(w, s, c).filed.Values == s.filed.Values
    ensures Branchings(Filed(w, s, c)) == Branchings(s) && !MakesFork(s, c)
  {
    hide Children, FiledStatus;
  }

  // ----- One step -----

  lemma Idle(w: World, x: World)
    requires ProfileOk(w) && x.sessions == w.sessions && x.profile == w.profile
    ensures ProfileOk(x)
  {
    hide HasFork, Branchings, InGoodOrder;
    assert GoodSessions(x) == GoodSessions(w);
  }

  /** Replacing a session by one with the same book and standing. */
  lemma Kept(w: World, x: World, sid: nat, t: Session)
    requires ProfileOk(w) && sid in w.sessions && x.sessions == w.sessions[sid := t]
    requires SameForks(w.profile, x.profile) && x.profile.successfulSessions == w.profile.successfulSessions
    requires var s := w.sessions[sid]; t.filed == s.filed && t.arrivals == s.arrivals && (s.status.Closed? ==> t.status.Closed?)
    requires InGoodOrder(t) <==> InGoodOrder(w.sessions[sid])
    ensures ProfileOk(x)
  {
    hide InGoodOrder;
    SameBranches(w.sessions[sid], t);
    hide HasFork, Branchings, ForksOk, GoodSessions;
    ForksStay(w, x, sid, t);
    GoodStay(w, x, sid, t);
  }

  lemma CreateProfile(w: World, a: Action)
    requires ProfileOk(w) && Enabled(w, a) && a.Create?
    ensures ProfileOk(Next(w, a))
  {
    var t, x := NewSession(w, a.sid, a.device, a.locked, a.limit, a.expiresAt), Next(w, a);
    NewSessionOk(w, a.sid, a.device, a.locked, a.limit, a.expiresAt);
    assert !HasFork(t) && !InGoodOrder(t) && !t.status.Closed?;
    assert a.sid !in w.sessions && w.profile.offlineAccessEnabled && x.sessions == w.sessions[a.sid := t];
    assert x.profile == w.profile.(activeSession := Some(a.sid));
    hide *;
    ProfileParts(w);
    NewForks(w, x, a.sid, t);
    GoodAfter(w, x, a.sid, t);
    ProfileWhole(x);
  }

  lemma ProfileParts(w: World)
    requires ProfileOk(w)
    ensures ForksOk(w) && w.profile.successfulSessions == |GoodSessions(w)|
  {
  }

  lemma ProfileWhole(w: World)
    requires ForksOk(w) && w.profile.successfulSessions == |GoodSessions(w)|
    ensures ProfileOk(w)
  {
  }

  lemma OneSession(w: World, a: Action)
    requires Enabled(w, a) && (a.Authorize? || a.Begin? || a.Classify? || a.Allocate? || a.Settle? || a.Close?)
    ensures a.sid in w.sessions
    ensures Next(w, a).sessions == w.sessions[a.sid := Stepped(w, w.sessions[a.sid], a)]
    ensures SameForks(w.profile, Next(w, a).profile)
    ensures !a.Close? ==> Next(w, a).profile.successfulSessions == w.profile.successfulSessions
    ensures a.Close? ==>
      Next(w, a).profile.successfulSessions == w.profile.successfulSessions + if Successful(w.sessions[a.sid]) then 1 else 0
  {
    hide PayloadOk, ParentOk, CountersFit, Claims, Owed, Filed, Begun, Scanned, SettledOne, MakesFork, Rep, Complete,
         ReleaseSurplus, ClassificationComplete, Payable, ParentReady, AllSettled, Successful;
  }

  lemma SteppedStanding(w: World, s: Session, a: Action)
    requires a.Authorize? || ((a.Begin? || a.Classify? || a.Allocate? || a.Close?) && !s.status.Closed?)
    ensures var t := Stepped(w, s, a);
      && t.filed == s.filed && t.arrivals == s.arrivals && t.terms == s.terms
      && (t.status.Closed? <==> s.status.Closed? || a.Close?)
  {
    hide Complete, Overdrawn, Forked, Rep;
  }

  lemma SameClaims(s: Session, t: Session)
    requires t.filed == s.filed && t.terms == s.terms
    ensures t.status.Closed? ==> (InGoodOrder(t) <==> Successful(s))
    ensures (t.status.Closed? <==> s.status.Closed?) ==> (InGoodOrder(t) <==> InGoodOrder(s))
    ensures !s.status.Closed? ==> !InGoodOrder(s)
  {
    assert Claims(t) == Claims(s);
    hide Claims, Forked;
  }

  lemma OpenBefore(w: World, a: Action)
    requires WorldOk(w) && Enabled(w, a) && (a.Begin? || a.Classify? || a.Allocate? || a.Settle? || a.Close? || a.Submit?)
    ensures a.sid in w.sessions && !w.sessions[a.sid].status.Closed?
    ensures forall k :: k in w.sessions && k != a.sid ==> w.sessions[k].status.Closed?
  {
    OpenStatus(w, a);
    hide Enabled;
    OpenSession(w, a.sid);
    forall k | k in w.sessions && k != a.sid ensures w.sessions[k].status.Closed? { OpenSession(w, k); }
    hide WorldOk, SessionOk, SessionIn;
  }

  lemma OpenStatus(w: World, a: Action)
    requires Enabled(w, a) && (a.Begin? || a.Classify? || a.Allocate? || a.Settle? || a.Close? || a.Submit?)
    ensures a.sid in w.sessions && !w.sessions[a.sid].status.Closed?
  {
    hide PayloadOk, ParentOk, CountersFit, Claims, Owed, IsNewEdge, Rep, Complete, ClassificationComplete, Payable,
         ParentReady, AllSettled, Successful;
  }

  lemma StepProfile(w: World, a: Action)
    requires WorldOk(w) && ProfileOk(w) && Enabled(w, a) && (a.Authorize? || a.Begin? || a.Classify? || a.Allocate?)
    ensures ProfileOk(Next(w, a))
  {
    OneSession(w, a);
    if !a.Authorize? { OpenBefore(w, a); }
    var s, t := w.sessions[a.sid], Stepped(w, w.sessions[a.sid], a);
    hide *;
    SteppedStanding(w, s, a);
    SameClaims(s, t);
    Kept(w, Next(w, a), a.sid, t);
  }

  lemma CloseProfile(w: World, a: Action)
    requires WorldOk(w) && ProfileOk(w) && Enabled(w, a) && a.Close?
    ensures ProfileOk(Next(w, a))
  {
    OneSession(w, a);
    OpenBefore(w, a);
    var s, t, x := w.sessions[a.sid], Stepped(w, w.sessions[a.sid], a), Next(w, a);
    hide *;
    SteppedStanding(w, s, a);
    SameClaims(s, t);
    SameBranches(s, t);
    ProfileParts(w);
    ForksStay(w, x, a.sid, t);
    GoodAfter(w, x, a.sid, t);
    ProfileWhole(x);
  }

  lemma SettledBadly(s: Session, h: nat)
    requires SessionOk(s) && Complete(s) && s.status.Settling()
    ensures SettledOne(s, h).status.Closed? ==> !InGoodOrder(SettledOne(s, h))
  {
    hide BookOk, ProgressOk, AllSettled, Forked, Complete;
    assert Claims(SettledOne(s, h)) == Claims(s) by { ClaimsAre(s); ClaimsAre(SettledOne(s, h)); }
    hide Claims;
  }

  lemma SettleProfile(w: World, a: Action)
    requires WorldOk(w) && ProfileOk(w) && Enabled(w, a) && a.Settle?
    ensures ProfileOk(Next(w, a))
  {
    OneSession(w, a);
    OpenBefore(w, a);
    var s, t, x := w.sessions[a.sid], Stepped(w, w.sessions[a.sid], a), Next(w, a);
    assert t == SettledOne(s, a.h) && Complete(s) && s.status.Settling();
    OpenSession(w, a.sid);
    hide *;
    SettledBadly(s, a.h);
    SettledBooks(s, a.h);
    SameClaims(s, t);
    OpenNotGood(t);
    Kept(w, x, a.sid, t);
  }

  lemma OpenNotGood(s: Session)
    ensures !s.status.Closed? ==> !InGoodOrder(s)
  {
  }

  lemma SettledBooks(s: Session, h: nat)
    ensures var t := SettledOne(s, h); t.filed == s.filed && t.arrivals == s.arrivals && t.terms == s.terms
  {
    hide AllSettled;
  }

  lemma SubmitEffects(w: World, a: Action)
    requires Enabled(w, a) && a.Submit?
    ensures a.sid in w.sessions && a.c.hash !in w.sessions[a.sid].filed && a.c.newState == Successor(a.c)
    ensures var s, x := w.sessions[a.sid], Next(w, a);
      && x.sessions == w.sessions[a.sid := Filed(w, s, a.c)] && x.profile.successfulSessions == w.profile.successfulSessions
      && if MakesFork(s, a.c) then !x.profile.offlineAccessEnabled && x.profile.conflictCount == w.profile.conflictCount + 1
         else SameForks(w.profile, x.profile)
  {
    hide ParentOk, CountersFit, IsNewEdge, Filed, MakesFork;
  }

  lemma BranchingsAfter(w: World, s: Session, c: Credential)
    requires BookOk(s) && c.newState == Successor(c) && c.hash !in s.filed
    ensures |Branchings(Filed(w, s, c))| == |Branchings(s)| + if MakesFork(s, c) then 1 else 0
    ensures HasFork(Filed(w, s, c)) <==> HasFork(s) || MakesFork(s, c)
    ensures !HasFork(s) ==> |Branchings(s)| == 0
  {
    ForkAfterSubmit(s, c);
    ValuesAfter(s.filed, c.hash, c.newState);
    ArrivalKeys(s, ForkSeed(c.previousState, c.sequence));
    if !HasFork(s) { NoBranchings(s); }
    hide BookOk, Forked, Branchings, FiledStatus;
    assert Filed(w, s, c).filed == s.filed[c.hash := c.newState];
    hide Filed, Arrivals, Children;
    if IsNewEdge(s, c) {
      BranchingsNew(w, s, c);
    } else {
      assert s.filed.Values + {c.newState} == s.filed.Values;
      BranchingsOld(w, s, c);
    }
  }

  lemma SubmitProfile(w: World, a: Action)
    requires WorldOk(w) && ProfileOk(w) && Enabled(w, a) && a.Submit?
    ensures ProfileOk(Next(w, a))
  {
    SubmitEffects(w, a);
    OpenBefore(w, a);
    OpenSession(w, a.sid);
    var s, t, x := w.sessions[a.sid], Filed(w, w.sessions[a.sid], a.c), Next(w, a);
    assert BookOk(s);
    SubmitOpen(w, a);
    hide *;
    BranchingsAfter(w, s, a.c);
    ProfileParts(w);
    ForksFile(w, x, a.sid, t, MakesFork(s, a.c));
    OpenNotGood(s);
    OpenNotGood(t);
    GoodAfter(w, x, a.sid, t);
    ProfileWhole(x);
  }

  lemma SubmitOpen(w: World, a: Action)
    requires Enabled(w, a) && a.Submit? && a.sid in w.sessions
    ensures !Filed(w, w.sessions[a.sid], a.c).status.Closed?
  {
    hide PayloadOk, ParentOk, CountersFit, IsNewEdge, Arrivals, Rep, MakesFork;
  }

  lemma CustodyProfile(w: World, a: Action)
    requires ProfileOk(w) && Enabled(w, a) && (a.Tick? || a.Pause? || a.Receive? || a.Deposit? || a.Withdraw?)
    ensures ProfileOk(Next(w, a))
  {
    assert Next(w, a).sessions == w.sessions && Next(w, a).profile == w.profile;
    hide *;
    Idle(w, Next(w, a));
  }

  lemma ProfileKeeps(w: World, a: Action)
    requires WorldOk(w) && ProfileOk(w) && Enabled(w, a)
    ensures ProfileOk(Next(w, a))
  {
    hide *;
    match a
    case Create(_, _, _, _, _) => CreateProfile(w, a);
    case Submit(_, _, _) => SubmitProfile(w, a);
    case Settle(_, _, _, _) => SettleProfile(w, a);
    case Close(_) => CloseProfile(w, a);
    case Authorize(_, _) => StepProfile(w, a);
    case Begin(_) => StepProfile(w, a);
    case Classify(_, _, _, _) => StepProfile(w, a);
    case Allocate(_, _, _) => StepProfile(w, a);
    case _ => CustodyProfile(w, a);
  }

  lemma {:induction false} ProfileAt(w: World, run: seq<Action>, i: nat)
    requires Initial(w) && CanRun(w, run) && i <= |run|
    ensures ProfileOk(WorldAt(w, run, i))
    decreases i
  {
    hide *;
    if i == 0 {
      StartAt(w, run);
      InitialProfile(w);
    } else {
      OkAt(w, run, i - 1);
      ProfileAt(w, run, i - 1);
      StepAt(w, run, i - 1);
      ProfileKeeps(WorldAt(w, run, i - 1), run[i - 1]);
    }
  }

  lemma InitialProfile(w: World)
    requires Initial(w)
    ensures ProfileOk(w)
  {
    assert GoodSessions(w) == {};
  }

  lemma AccessTells(w: World, sid: nat, other: nat)
    requires ProfileOk(w)
    ensures w.profile.offlineAccessEnabled <==> forall k :: k in w.sessions ==> !Forked(w.sessions[k].filed.Values)
    ensures w.profile.offlineAccessEnabled ==> w.profile.conflictCount == 0 && w.profile.revokedAt == 0
    ensures sid in w.sessions && other in w.sessions ==>
      Forked(w.sessions[sid].filed.Values) && Forked(w.sessions[other].filed.Values) ==> sid == other
  {
    assert forall k :: k in w.sessions ==> (HasFork(w.sessions[k]) <==> Forked(w.sessions[k].filed.Values));
    hide Forked, Branchings;
  }

  lemma CountsTell(w: World, sid: nat)
    requires ProfileOk(w)
    ensures sid in w.sessions && Forked(w.sessions[sid].filed.Values) ==>
      w.profile.conflictCount
        == |set k | k in w.sessions[sid].arrivals && |Children(w.sessions[sid].filed.Values, k.parent, k.sequence)| >= 2|
    ensures w.profile.successfulSessions
         == |set k | k in w.sessions && w.sessions[k].status.Closed? && !Forked(w.sessions[k].filed.Values)
                     && Exposure(Claims(w.sessions[k])) <= w.sessions[k].terms.cap|
  {
    assert sid in w.sessions && Forked(w.sessions[sid].filed.Values) ==> HasFork(w.sessions[sid]);
    assert GoodSessions(w) == set k | k in w.sessions && w.sessions[k].status.Closed? && !Forked(w.sessions[k].filed.Values)
                                      && Exposure(Claims(w.sessions[k])) <= w.sessions[k].terms.cap;
    hide Forked, Children, HasFork;
  }

  lemma ActiveTells(w: World, sid: nat)
    requires WorldOk(w)
    ensures w.profile.activeSession == Some(sid) <==> sid in w.sessions && !w.sessions[sid].status.Closed?
  {
    WorldFacts(w, sid);
    if sid in w.sessions { OpenSession(w, sid); }
    hide WorldOk, SessionOk, SessionIn, Solvent;
  }

  /** Over every run: offline access is enabled exactly while no session has a fork; at most one session
      ever has one, and the conflict count is the number of its branchings; the count of successes is
      the number of sessions closed without a fork and with every claim covered; and the active session
      is the one that is open. */
  lemma ProfileTells(w: World, run: seq<Action>, sid: nat, other: nat)
    requires Initial(w) && CanRun(w, run)
    ensures End(w, run).profile.offlineAccessEnabled
       <==> forall k :: k in End(w, run).sessions ==> !Forked(End(w, run).sessions[k].filed.Values)
    ensures End(w, run).profile.offlineAccessEnabled ==>
      End(w, run).profile.conflictCount == 0 && End(w, run).profile.revokedAt == 0
    ensures var x := End(w, run);
      sid in x.sessions && other in x.sessions ==>
        Forked(x.sessions[sid].filed.Values) && Forked(x.sessions[other].filed.Values) ==> sid == other
    ensures var x := End(w, run);
      sid in x.sessions && Forked(x.sessions[sid].filed.Values) ==>
        x.profile.conflictCount
          == |set k | k in x.sessions[sid].arrivals && |Children(x.sessions[sid].filed.Values, k.parent, k.sequence)| >= 2|
    ensures var x := End(w, run);
      x.profile.successfulSessions
      == |set k | k in x.sessions && x.sessions[k].status.Closed? && !Forked(x.sessions[k].filed.Values)
                  && Exposure(Claims(x.sessions[k])) <= x.sessions[k].terms.cap|
    ensures var x := End(w, run);
      x.profile.activeSession == Some(sid) <==> sid in x.sessions && !x.sessions[sid].status.Closed?
  {
    hide *;
    EndsAt(w, run);
    ProfileAt(w, run, |run|);
    OkAt(w, run, |run|);
    AccessTells(End(w, run), sid, other);
    CountsTell(End(w, run), sid);
    ActiveTells(End(w, run), sid);
  }

  lemma RevokeStep(w: World, a: Action)
    requires Enabled(w, a)
    ensures !w.profile.offlineAccessEnabled ==> !Next(w, a).profile.offlineAccessEnabled
    ensures w.profile.revokedAt != 0 ==> Next(w, a).profile.revokedAt == w.profile.revokedAt
    ensures w.profile.offlineAccessEnabled && !Next(w, a).profile.offlineAccessEnabled ==>
      a.Submit? && Next(w, a).profile.revokedAt == if w.profile.revokedAt == 0 then w.clock else w.profile.revokedAt
  {
    hide PayloadOk, ParentOk, CountersFit, Claims, Owed, Filed, Begun, Scanned, SettledOne, MakesFork, Rep, Complete,
         ReleaseSurplus, ClassificationComplete, Payable, ParentReady, AllSettled, Successful;
  }

  lemma EnabledUnrevoked(w: World)
    requires ProfileOk(w)
    ensures w.profile.offlineAccessEnabled ==> w.profile.revokedAt == 0
  {
  }

  lemma RevocationStep(w: World, run: seq<Action>, i: nat)
    requires Initial(w) && CanRun(w, run) && i <= |run| && !WorldAt(w, run, i).profile.offlineAccessEnabled
    ensures 0 < i
    ensures var x, y := WorldAt(w, run, i - 1), WorldAt(w, run, i);
      if x.profile.offlineAccessEnabled then run[i - 1].Submit? && y.profile.revokedAt == x.clock
      else x.profile.revokedAt != 0 ==> y.profile.revokedAt == x.profile.revokedAt
  {
    hide *;
    StartAt(w, run);
    AccessAtStart(w);
    StepAt(w, run, i - 1);
    ProfileAt(w, run, i - 1);
    EnabledUnrevoked(WorldAt(w, run, i - 1));
    RevokeStep(WorldAt(w, run, i - 1), run[i - 1]);
  }

  lemma AccessAtStart(w: World)
    requires Initial(w)
    ensures w.profile.offlineAccessEnabled
  {
  }

  /** Access is lost by one submission, and the profile keeps the time of it. */
  lemma {:induction false} RevokedWhen(w: World, run: seq<Action>, i: nat) returns (j: nat)
    requires Initial(w) && CanRun(w, run) && i <= |run| && !WorldAt(w, run, i).profile.offlineAccessEnabled
    ensures j < i && run[j].Submit?
    ensures WorldAt(w, run, j).profile.offlineAccessEnabled && !WorldAt(w, run, j + 1).profile.offlineAccessEnabled
    ensures WorldAt(w, run, j).clock != 0 ==> WorldAt(w, run, i).profile.revokedAt == WorldAt(w, run, j).clock
    decreases i
  {
    hide *;
    RevocationStep(w, run, i);
    if WorldAt(w, run, i - 1).profile.offlineAccessEnabled { j := i - 1; } else { j := RevokedWhen(w, run, i - 1); }
  }
}
