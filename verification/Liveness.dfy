/** Finalization never deadlocks and always ends: a frozen session can always take another step,
    paused or not, unless a lifetime counter is full, and only finitely many steps lead to Closed. */
module Liveness {
  import opened Collections
  import opened ProRata
  import opened States
  import opened Protocol
  import opened Invariants
  import opened Runs
  import opened Payments

  predicate Finalizing(a: Action, sid: nat)
  {
    (a.Classify? || a.Allocate? || a.Settle? || a.Close?) && a.sid == sid
  }

  /** A claim in the set whose edge is as shallow as any. */
  lemma {:induction false} Shallowest(f: Book, keys: set<nat>) returns (h: nat)
    requires keys != {} && forall k :: k in keys ==> k in f && f[k].Payment?
    ensures h in keys && forall k :: k in keys ==> f[h].sequence <= f[k].sequence
    decreases |keys|
  {
    h :| h in keys;
    if keys != {h} {
      var g := Shallowest(f, keys - {h});
      if f[g].sequence < f[h].sequence { h := g; }
    }
  }

  lemma FiledPayment(s: Session, h: nat)
    requires BookOk(s) && h in s.filed
    ensures s.filed[h].Payment? && s.filed[h] in s.filed.Values
    ensures s.filed[h].sequence != 1 ==>
      && s.filed[h].prev in s.filed.Values && s.filed[h].prev.Payment?
      && s.filed[h].prev.sequence + 1 == s.filed[h].sequence
  {
    assert s.filed[h] in s.filed.Values;
    assert Linked(Root(s.terms), s.terms.limit, s.terms.maxDepth, s.filed.Values, s.filed[h]);
  }

  /** While classification is unfinished some edge can be classified next. */
  lemma ClassifyReady(s: Session) returns (e: StateHash, parent: Key)
    requires BookOk(s) && s.frozen && s.classified <= Claims(s).Keys && !ClassificationComplete(s)
    ensures e in s.filed.Values && e.Payment? && Rep(s.filed, e) !in s.classified && ParentReady(s, e, parent)
  {
    var open := Claims(s).Keys - s.classified;
    assert Claims(s).Keys <= s.filed.Keys;
    forall k | k in open ensures s.filed[k].Payment? { FiledPayment(s, k); }
    hide BookOk;
    assert open != {};
    var h := Shallowest(s.filed, open);
    FiledPayment(s, h);
    e := s.filed[h];
    EligibleKey(s.filed, h);
    if e.sequence == 1 {
      parent := SessionKey;
    } else {
      parent := EdgeAddress(e.prev);
      var r := Rep(s.filed, e.prev);
      RepEligible(s.filed, e.prev);
      assert s.filed[r] == e.prev;
      assert r !in open;
    }
  }

  lemma NothingLeft(all: set<nat>, some: set<nat>)
    requires some <= all
    ensures all - some == {} ==> some == all
  {
    assert all == some + (all - some);
  }

  /** Once classified, the least unscanned claim can be allocated. */
  lemma AllocateReady(s: Session) returns (h: nat)
    requires ProgressOk(s) && ClassificationComplete(s) && !Complete(s)
    ensures h in s.filed && h !in s.scanned && Below(s.filed.Keys, h) <= s.scanned
  {
    hide Claims, Payable, ParentsClassified;
    var rest := s.filed.Keys - s.scanned;
    NothingLeft(s.filed.Keys, s.scanned);
    h := Min(rest);
    forall k | k in Below(s.filed.Keys, h) ensures k in s.scanned {
      assert k !in s.scanned ==> k in rest;
    }
  }

  /** Room in the vault's lifetime total and in the owner's count of successes. */
  ghost predicate CountersAllow(w: World, sid: nat)
    requires sid in w.sessions
  {
    var s := w.sessions[sid];
    Complete(s) ==>
      if AllSettled(s) then Successful(s) ==> w.profile.successfulSessions < U32_MAX
      else exists h :: h in Payable(s) && h !in s.settled && w.vault.settledFromCollateral + Owed(s, h) <= U64_MAX
  }

  ghost predicate Frozen(w: World, sid: nat)
  {
    sid in w.sessions && w.sessions[sid].frozen && !w.sessions[sid].status.Closed?
  }

  /** A frozen session that is not closed can take a finalization step exactly when the counters
      allow it. Pausing the protocol makes no difference. */
  lemma NeverStuck(w: World, run: seq<Action>, sid: nat)
    requires Initial(w) && CanRun(w, run) && Frozen(End(w, run), sid)
    ensures (exists a :: Finalizing(a, sid) && Enabled(End(w, run), a)) <==> CountersAllow(End(w, run), sid)
  {
    InitialOk(w);
    RunKeeps(w, run);
    hide CanRun, End, WorldOk, CountersAllow, Enabled;
    if CountersAllow(End(w, run), sid) {
      var a := NextStep(End(w, run), sid);
    } else {
      forall a | Finalizing(a, sid) && Enabled(End(w, run), a) ensures false {
        StepAllowed(End(w, run), a, sid);
      }
    }
  }

  lemma StepAllowed(w: World, a: Action, sid: nat)
    requires WorldOk(w) && Frozen(w, sid) && Finalizing(a, sid) && Enabled(w, a)
    ensures CountersAllow(w, sid)
  {
    if a.Classify? || a.Allocate? {
      NeverAfterCompletion(w, a, w.sessions[sid]);
    }
    hide WorldOk, Complete, Payable, Owed, Successful, Claims;
  }

  lemma OpenStage(s: Session)
    requires SessionOk(s) && s.frozen && !s.status.Closed?
    ensures !Complete(s) ==> s.status.Reconciling?
    ensures Complete(s) && !AllSettled(s) ==> s.status.Settling()
  {
    hide BookOk, ProgressOk, Claims, Payable, Forked;
  }

  lemma CloseReady(w: World, sid: nat)
    requires sid in w.sessions && CountersAllow(w, sid)
    requires var s := w.sessions[sid]; Complete(s) && AllSettled(s) && !s.status.Closed?
    ensures Enabled(w, Close(sid))
  {
    hide Complete, AllSettled, Successful, Payable;
  }

  lemma SettleReady(w: World, sid: nat)
    requires sid in w.sessions && CountersAllow(w, sid)
    requires var s := w.sessions[sid]; Complete(s) && !AllSettled(s)
    ensures var s := w.sessions[sid];
      exists h :: h in Payable(s) && h !in s.settled && w.vault.settledFromCollateral + Owed(s, h) <= U64_MAX
  {
    hide Complete, AllSettled, Payable, Owed;
  }

  lemma ScanReady(w: World, a: Action)
    requires a.Classify? ==> CanClassify(w, a.sid, a.e, a.fork, a.parent)
    requires a.Allocate? ==> CanAllocate(w, a.sid, a.h, a.e)
    requires a.Classify? || a.Allocate?
    ensures Enabled(w, a)
  {
    hide CanClassify, CanAllocate;
  }

  lemma NextStep(w: World, sid: nat) returns (a: Action)
    requires WorldOk(w) && Frozen(w, sid) && CountersAllow(w, sid)
    ensures Finalizing(a, sid) && Enabled(w, a)
  {
    var s := w.sessions[sid];
    OpenSession(w, sid);
    hide WorldOk, SessionOk, SessionIn, Complete, AllSettled, Successful, Payable, Claims, Owed, Enabled, CountersAllow;
    OpenStage(s);
    if !Complete(s) {
      a := NextScan(w, sid);
    } else if AllSettled(s) {
      a := Close(sid);
      CloseReady(w, sid);
    } else {
      assert exists h :: h in Payable(s) && h !in s.settled && w.vault.settledFromCollateral + Owed(s, h) <= U64_MAX by {
        SettleReady(w, sid);
      }
      var h :| h in Payable(s) && h !in s.settled && w.vault.settledFromCollateral + Owed(s, h) <= U64_MAX;
      a := SettleStepFor(w, sid, h);
    }
  }

  lemma SettleEnabled(w: World, sid: nat, h: nat, e: StateHash, to: nat)
    requires CanSettle(w, sid, h, e, to) && Affordable(w, sid, h)
    ensures Enabled(w, Settle(sid, h, e, to))
  {
    hide CanSettle, Affordable;
  }

  lemma SettleStepFor(w: World, sid: nat, h: nat) returns (a: Action)
    requires WorldOk(w) && sid in w.sessions && var s := w.sessions[sid];
      && s.status.Settling() && Complete(s) && h in Payable(s) && h !in s.settled
      && w.vault.settledFromCollateral + Owed(s, h) <= U64_MAX
    ensures a.Settle? && a.sid == sid && Enabled(w, a)
  {
    var s := w.sessions[sid];
    assert h in Claims(s) && h in s.filed;
    OpenSession(w, sid);
    FiledPayment(s, h);
    var e := s.filed[h];
    a := Settle(sid, h, e, e.merchant);
    hide WorldOk, SessionOk, SessionIn, Complete, Payable, Claims, Owed, Enabled, Outstanding;
    assert CanSettle(w, sid, h, e, e.merchant);
    SettleFits(w, sid, h, e, e.merchant);
    SettleEnabled(w, sid, h, e, e.merchant);
  }

  lemma ScanParts(s: Session)
    requires SessionOk(s)
    ensures BookOk(s) && ProgressOk(s) && s.classified <= Claims(s).Keys
  {
    hide BookOk, Claims, Payable, ParentsClassified, StageOk;
  }

  lemma NextScan(w: World, sid: nat) returns (a: Action)
    requires WorldOk(w) && Frozen(w, sid) && !Complete(w.sessions[sid])
    ensures Finalizing(a, sid) && Enabled(w, a)
  {
    var s := w.sessions[sid];
    OpenSession(w, sid);
    OpenStage(s);
    ScanParts(s);
    hide WorldOk, SessionIn, SessionOk, ProgressOk, BookOk, Claims, ParentReady, Complete, ClassificationComplete, Enabled, Rep;
    if !ClassificationComplete(s) {
      var e, parent := ClassifyReady(s);
      a := Classify(sid, e, ForkKey(e.prev, e.sequence), parent);
    } else {
      var h := AllocateReady(s);
      a := Allocate(sid, h, s.filed[h]);
    }
    ScanReady(w, a);
  }

  // ----- Termination -----

  /** Work left: edges to classify, claims to scan, claims to settle, and the closing itself. */
  ghost function Work(s: Session): nat
  {
    |Claims(s).Keys - s.classified| + |s.filed.Keys - s.scanned| + |Payable(s) - s.settled|
      + if s.status.Closed? then 0 else 1
  }

  lemma Shrinks(a: set<nat>, b: set<nat>, x: nat)
    requires x in a && x !in b
    ensures |a - (b + {x})| + 1 == |a - b|
  {
    assert a - b == (a - (b + {x})) + {x};
  }

  lemma WorkOf(s: Session, t: Session)
    requires s.filed == t.filed && s.terms == t.terms
    ensures Claims(t) == Claims(s) && Payable(t) == Payable(s)
  {
  }

  lemma StepClosed(w: World, a: Action, sid: nat)
    requires Enabled(w, a) && Finalizing(a, sid)
    ensures sid in w.sessions && !w.sessions[sid].status.Closed?
    ensures Stepped(w, w.sessions[sid], a).filed == w.sessions[sid].filed
    ensures Stepped(w, w.sessions[sid], a).terms == w.sessions[sid].terms
  {
    SteppedBook(w, w.sessions[sid], a);
    hide Complete, Payable, Claims, Owed, AllSettled, ParentReady, ClassificationComplete, Stepped;
  }

  /** Every finalization step leaves less work. */
  lemma WorkDecreases(w: World, a: Action, sid: nat)
    requires WorldOk(w) && Enabled(w, a) && Finalizing(a, sid)
    ensures sid in w.sessions && sid in Next(w, a).sessions
    ensures Work(Next(w, a).sessions[sid]) < Work(w.sessions[sid])
  {
    StepClosed(w, a, sid);
    SessionAfter(w, a, sid);
    var s, t := w.sessions[sid], Next(w, a).sessions[sid];
    hide Next, WorldOk, Work, Stepped;
    if a.Classify? {
      var r := ClassifiedRep(w, a);
      LessToClassify(s, r);
    } else if a.Close? {
      ClosedWork(s, Stepped(w, s, a));
    } else {
      StepFresh(w, a);
      SteppedScan(w, s, a);
      hide Enabled;
      LessToDo(s, t, if a.Allocate? then {a.h} else {}, if a.Settle? then {a.h} else {}, a.h);
    }
  }

  lemma StepFresh(w: World, a: Action)
    requires Enabled(w, a) && (a.Allocate? || a.Settle?)
    ensures a.sid in w.sessions
    ensures a.Allocate? ==> a.h in w.sessions[a.sid].filed && a.h !in w.sessions[a.sid].scanned
    ensures a.Settle? ==> a.h in Payable(w.sessions[a.sid]) && a.h !in w.sessions[a.sid].settled
  {
    hide Complete, Payable, Claims, Owed;
  }

  lemma ClosedWork(s: Session, t: Session)
    requires t == s.(status := Closed) && !s.status.Closed?
    ensures Work(t) < Work(s)
  {
    WorkOf(s, t);
    hide Claims, Payable;
  }

  lemma LessToClassify(s: Session, r: nat)
    requires r in Claims(s) && r !in s.classified
    ensures Work(s.(classified := s.classified + {r})) < Work(s)
  {
    WorkOf(s, s.(classified := s.classified + {r}));
    hide Claims, Payable;
    Shrinks(Claims(s).Keys, s.classified, r);
  }

  lemma LessToDo(s: Session, t: Session, scan: set<nat>, settle: set<nat>, h: nat)
    requires t.filed == s.filed && t.terms == s.terms && t.classified == s.classified && !s.status.Closed?
    requires t.scanned == s.scanned + scan && t.settled == s.settled + settle
    requires (scan == {h} && settle == {} && h in s.filed && h !in s.scanned)
          || (scan == {} && settle == {h} && h in Payable(s) && h !in s.settled)
    ensures Work(t) < Work(s)
  {
    WorkOf(s, t);
    hide Claims, Payable;
    if scan == {h} { Shrinks(s.filed.Keys, s.scanned, h); } else { Shrinks(Payable(s), s.settled, h); }
  }

  lemma SteppedScan(w: World, s: Session, a: Action)
    requires a.Allocate? || a.Settle?
    ensures var t := Stepped(w, s, a);
      && t.classified == s.classified
      && t.scanned == s.scanned + (if a.Allocate? then {a.h} else {})
      && t.settled == s.settled + (if a.Settle? then {a.h} else {})
  {
    hide Complete, AllSettled, FinalStatus;
  }

  lemma ClassifiedRep(w: World, a: Action) returns (r: nat)
    requires Enabled(w, a) && a.Classify?
    ensures a.sid in w.sessions && a.e in w.sessions[a.sid].filed.Values
    ensures r in Claims(w.sessions[a.sid]) && r !in w.sessions[a.sid].classified
    ensures Stepped(w, w.sessions[a.sid], a) == w.sessions[a.sid].(classified := w.sessions[a.sid].classified + {r})
  {
    r := Rep(w.sessions[a.sid].filed, a.e);
    RepEligible(w.sessions[a.sid].filed, a.e);
  }

  /** Nothing else anyone does adds work to a frozen session or thaws it. */
  lemma WorkStays(w: World, a: Action, sid: nat)
    requires WorldOk(w) && Enabled(w, a) && sid in w.sessions && w.sessions[sid].frozen && !Finalizing(a, sid)
    ensures sid in Next(w, a).sessions && Next(w, a).sessions[sid].frozen
    ensures Work(Next(w, a).sessions[sid]) <= Work(w.sessions[sid])
  {
    var s := w.sessions[sid];
    SessionAfter(w, a, sid);
    if Touches(a, sid) {
      BeginOrAuthorize(w, a, s);
      hide Next, WorldOk, Enabled;
      SteppedIdle(w, s, a);
      WorkOf(s, Stepped(w, s, a));
      hide Claims, Payable;
    }
  }

  lemma BeginOrAuthorize(w: World, a: Action, s: Session)
    requires WorldOk(w) && Enabled(w, a) && s.frozen && (a.Create? || a.Authorize? || a.Submit? || a.Begin?)
    requires a.sid in w.sessions && s == w.sessions[a.sid]
    ensures a.Authorize? || (a.Begin? && !s.status.Closed?)
  {
    if a.Submit? { SubmitKeepsSession(w, a.sid, a.c, a.accounts); }
    hide WorldOk, Claims, PayloadOk, ParentOk, CountersFit;
  }

  lemma SteppedIdle(w: World, s: Session, a: Action)
    requires s.frozen && (a.Authorize? || (a.Begin? && !s.status.Closed?))
    ensures var t := Stepped(w, s, a);
      && t.filed == s.filed && t.terms == s.terms && t.classified == s.classified && t.scanned == s.scanned
      && t.settled == s.settled && t.frozen && (t.status.Closed? <==> s.status.Closed?)
  {
  }

  lemma FinalizingFrozen(w: World, a: Action, sid: nat)
    requires WorldOk(w) && Enabled(w, a) && sid in w.sessions && w.sessions[sid].frozen && Finalizing(a, sid)
    ensures sid in Next(w, a).sessions && Next(w, a).sessions[sid].frozen
  {
    SessionAfter(w, a, sid);
    hide Complete, AllSettled, FinalStatus, Enabled, Next, WorldOk;
  }

  /** How many finalization steps of a session a run contains. */
  function Steps(run: seq<Action>, sid: nat): nat
  {
    if run == [] then 0 else (if Finalizing(run[0], sid) then 1 else 0) + Steps(run[1..], sid)
  }

  /** No run, however it interleaves other actions and repeated begin_finalization calls, takes more
      finalization steps than there was work. */
  lemma {:induction false} StepsBounded(w: World, run: seq<Action>, sid: nat)
    requires WorldOk(w) && CanRun(w, run) && sid in w.sessions && w.sessions[sid].frozen
    ensures sid in End(w, run).sessions
    ensures Steps(run, sid) + Work(End(w, run).sessions[sid]) <= Work(w.sessions[sid])
    decreases |run|
  {
    hide WorldOk, Enabled, Next, Work;
    if run != [] {
      NextKeeps(w, run[0]);
      if Finalizing(run[0], sid) {
        WorkDecreases(w, run[0], sid);
        FinalizingFrozen(w, run[0], sid);
      } else {
        WorkStays(w, run[0], sid);
      }
      StepsBounded(Next(w, run[0]), run[1..], sid);
    }
  }

  /** Room for every payment the session still has to make and for one more success. */
  ghost predicate Roomy(w: World)
  {
    w.vault.settledFromCollateral + w.vault.reserved <= U64_MAX && w.profile.successfulSessions < U32_MAX
  }

  lemma RoomySteps(w: World, a: Action, sid: nat)
    requires WorldOk(w) && Roomy(w) && Enabled(w, a) && Finalizing(a, sid) && sid in w.sessions
    ensures sid in Next(w, a).sessions && (a.Close? ==> Next(w, a).sessions[sid].status.Closed?)
    ensures !a.Close? ==> Roomy(Next(w, a))
  {
    SessionAfter(w, a, sid);
    if a.Close? { ClosesSession(w, sid); }
    hide WorldOk, Enabled, Next, Roomy;
    match a
    case Settle(_, h, e, to) => RoomySettle(w, sid, h, e, to);
    case Allocate(_, h, e) => RoomyAllocate(w, sid, h, e);
    case Classify(_, e, fork, parent) => RoomyClassify(w, sid, e, fork, parent);
    case _ =>
  }

  lemma ClosesSession(w: World, sid: nat)
    requires Enabled(w, Close(sid))
    ensures sid in Next(w, Close(sid)).sessions && Next(w, Close(sid)).sessions[sid].status.Closed?
  {
    hide Complete, AllSettled, Successful;
  }

  lemma RoomySettle(w: World, sid: nat, h: nat, e: StateHash, to: nat)
    requires Roomy(w) && Enabled(w, Settle(sid, h, e, to))
    ensures Roomy(Next(w, Settle(sid, h, e, to)))
  {
    hide CanSettle, Owed, SettledOne, Claims;
  }

  lemma RoomyAllocate(w: World, sid: nat, h: nat, e: StateHash)
    requires Roomy(w) && Enabled(w, Allocate(sid, h, e))
    ensures Roomy(Next(w, Allocate(sid, h, e)))
  {
    hide Complete, Scanned, Claims, Coverage, ClassificationComplete;
    LessReserved(w.vault, w.sessions[sid], Scanned(w.sessions[sid], h));
    hide ReleaseSurplus;
  }

  lemma LessReserved(v: CollateralVault, before: Session, after: Session)
    ensures ReleaseSurplus(v, before, after).settledFromCollateral == v.settledFromCollateral
    ensures Coverage(Claims(after), after.terms.cap) <= after.terms.cap
    ensures ReleaseSurplus(v, before, after).reserved <= v.reserved
  {
    hide Complete, Claims;
  }

  lemma RoomyClassify(w: World, sid: nat, e: StateHash, fork: Key, parent: Key)
    requires Roomy(w) && Enabled(w, Classify(sid, e, fork, parent))
    ensures Roomy(Next(w, Classify(sid, e, fork, parent)))
  {
    hide ClassificationComplete, Rep, ParentReady;
  }

  lemma RoomyAllows(w: World, sid: nat)
    requires WorldOk(w) && Roomy(w) && Frozen(w, sid)
    ensures CountersAllow(w, sid)
  {
    var s := w.sessions[sid];
    OpenSession(w, sid);
    OpenStage(s);
    if Complete(s) && !AllSettled(s) {
      assert s.settled <= Payable(s) by { hide BookOk, Payable, Forked, StageOk; }
      var h :| h in Payable(s) && h !in s.settled;
      hide WorldOk, SessionOk, Complete, Owed, Claims, AllSettled, Outstanding;
      OwedWithinReserve(w, sid, h);
    }
  }

  lemma OwedWithinReserve(w: World, sid: nat, h: nat)
    requires WorldOk(w) && sid in w.sessions && var s := w.sessions[sid];
      s.status.Settling() && Complete(s) && h in Payable(s) && h !in s.settled
    ensures h in Claims(w.sessions[sid]) && Owed(w.sessions[sid], h) <= w.vault.reserved
  {
    OpenSession(w, sid);
    SettleKeepsSession(w.sessions[sid], h);
    hide SessionOk, Outstanding, Owed, WorldOk;
  }

  /** Given that room, finalization steps alone bring a frozen session to Closed. */
  lemma {:induction false} ReachesClosed(w: World, sid: nat) returns (run: seq<Action>)
    requires WorldOk(w) && Roomy(w) && Frozen(w, sid)
    ensures CanRun(w, run) && (forall a :: a in run ==> Finalizing(a, sid))
    ensures |run| <= Work(w.sessions[sid])
    ensures sid in End(w, run).sessions && End(w, run).sessions[sid].status.Closed?
    decreases Work(w.sessions[sid])
  {
    hide WorldOk, Enabled, Next, Work, Roomy, CountersAllow;
    RoomyAllows(w, sid);
    var a := NextStep(w, sid);
    var x := Next(w, a);
    NextKeeps(w, a);
    WorkDecreases(w, a, sid);
    FinalizingFrozen(w, a, sid);
    RoomySteps(w, a, sid);
    var rest: seq<Action> := [];
    if !x.sessions[sid].status.Closed? {
      rest := ReachesClosed(x, sid);
    }
    run := [a] + rest;
    assert run[1..] == rest;
  }
}
