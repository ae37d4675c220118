/** What every step of the protocol keeps: the books are trees of legal payments, finalization
    has advanced consistently, and the vault's reserve is exactly what the open session holds. */
module Invariants {
  import opened Collections
  import opened ProRata
  import opened States
  import opened Protocol

  ghost predicate ArrivalsOk(states: set<StateHash>, arrivals: map<ForkSeed, FirstTwo>)
  {
    && (forall p, q :: ForkSeed(p, q) in arrivals <==> Children(states, p, q) != {})
    && (forall p, q :: ForkSeed(p, q) in arrivals ==> ArrivalOk(Children(states, p, q), arrivals[ForkSeed(p, q)]))
  }

  ghost predicate ArrivalOk(children: set<StateHash>, a: FirstTwo)
  {
    && |children| <= U32_MAX
    && a.first in children
    && (a.second.Some? <==> 2 <= |children|)
    && (a.second.Some? ==> a.second.value in children && a.second.value != a.first)
  }

  ghost predicate BookOk(s: Session)
  {
    && EconomicsOk(s.terms.cap, s.terms.limit) && s.terms.cap <= U64_MAX && s.terms.limit <= U64_MAX
    && s.terms.maxDepth == MAX_BRANCH_DEPTH
    && Tree(Root(s.terms), s.terms.limit, s.terms.maxDepth, s.filed.Values)
    && Exposure(Claims(s)) <= U64_MAX && |s.filed| <= U64_MAX
    && (forall e :: e in s.filed.Values ==> |Wrappers(s.filed, e)| <= U32_MAX)
    && ArrivalsOk(s.filed.Values, s.arrivals)
  }

  /** A classified edge's parent is classified. */
  ghost predicate ParentsClassified(f: Book, classified: set<nat>)
  {
    forall h :: h in classified && h in f && f[h].Payment? && f[h].sequence != 1 && f[h].prev in f.Values
                ==> Rep(f, f[h].prev) in classified
  }

  /** Classification follows the tree, scanning follows the list, settlement comes last. */
  ghost predicate ProgressOk(s: Session)
  {
    && s.classified <= Claims(s).Keys && ParentsClassified(s.filed, s.classified)
    && s.scanned <= s.filed.Keys
    && (forall h, k :: h in s.scanned && k in s.filed && k < h ==> k in s.scanned)
    && (s.scanned != {} ==> ClassificationComplete(s))
    && s.settled <= Payable(s)
    && (s.settled != {} ==> Complete(s))
    && (!s.frozen ==> s.classified == {} && s.scanned == {})
  }

  ghost predicate StageOk(s: Session)
  {
    && (!s.frozen ==> !s.rewound && s.status.Collecting()
                      && (s.status.Conflicted? <==> Forked(s.filed.Values)))
    && (s.frozen && !Complete(s) ==> s.status.Reconciling? && !s.rewound)
    && (Complete(s) ==> StatusOk(s))
  }

  ghost predicate PhaseOk(s: Session) { ProgressOk(s) && StageOk(s) }

  ghost predicate StatusOk(s: Session)
  {
    && (s.status.Settling() || s.status.Settled? || s.status.Closed?)
    && (s.status.Insolvent? ==> Overdrawn(s))
    && (s.status.Conflicted? ==> !Overdrawn(s) && Forked(s.filed.Values) && !s.rewound)
    && (s.status.Reconciling? || s.status.Settled? ==> !Overdrawn(s) && (Forked(s.filed.Values) ==> s.rewound))
    && (s.status.Settled? || s.status.Closed? ==> AllSettled(s))
    && (s.rewound ==> Forked(s.filed.Values) && !Overdrawn(s))
  }

  ghost predicate SessionOk(s: Session) { BookOk(s) && PhaseOk(s) }

  ghost predicate SessionIn(w: World, sid: nat)
    requires sid in w.sessions
  {
    var s := w.sessions[sid];
    && SessionOk(s)
    && s.terms.sessionId == sid && s.terms.owner == w.owner
    && (s.frozen ==> s.terms.deadline < w.clock)
    && (s.status != Closed ==> w.profile.activeSession == Some(sid))
    && (Forked(s.filed.Values) ==> !w.profile.offlineAccessEnabled)
  }

  ghost function Reserve(w: World): int
  {
    match w.profile.activeSession
    case None => 0
    case Some(sid) => if sid in w.sessions then Outstanding(w.sessions[sid]) else 0
  }

  ghost predicate Solvent(w: World)
  {
    && w.vault.reserved == Reserve(w)
    && w.vault.reserved <= w.vault.deposited <= w.balance <= U64_MAX
    && w.vault.settledFromCollateral <= U64_MAX
  }

  ghost predicate WorldOk(w: World)
  {
    && (forall sid :: sid in w.sessions ==> SessionIn(w, sid))
    && (w.profile.activeSession.Some? ==> w.profile.activeSession.value in w.sessions
                                          && w.sessions[w.profile.activeSession.value].status != Closed)
    && Solvent(w)
    && w.profile.successfulSessions <= U32_MAX && w.profile.conflictCount <= U32_MAX
  }

  // ----- Facts about one session -----

  lemma ClaimsPositive(s: Session)
    requires BookOk(s)
    ensures Positive(Claims(s))
  {
    forall h | h in Claims(s) ensures 0 < Claims(s)[h] {
      assert s.filed[h] in s.filed.Values;
    }
  }

  /** What a session owes in total is its coverage; the settled part never exceeds it, and equals
      it exactly when everything payable has been settled. */
  lemma SettledPart(s: Session)
    requires BookOk(s) && s.settled <= Payable(s)
    ensures Sum(OwedTo(s, Claims(s).Keys)) == Coverage(Claims(s), s.terms.cap)
    ensures Sum(OwedTo(s, s.settled)) <= Coverage(Claims(s), s.terms.cap)
    ensures Sum(OwedTo(s, s.settled)) == Coverage(Claims(s), s.terms.cap) <==> AllSettled(s)
  {
    ClaimsPositive(s);
    PayoutsTotal(Claims(s), s.terms.cap);
    var all, some := OwedTo(s, Claims(s).Keys), OwedTo(s, s.settled);
    hide Payout, Coverage, BookOk, Positive;
    SumMonotone(some, all);
    if AllSettled(s) {
      SumWithoutZeros(some, all);
    } else {
      var h :| h in Payable(s) && h !in s.settled;
      SettleAdds(s, h);
      SumMonotone(OwedTo(s, s.settled + {h}), all);
    }
  }

  lemma SettleAdds(s: Session, h: nat)
    requires h in Claims(s) && h !in s.settled
    ensures Sum(OwedTo(s, s.settled + {h})) == Sum(OwedTo(s, s.settled)) + Owed(s, h)
  {
    hide Payout, Sum;
    SumAdd(OwedTo(s, s.settled), h, Owed(s, h));
    assert OwedTo(s, s.settled + {h}) == OwedTo(s, s.settled)[h := Owed(s, h)];
  }

  // ----- Filing a claim -----

  lemma ArrivalsAfter(states: set<StateHash>, s: Session, c: Credential)
    requires states == s.filed.Values && ArrivalsOk(states, s.arrivals)
    requires c.newState == Successor(c)
    requires IsNewEdge(s, c) ==> |Siblings(s, c)| < U32_MAX
    ensures ArrivalsOk(states + {c.newState}, Arrivals(s, c))
  {
    if IsNewEdge(s, c) {
      forall p, q
        ensures ForkSeed(p, q) in Arrivals(s, c) <==> Children(states + {c.newState}, p, q) != {}
        ensures ForkSeed(p, q) in Arrivals(s, c) ==>
                  ArrivalOk(Children(states + {c.newState}, p, q), Arrivals(s, c)[ForkSeed(p, q)])
      {
        ArrivalsAt(states, s, c, p, q);
      }
    } else {
      assert states + {c.newState} == states;
    }
  }

  lemma ArrivalsAt(states: set<StateHash>, s: Session, c: Credential, p: StateHash, q: nat)
    requires states == s.filed.Values
    requires ForkSeed(p, q) in s.arrivals <==> Children(states, p, q) != {}
    requires ForkSeed(p, q) in s.arrivals ==> ArrivalOk(Children(states, p, q), s.arrivals[ForkSeed(p, q)])
    requires c.newState == Successor(c) && IsNewEdge(s, c) && |Siblings(s, c)| < U32_MAX
    ensures ForkSeed(p, q) in Arrivals(s, c) <==> Children(states + {c.newState}, p, q) != {}
    ensures ForkSeed(p, q) in Arrivals(s, c) ==>
              ArrivalOk(Children(states + {c.newState}, p, q), Arrivals(s, c)[ForkSeed(p, q)])
  {
    ChildrenAfter(states, c.newState, p, q);
    ArrivalAfter(Children(states, p, q), c.newState);
    hide Children;
  }

  lemma ArrivalAfter(children: set<StateHash>, e: StateHash)
    ensures e !in children ==> |children + {e}| == |children| + 1
    ensures e !in children && children != {} ==> 2 <= |children + {e}|
    ensures children == {} <==> |children| == 0
  {
  }

  lemma TreeAfter(s: Session, c: Credential, parent: Key)
    requires BookOk(s) && IsNewEdge(s, c) && ParentOk(s, c, parent)
    requires c.newState == Successor(c) && 0 < c.amount <= c.previousRemaining
    requires c.newRemaining == c.previousRemaining - c.amount && c.sequence <= s.terms.maxDepth
    ensures Tree(Root(s.terms), s.terms.limit, s.terms.maxDepth, s.filed.Values + {c.newState})
  {
    var states := s.filed.Values;
    forall e | e in states + {c.newState}
      ensures Linked(Root(s.terms), s.terms.limit, s.terms.maxDepth, states + {c.newState}, e)
    {
      if e in states {
        assert Linked(Root(s.terms), s.terms.limit, s.terms.maxDepth, states, e);
      }
    }
  }

  lemma BookAfterSubmit(w: World, sid: nat, c: Credential, a: SubmitAccounts)
    requires CanSubmit(w, sid, c, a) && BookOk(w.sessions[sid])
    ensures BookOk(Filed(w, w.sessions[sid], c))
    ensures Filed(w, w.sessions[sid], c).filed.Values == w.sessions[sid].filed.Values + {c.newState}
  {
    var s := w.sessions[sid];
    var t := Filed(w, s, c);
    ValuesAfter(s.filed, c.hash, c.newState);
    ArrivalsAfter(s.filed.Values, s, c);
    ExposureAfterFiling(s.filed, c.hash, c.newState);
    WrappersAfter(s, c);
    if IsNewEdge(s, c) {
      TreeAfter(s, c, a.parent);
    } else {
      assert s.filed.Values + {c.newState} == s.filed.Values;
    }
    assert |t.filed| == |s.filed| + 1 by { FiledSize(s.filed, c.hash, c.newState); }
  }

  lemma FiledSize(f: Book, h: nat, e: StateHash)
    requires h !in f
    ensures |f[h := e]| == |f| + 1
  {
    assert f[h := e].Keys == f.Keys + {h};
    assert |f[h := e].Keys| == |f.Keys| + 1;
  }

  lemma WrappersAfter(s: Session, c: Credential)
    requires c.hash !in s.filed
    requires forall e :: e in s.filed.Values ==> |Wrappers(s.filed, e)| <= U32_MAX
    requires !IsNewEdge(s, c) ==> |Wrappers(s.filed, c.newState)| < U32_MAX
    ensures forall e :: e in s.filed.Values + {c.newState} ==> |Wrappers(s.filed[c.hash := c.newState], e)| <= U32_MAX
  {
    var g := s.filed[c.hash := c.newState];
    forall e | e in s.filed.Values + {c.newState} ensures |Wrappers(g, e)| <= U32_MAX {
      if e == c.newState {
        if IsNewEdge(s, c) {
          FileNew(s.filed, c.hash, e);
        } else {
          RepsAfterWrapper(s.filed, c.hash, e);
          assert c.hash !in Wrappers(s.filed, e);
        }
      } else {
        assert Wrappers(g, e) == Wrappers(s.filed, e);
      }
    }
  }

  lemma ForkAfterSubmit(s: Session, c: Credential)
    requires c.hash !in s.filed && c.newState.Payment?
    requires c.newState.prev == c.previousState && c.newState.sequence == c.sequence
    ensures s.filed[c.hash := c.newState].Values == s.filed.Values + {c.newState}
    ensures Forked(s.filed.Values + {c.newState}) <==> Forked(s.filed.Values) || MakesFork(s, c)
  {
    ValuesAfter(s.filed, c.hash, c.newState);
    hide Forked;
    if IsNewEdge(s, c) {
      ForkedAfter(s.filed.Values, c.newState);
      if 2 <= |Siblings(s, c)| { TwoChildren(s.filed.Values, c.previousState, c.sequence); }
      assert Siblings(s, c) == {} <==> |Siblings(s, c)| == 0;
    } else {
      assert s.filed.Values + {c.newState} == s.filed.Values;
    }
  }

  lemma PhaseAfterFiling(w: World, s: Session, c: Credential)
    requires PhaseOk(s) && !s.frozen
    requires Forked(Filed(w, s, c).filed.Values) <==> Forked(s.filed.Values) || MakesFork(s, c)
    ensures PhaseOk(Filed(w, s, c))
  {
    hide Forked, MakesFork, Claims, Payable, Overdrawn, Arrivals;
    assert s.settled == {};
  }

  // ----- Worlds -----

  /** Replacing one session that keeps its own invariant keeps the world's, if the owner's
      profile and vault are in order. */
  lemma WorldAfter(w: World, x: World, sid: nat, t: Session)
    requires WorldOk(w) && x.sessions == w.sessions[sid := t]
    requires x.owner == w.owner && w.clock <= x.clock
    requires x.profile.offlineAccessEnabled ==> w.profile.offlineAccessEnabled
    requires (w.profile.activeSession.None? || w.profile.activeSession == Some(sid))
    requires SessionIn(x, sid)
    requires (x.profile.activeSession.None? || x.profile.activeSession == Some(sid))
    requires x.profile.activeSession == Some(sid) ==> !t.status.Closed?
    requires Solvent(x) && x.profile.successfulSessions <= U32_MAX && x.profile.conflictCount <= U32_MAX
    ensures WorldOk(x)
  {
    hide SessionOk, Solvent, Forked;
    forall k | k in x.sessions ensures SessionIn(x, k) {
      if k != sid {
        assert SessionIn(w, k);
      }
    }
  }

  lemma OpenSession(w: World, sid: nat)
    requires WorldOk(w) && sid in w.sessions
    ensures SessionOk(w.sessions[sid]) && SessionIn(w, sid)
    ensures w.sessions[sid].status != Closed
            ==> w.profile.activeSession == Some(sid) && w.vault.reserved == Outstanding(w.sessions[sid])
  {
    hide SessionOk, Outstanding, Forked;
    assert SessionIn(w, sid);
  }

  lemma WorldFacts(w: World, sid: nat)
    requires WorldOk(w)
    ensures Solvent(w) && w.profile.successfulSessions <= U32_MAX && w.profile.conflictCount <= U32_MAX
    ensures w.profile.activeSession == Some(sid) ==> sid in w.sessions && !w.sessions[sid].status.Closed?
  {
    hide Solvent, SessionIn;
  }

  lemma SubmitKeepsSession(w: World, sid: nat, c: Credential, a: SubmitAccounts)
    requires WorldOk(w) && CanSubmit(w, sid, c, a)
    ensures !w.sessions[sid].frozen
    ensures SessionOk(Filed(w, w.sessions[sid], c))
    ensures Outstanding(Filed(w, w.sessions[sid], c)) == Outstanding(w.sessions[sid])
    ensures Forked(Filed(w, w.sessions[sid], c).filed.Values)
        <==> Forked(w.sessions[sid].filed.Values) || MakesFork(w.sessions[sid], c)
  {
    var s := w.sessions[sid];
    OpenSession(w, sid);
    hide WorldOk, Forked, BookOk, PhaseOk, Outstanding, MakesFork;
    assert !s.frozen;
    BookAfterSubmit(w, sid, c, a);
    ForkAfterSubmit(s, c);
    PhaseAfterFiling(w, s, c);
    OutstandingBefore(s);
    OutstandingBefore(Filed(w, s, c));
  }

  lemma FiledSession(w: World, sid: nat, c: Credential, a: SubmitAccounts)
    requires CanSubmit(w, sid, c, a) && SessionIn(w, sid) && !w.sessions[sid].frozen
    requires SessionOk(Filed(w, w.sessions[sid], c))
    requires Forked(Filed(w, w.sessions[sid], c).filed.Values)
         ==> Forked(w.sessions[sid].filed.Values) || MakesFork(w.sessions[sid], c)
    requires w.profile.conflictCount <= U32_MAX
    ensures SessionIn(AfterSubmit(w, sid, c), sid) && w.profile.activeSession == Some(sid)
    ensures AfterSubmit(w, sid, c).profile.conflictCount <= U32_MAX
    ensures !Filed(w, w.sessions[sid], c).status.Closed?
  {
    assert MakesFork(w.sessions[sid], c) ==> w.profile.conflictCount < U32_MAX;
    hide SessionOk, Forked, MakesFork, PayloadOk, ParentOk, Claims, Siblings, Wrappers, Arrivals;
  }

  lemma SubmitKeeps(w: World, sid: nat, c: Credential, a: SubmitAccounts)
    requires WorldOk(w) && CanSubmit(w, sid, c, a)
    ensures WorldOk(AfterSubmit(w, sid, c))
  {
    var x := AfterSubmit(w, sid, c);
    SubmitKeepsSession(w, sid, c, a);
    OpenSession(w, sid);
    WorldFacts(w, sid);
    hide WorldOk, SessionOk, Outstanding, Forked, MakesFork, PayloadOk, ParentOk, CountersFit;
    FiledSession(w, sid, c, a);
    hide CanSubmit, SessionIn;
    WorldAfter(w, x, sid, Filed(w, w.sessions[sid], c));
  }

  lemma NewSessionOk(w: World, sid: nat, device: nat, locked: nat, limit: nat, expiresAt: int)
    requires CanCreate(w, sid, device, locked, limit, expiresAt)
    ensures SessionOk(NewSession(w, sid, device, locked, limit, expiresAt))
    ensures Outstanding(NewSession(w, sid, device, locked, limit, expiresAt)) == locked
    ensures NewSession(w, sid, device, locked, limit, expiresAt).filed.Values == {}
    ensures !Forked(NewSession(w, sid, device, locked, limit, expiresAt).filed.Values)
  {
    var s := NewSession(w, sid, device, locked, limit, expiresAt);
    assert s.filed.Values == {};
    assert Claims(s) == map[];
    SumEmpty();
    hide Sum, Payout;
    assert BookOk(s);
    assert PhaseOk(s);
  }

  lemma CreateKeeps(w: World, sid: nat, device: nat, locked: nat, limit: nat, expiresAt: int)
    requires WorldOk(w) && CanCreate(w, sid, device, locked, limit, expiresAt)
    ensures WorldOk(AfterCreate(w, sid, device, locked, limit, expiresAt))
  {
    NewSessionOk(w, sid, device, locked, limit, expiresAt);
    hide SessionOk, Outstanding, Forked;
    WorldAfter(w, AfterCreate(w, sid, device, locked, limit, expiresAt), sid, NewSession(w, sid, device, locked, limit, expiresAt));
  }

  lemma AuthorizeKeeps(w: World, sid: nat, material: nat)
    requires WorldOk(w) && CanAuthorize(w, sid, material)
    ensures WorldOk(AfterAuthorize(w, sid))
  {
    var t := w.sessions[sid].(authorized := true);
    OpenSession(w, sid);
    AuthorizedSession(w.sessions[sid]);
    hide WorldOk, SessionOk, Outstanding, Forked;
    ReplacedSession(w, AfterAuthorize(w, sid), sid, t);
  }

  /** Replacing a session by one with the same status, filed claims and reserve. */
  lemma ReplacedSession(w: World, x: World, sid: nat, t: Session)
    requires WorldOk(w) && sid in w.sessions && x == w.(sessions := w.sessions[sid := t])
    requires t.status == w.sessions[sid].status && Outstanding(t) == Outstanding(w.sessions[sid])
    requires SessionIn(x, sid)
    ensures WorldOk(x)
  {
    hide SessionOk, Outstanding, Forked;
    forall k | k in x.sessions ensures SessionIn(x, k) {
      if k != sid { assert SessionIn(w, k); }
    }
    hide SessionIn;
  }

  lemma AuthorizedSession(s: Session)
    requires SessionOk(s)
    ensures SessionOk(s.(authorized := true)) && Outstanding(s.(authorized := true)) == Outstanding(s)
  {
    var t := s.(authorized := true);
    hide Payout, Forked, Linked, Sum;
    assert Claims(t) == Claims(s);
    assert Payable(t) == Payable(s);
  }

  lemma CustodyKeeps(w: World, x: World)
    requires WorldOk(w) && x == w.(balance := x.balance, vault := x.vault, paused := x.paused, clock := x.clock)
    requires w.clock <= x.clock && x.vault == w.vault.(deposited := x.vault.deposited)
    requires x.vault.reserved <= x.vault.deposited <= x.balance <= U64_MAX
    ensures WorldOk(x)
  {
    hide SessionOk, Outstanding, Forked;
    forall k | k in x.sessions ensures SessionIn(x, k) {
      assert SessionIn(w, k);
    }
  }

  // ----- Finalization keeps the session's invariant -----

  /** The steps of finalization leave the book alone. */
  ghost predicate SameBook(s: Session, t: Session)
  {
    s.terms == t.terms && s.filed == t.filed && s.arrivals == t.arrivals && s.authorized == t.authorized
  }

  lemma SameBookOk(s: Session, t: Session)
    requires SameBook(s, t) && BookOk(s)
    ensures BookOk(t) && Claims(t) == Claims(s) && Payable(t) == Payable(s)
    ensures Overdrawn(t) == Overdrawn(s) && FinalStatus(t) == FinalStatus(s)
  {
    hide Payout, Forked, Linked, Sum;
  }

  lemma EmptyClaims(f: Book)
    ensures Eligible(f) == map[] <==> f == map[]
  {
    if f != map[] {
      var h :| h in f;
      assert f[h] in f.Values;
      RepEligible(f, f[h]);
    }
  }

  lemma EmptyBook(s: Session)
    requires s.filed == map[]
    ensures !Overdrawn(s) && !Forked(s.filed.Values)
  {
    assert s.filed.Values == {};
    assert Claims(s) == map[];
    SumEmpty();
  }

  lemma BeginStage(s: Session)
    requires PhaseOk(s) && s.status.Collecting() && (Claims(s) == map[] <==> s.filed == map[])
    requires Claims(Begun(s)) == Claims(s) && Payable(Begun(s)) == Payable(s)
    requires Overdrawn(Begun(s)) == Overdrawn(s)
    requires s.filed == map[] ==> !Overdrawn(s) && !Forked(s.filed.Values)
    ensures ProgressOk(Begun(s)) && StageOk(Begun(s))
    ensures s.frozen ==> Complete(s) && Complete(Begun(s))
    ensures !s.frozen ==> (Complete(Begun(s)) <==> s.filed == map[])
  {
    hide Claims, Payable, ParentsClassified, Forked, Overdrawn;
  }

  lemma BeginKeepsSession(s: Session)
    requires SessionOk(s) && s.status.Collecting()
    ensures SessionOk(Begun(s))
    ensures SameBook(s, Begun(s)) && !Begun(s).status.Closed? && Begun(s).settled == s.settled
    ensures s.frozen ==> Complete(s) && Complete(Begun(s))
    ensures !s.frozen ==> (Complete(Begun(s)) <==> s.filed == map[])
  {
    hide BookOk, Claims, Payable, Forked, Overdrawn, ProgressOk, StageOk, Complete;
    SameBookOk(s, Begun(s));
    assert Claims(s) == map[] <==> s.filed == map[] by { EmptyClaims(s.filed); ClaimsAre(s); }
    if s.filed == map[] { EmptyBook(s); }
    BeginStage(s);
  }

  lemma ClaimsAre(s: Session)
    ensures Claims(s) == Eligible(s.filed)
  {
  }

  lemma ClassifyPhase(s: Session, r: nat)
    requires PhaseOk(s) && s.status.Reconciling? && !ClassificationComplete(s)
    requires r in Claims(s) && s.filed.Keys != {}
    requires ParentsClassified(s.filed, s.classified + {r})
    requires Claims(s.(classified := s.classified + {r})) == Claims(s)
    requires Payable(s.(classified := s.classified + {r})) == Payable(s)
    ensures PhaseOk(s.(classified := s.classified + {r})) && s.frozen
    ensures !Complete(s) && !Complete(s.(classified := s.classified + {r}))
  {
    hide Claims, Payable, ParentsClassified, Forked, Overdrawn;
  }

  lemma ClassifyKeepsSession(w: World, sid: nat, e: StateHash, fork: Key, parent: Key)
    requires CanClassify(w, sid, e, fork, parent) && SessionOk(w.sessions[sid])
    ensures SessionOk(AfterClassify(w, sid, e).sessions[sid])
    ensures SameBook(w.sessions[sid], AfterClassify(w, sid, e).sessions[sid])
    ensures !Complete(w.sessions[sid]) && w.sessions[sid].frozen
    ensures !Complete(AfterClassify(w, sid, e).sessions[sid])
  {
    var s := w.sessions[sid];
    RepEligible(s.filed, e);
    ClaimsAre(s);
    assert s.filed.Keys != {};
    hide BookOk, Claims, Payable, Forked, Overdrawn, StageOk, Complete;
    SameBookOk(s, AfterClassify(w, sid, e).sessions[sid]);
    ClassifyPhase(s, Rep(s.filed, e));
  }

  lemma AllocatePhase(s: Session, h: nat)
    requires PhaseOk(s) && s.status.Reconciling? && ClassificationComplete(s) && !Complete(s)
    requires h in s.filed && h !in s.scanned && Below(s.filed.Keys, h) <= s.scanned
    requires Claims(Scanned(s, h)) == Claims(s) && Payable(Scanned(s, h)) == Payable(s)
    requires Claims(s.(scanned := s.scanned + {h})) == Claims(s)
    requires FinalStatus(s.(scanned := s.scanned + {h})) == FinalStatus(s)
    requires Overdrawn(Scanned(s, h)) == Overdrawn(s)
    ensures PhaseOk(Scanned(s, h)) && Scanned(s, h).settled == s.settled == {}
  {
    hide Claims, Payable, ParentsClassified, Forked, Overdrawn;
    var t := Scanned(s, h);
    assert ParentsClassified(t.filed, t.classified);
    forall j, k | j in t.scanned && k in t.filed && k < j ensures k in t.scanned {
      if j == h { assert k in Below(s.filed.Keys, h); }
    }
  }

  lemma AllocateKeepsSession(s: Session, h: nat)
    requires SessionOk(s) && s.status.Reconciling? && ClassificationComplete(s) && !Complete(s)
    requires h in s.filed && h !in s.scanned && Below(s.filed.Keys, h) <= s.scanned
    ensures SessionOk(Scanned(s, h)) && SameBook(s, Scanned(s, h))
    ensures Scanned(s, h).settled == s.settled == {}
    ensures !Scanned(s, h).status.Closed?
  {
    hide BookOk, Claims, Payable, Forked, Overdrawn, ProgressOk, StageOk, Complete, ClassificationComplete, FinalStatus;
    SameBookOk(s, Scanned(s, h));
    SameBookOk(s, s.(scanned := s.scanned + {h}));
    AllocatePhase(s, h);
    FinalStatusOpen(s.(scanned := s.scanned + {h}));
  }

  lemma FinalStatusOpen(s: Session)
    ensures !FinalStatus(s).Closed?
  {
  }

  lemma SettlePhase(s: Session, h: nat)
    requires PhaseOk(s) && s.status.Settling() && Complete(s) && h in Payable(s) && h !in s.settled
    requires Claims(SettledOne(s, h)) == Claims(s) && Payable(SettledOne(s, h)) == Payable(s)
    requires Payable(s.(settled := s.settled + {h})) == Payable(s)
    requires Overdrawn(SettledOne(s, h)) == Overdrawn(s)
    ensures PhaseOk(SettledOne(s, h)) && Complete(SettledOne(s, h))
    ensures SettledOne(s, h).settled == s.settled + {h}
    ensures SettledOne(s, h).status.Closed? ==> AllSettled(SettledOne(s, h))
  {
    hide Claims, Payable, ParentsClassified, Forked, Overdrawn;
    assert ParentsClassified(s.filed, s.classified);
  }

  lemma OutstandingAfterSettle(s: Session, t: Session, h: nat)
    requires BookOk(s) && SameBook(s, t) && Complete(s) && Complete(t)
    requires h in Payable(s) && h !in s.settled && t.settled == s.settled + {h}
    requires t.settled <= Payable(t)
    ensures h in Claims(s)
    ensures Outstanding(t) == Outstanding(s) - Owed(s, h)
    ensures 0 <= Outstanding(t)
    ensures AllSettled(t) ==> Outstanding(t) == 0
  {
    assert h in Claims(s);
    SameBookOk(s, t);
    SettleAdds(s, h);
    SettledPart(t);
    hide BookOk, Payable, Sum, Coverage, Payout;
    assert OwedTo(t, t.settled) == OwedTo(s, s.settled + {h});
  }

  lemma SettleKeepsSession(s: Session, h: nat)
    requires SessionOk(s) && s.status.Settling() && Complete(s) && h in Payable(s) && h !in s.settled
    ensures SessionOk(SettledOne(s, h)) && SameBook(s, SettledOne(s, h))
    ensures h in Claims(s)
    ensures Outstanding(SettledOne(s, h)) == Outstanding(s) - Owed(s, h)
    ensures 0 <= Outstanding(SettledOne(s, h))
    ensures SettledOne(s, h).status.Closed? ==> Outstanding(SettledOne(s, h)) == 0
    ensures SettledOne(s, h).frozen == s.frozen
  {
    var t := SettledOne(s, h);
    SettleKeepsPhase(s, h);
    hide BookOk, Payable, Claims, Forked, Overdrawn, StageOk, Complete, Outstanding, Owed, SettledOne;
    OutstandingAfterSettle(s, t, h);
  }

  lemma SettleKeepsPhase(s: Session, h: nat)
    requires SessionOk(s) && s.status.Settling() && Complete(s) && h in Payable(s) && h !in s.settled
    ensures SessionOk(SettledOne(s, h)) && SameBook(s, SettledOne(s, h)) && Complete(SettledOne(s, h))
    ensures SettledOne(s, h).settled == s.settled + {h}
    ensures SettledOne(s, h).status.Closed? ==> AllSettled(SettledOne(s, h))
  {
    hide BookOk, Payable, Claims, Forked, Overdrawn, ProgressOk, StageOk, Complete, AllSettled;
    SameBookOk(s, SettledOne(s, h));
    SameBookOk(s, s.(settled := s.settled + {h}));
    SettlePhase(s, h);
  }

  lemma CloseKeepsSession(s: Session)
    requires SessionOk(s) && Complete(s) && AllSettled(s)
    ensures SessionOk(s.(status := Closed)) && Outstanding(s) == 0
  {
    var t := s.(status := Closed);
    SameBookOk(s, t);
    SettledPart(s);
    hide BookOk, Claims, Payable, ParentsClassified, Forked, Overdrawn, OwedTo, Sum, Coverage;
    assert ParentsClassified(s.filed, s.classified);
  }

  // ----- Finalization keeps the world's invariant -----

  lemma OutstandingAtCompletion(s: Session)
    requires Complete(s) && s.settled == {}
    ensures Outstanding(s) == Coverage(Claims(s), s.terms.cap) <= s.terms.cap
  {
    hide Payout, Sum;
    assert OwedTo(s, s.settled) == map[];
    SumEmptyOf(OwedTo(s, s.settled));
  }

  lemma SumEmptyOf(m: map<nat, nat>)
    requires m == map[]
    ensures Sum(m) == 0
  {
  }

  lemma ReleaseMatches(v: CollateralVault, s: Session, t: Session)
    requires v.reserved == Outstanding(s) && t.settled == s.settled
    requires Complete(s) ==> Complete(t) && Outstanding(t) == Outstanding(s)
    requires !Complete(s) ==> s.settled == {} && t.terms == s.terms
    ensures ReleaseSurplus(v, s, t).reserved == Outstanding(t)
    ensures ReleaseSurplus(v, s, t).reserved <= v.reserved
    ensures ReleaseSurplus(v, s, t) == v.(reserved := ReleaseSurplus(v, s, t).reserved)
  {
    if !Complete(s) && Complete(t) {
      OutstandingAtCompletion(t);
      OutstandingBefore(s);
    }
    if !Complete(s) && !Complete(t) {
      OutstandingBefore(s);
      OutstandingBefore(t);
    }
    hide Complete, Outstanding, Coverage;
  }

  lemma OutstandingBefore(s: Session)
    requires !Complete(s)
    ensures Outstanding(s) == s.terms.cap
  {
  }

  lemma SessionKept(w: World, x: World, sid: nat, t: Session)
    requires sid in w.sessions && SessionIn(w, sid)
    requires x.sessions == w.sessions[sid := t] && SameBook(w.sessions[sid], t) && SessionOk(t)
    requires x.owner == w.owner && w.clock <= x.clock
    requires x.profile.offlineAccessEnabled == w.profile.offlineAccessEnabled
    requires t.frozen ==> t.terms.deadline < x.clock
    requires !t.status.Closed? ==> x.profile.activeSession == Some(sid)
    ensures SessionIn(x, sid)
  {
    hide SessionOk, Forked;
  }

  lemma BeginKeeps(w: World, sid: nat)
    requires WorldOk(w) && CanBegin(w, sid)
    ensures WorldOk(AfterBegin(w, sid))
  {
    var s, x := w.sessions[sid], AfterBegin(w, sid);
    OpenSession(w, sid);
    WorldFacts(w, sid);
    BeginReserve(w, s);
    hide WorldOk, SessionIn, SessionOk, Outstanding, Forked, Complete, Begun, ReleaseSurplus;
    SessionKept(w, x, sid, Begun(s));
    WorldAfter(w, x, sid, Begun(s));
  }

  lemma BeginReserve(w: World, s: Session)
    requires SessionOk(s) && s.status.Collecting() && w.vault.reserved == Outstanding(s)
    ensures SessionOk(Begun(s)) && SameBook(s, Begun(s)) && !Begun(s).status.Closed?
    ensures ReleaseSurplus(w.vault, s, Begun(s)).reserved == Outstanding(Begun(s))
    ensures ReleaseSurplus(w.vault, s, Begun(s)).reserved <= w.vault.reserved
    ensures ReleaseSurplus(w.vault, s, Begun(s)) == w.vault.(reserved := ReleaseSurplus(w.vault, s, Begun(s)).reserved)
  {
    hide SessionOk, Outstanding, Complete, Begun, ReleaseSurplus;
    BeginKeepsSession(s);
    UnsettledBefore(s);
    if Complete(s) { RewindOutstanding(s); }
    ReleaseMatches(w.vault, s, Begun(s));
  }

  lemma UnsettledBefore(s: Session)
    requires SessionOk(s)
    ensures !Complete(s) ==> s.settled == {}
    ensures Complete(s) ==> s.frozen
  {
    hide Payable, Claims, BookOk, StageOk;
  }

  lemma RewindOutstanding(s: Session)
    requires Complete(s) && SameBook(s, Begun(s)) && Complete(Begun(s))
    ensures Outstanding(Begun(s)) == Outstanding(s)
  {
    hide Payout, Sum;
    assert Begun(s).settled == s.settled;
    assert OwedTo(Begun(s), s.settled) == OwedTo(s, s.settled);
  }

  lemma ClassifyKeeps(w: World, sid: nat, e: StateHash, fork: Key, parent: Key)
    requires WorldOk(w) && CanClassify(w, sid, e, fork, parent)
    ensures WorldOk(AfterClassify(w, sid, e))
  {
    var s, x := w.sessions[sid], AfterClassify(w, sid, e);
    OpenSession(w, sid);
    WorldFacts(w, sid);
    hide WorldOk, SessionOk, Outstanding, Forked, Complete, ParentReady, Rep, ClassificationComplete;
    ClassifyKeepsSession(w, sid, e, fork, parent);
    OutstandingBefore(s);
    OutstandingBefore(x.sessions[sid]);
    SessionKept(w, x, sid, x.sessions[sid]);
    hide SessionIn;
    WorldAfter(w, x, sid, x.sessions[sid]);
  }

  lemma AllocateKeeps(w: World, sid: nat, h: nat, e: StateHash)
    requires WorldOk(w) && CanAllocate(w, sid, h, e)
    ensures WorldOk(AfterAllocate(w, sid, h))
  {
    var s, x := w.sessions[sid], AfterAllocate(w, sid, h);
    OpenSession(w, sid);
    AllocateKeepsSession(s, h);
    ReleaseMatches(w.vault, s, Scanned(s, h));
    assert x.sessions[sid].frozen == s.frozen;
    WorldFacts(w, sid);
    hide WorldOk, SessionIn, SessionOk, Outstanding, Forked, Complete, Scanned, ReleaseSurplus;
    SessionKept(w, x, sid, Scanned(s, h));
    WorldAfter(w, x, sid, Scanned(s, h));
  }

  lemma SettleFits(w: World, sid: nat, h: nat, e: StateHash, to: nat)
    requires WorldOk(w) && CanSettle(w, sid, h, e, to)
    ensures h in Claims(w.sessions[sid])
    ensures Owed(w.sessions[sid], h) <= w.vault.reserved <= w.vault.deposited <= w.balance
  {
    OpenSession(w, sid);
    SettleKeepsSession(w.sessions[sid], h);
    hide SessionOk, Outstanding, Owed;
  }

  lemma SettleKeeps(w: World, sid: nat, h: nat, e: StateHash, to: nat)
    requires WorldOk(w) && CanSettle(w, sid, h, e, to)
    ensures h in Claims(w.sessions[sid])
    ensures Owed(w.sessions[sid], h) <= w.vault.reserved <= w.vault.deposited <= w.balance
    ensures WorldOk(AfterSettle(w, sid, h))
  {
    SettleFits(w, sid, h, e, to);
    OpenSession(w, sid);
    SettleKeepsSession(w.sessions[sid], h);
    UnsettledBefore(w.sessions[sid]);
    hide WorldOk, SessionOk, SessionIn, Outstanding, Claims, Payable, Complete, SettledOne, Owed, PaidOut;
    SettledWorld(w, sid, Owed(w.sessions[sid], h), SettledOne(w.sessions[sid], h));
  }

  lemma SettledWorld(w: World, sid: nat, amount: nat, t: Session)
    requires WorldOk(w) && sid in w.sessions
    requires SameBook(w.sessions[sid], t) && SessionOk(t) && t.frozen == w.sessions[sid].frozen
    requires amount <= w.vault.reserved <= w.vault.deposited <= w.balance
    requires w.vault.settledFromCollateral + amount <= U64_MAX
    requires !w.sessions[sid].status.Closed?
    requires Outstanding(t) == Outstanding(w.sessions[sid]) - amount
    requires t.status.Closed? ==> Outstanding(t) == 0
    ensures WorldOk(PaidOut(w, sid, t, amount))
  {
    var x := PaidOut(w, sid, t, amount);
    WorldFacts(w, sid);
    OpenSession(w, sid);
    SettledReserve(w, sid, amount, t, x);
    hide WorldOk, Solvent, SessionOk, Outstanding, Forked;
    SessionKept(w, x, sid, t);
    WorldAfter(w, x, sid, t);
  }

  lemma SettledReserve(w: World, sid: nat, amount: nat, t: Session, x: World)
    requires Solvent(w) && sid in w.sessions && x.sessions == w.sessions[sid := t]
    requires w.profile.activeSession == Some(sid) && amount <= w.vault.reserved
    requires w.vault.settledFromCollateral + amount <= U64_MAX && x.balance == w.balance - amount
    requires x.vault == CollateralVault(w.vault.deposited - amount, w.vault.reserved - amount,
                                        w.vault.settledFromCollateral + amount)
    requires x.profile.activeSession == if t.status.Closed? then None else Some(sid)
    requires Outstanding(t) == Outstanding(w.sessions[sid]) - amount
    requires t.status.Closed? ==> Outstanding(t) == 0
    ensures Solvent(x)
  {
    hide Outstanding;
  }

  lemma CloseKeeps(w: World, sid: nat)
    requires WorldOk(w) && CanClose(w, sid)
    ensures WorldOk(AfterClose(w, sid))
  {
    var s, x := w.sessions[sid], AfterClose(w, sid);
    OpenSession(w, sid);
    CloseKeepsSession(s);
    WorldFacts(w, sid);
    hide WorldOk, SessionIn, SessionOk, Outstanding, Forked, Complete, AllSettled, Successful;
    SessionKept(w, x, sid, s.(status := Closed));
    WorldAfter(w, x, sid, s.(status := Closed));
  }
}
