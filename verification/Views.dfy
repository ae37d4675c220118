/** How each step changes the accounts that represent a session: the record-level update of every
    instruction, shown to give exactly the view of the session after the step. */
module Views {
  import opened Collections
  import opened ProRata
  import opened States
  import opened Protocol
  import opened Invariants
  import opened Accounts
  import opened ClaimList

  /** Nothing of the session has been finalized. */
  ghost predicate Fresh(s: Session)
  {
    !s.frozen && !s.rewound && s.classified == {} && s.scanned == {} && s.settled == {}
  }

  lemma ViewIs(s: Session)
    ensures View(s) == Ledger(SessionView(s), ClaimsView(s), EdgesView(s), ForksView(s))
  {
  }

  // ----- submit_claim -----

  function NewClaim(c: Credential, representative: bool): Claim
  {
    Claim(c.hash, c.merchant, c.amount, c.sequence, c.previousState, c.newState,
          if representative then Submitted else Rejected, if representative then NoReason else DuplicateStateEdge,
          0, 0, NoKey, NoKey, false)
  }

  function NewEdgeRecord(c: Credential): StateEdgeRecord
  {
    StateEdgeRecord(c.previousState, c.sequence, c.newState, c.merchant, c.amount, c.previousRemaining, c.newRemaining,
                    c.hash, 1, 0, 0, false, false, false)
  }

  ghost predicate Represents(s: Session, c: Credential) { IsNewEdge(s, c) || c.hash < Rep(s.filed, c.newState) }

  function Demoted(claims: map<nat, Claim>, r: nat): map<nat, Claim>
    requires r in claims
  {
    claims[r := claims[r].(status := Rejected, rejectionReason := DuplicateStateEdge)]
  }

  /** The claim accounts once the new claim is written and the old representative demoted. */
  ghost function Written(s: Session, c: Credential): map<nat, Claim>
  {
    var claims := ClaimsView(s)[c.hash := NewClaim(c, Represents(s, c))];
    if IsNewEdge(s, c) || !Represents(s, c) || Rep(s.filed, c.newState) !in claims then claims
    else Demoted(claims, Rep(s.filed, c.newState))
  }

  lemma WrittenLinked(s: Session, c: Credential)
    requires c.hash !in s.filed
    ensures Written(s, c).Keys == s.filed.Keys + {c.hash} && Listed(Written(s, c), s.filed.Keys)
    ensures Written(s, c)[c.hash].credentialHash == c.hash
    ensures Written(s, c)[c.hash].previousClaim == Written(s, c)[c.hash].nextClaim == NoKey
  {
    hide NextKey, PreviousKey, Claims, Owed, Tainted;
  }

  /** A claim account of a fresh session. */
  lemma FreshClaim(s: Session, k: nat)
    requires Fresh(s) && k in s.filed
    ensures ClaimView(s, k) ==
      Claim(k, if s.filed[k].Payment? then s.filed[k].merchant else 0, Amount(s.filed[k]),
            if s.filed[k].Payment? then s.filed[k].sequence else 0,
            if s.filed[k].Payment? then s.filed[k].prev else s.filed[k], s.filed[k],
            if k in Claims(s) then Submitted else Rejected, if k in Claims(s) then NoReason else DuplicateStateEdge,
            0, 0, PreviousKey(s.filed.Keys, k), NextKey(s.filed.Keys, k), false)
  {
    hide NextKey, PreviousKey, Claims, Owed, Tainted;
  }

  /** Who represents an edge after filing c. */
  lemma ClaimsAfter(s: Session, t: Session, c: Credential)
    requires c.hash !in s.filed && t.filed == s.filed[c.hash := c.newState]
    ensures c.hash in Claims(t) <==> Represents(s, c)
    ensures forall k :: k in s.filed ==>
      (k in Claims(t) <==> k in Claims(s) && !(Represents(s, c) && !IsNewEdge(s, c) && k == Rep(s.filed, c.newState)))
  {
    if IsNewEdge(s, c) {
      FileNew(s.filed, c.hash, c.newState);
      hide Eligible, Rep;
    } else {
      EligibleAfterWrapper(s.filed, c.hash, c.newState);
      EligibleUnmoved(s.filed, c.hash, c.newState);
      hide Eligible, Rep;
    }
  }

  /** A claim account after c is filed: relinked if next to c, rejected if c supersedes it. */
  lemma SubmittedClaimAt(s: Session, t: Session, c: Credential, k: nat)
    requires Fresh(s) && Fresh(t) && c.hash !in s.filed && k in s.filed
    requires t.filed == s.filed[c.hash := c.newState]
    ensures ClaimView(t, k) == Relinked(
      if Represents(s, c) && !IsNewEdge(s, c) && k == Rep(s.filed, c.newState)
      then ClaimView(s, k).(status := Rejected, rejectionReason := DuplicateStateEdge) else ClaimView(s, k),
      k, s.filed.Keys, c.hash)
  {
    hide NextKey, PreviousKey, Claims, ClaimView, Rep, Represents;
    assert t.filed.Keys == s.filed.Keys + {c.hash};
    ClaimsAfter(s, t, c);
    NextAfterInsert(s.filed.Keys, c.hash, k);
    PreviousAfterInsert(s.filed.Keys, c.hash, k);
    FreshClaim(s, k);
    FreshClaim(t, k);
  }

  lemma SubmittedClaimNew(s: Session, t: Session, c: Credential)
    requires Fresh(t) && c.hash !in s.filed && c.newState == Successor(c)
    requires t.filed == s.filed[c.hash := c.newState]
    ensures ClaimView(t, c.hash) == NewClaim(c, Represents(s, c)).(
      previousClaim := PreviousKey(s.filed.Keys, c.hash), nextClaim := NextKey(s.filed.Keys, c.hash))
  {
    hide NextKey, PreviousKey, Claims, ClaimView, Rep, Represents;
    assert t.filed.Keys == s.filed.Keys + {c.hash};
    ClaimsAfter(s, t, c);
    SelfAfterInsert(s.filed.Keys, c.hash);
    FreshClaim(t, c.hash);
  }

  lemma SubmittedClaims(s: Session, t: Session, c: Credential)
    requires Fresh(s) && Fresh(t) && c.hash !in s.filed && c.newState == Successor(c)
    requires t.filed == s.filed[c.hash := c.newState]
    ensures ClaimsView(t) == Spliced(Written(s, c), s.filed.Keys, c.hash)
  {
    hide NextKey, PreviousKey, Claims, ClaimView, Rep, Represents, Relinked, NewClaim;
    WrittenLinked(s, c);
    SubmittedClaimNew(s, t, c);
    forall k | k in s.filed ensures ClaimsView(t)[k] == Spliced(Written(s, c), s.filed.Keys, c.hash)[k] {
      SubmittedClaimAt(s, t, c, k);
    }
    assert ClaimsView(t).Keys == Spliced(Written(s, c), s.filed.Keys, c.hash).Keys;
  }

  /** An edge account of a fresh session. */
  lemma FreshEdge(s: Session, e: StateHash)
    requires Fresh(s) && e in s.filed.Values && e.Payment?
    ensures EdgeView(s, e) ==
      StateEdgeRecord(e.prev, e.sequence, e, e.merchant, e.amount, e.previousRemaining, e.newRemaining,
                      Rep(s.filed, e), |Wrappers(s.filed, e)|, 0, 0, false, false, false)
  {
  }

  function Wrapped(edge: StateEdgeRecord, h: nat): StateEdgeRecord
  {
    edge.(wrapperCount := edge.wrapperCount + 1, representative := if h < edge.representative then h else edge.representative)
  }

  lemma OtherEdge(s: Session, t: Session, d: StateHash)
    requires Fresh(s) && Fresh(t) && d in s.filed.Values && d in t.filed.Values && d.Payment?
    requires Rep(t.filed, d) == Rep(s.filed, d) && Wrappers(t.filed, d) == Wrappers(s.filed, d)
    ensures EdgeView(t, d) == EdgeView(s, d)
  {
    hide Rep, Wrappers, EdgeView;
    FreshEdge(s, d);
    FreshEdge(t, d);
  }

  lemma SubmittedNewEdge(s: Session, t: Session, c: Credential)
    requires Fresh(s) && Fresh(t) && c.hash !in s.filed && c.newState == Successor(c) && IsNewEdge(s, c)
    requires t.filed == s.filed[c.hash := c.newState]
    ensures EdgesView(t) == EdgesView(s)[c.newState := NewEdgeRecord(c)]
  {
    var e := c.newState;
    hide Rep, Wrappers, EdgeView;
    FileNew(s.filed, c.hash, e);
    FreshEdge(t, e);
    assert |{c.hash}| == 1;
    forall d | d in s.filed.Values && d.Payment? ensures EdgesView(t)[d] == EdgesView(s)[d] {
      OtherEdge(s, t, d);
    }
    assert EdgesView(t).Keys == EdgesView(s).Keys + {e};
  }

  lemma SubmittedWrapper(s: Session, t: Session, c: Credential)
    requires Fresh(s) && Fresh(t) && c.hash !in s.filed && c.newState == Successor(c) && !IsNewEdge(s, c)
    requires t.filed == s.filed[c.hash := c.newState]
    ensures c.newState in EdgesView(s)
    ensures EdgesView(t) == EdgesView(s)[c.newState := Wrapped(EdgesView(s)[c.newState], c.hash)]
  {
    var e := c.newState;
    assert c.hash !in Wrappers(s.filed, e);
    hide Rep, Wrappers, EdgeView;
    RepsAfterWrapper(s.filed, c.hash, e);
    assert |Wrappers(t.filed, e)| == |Wrappers(s.filed, e)| + 1;
    FreshEdge(s, e);
    FreshEdge(t, e);
    forall d | d in s.filed.Values && d.Payment? && d != e ensures EdgesView(t)[d] == EdgesView(s)[d] {
      OtherEdge(s, t, d);
    }
    assert EdgesView(t).Keys == EdgesView(s).Keys;
  }

  function NewForkRecord(c: Credential): ForkRecord
  {
    ForkRecord(c.previousState, c.sequence, c.newState, None, 1)
  }

  /** One more child; the second is also recorded. */
  function Branched(f: ForkRecord, child: StateHash): ForkRecord
  {
    f.(branchCount := f.branchCount + 1,
       secondChild := if f.branchCount + 1 == 2 then Some(child) else f.secondChild)
  }

  lemma SubmittedForks(s: Session, t: Session, c: Credential)
    requires ArrivalsOk(s.filed.Values, s.arrivals)
    requires c.newState == Successor(c) && t.filed.Values == s.filed.Values + {c.newState} && t.arrivals == Arrivals(s, c)
    ensures !IsNewEdge(s, c) ==> ForksView(t) == ForksView(s)
    ensures IsNewEdge(s, c) ==>
      var seed := ForkSeed(c.previousState, c.sequence);
      ForksView(t) == ForksView(s)[seed := if seed in ForksView(s) then Branched(ForksView(s)[seed], c.newState)
                                           else NewForkRecord(c)]
  {
    if IsNewEdge(s, c) {
      forall k | k in t.arrivals ensures
        |Children(t.filed.Values, k.parent, k.sequence)| == |Children(s.filed.Values, k.parent, k.sequence)|
          + if k == ForkSeed(c.previousState, c.sequence) then 1 else 0
      {
        ChildCount(s.filed.Values, c, k);
      }
      ForkAt(s, c);
      BranchedForks(s, t, c);
    } else {
      assert t.filed.Values == s.filed.Values;
    }
  }

  lemma BranchedForks(s: Session, t: Session, c: Credential)
    requires IsNewEdge(s, c) && t.arrivals == Arrivals(s, c)
    requires forall k :: k in t.arrivals ==>
      |Children(t.filed.Values, k.parent, k.sequence)| == |Children(s.filed.Values, k.parent, k.sequence)|
        + if k == ForkSeed(c.previousState, c.sequence) then 1 else 0
    requires var seed := ForkSeed(c.previousState, c.sequence);
             if seed in s.arrivals then 0 < |Siblings(s, c)| && ArrivalOk(Siblings(s, c), s.arrivals[seed])
             else |Siblings(s, c)| == 0
    ensures var seed := ForkSeed(c.previousState, c.sequence);
      ForksView(t) == ForksView(s)[seed := if seed in ForksView(s) then Branched(ForksView(s)[seed], c.newState)
                                           else NewForkRecord(c)]
  {
    hide Children;
    var seed := ForkSeed(c.previousState, c.sequence);
    assert Siblings(s, c) == Children(s.filed.Values, seed.parent, seed.sequence);
    forall k | k in s.arrivals && k != seed ensures ForksView(t)[k] == ForksView(s)[k] {
      assert t.arrivals[k] == s.arrivals[k];
    }
    assert t.arrivals.Keys == s.arrivals.Keys + {seed};
    BranchedFork(s, t, c);
  }

  lemma BranchedFork(s: Session, t: Session, c: Credential)
    requires IsNewEdge(s, c) && t.arrivals == Arrivals(s, c)
    requires |Children(t.filed.Values, c.previousState, c.sequence)| == |Siblings(s, c)| + 1
    requires var seed := ForkSeed(c.previousState, c.sequence);
             if seed in s.arrivals then 0 < |Siblings(s, c)| && ArrivalOk(Siblings(s, c), s.arrivals[seed])
             else |Siblings(s, c)| == 0
    ensures var seed := ForkSeed(c.previousState, c.sequence);
      && seed in t.arrivals
      && ForksView(t)[seed] == if seed in ForksView(s) then Branched(ForksView(s)[seed], c.newState)
                               else NewForkRecord(c)
  {
    hide Children;
  }

  lemma ChildCount(states: set<StateHash>, c: Credential, k: ForkSeed)
    requires c.newState == Successor(c) && c.newState !in states
    ensures |Children(states + {c.newState}, k.parent, k.sequence)| == |Children(states, k.parent, k.sequence)|
              + if k == ForkSeed(c.previousState, c.sequence) then 1 else 0
  {
    ChildrenAfter(states, c.newState, k.parent, k.sequence);
    ArrivalAfter(Children(states, k.parent, k.sequence), c.newState);
  }

  lemma ForkAt(s: Session, c: Credential)
    requires ArrivalsOk(s.filed.Values, s.arrivals)
    ensures var seed := ForkSeed(c.previousState, c.sequence);
            if seed in s.arrivals then 0 < |Siblings(s, c)| && ArrivalOk(Siblings(s, c), s.arrivals[seed])
            else |Siblings(s, c)| == 0
  {
    var seed := ForkSeed(c.previousState, c.sequence);
    assert seed in s.arrivals <==> Siblings(s, c) != {};
    assert Siblings(s, c) == {} <==> |Siblings(s, c)| == 0;
  }

  lemma NothingOwed(s: Session, among: set<nat>)
    requires among == {}
    ensures Sum(OwedTo(s, among)) == 0
  {
    hide Payout;
    assert OwedTo(s, among) == map[];
  }

  lemma FreshSession(s: Session)
    requires Fresh(s)
    ensures SessionView(s) ==
      OfflineSession(s.terms, s.status, Forked(s.filed.Values), Uncalculated, Root(s.terms), s.authorized, 0,
                     Exposure(Claims(s)), |Claims(s)|, 0, 0, 0, |s.filed|, 0, 0, 0, 0, 0, 0, 0,
                     HeadKey(s.filed.Keys), TailKey(s.filed.Keys), NoKey, false, false)
  {
    NothingOwed(s, {});
    SumEmpty();
    assert Among(Claims(s), {}) == map[];
    assert Among(SessionBases(s), {}) == map[];
    assert Allocated(s) == {};
    assert ConflictingClaims(s) == {};
    assert Discharged(s) == {};
    hide OwedTo, Claims, SessionBases, Forked, HeadKey, TailKey, Sum;
  }

  lemma SubmittedSession(s: Session, t: Session, c: Credential)
    requires Fresh(s) && Fresh(t) && c.hash !in s.filed && c.newState == Successor(c)
    requires t.filed == s.filed[c.hash := c.newState] && t.terms == s.terms && t.authorized == s.authorized
    ensures SessionView(t) == SessionView(s).(
      status := t.status, authenticatedFork := SessionView(s).authenticatedFork || MakesFork(s, c),
      aggregateOfflineExposure := SessionView(s).aggregateOfflineExposure + if IsNewEdge(s, c) then c.amount else 0,
      uniqueEdgeCount := SessionView(s).uniqueEdgeCount + if IsNewEdge(s, c) then 1 else 0,
      submittedClaimCount := |s.filed| + 1,
      claimHead := HeadKey(s.filed.Keys + {c.hash}), claimTail := TailKey(s.filed.Keys + {c.hash}))
  {
    hide *;
    SubmittedFigures(s, t, c);
    FreshSession(s);
    FreshSession(t);
  }

  lemma SubmittedFigures(s: Session, t: Session, c: Credential)
    requires c.hash !in s.filed && c.newState == Successor(c) && t.filed == s.filed[c.hash := c.newState]
    requires t.terms == s.terms
    ensures Forked(t.filed.Values) <==> Forked(s.filed.Values) || MakesFork(s, c)
    ensures Exposure(Claims(t)) == Exposure(Claims(s)) + if IsNewEdge(s, c) then c.amount else 0
    ensures |Claims(t)| == |Claims(s)| + if IsNewEdge(s, c) then 1 else 0
    ensures |t.filed| == |s.filed| + 1 && t.filed.Keys == s.filed.Keys + {c.hash} && Root(t.terms) == Root(s.terms)
  {
    hide Forked, Sum, Eligible, MakesFork;
    ExposureAfterFiling(s.filed, c.hash, c.newState);
    ForkAfterSubmit(s, c);
    FiledSize(s.filed, c.hash, c.newState);
    assert Amount(c.newState) == c.amount;
  }

  // ----- begin_finalization -----

  /** The record accounts do not mention the stage of the session. */
  lemma SameRecords(s: Session, t: Session)
    requires SameBook(s, t) && t.classified == s.classified && t.scanned == s.scanned && t.settled == s.settled
    ensures ClaimsView(t) == ClaimsView(s) && EdgesView(t) == EdgesView(s) && ForksView(t) == ForksView(s)
  {
    hide NextKey, PreviousKey, Payout, Tainted, Rep, Children, Wrappers, Eligible;
    assert Claims(t) == Claims(s);
    assert SessionBases(t) == SessionBases(s);
    forall h | h in s.filed ensures ClaimView(t, h) == ClaimView(s, h) {
    }
    forall e | e in s.filed.Values && e.Payment? ensures EdgeView(t, e) == EdgeView(s, e) {
    }
  }

  /** The totals kept in the session account depend on the book and the progress sets only. */
  lemma SameTotals(s: Session, t: Session)
    requires SameBook(s, t) && t.classified == s.classified && t.scanned == s.scanned && t.settled == s.settled
    ensures SessionView(t) == SessionView(s).(
      status := t.status,
      coverageStatus := if !Complete(t) then Uncalculated else if Overdrawn(s) then Underfunded else FullyCovered,
      frozenEdgeCount := if t.frozen then |Claims(s)| else 0,
      frozenExposure := if t.frozen then Exposure(Claims(s)) else 0,
      nextAllocationClaim := Cursor(t),
      classificationComplete := ClassificationComplete(t), allocationComplete := Complete(t))
  {
    assert Claims(t) == Claims(s) && SessionBases(t) == SessionBases(s);
    SameScan(s, t);
    hide Allocated, ConflictingClaims, Discharged, OwedTo, SessionBases, Forked, HeadKey, TailKey, Claims, Sum, Among, Complete, ClassificationComplete, Cursor;
  }

  // ----- classify_edge -----

  function CountedSession(session: OfflineSession, amount: nat, base: nat, complete: bool): OfflineSession
  {
    session.(classifiedEdgeCount := session.classifiedEdgeCount + 1,
             classifiedExposure := session.classifiedExposure + amount,
             baseAllocationTotal := session.baseAllocationTotal + base,
             classificationComplete := complete)
  }

  function SharedEdge(edge: StateEdgeRecord, conflicting: bool, base: nat): StateEdgeRecord
  {
    edge.(classified := true, conflicting := conflicting, allocatedAmount := base)
  }

  lemma ClassifiedTotals(s: Session, t: Session, e: StateHash)
    requires e in s.filed.Values && Rep(s.filed, e) !in s.classified
    requires t == s.(classified := s.classified + {Rep(s.filed, e)})
    ensures Rep(s.filed, e) in Claims(s) && Claims(s)[Rep(s.filed, e)] == Amount(e) && Claims(t) == Claims(s)
    ensures Rep(s.filed, e) in SessionBases(s) && |t.classified| == |s.classified| + 1
    ensures Sum(Among(Claims(t), t.classified)) == Sum(Among(Claims(s), s.classified)) + Amount(e)
    ensures Sum(Among(SessionBases(t), t.classified))
         == Sum(Among(SessionBases(s), s.classified)) + SessionBases(s)[Rep(s.filed, e)]
  {
    var r := Rep(s.filed, e);
    RepEligible(s.filed, e);
    assert Claims(t) == Claims(s);
    AmongAdds(Claims(s), s.classified, r);
    AmongAdds(SessionBases(s), s.classified, r);
    hide Eligible, Rep, Sum, Base, Coverage;
    assert SessionBases(t) == SessionBases(s);
  }

  lemma AmongAdds(m: map<nat, nat>, among: set<nat>, r: nat)
    requires r in m && r !in among
    ensures Sum(Among(m, among + {r})) == Sum(Among(m, among)) + m[r]
  {
    SumAdd(Among(m, among), r, m[r]);
    assert Among(m, among + {r}) == Among(m, among)[r := m[r]];
  }

  /** One edge record changes and the others stay. */
  lemma EdgesPatched(s: Session, t: Session, e: StateHash, v: StateEdgeRecord)
    requires s.filed == t.filed && e in s.filed.Values && e.Payment? && EdgeView(t, e) == v
    requires forall d :: d in s.filed.Values && d.Payment? && d != e ==> EdgeView(t, d) == EdgeView(s, d)
    ensures e in EdgesView(s) && EdgesView(s)[e] == EdgeView(s, e)
    ensures EdgesView(t) == EdgesView(s)[e := v]
  {
    hide EdgeView;
  }

  lemma EdgesUntouched(s: Session, t: Session)
    requires s.filed == t.filed
    requires forall d :: d in s.filed.Values && d.Payment? ==> EdgeView(t, d) == EdgeView(s, d)
    ensures EdgesView(t) == EdgesView(s)
  {
    hide EdgeView;
  }

  lemma ClassifiedEdges(s: Session, t: Session, e: StateHash)
    requires e in s.filed.Values && e.Payment? && Rep(s.filed, e) !in s.classified && s.scanned == {}
    requires t == s.(classified := s.classified + {Rep(s.filed, e)})
    ensures e in EdgesView(s) && Rep(s.filed, e) in SessionBases(s)
    ensures EdgesView(t)
         == EdgesView(s)[e := SharedEdge(EdgesView(s)[e], Tainted(s.filed.Values, e), SessionBases(s)[Rep(s.filed, e)])]
  {
    var r := Rep(s.filed, e);
    RepEligible(s.filed, e);
    ClassifiedEdge(s, t, e);
    assert r in SessionBases(s);
    hide Eligible, EdgeView, EdgesView, Tainted, SessionBases, SharedEdge, Rep;
    forall d | d in s.filed.Values && d.Payment? && d != e ensures EdgeView(t, d) == EdgeView(s, d) {
      assert Rep(s.filed, d) != r;
      UnclassifiedEdge(s, t, d, r);
    }
    EdgesPatched(s, t, e, EdgeView(t, e));
  }

  lemma ClassifiedEdge(s: Session, t: Session, e: StateHash)
    requires e in s.filed.Values && e.Payment? && Rep(s.filed, e) !in s.classified && s.scanned == {}
    requires t == s.(classified := s.classified + {Rep(s.filed, e)}) && Rep(s.filed, e) in Claims(s)
    ensures EdgeView(t, e) == SharedEdge(EdgeView(s, e), Tainted(s.filed.Values, e), SessionBases(s)[Rep(s.filed, e)])
  {
    hide Eligible, Base, Coverage, Sum, Tainted, Wrappers, Payout, Rep;
  }

  lemma UnclassifiedEdge(s: Session, t: Session, d: StateHash, r: nat)
    requires d in s.filed.Values && d.Payment? && Rep(s.filed, d) != r
    requires t == s.(classified := s.classified + {r})
    ensures EdgeView(t, d) == EdgeView(s, d)
  {
    hide Eligible, Base, Coverage, Sum, Tainted, Wrappers, Payout, Rep;
  }

  lemma ClassifiedClaims(s: Session, t: Session)
    requires t == s.(classified := t.classified)
    ensures ClaimsView(t) == ClaimsView(s) && ForksView(t) == ForksView(s)
  {
    hide NextKey, PreviousKey, Payout, Tainted, Eligible, Children;
    assert Claims(t) == Claims(s);
    forall h | h in s.filed ensures ClaimView(t, h) == ClaimView(s, h) {
    }
  }

  /** The session account after classifying one edge. */
  lemma ClassifiedSession(s: Session, t: Session, e: StateHash)
    requires e in s.filed.Values && Rep(s.filed, e) !in s.classified && s.scanned == {}
    requires t == s.(classified := s.classified + {Rep(s.filed, e)})
    requires !Complete(s) && !Complete(t)
    ensures Rep(s.filed, e) in SessionBases(s)
    ensures SessionView(t)
         == CountedSession(SessionView(s), Amount(e), SessionBases(s)[Rep(s.filed, e)], ClassificationComplete(t))
  {
    hide Allocated, ConflictingClaims, Discharged, OwedTo, SessionBases, Forked, HeadKey, TailKey, Claims, Sum, Among,
         Complete, ClassificationComplete, Rep, Exposure, Overdrawn, Amount;
    ClassifiedTotals(s, t, e);
    SameScan(s, t);
  }

  lemma SameScan(s: Session, t: Session)
    requires SameBook(s, t) && t.scanned == s.scanned && t.settled == s.settled
    ensures OwedTo(t, t.settled) == OwedTo(s, s.settled) && OwedTo(t, t.scanned) == OwedTo(s, s.scanned)
    ensures Allocated(t) == Allocated(s) && ConflictingClaims(t) == ConflictingClaims(s) && Discharged(t) == Discharged(s)
  {
    hide Payout, Tainted, Eligible;
  }

  /** Counting classified edges tells exactly when all are classified, and then the exposure agrees. */
  lemma ClassificationCount(s: Session)
    requires s.frozen && s.classified <= Claims(s).Keys
    ensures |s.classified| == |Claims(s)| <==> ClassificationComplete(s)
    ensures ClassificationComplete(s) ==> Sum(Among(Claims(s), s.classified)) == Exposure(Claims(s))
    ensures ClassificationComplete(s) ==> Sum(Among(SessionBases(s), s.classified)) == BaseTotal(Claims(s), s.terms.cap)
  {
    EqualSize(s.classified, Claims(s).Keys);
    assert |Claims(s).Keys| == |Claims(s)|;
    if ClassificationComplete(s) {
      assert Among(Claims(s), s.classified) == Claims(s);
      assert Among(SessionBases(s), s.classified) == SessionBases(s);
    }
    hide Sum, Eligible, Base, Coverage;
  }

  // ----- allocate_next_claim -----

  function PassedSession(session: OfflineSession, next: Key): OfflineSession
  {
    session.(scannedClaimCount := session.scannedClaimCount + 1, nextAllocationClaim := next)
  }

  function AllocatedSession(session: OfflineSession, allocation: nat, conflicting: bool, next: Key): OfflineSession
  {
    PassedSession(session, next).(
      conflictingClaimCount := session.conflictingClaimCount + if conflicting then 1 else 0,
      allocatedEdgeCount := session.allocatedEdgeCount + 1, allocatedTotal := session.allocatedTotal + allocation,
      settledEdgeCount := session.settledEdgeCount + if allocation == 0 then 1 else 0)
  }

  /** The session account once its allocation is complete. */
  function FinishedSession(session: OfflineSession): OfflineSession
  {
    session.(
      coverageStatus := if session.frozenExposure <= session.terms.cap then FullyCovered else Underfunded,
      status := if session.terms.cap < session.frozenExposure then Insolvent
                else if session.authenticatedFork then Conflicted else Reconciling,
      allocationComplete := true)
  }

  function PassedClaim(claim: Claim): Claim { claim.(allocationProcessed := true) }

  /** The next claim to scan: every smaller one is scanned and it is not. */
  ghost predicate IsNext(s: Session, h: nat)
  {
    h in s.filed && h !in s.scanned && Below(s.filed.Keys, h) <= s.scanned
    && (forall k :: k in s.scanned ==> k in s.filed)
    && (forall j, k :: j in s.scanned && k in s.filed && k < j ==> k in s.scanned)
  }

  /** The representatives allocated so far number the rank of the next claim. */
  lemma AllocatedRank(s: Session, h: nat)
    requires IsNext(s, h)
    ensures s.scanned == Below(s.filed.Keys, h)
    ensures Allocated(s) == Below(Claims(s).Keys, h) && |Allocated(s)| == Rank(Claims(s), h)
  {
    hide Eligible;
    forall k | k in s.scanned ensures k < h {
    }
    assert s.scanned == Below(s.filed.Keys, h);
    assert Claims(s).Keys <= s.filed.Keys by { EligibleFiled(s.filed); }
  }

  lemma EligibleFiled(f: Book)
    ensures Eligible(f).Keys <= f.Keys
  {
  }

  /** The list's next link is the next cursor. */
  lemma CursorMoves(s: Session, h: nat)
    requires IsNext(s, h)
    ensures HeadKey(s.filed.Keys - s.scanned) == ClaimKey(h)
    ensures HeadKey(s.filed.Keys - (s.scanned + {h})) == NextKey(s.filed.Keys, h)
    ensures NextKey(s.filed.Keys, h) == NoKey <==> s.scanned + {h} == s.filed.Keys
  {
    AllocatedRank(s, h);
    hide IsNext, HeadKey, NextKey;
    var keys := s.filed.Keys;
    assert h in keys - s.scanned && forall k :: k in keys - s.scanned ==> h <= k;
    HeadIs(keys - s.scanned, h);
    HeadOfRest(keys, s.scanned, h);
  }

  lemma HeadOfRest(keys: set<nat>, scanned: set<nat>, h: nat)
    requires h in keys && scanned == Below(keys, h)
    ensures HeadKey(keys - (scanned + {h})) == NextKey(keys, h)
    ensures NextKey(keys, h) == NoKey <==> scanned + {h} == keys
  {
    assert keys - (scanned + {h}) == Above(keys, h);
    if Above(keys, h) == {} {
      assert forall k :: k in keys ==> k !in Above(keys, h);
      assert scanned + {h} == keys;
    } else {
      assert Min(Above(keys, h)) in keys;
    }
  }

  /** Only the next claim is at the cursor. */
  lemma CursorIs(s: Session, h: nat)
    requires forall k :: k in s.scanned ==> k in s.filed
    requires forall j, k :: j in s.scanned && k in s.filed && k < j ==> k in s.scanned
    ensures HeadKey(s.filed.Keys - s.scanned) == ClaimKey(h) <==> IsNext(s, h)
  {
    var rest := s.filed.Keys - s.scanned;
    HeadIs(rest, h);
    if IsNext(s, h) { CursorMoves(s, h); }
    hide HeadKey;
    if HeadKey(rest) == ClaimKey(h) {
      forall k | k in Below(s.filed.Keys, h) ensures k in s.scanned {
        assert k !in rest;
      }
    }
  }

  lemma ScanCount(s: Session)
    requires s.scanned <= s.filed.Keys
    ensures |s.scanned| == |s.filed| <==> s.scanned == s.filed.Keys
  {
    EqualSize(s.scanned, s.filed.Keys);
    assert |s.filed.Keys| == |s.filed|;
  }

  /** Passing a claim that is not a representative changes the scan only. */
  lemma PassedTotals(s: Session, t: Session, h: nat)
    requires h in s.filed && h !in Claims(s) && h !in s.scanned
    requires SameBook(s, t) && t.scanned == s.scanned + {h} && t.settled == s.settled
    ensures |t.scanned| == |s.scanned| + 1
    ensures OwedTo(t, t.settled) == OwedTo(s, s.settled) && OwedTo(t, t.scanned) == OwedTo(s, s.scanned)
    ensures Allocated(t) == Allocated(s) && ConflictingClaims(t) == ConflictingClaims(s) && Discharged(t) == Discharged(s)
  {
    hide Payout, Tainted, Eligible;
    assert Claims(t) == Claims(s);
    assert Allocated(t) == Allocated(s);
  }

  /** Allocating a representative adds its payout to every total. */
  lemma AllocatedTotals(s: Session, t: Session, h: nat)
    requires h in Claims(s) && h !in s.scanned && s.settled == {}
    requires SameBook(s, t) && t.scanned == s.scanned + {h} && t.settled == s.settled
    ensures h in s.filed && |t.scanned| == |s.scanned| + 1
    ensures OwedTo(t, t.settled) == OwedTo(s, s.settled)
    ensures Sum(OwedTo(t, t.scanned)) == Sum(OwedTo(s, s.scanned)) + Owed(s, h)
    ensures |Allocated(t)| == |Allocated(s)| + 1
    ensures |ConflictingClaims(t)| == |ConflictingClaims(s)| + if Tainted(s.filed.Values, s.filed[h]) then 1 else 0
    ensures |Discharged(t)| == |Discharged(s)| + if Owed(s, h) == 0 then 1 else 0
  {
    EligibleFiled(s.filed);
    hide Payout, Tainted, Sum, Eligible;
    assert Claims(t) == Claims(s);
    OwedAdds(s, t, h);
    AllocatedSets(s, t, h);
    hide Allocated, ConflictingClaims, Discharged, Owed, Claims, OwedTo;
    AddOne(Allocated(s), h, true);
    AddOne(ConflictingClaims(s), h, Tainted(s.filed.Values, s.filed[h]));
    AddOne(Discharged(s), h, Owed(s, h) == 0);
    AddOne(s.scanned, h, true);
  }

  lemma AddOne(a: set<nat>, h: nat, adds: bool)
    requires h !in a
    ensures |a + if adds then {h} else {}| == |a| + if adds then 1 else 0
  {
    assert a + {} == a;
  }

  lemma AllocatedSets(s: Session, t: Session, h: nat)
    requires h in Claims(s) && h in s.filed && h !in s.scanned && s.settled == {}
    requires SameBook(s, t) && t.scanned == s.scanned + {h} && t.settled == s.settled
    ensures h !in Allocated(s) && h !in ConflictingClaims(s) && h !in Discharged(s)
    ensures OwedTo(t, t.settled) == OwedTo(s, s.settled)
    ensures Allocated(t) == Allocated(s) + {h}
    ensures ConflictingClaims(t) == ConflictingClaims(s) + if Tainted(s.filed.Values, s.filed[h]) then {h} else {}
    ensures Discharged(t) == Discharged(s) + if Owed(s, h) == 0 then {h} else {}
  {
    hide Payout, Tainted, Eligible;
    assert Claims(t) == Claims(s);
    assert Allocated(t) == Allocated(s) + {h};
  }

  lemma OwedAdds(s: Session, t: Session, h: nat)
    requires h in Claims(s) && h !in s.scanned && SameBook(s, t)
    ensures Sum(OwedTo(t, s.scanned + {h})) == Sum(OwedTo(s, s.scanned)) + Owed(s, h)
  {
    hide Payout, Sum, Eligible;
    SumAdd(OwedTo(s, s.scanned), h, Owed(s, h));
    assert OwedTo(t, s.scanned + {h}) == OwedTo(s, s.scanned)[h := Owed(s, h)];
  }

  function Finalized(edge: StateEdgeRecord, allocation: nat): StateEdgeRecord
  {
    edge.(allocatedAmount := allocation, allocationFinalized := true)
  }

  function Granted(claim: Claim, allocation: nat, conflicting: bool): Claim
  {
    claim.(allocatedAmount := allocation, allocationProcessed := true,
           status := if allocation == 0 then Paid else if conflicting then Conflicting else Valid)
  }

  lemma ScannedClaim(s: Session, t: Session, h: nat)
    requires h in s.filed && h !in s.scanned && s.settled == {} && SameBook(s, t)
    requires t.scanned == s.scanned + {h} && t.settled == s.settled
    ensures ClaimView(t, h) == if h in Claims(s)
                               then Granted(ClaimView(s, h), Owed(s, h), Tainted(s.filed.Values, s.filed[h]))
                               else PassedClaim(ClaimView(s, h))
  {
    hide NextKey, PreviousKey, Payout, Tainted, Eligible;
  }

  lemma UnscannedClaim(s: Session, t: Session, h: nat, k: nat)
    requires k in s.filed && k != h && SameBook(s, t)
    requires t.scanned == s.scanned + {h} && t.settled == s.settled
    ensures ClaimView(t, k) == ClaimView(s, k)
  {
    hide NextKey, PreviousKey, Payout, Tainted, Eligible;
  }

  lemma ScannedClaims(s: Session, t: Session, h: nat)
    requires h in s.filed && h !in s.scanned && s.settled == {} && SameBook(s, t)
    requires t.scanned == s.scanned + {h} && t.settled == s.settled
    ensures ClaimsView(t) == ClaimsView(s)[h := ClaimView(t, h)] && ForksView(t) == ForksView(s)
  {
    hide ClaimView, Children;
    forall k | k in s.filed && k != h ensures ClaimView(t, k) == ClaimView(s, k) {
      UnscannedClaim(s, t, h, k);
    }
    assert ClaimsView(t).Keys == ClaimsView(s).Keys;
  }

  lemma ScannedEdge(s: Session, t: Session, e: StateHash, h: nat)
    requires e in s.filed.Values && e.Payment? && SameBook(s, t)
    requires h !in s.scanned && ClassificationComplete(s) && t.classified == s.classified
    requires t.scanned == s.scanned + {h} && t.settled == s.settled == {}
    ensures EdgeView(t, e) == if Rep(s.filed, e) == h && h in Claims(s) then Finalized(EdgeView(s, e), Owed(s, h))
                              else EdgeView(s, e)
  {
    RepEligible(s.filed, e);
    hide Eligible, Base, Coverage, Sum, Tainted, Wrappers, Payout, Rep;
  }

  lemma ScannedEdges(s: Session, t: Session, h: nat)
    requires h in s.filed && h !in s.scanned && SameBook(s, t) && s.filed[h].Payment?
    requires ClassificationComplete(s) && t.classified == s.classified
    requires t.scanned == s.scanned + {h} && t.settled == s.settled == {}
    ensures h !in Claims(s) ==> EdgesView(t) == EdgesView(s)
    ensures h in Claims(s) ==>
      && s.filed[h] in EdgesView(s) && Rep(s.filed, s.filed[h]) == h
      && EdgesView(t) == EdgesView(s)[s.filed[h] := Finalized(EdgesView(s)[s.filed[h]], Owed(s, h))]
  {
    EligibleKey(s.filed, h);
    hide Eligible, Rep, EdgeView, EdgesView, Finalized, Owed, ClassificationComplete;
    forall e | e in s.filed.Values && e.Payment? && (h in Claims(s) ==> e != s.filed[h])
      ensures EdgeView(t, e) == EdgeView(s, e)
    {
      ScannedEdge(s, t, e, h);
    }
    if h in Claims(s) {
      ScannedEdge(s, t, s.filed[h], h);
      EdgesPatched(s, t, s.filed[h], EdgeView(t, s.filed[h]));
    } else {
      EdgesUntouched(s, t);
    }
  }

  // ----- settle_claim -----

  function SettledRecord(session: OfflineSession, amount: nat): OfflineSession
  {
    session.(settledAmount := session.settledAmount + amount, settledEdgeCount := session.settledEdgeCount + 1)
  }

  function PaidClaim(claim: Claim, amount: nat): Claim { claim.(settledAmount := amount, status := Paid) }

  function PaidEdge(edge: StateEdgeRecord, amount: nat): StateEdgeRecord { edge.(settledAmount := amount) }

  lemma SettledTotals(s: Session, t: Session, h: nat)
    requires h in Payable(s) && h !in s.settled && h in s.scanned && s.settled <= Payable(s)
    requires SameBook(s, t) && t.scanned == s.scanned && t.settled == s.settled + {h}
    ensures h in Claims(s)
    ensures Sum(OwedTo(t, t.settled)) == Sum(OwedTo(s, s.settled)) + Owed(s, h)
    ensures OwedTo(t, t.scanned) == OwedTo(s, s.scanned)
    ensures Allocated(t) == Allocated(s) && ConflictingClaims(t) == ConflictingClaims(s)
    ensures |Discharged(t)| == |Discharged(s)| + 1
  {
    hide Payout, Tainted, Sum, Eligible;
    assert Claims(t) == Claims(s);
    SettleAdds(s, h);
    assert OwedTo(t, t.settled) == OwedTo(s, s.settled + {h});
    assert Allocated(t) == Allocated(s);
    assert Discharged(t) == Discharged(s) + {h};
  }

  /** Counting discharged representatives tells exactly when everything payable is settled. */
  lemma DischargedCount(s: Session)
    requires Complete(s) && s.settled <= Payable(s)
    ensures |Discharged(s)| == |Allocated(s)| <==> AllSettled(s)
  {
    EligibleFiled(s.filed);
    hide Eligible, Payout;
    assert Allocated(s) == Claims(s).Keys;
    EqualSize(Discharged(s), Allocated(s));
    if AllSettled(s) {
      assert Discharged(s) == Allocated(s);
    } else {
      var h :| h in Payable(s) && h !in s.settled;
      assert h in Allocated(s) && h !in Discharged(s);
    }
  }

  lemma SettledClaims(s: Session, t: Session, h: nat)
    requires h in Payable(s) && h !in s.settled && h in s.scanned && h in s.filed
    requires SameBook(s, t) && t.scanned == s.scanned && t.settled == s.settled + {h}
    ensures h in Claims(s)
    ensures ClaimsView(t) == ClaimsView(s)[h := PaidClaim(ClaimView(s, h), Owed(s, h))]
    ensures ForksView(t) == ForksView(s)
  {
    hide NextKey, PreviousKey, Payout, Tainted, Eligible, Children;
    assert Claims(t) == Claims(s);
    forall k | k in s.filed ensures ClaimView(t, k) ==
      if k == h then PaidClaim(ClaimView(s, h), Owed(s, h)) else ClaimView(s, k)
    {
    }
    hide ClaimView;
    assert ClaimsView(t).Keys == ClaimsView(s).Keys;
  }

  lemma SettledEdges(s: Session, t: Session, h: nat)
    requires h in Payable(s) && h !in s.settled && h in s.filed && s.filed[h].Payment?
    requires SameBook(s, t) && t.scanned == s.scanned && t.classified == s.classified && t.settled == s.settled + {h}
    ensures h in Claims(s) && s.filed[h] in EdgesView(s) && Rep(s.filed, s.filed[h]) == h
    ensures EdgesView(t) == EdgesView(s)[s.filed[h] := PaidEdge(EdgesView(s)[s.filed[h]], Owed(s, h))]
  {
    EligibleKey(s.filed, h);
    assert h in Claims(s);
    hide Eligible, Rep, EdgeView, EdgesView, Owed, Payable, PaidEdge;
    forall e | e in s.filed.Values && e.Payment? && e != s.filed[h] ensures EdgeView(t, e) == EdgeView(s, e) {
      SettledEdge(s, t, e, h);
    }
    SettledEdge(s, t, s.filed[h], h);
    EdgesPatched(s, t, s.filed[h], EdgeView(t, s.filed[h]));
  }

  lemma SettledEdge(s: Session, t: Session, e: StateHash, h: nat)
    requires e in s.filed.Values && e.Payment? && SameBook(s, t) && h in Claims(s)
    requires t.scanned == s.scanned && t.classified == s.classified && t.settled == s.settled + {h}
    ensures EdgeView(t, e) == if Rep(s.filed, e) == h then PaidEdge(EdgeView(s, e), Owed(s, h)) else EdgeView(s, e)
  {
    hide Eligible, Base, Coverage, Sum, Tainted, Wrappers, Payout, Rep;
  }
}
