/** Why the guards of finalization never fail on a reachable session, and what each finalization
    step does to the session account. */
module FinalizationViews {
  import opened Collections
  import opened ProRata
  import opened States
  import opened Protocol
  import opened Invariants
  import opened Accounts
  import opened ClaimList
  import opened Views

  // ----- Figures in the session account -----

  lemma Figures(s: Session)
    ensures SessionView(s).terms == s.terms && SessionView(s).status == s.status
    ensures SessionView(s).authenticatedFork == Forked(s.filed.Values)
    ensures SessionView(s).aggregateOfflineExposure == Exposure(Claims(s)) && SessionView(s).uniqueEdgeCount == |Claims(s)|
    ensures SessionView(s).submittedClaimCount == |s.filed| && SessionView(s).claimHead == HeadKey(s.filed.Keys)
    ensures SessionView(s).classificationComplete == ClassificationComplete(s)
    ensures SessionView(s).allocationComplete == Complete(s)
    ensures s.frozen ==> SessionView(s).frozenEdgeCount == |Claims(s)| && SessionView(s).frozenExposure == Exposure(Claims(s))
  {
  }

  lemma ScanFigures(s: Session)
    ensures SessionView(s).classifiedEdgeCount == |s.classified|
    ensures SessionView(s).classifiedExposure == Sum(Among(Claims(s), s.classified))
    ensures SessionView(s).baseAllocationTotal == Sum(Among(SessionBases(s), s.classified))
    ensures SessionView(s).allocatedEdgeCount == |Allocated(s)| && SessionView(s).allocatedTotal == Sum(OwedTo(s, s.scanned))
    ensures SessionView(s).scannedClaimCount == |s.scanned| && SessionView(s).settledEdgeCount == |Discharged(s)|
    ensures SessionView(s).settledAmount == Sum(OwedTo(s, s.settled))
    ensures SessionView(s).conflictingClaimCount == |ConflictingClaims(s)|
    ensures SessionView(s).nextAllocationClaim == Cursor(s)
  {
  }

  // ----- classify_edge never overflows and its totals end at the frozen totals -----

  lemma AmountFits(s: Session, r: nat)
    requires BookOk(s) && r in Claims(s)
    ensures 0 < Claims(s)[r] <= Exposure(Claims(s)) <= U64_MAX
  {
    ClaimsPositive(s);
    SumRemove(Claims(s), r);
  }

  lemma BaseFits(s: Session, r: nat)
    requires BookOk(s) && r in Claims(s)
    ensures r in SessionBases(s)
    ensures CheckedBaseAllocation(Claims(s)[r], Exposure(Claims(s)), s.terms.cap) == Some(SessionBases(s)[r])
  {
    AmountFits(s, r);
    BaseWithin(Claims(s)[r], Coverage(Claims(s), s.terms.cap), Exposure(Claims(s)));
    CheckedIsBase(Claims(s)[r], Exposure(Claims(s)), s.terms.cap);
    hide Base, Sum, CoverageAmount, CheckedBaseAllocation;
  }

  lemma BaseWithin(amount: nat, coverage: nat, exposure: nat)
    requires 0 < exposure && coverage <= exposure
    ensures Base(amount, coverage, exposure) <= amount
  {
    hide Base;
    BaseBounds(amount, coverage, exposure);
  }

  lemma CheckedIsBase(amount: nat, exposure: nat, cap: nat)
    requires 0 < exposure && amount <= exposure && Base(amount, CoverageAmount(exposure, cap), exposure) <= U64_MAX
    ensures CheckedBaseAllocation(amount, exposure, cap) == Some(Base(amount, CoverageAmount(exposure, cap), exposure))
  {
  }

  lemma ClassifyCounts(s: Session, r: nat)
    requires BookOk(s) && s.classified <= Claims(s).Keys && r in Claims(s) && r !in s.classified
    ensures |s.classified| + 1 <= |Claims(s)| <= |s.filed| <= U64_MAX
  {
    EligibleFiled(s.filed);
    SizesFit(s);
    hide Eligible, BookOk;
    SubsetSize(s.classified + {r}, Claims(s).Keys);
    SubsetSize(Claims(s).Keys, s.filed.Keys);
  }

  lemma PartFits(m: map<nat, nat>, among: set<nat>, r: nat)
    requires r in m && r !in among
    ensures Sum(Among(m, among)) + m[r] <= Sum(m)
  {
    AmongAdds(m, among, r);
    hide Sum;
    SumMonotone(Among(m, among + {r}), m);
  }

  lemma ClassifySums(s: Session, r: nat)
    requires BookOk(s) && r in Claims(s) && r !in s.classified
    ensures r in SessionBases(s)
    ensures Sum(Among(Claims(s), s.classified)) + Claims(s)[r] <= U64_MAX
    ensures Sum(Among(SessionBases(s), s.classified)) + SessionBases(s)[r] <= U64_MAX
  {
    ClaimsPositive(s);
    RemainderBounds(Claims(s), s.terms.cap);
    AmountFits(s, r);
    assert SessionBases(s).Keys == Claims(s).Keys;
    hide Base, Sum, Eligible, BookOk, Positive, Among;
    PartFits(Claims(s), s.classified, r);
    PartFits(SessionBases(s), s.classified, r);
  }

  lemma SizesFit(s: Session)
    requires BookOk(s)
    ensures |s.filed| <= U64_MAX
  {
    hide Tree, ArrivalsOk, Claims;
  }

  // ----- allocate_next_claim -----

  /** The allocation computed from the running counters is the payout. */
  lemma AllocationIsOwed(s: Session, h: nat)
    requires BookOk(s) && ClassificationComplete(s) && h in Claims(s) && IsNext(s, h)
    ensures h in SessionBases(s)
    ensures Sum(Among(SessionBases(s), s.classified)) <= Coverage(Claims(s), s.terms.cap)
    ensures Owed(s, h) == SessionBases(s)[h]
      + if |Allocated(s)| < Coverage(Claims(s), s.terms.cap) - Sum(Among(SessionBases(s), s.classified)) then 1 else 0
    ensures Owed(s, h) <= Claims(s)[h] <= U64_MAX
  {
    ClaimsPositive(s);
    RemainderBounds(Claims(s), s.terms.cap);
    PayoutBounds(Claims(s), s.terms.cap, h);
    AmountFits(s, h);
    hide Base, Sum, Eligible, BookOk, Positive, IsNext, CoverageAmount;
    ClassificationCount(s);
    AllocatedRank(s, h);
  }

  lemma AllocateCounts(s: Session, h: nat)
    requires BookOk(s) && IsNext(s, h)
    ensures |s.scanned| + 1 <= |s.filed| <= U64_MAX
    ensures h in Claims(s) ==> |Allocated(s)| + 1 <= U64_MAX && |ConflictingClaims(s)| + 1 <= U64_MAX
                               && |Discharged(s)| + 1 <= U64_MAX
  {
    SizesFit(s);
    EligibleFiled(s.filed);
    hide Eligible, BookOk, Owed, Tainted;
    assert s.scanned + {h} <= s.filed.Keys;
    SubsetSize(s.scanned + {h}, s.filed.Keys);
    SubsetSize(Allocated(s), s.scanned);
    SubsetSize(ConflictingClaims(s), s.scanned);
    SubsetSize(Discharged(s), s.scanned);
  }

  lemma AllocatedFits(s: Session, h: nat)
    requires BookOk(s) && h in Claims(s) && h !in s.scanned && s.scanned <= s.filed.Keys
    ensures Sum(OwedTo(s, s.scanned)) + Owed(s, h) <= Coverage(Claims(s), s.terms.cap) <= U64_MAX
  {
    ClaimsPositive(s);
    PayoutsTotal(Claims(s), s.terms.cap);
    AmountFits(s, h);
    hide Payout, Sum, Eligible, BookOk;
    OwedAdds(s, s, h);
    SumMonotone(OwedTo(s, s.scanned + {h}), OwedTo(s, Claims(s).Keys));
  }

  /** When the last claim has been scanned every guard of complete_allocation holds. */
  lemma CompletionGuards(s: Session)
    requires BookOk(s) && s.frozen && s.scanned == s.filed.Keys
    ensures Allocated(s) == Claims(s).Keys
    ensures Sum(OwedTo(s, s.scanned)) == Coverage(Claims(s), s.terms.cap) <= s.terms.cap
  {
    ClaimsPositive(s);
    PayoutsTotal(Claims(s), s.terms.cap);
    EligibleFiled(s.filed);
    hide Payout, Sum, Eligible, BookOk;
    assert OwedTo(s, s.scanned) == OwedTo(s, Claims(s).Keys);
  }

  // ----- The session account after each step -----

  lemma BegunSession(s: Session)
    requires SessionOk(s) && s.status.Collecting()
    ensures SessionView(Begun(s)) == SessionView(s).(
      status := Begun(s).status,
      coverageStatus := if s.filed == map[] then FullyCovered else SessionView(s).coverageStatus,
      frozenEdgeCount := |Claims(s)|, frozenExposure := Exposure(Claims(s)),
      nextAllocationClaim := HeadKey(s.filed.Keys),
      classificationComplete := SessionView(s).classificationComplete || s.filed == map[],
      allocationComplete := SessionView(s).allocationComplete || s.filed == map[])
  {
    BeginKeepsSession(s);
    BegunFlags(s);
    SameTotals(s, s);
    SameTotals(s, Begun(s));
    hide SessionView, Complete, ClassificationComplete, SessionOk, Claims, Forked, Overdrawn, HeadKey;
  }

  lemma BegunFlags(s: Session)
    requires SessionOk(s) && s.status.Collecting()
    ensures Begun(s).classified == s.classified && Begun(s).scanned == s.scanned && Begun(s).settled == s.settled
    ensures Begun(s).frozen && Cursor(Begun(s)) == HeadKey(s.filed.Keys)
    ensures ClassificationComplete(Begun(s)) <==> ClassificationComplete(s) || s.filed == map[]
    ensures Complete(Begun(s)) <==> Complete(s) || s.filed == map[]
    ensures s.filed == map[] ==> !Overdrawn(s)
  {
    BeginKeepsSession(s);
    EmptyClaims(s.filed);
    if s.filed == map[] { EmptyBook(s); }
    hide BookOk, Payable, Forked, Overdrawn, Eligible, ParentsClassified, HeadKey;
    assert s.filed.Keys - {} == s.filed.Keys;
  }

  ghost function ScannedTotals(s: Session, h: nat): OfflineSession
  {
    if h in Claims(s)
    then AllocatedSession(SessionView(s), Owed(s, h), h in s.filed && Tainted(s.filed.Values, s.filed[h]), NextKey(s.filed.Keys, h))
    else PassedSession(SessionView(s), NextKey(s.filed.Keys, h))
  }

  lemma ScannedCounts(s: Session, t: Session, h: nat)
    requires h in s.filed && h !in s.scanned && s.settled == {}
    requires SameBook(s, t) && t.scanned == s.scanned + {h} && t.settled == s.settled
    ensures |t.scanned| == |s.scanned| + 1
    ensures Sum(OwedTo(t, t.settled)) == Sum(OwedTo(s, s.settled))
    ensures Sum(OwedTo(t, t.scanned)) == Sum(OwedTo(s, s.scanned)) + if h in Claims(s) then Owed(s, h) else 0
    ensures |Allocated(t)| == |Allocated(s)| + if h in Claims(s) then 1 else 0
    ensures |ConflictingClaims(t)|
         == |ConflictingClaims(s)| + if h in Claims(s) && Tainted(s.filed.Values, s.filed[h]) then 1 else 0
    ensures |Discharged(t)| == |Discharged(s)| + if h in Claims(s) && Owed(s, h) == 0 then 1 else 0
  {
    hide Allocated, ConflictingClaims, Discharged, OwedTo, Claims, Sum, Tainted, Owed;
    if h in Claims(s) { AllocatedTotals(s, t, h); } else { PassedTotals(s, t, h); }
  }

  lemma ScannedSession(s: Session, h: nat)
    requires SessionOk(s) && s.status.Reconciling? && ClassificationComplete(s) && !Complete(s) && IsNext(s, h)
    ensures SessionView(Scanned(s, h))
         == if Complete(Scanned(s, h)) then FinishedSession(ScannedTotals(s, h)) else ScannedTotals(s, h)
  {
    var t := Scanned(s, h);
    CursorMoves(s, h);
    ScannedFlags(s, h);
    ScannedCounts(s, t, h);
    ScannedFields(s, t, h);
  }

  lemma ScannedFields(s: Session, t: Session, h: nat)
    requires h in s.filed && s.frozen && t.frozen && SameBook(s, t) && ClassificationComplete(s) && !Complete(s)
    requires Claims(t) == Claims(s) && SessionBases(t) == SessionBases(s) && t.classified == s.classified
    requires ClassificationComplete(t) && Cursor(t) == NextKey(s.filed.Keys, h) && Overdrawn(t) == Overdrawn(s)
    requires |t.scanned| == |s.scanned| + 1
    requires Sum(OwedTo(t, t.settled)) == Sum(OwedTo(s, s.settled))
    requires Sum(OwedTo(t, t.scanned)) == Sum(OwedTo(s, s.scanned)) + if h in Claims(s) then Owed(s, h) else 0
    requires |Allocated(t)| == |Allocated(s)| + if h in Claims(s) then 1 else 0
    requires |ConflictingClaims(t)|
         == |ConflictingClaims(s)| + if h in Claims(s) && Tainted(s.filed.Values, s.filed[h]) then 1 else 0
    requires |Discharged(t)| == |Discharged(s)| + if h in Claims(s) && Owed(s, h) == 0 then 1 else 0
    requires Complete(t) ==> t.status == FinalStatus(s)
    requires !Complete(t) ==> t.status == s.status
    ensures SessionView(t) == if Complete(t) then FinishedSession(ScannedTotals(s, h)) else ScannedTotals(s, h)
  {
    hide Allocated, ConflictingClaims, Discharged, OwedTo, SessionBases, Forked, HeadKey, TailKey, NextKey, Claims, Sum,
         Among, Complete, ClassificationComplete, Owed, Tainted, Cursor;
  }

  lemma ScannedFlags(s: Session, h: nat)
    requires SessionOk(s) && s.status.Reconciling? && ClassificationComplete(s) && !Complete(s) && IsNext(s, h)
    ensures Scanned(s, h).scanned == s.scanned + {h} && Scanned(s, h).classified == s.classified
    ensures |Scanned(s, h).scanned| == |s.scanned| + 1
    ensures Scanned(s, h).settled == s.settled == {} && Scanned(s, h).frozen == s.frozen == true && !s.rewound
    ensures Scanned(s, h).rewound == s.rewound && SameBook(s, Scanned(s, h))
    ensures Cursor(Scanned(s, h)) == HeadKey(s.filed.Keys - (s.scanned + {h}))
    ensures Cursor(s) == HeadKey(s.filed.Keys - s.scanned)
    ensures Claims(Scanned(s, h)) == Claims(s) && SessionBases(Scanned(s, h)) == SessionBases(s)
    ensures OwedTo(Scanned(s, h), {}) == OwedTo(s, {}) && Overdrawn(Scanned(s, h)) == Overdrawn(s)
    ensures ClassificationComplete(Scanned(s, h)) && Complete(Scanned(s, h)) == (s.scanned + {h} == s.filed.Keys)
    ensures Complete(Scanned(s, h)) ==> Scanned(s, h).status == FinalStatus(s)
    ensures !Complete(Scanned(s, h)) ==> Scanned(s, h).status == s.status
  {
    AllocateKeepsSession(s, h);
    hide BookOk, Payable, Forked, Eligible, ParentsClassified, HeadKey, Payout, Sum, Coverage, Base;
    assert s.settled == {};
    assert OwedTo(Scanned(s, h), {}) == OwedTo(s, {});
  }

  lemma SettledSession(s: Session, h: nat)
    requires SessionOk(s) && s.status.Settling() && Complete(s) && h in Payable(s) && h !in s.settled
    ensures h in Claims(s)
    ensures SessionView(SettledOne(s, h))
         == SettledRecord(SessionView(s), Owed(s, h)).(status := SettledOne(s, h).status)
  {
    hide Allocated, ConflictingClaims, Discharged, OwedTo, SessionBases, Forked, HeadKey, TailKey, Claims, Sum,
         Among, Complete, ClassificationComplete, SessionOk, Exposure, Overdrawn, SettledOne, Payable, Owed, Cursor;
    SettleKeepsPhase(s, h);
    SettledFlags(s, h);
    SettledTotals(s, SettledOne(s, h), h);
  }

  lemma SettledFlags(s: Session, h: nat)
    requires SessionOk(s) && s.status.Settling() && Complete(s) && h in Payable(s) && h !in s.settled
    ensures SameBook(s, SettledOne(s, h)) && SettledOne(s, h).settled == s.settled + {h}
    ensures SettledOne(s, h).scanned == s.scanned && SettledOne(s, h).classified == s.classified
    ensures SettledOne(s, h).frozen == s.frozen && SettledOne(s, h).rewound == s.rewound
    ensures h in s.filed && h in s.scanned && s.settled <= Payable(s)
    ensures Claims(SettledOne(s, h)) == Claims(s) && SessionBases(SettledOne(s, h)) == SessionBases(s)
    ensures ClassificationComplete(SettledOne(s, h)) == ClassificationComplete(s)
    ensures Overdrawn(SettledOne(s, h)) == Overdrawn(s)
    ensures Cursor(SettledOne(s, h)) == Cursor(s)
  {
    EligibleFiled(s.filed);
    hide BookOk, Forked, Eligible, ParentsClassified, HeadKey, Payout, Sum, Coverage, Base, StatusOk;
  }

  lemma ClosedSession(s: Session)
    ensures SessionView(s.(status := Closed)) == SessionView(s).(status := Closed)
  {
    var t := s.(status := Closed);
    SameTotals(s, s);
    SameTotals(s, t);
    assert ClassificationComplete(t) == ClassificationComplete(s) && Complete(t) == Complete(s) && Cursor(t) == Cursor(s);
    hide SessionView, Complete, ClassificationComplete, Claims, Overdrawn, Cursor;
  }
}
