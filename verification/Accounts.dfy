/** The program's account records (state.rs), and the records each session must hold as a function
    of what they mean: the view every instruction re-establishes. */
module Accounts {
  import opened Collections
  import opened ProRata
  import opened States
  import opened Protocol

  datatype CoverageStatus = Uncalculated | FullyCovered | Underfunded

  datatype OfflineSession = OfflineSession(
    terms: Terms, status: SessionStatus, authenticatedFork: bool, coverageStatus: CoverageStatus,
    genesisState: StateHash, authorized: bool, settledAmount: nat, aggregateOfflineExposure: nat,
    uniqueEdgeCount: nat, conflictingClaimCount: nat, frozenEdgeCount: nat, frozenExposure: nat,
    submittedClaimCount: nat, classifiedEdgeCount: nat, classifiedExposure: nat, baseAllocationTotal: nat,
    allocatedEdgeCount: nat, allocatedTotal: nat, scannedClaimCount: nat, settledEdgeCount: nat,
    claimHead: Key, claimTail: Key, nextAllocationClaim: Key,
    classificationComplete: bool, allocationComplete: bool)

  datatype ClaimStatus = Submitted | Valid | Conflicting | Paid | Rejected

  datatype RejectionReason = NoReason | DuplicateStateEdge

  datatype Claim = Claim(
    credentialHash: nat, merchant: nat, amount: nat, sequence: nat, previousState: StateHash, newState: StateHash,
    status: ClaimStatus, rejectionReason: RejectionReason, allocatedAmount: nat, settledAmount: nat,
    previousClaim: Key, nextClaim: Key, allocationProcessed: bool)

  datatype StateEdgeRecord = StateEdgeRecord(
    previousState: StateHash, sequence: nat, newState: StateHash, merchant: nat, amount: nat,
    previousRemaining: nat, newRemaining: nat, representative: nat, wrapperCount: nat,
    allocatedAmount: nat, settledAmount: nat, classified: bool, conflicting: bool, allocationFinalized: bool)

  datatype ForkRecord = ForkRecord(
    parentState: StateHash, sequence: nat, firstChild: StateHash, secondChild: Option<StateHash>, branchCount: nat)

  /** All accounts derived from one session's address. Claims are addressed by credential hash,
      edges by the state they lead to, fork records by parent state and sequence. */
  datatype Ledger = Ledger(session: OfflineSession, claims: map<nat, Claim>,
                           edges: map<StateHash, StateEdgeRecord>, forks: map<ForkSeed, ForkRecord>)
  {
    function ReadClaim(k: Key): Option<Claim>
    {
      if k.ClaimKey? && k.hash in claims then Some(claims[k.hash]) else None
    }

    /** The seeds of an edge repeat the parent and sequence its state commits to. */
    function ReadEdge(k: Key): Option<StateEdgeRecord>
    {
      if k.EdgeKey? && k.next in edges && k.next.Payment? && k.next.prev == k.prev && k.next.sequence == k.sequence
      then Some(edges[k.next]) else None
    }

    function ReadFork(k: Key): Option<ForkRecord>
    {
      if k.ForkKey? && ForkSeed(k.parent, k.sequence) in forks then Some(forks[ForkSeed(k.parent, k.sequence)]) else None
    }
  }

  // ----- The view of a session -----

  /** Representatives the allocation has passed. */
  ghost function Allocated(s: Session): set<nat> { Claims(s).Keys * s.scanned }

  ghost function ConflictingClaims(s: Session): set<nat>
  {
    set h | h in Allocated(s) && h in s.filed && Tainted(s.filed.Values, s.filed[h])
  }

  /** Allocated representatives with nothing left to pay. */
  ghost function Discharged(s: Session): set<nat>
  {
    set h | h in Allocated(s) && h in Claims(s) && (h in s.settled || Owed(s, h) == 0)
  }

  ghost function SessionBases(s: Session): map<nat, nat>
  {
    Bases(Claims(s), Coverage(Claims(s), s.terms.cap), Exposure(Claims(s)))
  }

  ghost function Cursor(s: Session): Key
  {
    if !s.frozen then NoKey else if s.rewound then HeadKey(s.filed.Keys) else HeadKey(s.filed.Keys - s.scanned)
  }

  ghost function SessionView(s: Session): OfflineSession
  {
    OfflineSession(
      s.terms, s.status, Forked(s.filed.Values),
      if !Complete(s) then Uncalculated else if Overdrawn(s) then Underfunded else FullyCovered,
      Root(s.terms), s.authorized, Sum(OwedTo(s, s.settled)), Exposure(Claims(s)),
      |Claims(s)|, |ConflictingClaims(s)|,
      if s.frozen then |Claims(s)| else 0, if s.frozen then Exposure(Claims(s)) else 0,
      |s.filed|, |s.classified|, Sum(Among(Claims(s), s.classified)), Sum(Among(SessionBases(s), s.classified)),
      |Allocated(s)|, Sum(OwedTo(s, s.scanned)), |s.scanned|, |Discharged(s)|,
      HeadKey(s.filed.Keys), TailKey(s.filed.Keys), Cursor(s),
      ClassificationComplete(s), Complete(s))
  }

  ghost function ClaimView(s: Session, h: nat): Claim
    requires h in s.filed
  {
    var e := s.filed[h];
    var rep := h in Claims(s);
    Claim(h, if e.Payment? then e.merchant else 0, Amount(e), if e.Payment? then e.sequence else 0,
          if e.Payment? then e.prev else e, e,
          if !rep then Rejected
          else if h !in s.scanned then Submitted
          else if h in s.settled || Owed(s, h) == 0 then Paid
          else if Tainted(s.filed.Values, e) then Conflicting else Valid,
          if rep then NoReason else DuplicateStateEdge,
          if rep && h in s.scanned then Owed(s, h) else 0,
          if rep && h in s.settled then Owed(s, h) else 0,
          PreviousKey(s.filed.Keys, h), NextKey(s.filed.Keys, h), h in s.scanned)
  }

  ghost function ClaimsView(s: Session): map<nat, Claim> { map h | h in s.filed :: ClaimView(s, h) }

  ghost function EdgeView(s: Session, e: StateHash): StateEdgeRecord
    requires e in s.filed.Values && e.Payment?
  {
    var r := Rep(s.filed, e);
    RepEligible(s.filed, e);
    StateEdgeRecord(
      e.prev, e.sequence, e, e.merchant, e.amount, e.previousRemaining, e.newRemaining, r, |Wrappers(s.filed, e)|,
      if r !in s.classified then 0 else if r in s.scanned then Owed(s, r) else SessionBases(s)[r],
      if r in s.settled then Owed(s, r) else 0,
      r in s.classified, r in s.classified && Tainted(s.filed.Values, e), r in s.scanned)
  }

  ghost function EdgesView(s: Session): map<StateHash, StateEdgeRecord>
  {
    map e | e in s.filed.Values && e.Payment? :: EdgeView(s, e)
  }

  ghost function ForksView(s: Session): map<ForkSeed, ForkRecord>
  {
    map k | k in s.arrivals ::
      ForkRecord(k.parent, k.sequence, s.arrivals[k].first, s.arrivals[k].second,
                 |Children(s.filed.Values, k.parent, k.sequence)|)
  }

  ghost function View(s: Session): Ledger
  {
    Ledger(SessionView(s), ClaimsView(s), EdgesView(s), ForksView(s))
  }
}
