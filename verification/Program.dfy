/** The on-chain program over its account records: every instruction checks the accounts it is
    handed and updates records in place, and is proved to succeed exactly when the protocol step
    is enabled and to leave records that are exactly the view of the world after that step. */
module Program {
  import opened Collections
  import opened ProRata
  import opened States
  import opened Protocol
  import opened Invariants
  import opened Accounts
  import opened ClaimList
  import opened Views
  import opened FinalizationViews

  /** validate_claim_payload (claims.rs), with its fault codes in order. */
  function ValidateClaimPayload(config: Config, t: Terms, merchant: nat, now: int, c: Credential): (r: Outcome)
    ensures r.Ok? <==> PayloadOk(config, t, merchant, now, c)
  {
    if t.deadline < now then Err(ClaimSubmissionClosed)
    else if c.domain.header != config.header || c.domain.objectType != PAYMENT_CREDENTIAL_OBJECT_TYPE
            || c.domain.networkId != config.networkId || c.domain.clusterGenesisHash != config.clusterGenesisHash
            || c.domain.programId != config.programId || c.domain.sessionId != t.sessionId
            || c.sessionId != t.sessionId then Err(InvalidCredentialPayload)
    else if c.payer != t.owner || c.payerDeviceKey != t.device || c.merchant != merchant || merchant == t.owner
         then Err(ClaimBindingMismatch)
    else if c.amount == 0 then Err(InvalidAmount)
    else if c.sequence == 0 || t.maxDepth < c.sequence then Err(BranchDepthExceeded)
    else if c.createdAt < t.issuedAt || t.expiresAt < c.createdAt || c.sessionExpiresAt != t.expiresAt
         then Err(InvalidCredentialPayload)
    else if c.challenge == 0 then Err(InvalidMerchantChallenge)
    else if t.limit < c.previousRemaining || c.previousRemaining < c.amount
            || c.previousRemaining - c.amount != c.newRemaining then Err(InvalidStateTransition)
    else if Successor(c) != c.newState then Err(InvalidStateTransition)
    else Ok
  }

  // ----- What the record checks of submit_claim amount to -----

  function ValidateReachableParent(l: Ledger, c: Credential, parent: Key): Outcome
  {
    if c.sequence == 1 then
      if parent != SessionKey || c.previousState != l.session.genesisState
         || c.previousRemaining != l.session.terms.limit then Err(InvalidClaimParent) else Ok
    else
      match l.ReadEdge(parent)
      case None => Err(InvalidClaimAccount)
      case Some(edge) =>
        if edge.sequence + 1 > U32_MAX then Err(ArithmeticOverflow)
        else if edge.newState != c.previousState || edge.sequence + 1 != c.sequence
                || edge.newRemaining != c.previousRemaining then Err(InvalidClaimParent)
        else if EdgeKey(edge.previousState, edge.sequence, edge.newState) != parent then Err(InvalidClaimParent)
        else Ok
  }

  lemma ReachableParent(s: Session, c: Credential, parent: Key)
    requires BookOk(s) && c.sequence <= MAX_BRANCH_DEPTH
    ensures ValidateReachableParent(View(s), c, parent).Ok? <==> ParentOk(s, c, parent)
  {
    hide EdgeView, SessionView, ClaimsView, ForksView, BookOk;
    assert View(s).session.genesisState == Root(s.terms) && View(s).session.terms == s.terms by { SessionTerms(s); }
    if c.sequence != 1 {
      if View(s).ReadEdge(parent).Some? {
        EdgeFields(s, parent.next);
      }
      if c.previousState in s.filed.Values && c.previousState.Payment? {
        EdgeFields(s, c.previousState);
      }
    }
  }

  lemma SessionTerms(s: Session)
    ensures SessionView(s).genesisState == Root(s.terms) && SessionView(s).terms == s.terms
    ensures SessionView(s).status == s.status && SessionView(s).authorized == s.authorized
    ensures SessionView(s).classificationComplete == ClassificationComplete(s)
    ensures SessionView(s).allocationComplete == Complete(s)
  {
  }

  lemma EdgeFields(s: Session, e: StateHash)
    requires e in s.filed.Values && e.Payment?
    ensures e in EdgesView(s) && EdgesView(s)[e].newState == e && EdgesView(s)[e].previousState == e.prev
    ensures EdgesView(s)[e].sequence == e.sequence && EdgesView(s)[e].newRemaining == e.newRemaining
    ensures EdgesView(s)[e].previousRemaining == e.previousRemaining && EdgesView(s)[e].amount == e.amount
    ensures EdgesView(s)[e].merchant == e.merchant && EdgesView(s)[e].representative == Rep(s.filed, e)
    ensures EdgesView(s)[e].wrapperCount == |Wrappers(s.filed, e)|
  {
  }

  /** The fork account names the children filed so far. */
  lemma ForkFields(s: Session, c: Credential)
    requires BookOk(s) && IsNewEdge(s, c)
    ensures var seed := ForkSeed(c.previousState, c.sequence);
            if seed in ForksView(s) then
              && ForksView(s)[seed].parentState == c.previousState && ForksView(s)[seed].sequence == c.sequence
              && ForksView(s)[seed].branchCount == |Siblings(s, c)| > 0
              && ForksView(s)[seed].firstChild != c.newState
              && (ForksView(s)[seed].branchCount == 1 <==> ForksView(s)[seed].secondChild.None?)
              && ForksView(s)[seed].secondChild != Some(c.newState)
            else |Siblings(s, c)| == 0
  {
    ForkAt(s, c);
    assert forall e :: e in Siblings(s, c) ==> e in s.filed.Values;
  }

  lemma RepresentativeFields(s: Session, e: StateHash)
    requires Fresh(s) && e in s.filed.Values
    ensures Rep(s.filed, e) in ClaimsView(s)
    ensures ClaimsView(s)[Rep(s.filed, e)].status.Submitted? && ClaimsView(s)[Rep(s.filed, e)].rejectionReason.NoReason?
    ensures ClaimsView(s)[Rep(s.filed, e)].credentialHash == Rep(s.filed, e)
  {
    RepEligible(s.filed, e);
    FreshClaim(s, Rep(s.filed, e));
    hide ClaimView, NextKey, PreviousKey;
  }

  lemma CollectingIsFresh(s: Session, w: World, sid: nat)
    requires WorldOk(w) && sid in w.sessions && s == w.sessions[sid]
    requires s.status.Collecting() && w.clock <= s.terms.deadline
    ensures Fresh(s) && BookOk(s)
  {
    OpenSession(w, sid);
    hide BookOk, Claims, Payable, Forked;
    assert s.settled == {};
  }

  lemma EdgeCountFits(s: Session)
    ensures |Claims(s)| <= |s.filed|
  {
    EligibleFiled(s.filed);
    SubsetSize(Claims(s).Keys, s.filed.Keys);
  }

  /** A new edge account, or an existing one with one more wrapper and the lesser representative. */
  ghost predicate EdgeRecorded(s: Session, c: Credential, edges: map<StateHash, StateEdgeRecord>)
  {
    if IsNewEdge(s, c) then edges == EdgesView(s)[c.newState := NewEdgeRecord(c)]
    else c.newState in EdgesView(s)
         && edges == EdgesView(s)[c.newState := Wrapped(EdgesView(s)[c.newState], c.hash)]
  }

  /** A new edge is counted in the fork account of its parent. */
  ghost predicate ForkRecorded(s: Session, c: Credential, forks: map<ForkSeed, ForkRecord>)
  {
    var seed := ForkSeed(c.previousState, c.sequence);
    forks == if !IsNewEdge(s, c) then ForksView(s)
             else ForksView(s)[seed := if seed in ForksView(s) then Branched(ForksView(s)[seed], c.newState)
                                       else NewForkRecord(c)]
  }

  ghost predicate SessionRecorded(s: Session, c: Credential, now: int, session: OfflineSession)
  {
    session == SessionView(s).(
      status := FiledStatus(s, c, now),
      authenticatedFork := SessionView(s).authenticatedFork || MakesFork(s, c),
      aggregateOfflineExposure := SessionView(s).aggregateOfflineExposure + if IsNewEdge(s, c) then c.amount else 0,
      uniqueEdgeCount := SessionView(s).uniqueEdgeCount + if IsNewEdge(s, c) then 1 else 0,
      submittedClaimCount := |s.filed| + 1,
      claimHead := HeadKey(s.filed.Keys + {c.hash}), claimTail := TailKey(s.filed.Keys + {c.hash}))
  }

  /** Records after a successful submit_claim: new claim written and spliced into the list, old
      representative demoted, edge and fork accounts created or updated, totals moved. */
  ghost predicate SubmitRecorded(s: Session, c: Credential, now: int, l: Ledger)
  {
    && l.claims == Spliced(Written(s, c), s.filed.Keys, c.hash)
    && EdgeRecorded(s, c, l.edges) && ForkRecorded(s, c, l.forks) && SessionRecorded(s, c, now, l.session)
  }

  lemma EdgesMatch(s: Session, t: Session, c: Credential, edges: map<StateHash, StateEdgeRecord>)
    requires Fresh(s) && Fresh(t) && c.hash !in s.filed && c.newState == Successor(c)
    requires t.filed == s.filed[c.hash := c.newState] && EdgeRecorded(s, c, edges)
    ensures edges == EdgesView(t)
  {
    hide EdgesView, Wrapped, NewEdgeRecord;
    if IsNewEdge(s, c) { SubmittedNewEdge(s, t, c); } else { SubmittedWrapper(s, t, c); }
  }

  lemma ForksMatch(s: Session, t: Session, c: Credential, forks: map<ForkSeed, ForkRecord>)
    requires BookOk(s) && c.newState == Successor(c) && ForkRecorded(s, c, forks)
    requires t.filed.Values == s.filed.Values + {c.newState} && t.arrivals == Arrivals(s, c)
    ensures forks == ForksView(t)
  {
    hide ForksView, Branched, NewForkRecord, ArrivalsOk;
    SubmittedForks(s, t, c);
  }

  lemma SessionMatch(s: Session, t: Session, c: Credential, now: int, session: OfflineSession)
    requires Fresh(s) && Fresh(t) && c.hash !in s.filed && c.newState == Successor(c)
    requires t.filed == s.filed[c.hash := c.newState] && t.terms == s.terms && t.authorized == s.authorized
    requires t.status == FiledStatus(s, c, now) && SessionRecorded(s, c, now, session)
    ensures session == SessionView(t)
  {
    hide SessionView, MakesFork, IsNewEdge, HeadKey, TailKey, FiledStatus;
    SubmittedSession(s, t, c);
  }

  lemma SubmittedView(s: Session, t: Session, c: Credential, now: int, l: Ledger)
    requires Fresh(s) && BookOk(s) && c.hash !in s.filed && c.newState == Successor(c)
    requires t == s.(filed := s.filed[c.hash := c.newState], arrivals := Arrivals(s, c), status := FiledStatus(s, c, now))
    requires SubmitRecorded(s, c, now, l)
    ensures l == View(t)
  {
    hide EdgeRecorded, ForkRecorded, SessionRecorded, Spliced, Written, ClaimsView, EdgesView, ForksView, SessionView,
         BookOk, Arrivals, FiledStatus;
    ValuesAfter(s.filed, c.hash, c.newState);
    SubmittedClaims(s, t, c);
    EdgesMatch(s, t, c, l.edges);
    ForksMatch(s, t, c, l.forks);
    SessionMatch(s, t, c, now, l.session);
  }

  /** register_fork_child: a new child of a parent is counted; the second one confirms a fork. */
  method RegisterForkChild(session: OfflineSession, profile: UserProfile, forks: map<ForkSeed, ForkRecord>,
                           c: Credential, now: int)
    returns (r: Outcome, session': OfflineSession, profile': UserProfile, forks': map<ForkSeed, ForkRecord>)
    requires var seed := ForkSeed(c.previousState, c.sequence);
             seed in forks ==>
               && forks[seed].parentState == c.previousState && forks[seed].sequence == c.sequence
               && 0 < forks[seed].branchCount && forks[seed].firstChild != c.newState
               && forks[seed].secondChild != Some(c.newState)
    ensures var seed := ForkSeed(c.previousState, c.sequence);
            var second := seed in forks && forks[seed].branchCount == 1;
            && (r.Ok? <==> && (seed in forks ==> forks[seed].branchCount < U32_MAX)
                           && (second ==> profile.conflictCount < U32_MAX))
            && (r.Ok? ==>
                 && forks' == forks[seed := if seed in forks then Branched(forks[seed], c.newState) else NewForkRecord(c)]
                 && session' == (if second then session.(authenticatedFork := true, status := Conflicted) else session)
                 && profile' == Marked(profile, now, second))
  {
    session', profile', forks' := session, profile, forks;
    var seed := ForkSeed(c.previousState, c.sequence);
    if seed in forks {
      var record := forks[seed];
      if !(record.parentState == c.previousState && record.sequence == c.sequence && 0 < record.branchCount
           && c.newState != record.firstChild
           && (record.branchCount == 1 || Some(c.newState) != record.secondChild)) {
        return Err(InvalidForkRecord), session', profile', forks';
      }
      if U32_MAX <= record.branchCount { return Err(ArithmeticOverflow), session', profile', forks'; }
      record := record.(branchCount := record.branchCount + 1);
      if record.branchCount == 2 {
        record := record.(secondChild := Some(c.newState));
        session' := session'.(authenticatedFork := true);
        session' := session'.(status := Conflicted);
        profile' := profile'.(offlineAccessEnabled := false);
        if U32_MAX <= profile'.conflictCount { return Err(ArithmeticOverflow), session', profile', forks'; }
        profile' := profile'.(conflictCount := profile'.conflictCount + 1);
        if profile'.revokedAt == 0 {
          profile' := profile'.(revokedAt := now);
        }
      }
      forks' := forks'[seed := record];
    } else {
      forks' := forks'[seed := ForkRecord(c.previousState, c.sequence, c.newState, None, 1)];
    }
    r := Ok;
  }

  /** The profile when a fork is confirmed. */
  function Marked(p: UserProfile, now: int, forked: bool): UserProfile
  {
    if forked then
      p.(offlineAccessEnabled := false, conflictCount := p.conflictCount + 1,
         revokedAt := if p.revokedAt == 0 then now else p.revokedAt)
    else p
  }

  /** What recording the edge does to the session account, before the list insertion. */
  ghost predicate EdgeTotals(s: Session, c: Credential, session: OfflineSession)
  {
    session == SessionView(s).(
      status := if MakesFork(s, c) then Conflicted else s.status,
      authenticatedFork := SessionView(s).authenticatedFork || MakesFork(s, c),
      aggregateOfflineExposure := SessionView(s).aggregateOfflineExposure + if IsNewEdge(s, c) then c.amount else 0,
      uniqueEdgeCount := SessionView(s).uniqueEdgeCount + if IsNewEdge(s, c) then 1 else 0)
  }

  /** An existing edge gains a wrapper, and perhaps a lesser representative that demotes the old one. */
  method RecordWrapper(ghost s: Session, l: Ledger, c: Credential, a: SubmitAccounts) returns (r: Outcome, l': Ledger)
    requires Fresh(s) && BookOk(s) && l == View(s) && c.hash !in s.filed && !IsNewEdge(s, c)
    requires c.newState == Successor(c)
    ensures r.Ok? <==> a.representative == ClaimKey(Rep(s.filed, c.newState)) && |Wrappers(s.filed, c.newState)| < U32_MAX
    ensures r.Ok? ==> l'.claims == Written(s, c) && EdgeRecorded(s, c, l'.edges) && ForkRecorded(s, c, l'.forks)
    ensures r.Ok? ==> l'.session == l.session
  {
    hide SessionView, ClaimsView, EdgesView, ForksView, BookOk, Rep, Wrappers, Claims;
    l' := l;
    EdgeFields(s, c.newState);
    RepresentativeFields(s, c.newState);
    var edge := l.edges[c.newState];
    if !(edge.previousState == c.previousState && edge.sequence == c.sequence && edge.newState == c.newState
         && edge.merchant == c.merchant && edge.amount == c.amount
         && edge.previousRemaining == c.previousRemaining && edge.newRemaining == c.newRemaining) {
      return Err(InvalidClaimAccount), l';
    }
    if a.representative != ClaimKey(edge.representative) { return Err(InvalidClaimAccount), l'; }
    var representative := l.claims[edge.representative];
    if !(representative.credentialHash == edge.representative && representative.status.Submitted?
         && representative.rejectionReason.NoReason?) { return Err(InvalidClaimAccount), l'; }
    var represents := c.hash < edge.representative;
    var claims := l.claims[c.hash := NewClaim(c, represents)];
    if U32_MAX <= edge.wrapperCount { return Err(ArithmeticOverflow), l'; }
    edge := edge.(wrapperCount := edge.wrapperCount + 1);
    if represents {
      claims := claims[edge.representative :=
                         representative.(status := Rejected, rejectionReason := DuplicateStateEdge)];
      edge := edge.(representative := c.hash);
    }
    l' := l.(claims := claims, edges := l.edges[c.newState := edge]);
    r := Ok;
  }

  /** A new edge is created under its validated parent and counted there. */
  method RecordNewEdge(ghost s: Session, l: Ledger, profile: UserProfile, now: int, c: Credential, a: SubmitAccounts)
    returns (r: Outcome, l': Ledger, profile': UserProfile)
    requires Fresh(s) && BookOk(s) && l == View(s) && c.hash !in s.filed && IsNewEdge(s, c)
    requires c.newState == Successor(c) && 0 < c.sequence <= MAX_BRANCH_DEPTH && a.claim == ClaimKey(c.hash)
    ensures r.Ok? <==>
        && a.representative == a.claim && ParentOk(s, c, a.parent) && Exposure(Claims(s)) + c.amount <= U64_MAX
        && |Claims(s)| < U64_MAX && |Siblings(s, c)| < U32_MAX && (MakesFork(s, c) ==> profile.conflictCount < U32_MAX)
    ensures r.Ok? ==> l'.claims == Written(s, c) && EdgeRecorded(s, c, l'.edges) && ForkRecorded(s, c, l'.forks)
    ensures r.Ok? ==> EdgeTotals(s, c, l'.session)
    ensures profile' == if r.Ok? then Marked(profile, now, MakesFork(s, c)) else profile
  {
    hide SessionView, ClaimsView, EdgesView, ForksView, BookOk, ParentOk, Siblings, Rep, Wrappers, Claims, Marked;
    l', profile' := l, profile;
    SessionTerms(s);
    SessionFigures(s);
    if a.representative != a.claim { return Err(InvalidClaimAccount), l', profile'; }
    ReachableParent(s, c, a.parent);
    r := ValidateReachableParent(l, c, a.parent);
    if r.Err? { return; }
    ForkFields(s, c);
    var claims := l.claims[c.hash := NewClaim(c, true)];
    var edges := l.edges[c.newState := NewEdgeRecord(c)];
    var session, forks;
    r, session, profile', forks := RegisterForkChild(l.session, profile, l.forks, c, now);
    if r.Err? { return r, l', profile; }
    if U64_MAX < session.aggregateOfflineExposure + c.amount { return Err(ArithmeticOverflow), l', profile; }
    session := session.(aggregateOfflineExposure := session.aggregateOfflineExposure + c.amount);
    if U64_MAX <= session.uniqueEdgeCount { return Err(ArithmeticOverflow), l', profile; }
    session := session.(uniqueEdgeCount := session.uniqueEdgeCount + 1);
    l' := Ledger(session, claims, edges, forks);
  }

  lemma NotMarked(s: Session, c: Credential, profile: UserProfile, now: int)
    requires !IsNewEdge(s, c)
    ensures Marked(profile, now, MakesFork(s, c)) == profile
    ensures EdgeTotals(s, c, SessionView(s))
  {
    SessionTerms(s);
    hide SessionView;
  }

  lemma SessionFigures(s: Session)
    ensures SessionView(s).aggregateOfflineExposure == Exposure(Claims(s))
    ensures SessionView(s).uniqueEdgeCount == |Claims(s)| && SessionView(s).submittedClaimCount == |s.filed|
    ensures SessionView(s).claimHead == HeadKey(s.filed.Keys) && SessionView(s).claimTail == TailKey(s.filed.Keys)
  {
  }

  lemma EdgesFiled(s: Session)
    ensures forall e :: e in EdgesView(s) <==> e in s.filed.Values && e.Payment?
  {
  }

  /** What recording the edge of a credential takes. */
  ghost predicate CanRecord(s: Session, profile: UserProfile, c: Credential, a: SubmitAccounts)
  {
    if IsNewEdge(s, c) then
      && a.representative == a.claim && ParentOk(s, c, a.parent) && Exposure(Claims(s)) + c.amount <= U64_MAX
      && |Claims(s)| < U64_MAX && |Siblings(s, c)| < U32_MAX && (MakesFork(s, c) ==> profile.conflictCount < U32_MAX)
    else a.representative == ClaimKey(Rep(s.filed, c.newState)) && |Wrappers(s.filed, c.newState)| < U32_MAX
  }

  /** Records a new wrapper or a new edge. */
  method RecordEdge(ghost s: Session, l: Ledger, profile: UserProfile, now: int, c: Credential, a: SubmitAccounts)
    returns (r: Outcome, l': Ledger, profile': UserProfile)
    requires Fresh(s) && BookOk(s) && l == View(s) && c.hash !in s.filed
    requires c.newState == Successor(c) && 0 < c.sequence <= MAX_BRANCH_DEPTH && a.claim == ClaimKey(c.hash)
    ensures r.Ok? <==> CanRecord(s, profile, c, a)
    ensures r.Ok? ==> l'.claims == Written(s, c) && EdgeRecorded(s, c, l'.edges) && ForkRecorded(s, c, l'.forks)
                      && EdgeTotals(s, c, l'.session)
    ensures profile' == if r.Ok? then Marked(profile, now, MakesFork(s, c)) else profile
  {
    hide SessionView, ClaimsView, EdgesView, ForksView, BookOk, ParentOk, Siblings, Rep, Wrappers, Claims, Marked,
         Written, MakesFork, Fresh, EdgeRecorded, ForkRecorded, EdgeTotals, IsNewEdge;
    NewEdgeUnfiled(s, c);
    l', profile' := l, profile;
    if c.newState in l.edges {
      NotMarked(s, c, profile, now);
      r, l' := RecordWrapper(s, l, c, a);
    } else {
      r, l', profile' := RecordNewEdge(s, l, profile, now, c, a);
    }
  }

  lemma CanFileParts(s: Session, profile: UserProfile, c: Credential, a: SubmitAccounts)
    ensures CanFile(s, profile, c, a)
       <==> && CanRecord(s, profile, c, a) && a.predecessor == OrSession(PreviousKey(s.filed.Keys, c.hash))
            && a.successor == OrSession(NextKey(s.filed.Keys, c.hash)) && |s.filed.Keys| < U64_MAX
  {
    EdgeCountFits(s);
    assert |s.filed.Keys| == |s.filed|;
    hide Claims, ParentOk, Siblings, Rep, Wrappers, PreviousKey, NextKey, MakesFork, IsNewEdge;
  }

  /** The account work of submit_claim after the payload and address checks. */
  method FileClaim(ghost s: Session, l: Ledger, profile: UserProfile, now: int, c: Credential, a: SubmitAccounts)
    returns (r: Outcome, l': Ledger, profile': UserProfile)
    requires Fresh(s) && BookOk(s) && l == View(s) && c.hash !in s.filed
    requires c.newState == Successor(c) && 0 < c.sequence <= MAX_BRANCH_DEPTH && a.claim == ClaimKey(c.hash)
    ensures r.Ok? <==> CanFile(s, profile, c, a)
    ensures r.Ok? ==> SubmitRecorded(s, c, now, l')
    ensures profile' == if r.Ok? then Marked(profile, now, MakesFork(s, c)) else profile
  {
    WrittenLinked(s, c);
    CanFileParts(s, profile, c, a);
    hide View, BookOk, Claims, Marked, Written, Spliced, PreviousKey, NextKey, HeadKey, TailKey, Listed, MakesFork, Fresh,
         EdgeRecorded, ForkRecorded, EdgeTotals, SessionRecorded, CanFile, CanRecord;
    r, l', profile' := RecordEdge(s, l, profile, now, c, a);
    if r.Err? { return; }
    ListTotals(s, c, l'.session);
    var session, claims;
    r, session, claims := InsertClaimInOrder(l'.session, l'.claims, c.hash, a.predecessor, a.successor, s.filed.Keys);
    if r.Err? { return r, l', profile; }
    ghost var inserted := session;
    if session.terms.expiresAt < now && session.status.Active? {
      session := session.(status := ClaimWindow);
    }
    StatusTotals(s, c, now, l'.session, inserted, session);
    l' := l'.(session := session, claims := claims);
  }

  lemma NewEdgeUnfiled(s: Session, c: Credential)
    requires c.newState == Successor(c)
    ensures c.newState in EdgesView(s) <==> !IsNewEdge(s, c)
  {
  }

  lemma ListTotals(s: Session, c: Credential, session: OfflineSession)
    requires EdgeTotals(s, c, session)
    ensures session.claimHead == HeadKey(s.filed.Keys) && session.claimTail == TailKey(s.filed.Keys)
    ensures session.submittedClaimCount == |s.filed.Keys|
  {
    SessionFigures(s);
    hide SessionView, MakesFork, IsNewEdge;
    assert |s.filed.Keys| == |s.filed|;
  }

  lemma StatusTotals(s: Session, c: Credential, now: int, before: OfflineSession, inserted: OfflineSession, after: OfflineSession)
    requires EdgeTotals(s, c, before)
    requires inserted == before.(claimHead := HeadKey(s.filed.Keys + {c.hash}), claimTail := TailKey(s.filed.Keys + {c.hash}),
                                 submittedClaimCount := |s.filed.Keys| + 1)
    requires after == if inserted.terms.expiresAt < now && inserted.status.Active? then inserted.(status := ClaimWindow)
                      else inserted
    ensures SessionRecorded(s, c, now, after)
  {
    SessionTerms(s);
    hide SessionView, MakesFork, IsNewEdge, HeadKey, TailKey;
    assert |s.filed.Keys| == |s.filed|;
  }

  /** complete_allocation: coverage is fixed and the surplus of the cap leaves the reserve. */
  method CompleteAllocation(session: OfflineSession, vault: CollateralVault)
    returns (r: Outcome, session': OfflineSession, vault': CollateralVault)
    ensures r.Ok? <==>
      && session.classificationComplete && session.scannedClaimCount == session.submittedClaimCount
      && session.allocatedEdgeCount == session.frozenEdgeCount && session.nextAllocationClaim == NoKey
      && session.allocatedTotal == CoverageAmount(session.frozenExposure, session.terms.cap)
      && session.terms.cap - CoverageAmount(session.frozenExposure, session.terms.cap) <= vault.reserved
    ensures r.Ok? ==>
      && session' == session.(
           coverageStatus := if session.frozenExposure <= session.terms.cap then FullyCovered else Underfunded,
           status := if session.terms.cap < session.frozenExposure then Insolvent
                     else if session.authenticatedFork then Conflicted else Reconciling,
           allocationComplete := true)
      && vault' == vault.(reserved :=
           vault.reserved - (session.terms.cap - CoverageAmount(session.frozenExposure, session.terms.cap)))
  {
    session', vault' := session, vault;
    if !(session.classificationComplete && session.scannedClaimCount == session.submittedClaimCount
         && session.allocatedEdgeCount == session.frozenEdgeCount && session.nextAllocationClaim == NoKey) {
      return Err(InvalidFinalization), session', vault';
    }
    var coverage := CoverageAmount(session.frozenExposure, session.terms.cap);
    if session.allocatedTotal != coverage { return Err(InvalidFinalization), session', vault'; }
    var released := session.terms.cap - coverage;
    if vault.reserved < released { return Err(ArithmeticOverflow), session', vault'; }
    vault' := vault.(reserved := vault.reserved - released);
    session' := session'.(
      coverageStatus := if session.frozenExposure <= session.terms.cap then FullyCovered else Underfunded);
    session' := session'.(
      status := if session.terms.cap < session.frozenExposure then Insolvent
                else if session.authenticatedFork then Conflicted else Reconciling);
    session' := session'.(allocationComplete := true);
    r := Ok;
  }

  lemma BegunRecords(w: World, sid: nat)
    requires WorldOk(w) && sid in w.sessions && w.sessions[sid].status.Collecting()
    ensures var s := w.sessions[sid];
      && View(Begun(s)) == View(s).(session := SessionView(Begun(s)))
      && (s.frozen ==> s.filed != map[])
      && (s.filed == map[] ==>
            && SessionView(s).submittedClaimCount == SessionView(s).scannedClaimCount == 0
            && SessionView(s).uniqueEdgeCount == SessionView(s).allocatedEdgeCount == 0
            && SessionView(s).aggregateOfflineExposure == SessionView(s).allocatedTotal == 0
            && HeadKey(s.filed.Keys) == NoKey && !SessionView(s).authenticatedFork
            && Begun(s).status.Reconciling? && s.terms.cap <= w.vault.reserved
            && AfterBegin(w, sid).vault == w.vault.(reserved := w.vault.reserved - s.terms.cap))
      && (s.filed != map[] ==>
            && SessionView(s).uniqueEdgeCount != 0
            && Begun(s).status.Reconciling? && AfterBegin(w, sid).vault == w.vault)
  {
    var s := w.sessions[sid];
    OpenSession(w, sid);
    BegunFlags(s);
    SameRecords(s, Begun(s));
    Figures(s);
    ScanFigures(s);
    EmptyClaims(s.filed);
    if s.filed == map[] {
      EmptyBegun(w, sid);
    } else {
      assert |Claims(s)| != 0;
      NonEmptyBegun(w, sid);
    }
    hide *;
    ViewIs(s);
    ViewIs(Begun(s));
  }

  /** begin_finalization freezes the totals and rewinds the cursor to the head of the list; with
      nothing submitted it completes at once. None of its inner guards fails. */
  method Freeze(ghost w: World, sid: nat, session: OfflineSession, vault: CollateralVault)
    returns (r: Outcome, session': OfflineSession, vault': CollateralVault)
    requires WorldOk(w) && sid in w.sessions && w.sessions[sid].status.Collecting()
    requires session == SessionView(w.sessions[sid]) && vault == w.vault
    ensures r.Ok? && session' == SessionView(Begun(w.sessions[sid])) && vault' == AfterBegin(w, sid).vault
  {
    ghost var s := w.sessions[sid];
    OpenSession(w, sid);
    BegunSession(s);
    BegunRecords(w, sid);
    Figures(s);
    hide WorldOk, SessionView, ClaimsView, EdgesView, ForksView, View, AfterBegin, Begun, HeadKey, SessionOk, SessionIn,
         Claims, Forked, Outstanding, Complete, ClassificationComplete;
    session', vault' := session.(frozenEdgeCount := session.uniqueEdgeCount), vault;
    session' := session'.(frozenExposure := session'.aggregateOfflineExposure);
    session' := session'.(status := Reconciling);
    session' := session'.(nextAllocationClaim := session'.claimHead);
    r := Ok;
    if session'.frozenEdgeCount == 0 {
      if !(session'.frozenExposure == 0 && session'.submittedClaimCount == 0) {
        return Err(InvalidFinalization), session', vault';
      }
      session' := session'.(classificationComplete := true);
      r, session', vault' := CompleteAllocation(session', vault);
    }
  }

  lemma EmptyBegun(w: World, sid: nat)
    requires WorldOk(w) && sid in w.sessions && w.sessions[sid].status.Collecting() && w.sessions[sid].filed == map[]
    ensures var s := w.sessions[sid];
      && !s.frozen && |s.filed| == |s.scanned| == |Claims(s)| == |Allocated(s)| == 0
      && Exposure(Claims(s)) == Sum(OwedTo(s, s.scanned)) == 0
      && HeadKey(s.filed.Keys) == NoKey && !Forked(s.filed.Values)
      && Begun(s).status.Reconciling? && s.terms.cap <= w.vault.reserved
      && AfterBegin(w, sid).vault == w.vault.(reserved := w.vault.reserved - s.terms.cap)
  {
    var s := w.sessions[sid];
    OpenSession(w, sid);
    BegunFlags(s);
    EmptyBook(s);
    EmptyClaims(s.filed);
    SumEmpty();
    BeginKeepsSession(s);
    hide BookOk, Payable, Sum, Payout;
    assert s.scanned == {};
    NothingOwed(s, s.scanned);
    assert Claims(Begun(s)) == map[];
    assert !Complete(s);
    OutstandingBefore(s);
  }

  lemma NonEmptyBegun(w: World, sid: nat)
    requires WorldOk(w) && sid in w.sessions && w.sessions[sid].status.Collecting() && w.sessions[sid].filed != map[]
    ensures Begun(w.sessions[sid]).status.Reconciling? && AfterBegin(w, sid).vault == w.vault
  {
    OpenSession(w, sid);
    BegunFlags(w.sessions[sid]);
    hide SessionOk, Complete, WorldOk;
  }

  // ----- classify_edge -----

  /** Records an unclassified edge's base share and inherited conflict. */
  method Classify(ghost s: Session, l: Ledger, e: StateHash, fork: Key, parent: Key) returns (r: Outcome, l': Ledger)
    requires SessionOk(s) && l == View(s) && e in s.filed.Values && e.Payment?
    requires s.status.Reconciling? && !ClassificationComplete(s) && Rep(s.filed, e) !in s.classified
    ensures r.Ok? <==> fork == ForkKey(e.prev, e.sequence) && ParentReady(s, e, parent)
    ensures r.Ok? ==> l' == View(s.(classified := s.classified + {Rep(s.filed, e)}))
  {
    ghost var t := s.(classified := s.classified + {Rep(s.filed, e)});
    ClassifyFacts(s, t, e);
    ghost var base := SessionBases(s)[Rep(s.filed, e)];
    hide *;
    var conflicting;
    r, conflicting := InheritedConflict(s, l, e, fork, parent);
    if r.Err? { return r, l; }
    r, l' := RecordShare(l, e, conflicting, base);
  }

  method RecordShare(l: Ledger, e: StateHash, conflicting: bool, ghost base: nat) returns (r: Outcome, l': Ledger)
    requires ShareFits(l, e, base)
    ensures r.Ok? && l' == Shared(l, e, conflicting, base)
  {
    hide CheckedBaseAllocation;
    var edge := l.edges[e];
    var share := CheckedBaseAllocation(edge.amount, l.session.frozenExposure, l.session.terms.cap);
    if share.None? { return Err(InvalidFinalization), l; }
    edge := edge.(classified := true);
    edge := edge.(conflicting := conflicting);
    edge := edge.(allocatedAmount := share.value);
    var session;
    r, session := CountClassified(l.session, edge.amount, share.value);
    l' := l.(session := session, edges := l.edges[e := edge]);
  }

  /** No guard of the bookkeeping can fail. */
  ghost predicate ShareFits(l: Ledger, e: StateHash, base: nat)
  {
    && e in l.edges
    && CheckedBaseAllocation(l.edges[e].amount, l.session.frozenExposure, l.session.terms.cap) == Some(base)
    && l.session.classifiedEdgeCount < U64_MAX && l.session.classifiedExposure + l.edges[e].amount <= U64_MAX
    && l.session.baseAllocationTotal + base <= U64_MAX
    && (l.session.classifiedEdgeCount + 1 == l.session.frozenEdgeCount
        ==> l.session.classifiedExposure + l.edges[e].amount == l.session.frozenExposure)
  }

  ghost function Shared(l: Ledger, e: StateHash, conflicting: bool, base: nat): Ledger
    requires e in l.edges
  {
    l.(edges := l.edges[e := SharedEdge(l.edges[e], conflicting, base)],
       session := CountedSession(l.session, l.edges[e].amount, base, l.session.classificationComplete
                                   || l.session.classifiedEdgeCount + 1 == l.session.frozenEdgeCount))
  }

  /** The running totals of classification; the last edge must bring them to the frozen exposure. */
  method CountClassified(session: OfflineSession, amount: nat, base: nat) returns (r: Outcome, session': OfflineSession)
    ensures r.Ok? <==>
      && session.classifiedEdgeCount < U64_MAX && session.classifiedExposure + amount <= U64_MAX
      && session.baseAllocationTotal + base <= U64_MAX
      && (session.classifiedEdgeCount + 1 == session.frozenEdgeCount
          ==> session.classifiedExposure + amount == session.frozenExposure)
    ensures r.Ok? ==> session' == session.(
      classifiedEdgeCount := session.classifiedEdgeCount + 1, classifiedExposure := session.classifiedExposure + amount,
      baseAllocationTotal := session.baseAllocationTotal + base,
      classificationComplete := session.classificationComplete || session.classifiedEdgeCount + 1 == session.frozenEdgeCount)
  {
    session' := session;
    if U64_MAX <= session'.classifiedEdgeCount { return Err(ArithmeticOverflow), session'; }
    session' := session'.(classifiedEdgeCount := session'.classifiedEdgeCount + 1);
    if U64_MAX < session'.classifiedExposure + amount { return Err(ArithmeticOverflow), session'; }
    session' := session'.(classifiedExposure := session'.classifiedExposure + amount);
    if U64_MAX < session'.baseAllocationTotal + base { return Err(ArithmeticOverflow), session'; }
    session' := session'.(baseAllocationTotal := session'.baseAllocationTotal + base);
    if session'.classifiedEdgeCount == session'.frozenEdgeCount {
      if session'.classifiedExposure != session'.frozenExposure { return Err(InvalidFinalization), session'; }
      session' := session'.(classificationComplete := true);
    }
    r := Ok;
  }

  /** An edge conflicts when its fork record counts two children or its classified parent conflicts. */
  method InheritedConflict(ghost s: Session, l: Ledger, e: StateHash, forkRecord: Key, parent: Key) returns (r: Outcome, conflicting: bool)
    requires BookOk(s) && l == View(s) && e in s.filed.Values && e.Payment?
    ensures r.Ok? <==> forkRecord == ForkKey(e.prev, e.sequence) && ParentReady(s, e, parent)
    ensures r.Ok? ==> e in l.edges && conflicting == Tainted(s.filed.Values, e)
  {
    EdgeMatching(s, e);
    ClassifyFork(s, e);
    ForkLookup(s, forkRecord);
    ClassifyTree(s, e);
    hide SessionView, ClaimsView, EdgesView, ForksView, BookOk, Rep, Tainted, Children;
    conflicting := false;
    var edge := l.edges[e];
    var record := l.ReadFork(forkRecord);
    if record.None? { return Err(AccountNotFound), false; }
    var fork := record.value;
    if !(fork.parentState == edge.previousState && fork.sequence == edge.sequence && 0 < fork.branchCount) {
      return Err(InvalidFinalization), false;
    }
    if edge.sequence == 1 {
      if parent != SessionKey { return Err(InvalidClaimParent), false; }
      if edge.previousState != l.session.genesisState { return Err(InvalidClaimParent), false; }
      conflicting := 2 <= fork.branchCount;
    } else {
      ParentLookup(s, e, parent);
      var read := l.ReadEdge(parent);
      if read.None? { return Err(InvalidClaimAccount), false; }
      var parentEdge := read.value;
      if !parentEdge.classified { return Err(InvalidFinalization), false; }
      if !(parentEdge.newState == edge.previousState && parentEdge.sequence + 1 == edge.sequence
           && parentEdge.newRemaining == edge.previousRemaining) { return Err(InvalidClaimParent), false; }
      if EdgeKey(parentEdge.previousState, parentEdge.sequence, parentEdge.newState) != parent {
        return Err(InvalidClaimParent), false;
      }
      conflicting := parentEdge.conflicting || 2 <= fork.branchCount;
    }
    r := Ok;
  }

  /** Everything else classify_edge relies on: totals that fit, and the account updates that make
      the next view. */
  lemma ClassifyFacts(s: Session, t: Session, e: StateHash)
    requires SessionOk(s) && e in s.filed.Values && e.Payment?
    requires s.status.Reconciling? && !ClassificationComplete(s) && Rep(s.filed, e) !in s.classified
    requires t == s.(classified := s.classified + {Rep(s.filed, e)})
    ensures BookOk(s) && Rep(s.filed, e) in SessionBases(s)
    ensures ShareFits(View(s), e, SessionBases(s)[Rep(s.filed, e)]) && e in View(s).edges
    ensures View(t) == Shared(View(s), e, Tainted(s.filed.Values, e), SessionBases(s)[Rep(s.filed, e)])
  {
    ClassifyStage(s, t, e);
    ClassifyArithmetic(s, t, e);
    ClassifyFits(s, t, e);
    ClassifiedEdges(s, t, e);
    ClassifiedClaims(s, t);
    ClassifiedSession(s, t, e);
    Figures(s);
    hide *;
    SharedView(s, t, e, SessionBases(s)[Rep(s.filed, e)]);
  }

  lemma ClassifyFits(s: Session, t: Session, e: StateHash)
    requires e in s.filed.Values && e.Payment? && Rep(s.filed, e) in SessionBases(s) && s.frozen
    requires CheckedBaseAllocation(e.amount, Exposure(Claims(s)), s.terms.cap) == Some(SessionBases(s)[Rep(s.filed, e)])
    requires SessionView(s).classifiedEdgeCount < U64_MAX
    requires SessionView(s).classifiedExposure + e.amount <= U64_MAX
    requires SessionView(s).baseAllocationTotal + SessionBases(s)[Rep(s.filed, e)] <= U64_MAX
    requires ClassificationComplete(t) <==> SessionView(s).classifiedEdgeCount + 1 == |Claims(s)|
    requires ClassificationComplete(t) ==> SessionView(s).classifiedExposure + e.amount == Exposure(Claims(s))
    ensures ShareFits(View(s), e, SessionBases(s)[Rep(s.filed, e)])
  {
    EdgeMatching(s, e);
    Figures(s);
    hide SessionView, ClaimsView, EdgesView, ForksView, Claims, SessionBases, Rep, ClassificationComplete,
         CheckedBaseAllocation;
  }

  lemma SharedView(s: Session, t: Session, e: StateHash, base: nat)
    requires e in s.filed.Values && e.Payment? && e in EdgesView(s)
    requires SessionView(s).frozenEdgeCount == |Claims(s)| && !SessionView(s).classificationComplete
    requires ClassificationComplete(t) <==> SessionView(s).classifiedEdgeCount + 1 == |Claims(s)|
    requires EdgesView(t) == EdgesView(s)[e := SharedEdge(EdgesView(s)[e], Tainted(s.filed.Values, e), base)]
    requires ClaimsView(t) == ClaimsView(s) && ForksView(t) == ForksView(s)
    requires SessionView(t) == CountedSession(SessionView(s), Amount(e), base, ClassificationComplete(t))
    ensures View(t) == Shared(View(s), e, Tainted(s.filed.Values, e), base)
  {
    EdgeMatching(s, e);
    AmountIs(e);
    hide SessionView, ClaimsView, EdgesView, ForksView, Claims, ClassificationComplete, Tainted, Rep, CountedSession, SharedEdge;
  }

  lemma ClassifyArithmetic(s: Session, t: Session, e: StateHash)
    requires BookOk(s) && s.frozen && s.classified <= Claims(s).Keys && t.classified <= Claims(t).Keys
    requires e in s.filed.Values && e.Payment? && Rep(s.filed, e) !in s.classified && Rep(s.filed, e) in Claims(s)
    requires t == s.(classified := s.classified + {Rep(s.filed, e)})
    ensures Rep(s.filed, e) in SessionBases(s)
    ensures CheckedBaseAllocation(e.amount, Exposure(Claims(s)), s.terms.cap) == Some(SessionBases(s)[Rep(s.filed, e)])
    ensures SessionView(s).classifiedEdgeCount < U64_MAX
    ensures SessionView(s).classifiedExposure + e.amount <= U64_MAX
    ensures SessionView(s).baseAllocationTotal + SessionBases(s)[Rep(s.filed, e)] <= U64_MAX
    ensures ClassificationComplete(t) <==> SessionView(s).classifiedEdgeCount + 1 == |Claims(s)|
    ensures ClassificationComplete(t) ==> SessionView(s).classifiedExposure + e.amount == Exposure(Claims(s))
  {
    ClassifiedTotals(s, t, e);
    AmountIs(e);
    var rep := Rep(s.filed, e);
    hide *;
    ScanFigures(s);
    BaseFits(s, rep);
    ClassifySums(s, rep);
    ClassifyCounts(s, rep);
    ClassificationCount(t);
  }

  lemma AmountIs(e: StateHash)
    requires e.Payment?
    ensures Amount(e) == e.amount
  {
  }

  lemma ClassifyStage(s: Session, t: Session, e: StateHash)
    requires SessionOk(s) && e in s.filed.Values && s.status.Reconciling? && !ClassificationComplete(s)
    requires Rep(s.filed, e) !in s.classified && t == s.(classified := s.classified + {Rep(s.filed, e)})
    ensures BookOk(s) && s.frozen && t.frozen && s.scanned == {} && s.classified <= Claims(s).Keys
    ensures t.classified <= Claims(t).Keys && !Complete(s) && !Complete(t)
    ensures Rep(s.filed, e) in Claims(s)
  {
    RepEligible(s.filed, e);
    assert Claims(t) == Claims(s);
    assert s.filed.Keys != {};
    hide BookOk, Payable, Eligible, Forked, ParentsClassified, Rep;
  }

  lemma ClassifyTree(s: Session, e: StateHash)
    requires BookOk(s) && e in s.filed.Values && e.Payment?
    ensures Tainted(s.filed.Values, e)
        <==> 2 <= |Children(s.filed.Values, e.prev, e.sequence)| || Tainted(s.filed.Values, e.prev)
    ensures e.sequence == 1 ==> e.prev == SessionView(s).genesisState && !Tainted(s.filed.Values, e.prev)
    ensures e.sequence != 1 ==> e.prev in s.filed.Values && e.prev.Payment? && e.prev.sequence + 1 == e.sequence
                                && e.prev.newRemaining == e.previousRemaining
  {
    assert States.Linked(Root(s.terms), s.terms.limit, s.terms.maxDepth, s.filed.Values, e);
    SessionTerms(s);
    hide SessionView, Children;
  }

  ghost predicate EdgeMatches(edge: StateEdgeRecord, e: StateHash)
  {
    && e.Payment? && edge.newState == e && edge.previousState == e.prev && edge.sequence == e.sequence
    && edge.amount == e.amount && edge.merchant == e.merchant
    && edge.previousRemaining == e.previousRemaining && edge.newRemaining == e.newRemaining
  }

  lemma EdgeMatching(s: Session, e: StateHash)
    requires e in s.filed.Values && e.Payment?
    ensures e in EdgesView(s) && EdgeMatches(EdgesView(s)[e], e)
    ensures EdgesView(s)[e].representative == Rep(s.filed, e)
    ensures EdgesView(s)[e].classified <==> Rep(s.filed, e) in s.classified
    ensures EdgesView(s)[e].conflicting <==> Rep(s.filed, e) in s.classified && Tainted(s.filed.Values, e)
  {
    EdgeFields(s, e);
    hide Tainted, Wrappers, Owed, SessionBases;
  }

  lemma ClassifyFork(s: Session, e: StateHash)
    requires BookOk(s) && e in s.filed.Values && e.Payment?
    ensures var seed := ForkSeed(e.prev, e.sequence);
            && seed in ForksView(s) && ForksView(s)[seed].parentState == e.prev && ForksView(s)[seed].sequence == e.sequence
            && ForksView(s)[seed].branchCount == |Children(s.filed.Values, e.prev, e.sequence)| > 0
  {
    assert e in Children(s.filed.Values, e.prev, e.sequence);
    assert ArrivalsOk(s.filed.Values, s.arrivals);
    assert Children(s.filed.Values, e.prev, e.sequence) != {};
    hide BookOk, Children;
    assert ForkSeed(e.prev, e.sequence) in s.arrivals;
  }

  /** Reading an account as a fork record of this session. */
  lemma ForkLookup(s: Session, fork: Key)
    ensures var record := View(s).ReadFork(fork);
      && (record.Some? ==> fork == ForkKey(record.value.parentState, record.value.sequence))
      && (fork.ForkKey? && ForkSeed(fork.parent, fork.sequence) in ForksView(s) ==>
            record == Some(ForksView(s)[ForkSeed(fork.parent, fork.sequence)]))
  {
    hide SessionView, ClaimsView, EdgesView, Children;
  }

  /** Reading the parent account as an edge of this session. */
  lemma ParentLookup(s: Session, e: StateHash, parent: Key)
    requires e.Payment? && e.prev in s.filed.Values && e.prev.Payment?
    requires e.prev.sequence + 1 == e.sequence && e.prev.newRemaining == e.previousRemaining
    ensures View(s).ReadEdge(parent).Some? ==>
      && EdgeMatches(View(s).ReadEdge(parent).value, parent.next) && parent == EdgeAddress(parent.next)
      && parent.next in s.filed.Values
    ensures View(s).ReadEdge(EdgeAddress(e.prev)) == Some(EdgesView(s)[e.prev])
    ensures EdgesView(s)[e.prev].classified <==> Rep(s.filed, e.prev) in s.classified
    ensures EdgesView(s)[e.prev].conflicting <==> Rep(s.filed, e.prev) in s.classified && Tainted(s.filed.Values, e.prev)
    ensures EdgeMatches(EdgesView(s)[e.prev], e.prev)
  {
    EdgesFiled(s);
    EdgeMatching(s, e.prev);
    hide EdgesView, SessionView, ClaimsView, ForksView, Rep;
    if View(s).ReadEdge(parent).Some? {
      EdgeMatching(s, parent.next);
    }
  }

  // ----- allocate_next_claim -----

  /** The claim and edge accounts describe the same payment. */
  predicate SamePayment(edge: StateEdgeRecord, claim: Claim)
  {
    && edge.merchant == claim.merchant && edge.amount == claim.amount && edge.sequence == claim.sequence
    && edge.previousState == claim.previousState && edge.newState == claim.newState
  }

  /** Every guard of allocate_next_claim for a representative, and the allocation it arrives at. */
  ghost predicate GrantFits(l: Ledger, h: nat, e: StateHash, owed: nat)
  {
    && h in l.claims && e in l.edges
    && l.edges[e].classified && !l.edges[e].allocationFinalized
    && l.claims[h].status.Submitted? && l.claims[h].rejectionReason.NoReason?
    && l.session.baseAllocationTotal <= CoverageAmount(l.session.frozenExposure, l.session.terms.cap)
    && owed == l.edges[e].allocatedAmount
         + (if l.session.allocatedEdgeCount
               < CoverageAmount(l.session.frozenExposure, l.session.terms.cap) - l.session.baseAllocationTotal then 1 else 0)
    && owed <= l.edges[e].amount && owed <= U64_MAX
    && l.session.conflictingClaimCount < U64_MAX && l.session.allocatedEdgeCount < U64_MAX
    && l.session.allocatedTotal + owed <= U64_MAX && l.session.settledEdgeCount < U64_MAX
    && l.session.scannedClaimCount < U64_MAX
  }

  ghost function GrantedLedger(l: Ledger, h: nat, e: StateHash, owed: nat): Ledger
    requires h in l.claims && e in l.edges
  {
    l.(claims := l.claims[h := Granted(l.claims[h], owed, l.edges[e].conflicting)],
       edges := l.edges[e := Finalized(l.edges[e], owed)],
       session := AllocatedSession(l.session, owed, l.edges[e].conflicting, l.claims[h].nextClaim))
  }

  /** The allocation of a representative: its base share plus a unit of dust while any is left. */
  method GrantClaim(l: Ledger, h: nat, e: StateHash, ghost owed: nat) returns (r: Outcome, l': Ledger)
    requires GrantFits(l, h, e, owed)
    ensures r.Ok? && l' == GrantedLedger(l, h, e, owed)
  {
    var claim, edge, session := l.claims[h], l.edges[e], l.session;
    if !edge.classified || edge.allocationFinalized { return Err(InvalidFinalization), l; }
    if !claim.status.Submitted? || !claim.rejectionReason.NoReason? { return Err(InvalidFinalization), l; }
    var coverage := CoverageAmount(session.frozenExposure, session.terms.cap);
    if coverage < session.baseAllocationTotal { return Err(ArithmeticOverflow), l; }
    var remainder := coverage - session.baseAllocationTotal;
    var dust := if session.allocatedEdgeCount < remainder then 1 else 0;
    var allocation := edge.allocatedAmount + dust;
    if U64_MAX < allocation { return Err(ArithmeticOverflow), l; }
    if edge.amount < allocation { return Err(InvalidFinalization), l; }
    edge := edge.(allocatedAmount := allocation);
    edge := edge.(allocationFinalized := true);
    claim := claim.(allocatedAmount := allocation);
    claim := claim.(status := if edge.conflicting then Conflicting else Valid);
    r, session := CountGrant(session, allocation, edge.conflicting, claim.nextClaim);
    if r.Err? { return r, l; }
    if allocation == 0 {
      claim := claim.(status := Paid);
    }
    claim := claim.(allocationProcessed := true);
    l' := l.(session := session, claims := l.claims[h := claim], edges := l.edges[e := edge]);
  }

  /** The running totals of allocation. */
  method CountGrant(session: OfflineSession, allocation: nat, conflicting: bool, next: Key)
    returns (r: Outcome, session': OfflineSession)
    requires session.conflictingClaimCount < U64_MAX && session.allocatedEdgeCount < U64_MAX
    requires session.allocatedTotal + allocation <= U64_MAX && session.settledEdgeCount < U64_MAX
    requires session.scannedClaimCount < U64_MAX
    ensures r.Ok? && session' == AllocatedSession(session, allocation, conflicting, next)
  {
    session' := session;
    if conflicting {
      if U64_MAX <= session'.conflictingClaimCount { return Err(ArithmeticOverflow), session'; }
      session' := session'.(conflictingClaimCount := session'.conflictingClaimCount + 1);
    }
    if U64_MAX <= session'.allocatedEdgeCount { return Err(ArithmeticOverflow), session'; }
    session' := session'.(allocatedEdgeCount := session'.allocatedEdgeCount + 1);
    if U64_MAX < session'.allocatedTotal + allocation { return Err(ArithmeticOverflow), session'; }
    session' := session'.(allocatedTotal := session'.allocatedTotal + allocation);
    if allocation == 0 {
      if U64_MAX <= session'.settledEdgeCount { return Err(ArithmeticOverflow), session'; }
      session' := session'.(settledEdgeCount := session'.settledEdgeCount + 1);
    }
    if U64_MAX <= session'.scannedClaimCount { return Err(ArithmeticOverflow), session'; }
    session' := session'.(scannedClaimCount := session'.scannedClaimCount + 1);
    session' := session'.(nextAllocationClaim := next);
    r := Ok;
  }

  ghost function PassedLedger(l: Ledger, h: nat): Ledger
    requires h in l.claims
  {
    l.(claims := l.claims[h := PassedClaim(l.claims[h])], session := PassedSession(l.session, l.claims[h].nextClaim))
  }

  /** A duplicate wrapper is only passed over. */
  method PassClaim(l: Ledger, h: nat) returns (r: Outcome, l': Ledger)
    requires h in l.claims && l.claims[h].status.Rejected? && l.claims[h].rejectionReason.DuplicateStateEdge?
    requires l.session.scannedClaimCount < U64_MAX
    ensures r.Ok? && l' == PassedLedger(l, h)
  {
    var claim, session := l.claims[h], l.session;
    if !(claim.status.Rejected? && claim.rejectionReason.DuplicateStateEdge?) { return Err(InvalidFinalization), l; }
    claim := claim.(allocationProcessed := true);
    if U64_MAX <= session.scannedClaimCount { return Err(ArithmeticOverflow), l; }
    session := session.(scannedClaimCount := session.scannedClaimCount + 1);
    session := session.(nextAllocationClaim := claim.nextClaim);
    l' := l.(session := session, claims := l.claims[h := claim]);
    r := Ok;
  }

  /** The ledger after scanning a claim, before completion. */
  ghost function ScannedLedger(s: Session, h: nat): Ledger
    requires h in s.filed && s.filed[h].Payment?
  {
    var l := View(s);
    if h in Claims(s) && s.filed[h] in l.edges then GrantedLedger(l, h, s.filed[h], Owed(s, h)) else PassedLedger(l, h)
  }

  lemma ClaimFields(s: Session, h: nat)
    requires h in s.filed && s.filed[h].Payment?
    ensures h in ClaimsView(s) && s.filed[h] in EdgesView(s)
    ensures SamePayment(EdgesView(s)[s.filed[h]], ClaimsView(s)[h])
    ensures ClaimsView(s)[h].nextClaim == NextKey(s.filed.Keys, h)
    ensures ClaimsView(s)[h].allocationProcessed == (h in s.scanned)
    ensures EdgesView(s)[s.filed[h]].representative == h <==> h in Claims(s)
    ensures h !in Claims(s) ==> ClaimsView(s)[h].status.Rejected? && ClaimsView(s)[h].rejectionReason.DuplicateStateEdge?
    ensures h in Claims(s) && h !in s.scanned ==>
              ClaimsView(s)[h].status.Submitted? && ClaimsView(s)[h].rejectionReason.NoReason?
  {
    EligibleKey(s.filed, h);
    EdgeFields(s, s.filed[h]);
    hide Eligible, Rep, NextKey, PreviousKey, Tainted, Wrappers, Payout;
  }

  /** Accounts of an edge and a claim that agree name the claim's own edge. */
  lemma SamePaymentEdge(s: Session, h: nat, e: StateHash)
    requires h in s.filed && e in EdgesView(s) && SamePayment(EdgesView(s)[e], ClaimsView(s)[h])
    ensures s.filed[h] == e
  {
    hide NextKey, PreviousKey, Tainted, Wrappers, Payout, Eligible;
  }

  lemma GrantGuards(s: Session, h: nat)
    requires SessionOk(s) && ClassificationComplete(s) && IsNext(s, h) && h in Claims(s) && s.filed[h].Payment?
    ensures GrantFits(View(s), h, s.filed[h], Owed(s, h))
    ensures EdgesView(s)[s.filed[h]].conflicting == Tainted(s.filed.Values, s.filed[h])
  {
    hide SessionView, ClaimsView, EdgesView, ForksView, Claims, SessionBases, Rep, BookOk, SessionOk, Tainted, Owed, Sum,
         Among, Allocated, Discharged, ConflictingClaims, OwedTo, IsNext, CoverageAmount, Coverage, SamePayment, NextKey,
         ClassificationComplete;
    StageFacts(s, h);
    AllocationIsOwed(s, h);
    AllocateCounts(s, h);
    AllocatedFits(s, h);
    ClaimFields(s, h);
    GrantEdge(s, h);
    GrantCounters(s, h);
  }

  lemma StageFacts(s: Session, h: nat)
    requires SessionOk(s) && ClassificationComplete(s) && IsNext(s, h) && h in Claims(s)
    ensures BookOk(s) && h in s.filed && h !in s.scanned && s.scanned <= s.filed.Keys && s.frozen
  {
    hide BookOk, StageOk, Claims;
  }

  lemma GrantCounters(s: Session, h: nat)
    requires BookOk(s) && s.frozen && h in Claims(s)
    requires |Allocated(s)| + 1 <= U64_MAX && |ConflictingClaims(s)| + 1 <= U64_MAX && |Discharged(s)| + 1 <= U64_MAX
    requires |s.scanned| + 1 <= U64_MAX
    requires Sum(OwedTo(s, s.scanned)) + Owed(s, h) <= U64_MAX
    ensures SessionView(s).conflictingClaimCount < U64_MAX && SessionView(s).allocatedEdgeCount < U64_MAX
    ensures SessionView(s).allocatedTotal + Owed(s, h) <= U64_MAX && SessionView(s).settledEdgeCount < U64_MAX
    ensures SessionView(s).scannedClaimCount < U64_MAX && SessionView(s).allocatedEdgeCount == |Allocated(s)|
    ensures SessionView(s).baseAllocationTotal == Sum(Among(SessionBases(s), s.classified))
    ensures CoverageAmount(SessionView(s).frozenExposure, SessionView(s).terms.cap) == Coverage(Claims(s), s.terms.cap)
  {
    Figures(s);
    ScanFigures(s);
    hide SessionView, Claims, SessionBases, BookOk, Owed, Sum, Among, Allocated, Discharged, ConflictingClaims, OwedTo, CoverageAmount;
  }

  lemma GrantEdge(s: Session, h: nat)
    requires SessionOk(s) && ClassificationComplete(s) && h !in s.scanned && h in Claims(s) && s.filed[h].Payment?
    ensures s.filed[h] in EdgesView(s) && h in SessionBases(s)
    ensures EdgesView(s)[s.filed[h]].classified && !EdgesView(s)[s.filed[h]].allocationFinalized
    ensures EdgesView(s)[s.filed[h]].allocatedAmount == SessionBases(s)[h]
    ensures EdgesView(s)[s.filed[h]].amount == Claims(s)[h]
    ensures EdgesView(s)[s.filed[h]].conflicting == Tainted(s.filed.Values, s.filed[h])
  {
    EligibleKey(s.filed, h);
    assert SessionBases(s).Keys == Claims(s).Keys;
    hide Eligible, Rep, Tainted, Wrappers, Payout, Base, SessionOk;
  }

  /** The view after scanning is the records after scanning, completed when the list is exhausted. */
  lemma ScannedView(s: Session, h: nat)
    requires SessionOk(s) && s.status.Reconciling? && ClassificationComplete(s) && !Complete(s) && IsNext(s, h)
    requires s.filed[h].Payment?
    ensures View(Scanned(s, h)) == ScannedLedger(s, h).(
      session := if Complete(Scanned(s, h)) then FinishedSession(ScannedLedger(s, h).session) else ScannedLedger(s, h).session)
    ensures ScannedLedger(s, h).session == ScannedTotals(s, h)
  {
    var t := Scanned(s, h);
    ScannedFlags(s, h);
    ClaimFields(s, h);
    ScannedSession(s, h);
    ScannedClaims(s, t, h);
    ScannedClaim(s, t, h);
    ScannedEdges(s, t, h);
    ScannedConflict(s, h);
    hide SessionView, ClaimsView, EdgesView, ForksView, Claims, SessionOk, Tainted, Owed, ClassificationComplete, Complete,
         Scanned, IsNext, ClaimView, Granted, Finalized, PassedClaim, AllocatedSession, PassedSession, FinishedSession, NextKey;
    ViewIs(s);
    ViewIs(t);
    ClaimAt(s, h);
  }

  lemma ScannedConflict(s: Session, h: nat)
    requires SessionOk(s) && ClassificationComplete(s) && IsNext(s, h) && s.filed[h].Payment?
    ensures h in Claims(s) ==>
      s.filed[h] in EdgesView(s) && EdgesView(s)[s.filed[h]].conflicting == Tainted(s.filed.Values, s.filed[h])
  {
    if h in Claims(s) { GrantEdge(s, h); }
    hide EdgesView, Tainted;
  }

  lemma ClaimAt(s: Session, h: nat)
    requires h in s.filed
    ensures h in ClaimsView(s) && ClaimsView(s)[h] == ClaimView(s, h)
  {
  }

  /** Scans the claim at the cursor. */
  method ScanClaim(ghost s: Session, l: Ledger, h: nat, e: StateHash) returns (r: Outcome, l': Ledger)
    requires SessionOk(s) && s.status.Reconciling? && ClassificationComplete(s) && !Complete(s) && IsNext(s, h)
    requires l == View(s) && s.filed[h] == e && e.Payment?
    ensures r.Ok? && l' == ScannedLedger(s, h)
  {
    ClaimFields(s, h);
    ScanFigures(s);
    AllocateCounts(s, h);
    if h in Claims(s) { GrantGuards(s, h); }
    hide SessionView, ClaimsView, EdgesView, ForksView, Claims, BookOk, PhaseOk, Tainted, Owed, ClassificationComplete,
         Complete, GrantFits, GrantedLedger, PassedLedger;
    ViewIs(s);
    if l.edges[e].representative == l.claims[h].credentialHash {
      CredentialIs(s, h);
      r, l' := GrantClaim(l, h, e, Owed(s, h));
    } else {
      CredentialIs(s, h);
      r, l' := PassClaim(l, h);
    }
  }

  lemma CredentialIs(s: Session, h: nat)
    requires h in s.filed
    ensures ClaimsView(s)[h].credentialHash == h
  {
  }

  // ----- settle_claim -----

  /** The claim and edge accounts of an allocated, unpaid representative. */
  predicate Settleable(edge: StateEdgeRecord, claim: Claim)
  {
    && (claim.status.Valid? || claim.status.Conflicting?)
    && 0 < claim.allocatedAmount && claim.settledAmount == 0
    && edge.allocationFinalized && edge.settledAmount == 0
    && edge.representative == claim.credentialHash && edge.allocatedAmount == claim.allocatedAmount
  }

  lemma SettleableIs(s: Session, h: nat, e: StateHash)
    requires SessionOk(s) && Complete(s) && h in s.filed && e in EdgesView(s)
    ensures h in ClaimsView(s)
    ensures Settleable(EdgesView(s)[e], ClaimsView(s)[h]) && SamePayment(EdgesView(s)[e], ClaimsView(s)[h])
       <==> h in Payable(s) && h !in s.settled && s.filed[h] == e
    ensures h in Payable(s) ==> h in Claims(s) && ClaimsView(s)[h].allocatedAmount == Owed(s, h)
    ensures s.filed[h].Payment? && ClaimsView(s)[h].merchant == s.filed[h].merchant
  {
    FiledIsPayment(s, h);
    ClaimFields(s, h);
    ClaimAt(s, h);
    EdgesFiled(s);
    PaidEdgeFields(s, h);
    ClaimMoney(s, h);
    if SamePayment(EdgesView(s)[e], ClaimsView(s)[h]) { SamePaymentEdge(s, h, e); }
    CredentialIs(s, h);
    hide ClaimsView, EdgesView, ClaimView, SamePayment, Claims, Owed, SessionOk, Complete;
  }

  /** The account and status checks of a settlement. */
  method AdmitSettlement(ghost s: Session, l: Ledger, h: nat, e: StateHash, to: nat) returns (r: Outcome)
    requires SessionOk(s) && l == View(s)
    ensures r.Ok? <==> && s.status.Settling() && Complete(s) && h in Payable(s) && h !in s.settled
                       && h in s.filed && s.filed[h] == e && e.Payment? && to == e.merchant
    ensures h in Payable(s) ==> h in s.filed
  {
    PayableFiled(s, h);
    hide SessionOk, SessionView, ClaimsView, EdgesView, ForksView, View, Complete, SamePayment, Settleable, Payable, Claims;
    ViewIs(s);
    Figures(s);
    EdgesFiled(s);
    ClaimsFiled(s);
    if h !in l.claims || e !in l.edges { UnfiledClaim(s, h, e); return Err(AccountNotFound); }
    if !l.session.allocationComplete || !l.session.status.Settling() { return Err(InvalidSessionStatus); }
    SettleableIs(s, h, e);
    var claim, edge := l.claims[h], l.edges[e];
    if to != claim.merchant { return Err(InvalidSettlement); }
    if !Settleable(edge, claim) { return Err(InvalidSettlement); }
    if !SamePayment(edge, claim) { return Err(InvalidSettlement); }
    r := Ok;
  }

  lemma PayableFiled(s: Session, h: nat)
    ensures h in Payable(s) ==> h in s.filed
  {
    hide Owed;
  }

  lemma UnfiledClaim(s: Session, h: nat, e: StateHash)
    requires SessionOk(s)
    ensures h in s.filed && s.filed[h] == e ==> e in s.filed.Values && e.Payment?
  {
    hide SessionOk;
    if h in s.filed { FiledIsPayment(s, h); }
  }

  lemma ClaimMoney(s: Session, h: nat)
    requires SessionOk(s) && Complete(s) && h in s.filed
    ensures var c := ClaimView(s, h);
      && (h in Claims(s) ==>
           && c.allocatedAmount == Owed(s, h) && c.settledAmount == (if h in s.settled then Owed(s, h) else 0)
           && (c.status.Valid? || c.status.Conflicting? <==> h !in s.settled && 0 < Owed(s, h)))
      && (h !in Claims(s) ==> c.status.Rejected?)
  {
    hide NextKey, PreviousKey, Tainted, Payout, Eligible, BookOk;
  }

  lemma PaidEdgeFields(s: Session, h: nat)
    requires SessionOk(s) && Complete(s) && h in s.filed && s.filed[h].Payment?
    ensures s.filed[h] in EdgesView(s)
    ensures h in Claims(s) ==>
      && EdgesView(s)[s.filed[h]].allocationFinalized && EdgesView(s)[s.filed[h]].allocatedAmount == Owed(s, h)
      && EdgesView(s)[s.filed[h]].settledAmount == (if h in s.settled then Owed(s, h) else 0)
      && EdgesView(s)[s.filed[h]].representative == h
  {
    EligibleKey(s.filed, h);
    hide Eligible, Rep, Tainted, Wrappers, Payout, Base, SessionOk;
  }

  /** Totals after a settlement; the last one ends the session's settlement phase. */
  method CountSettled(session: OfflineSession, profile: UserProfile, sid: nat, amount: nat)
    returns (r: Outcome, session': OfflineSession, profile': UserProfile)
    requires session.settledAmount + amount <= U64_MAX && session.settledEdgeCount < U64_MAX
    requires profile.activeSession == Some(sid)
    requires session.status.Conflicted? || session.status.Insolvent?
             ==> session.authenticatedFork || session.terms.cap < session.frozenExposure
    ensures r.Ok?
    ensures var last := session.settledEdgeCount + 1 == session.allocatedEdgeCount;
            var closes := last && (session.status.Conflicted? || session.status.Insolvent?);
      && session' == SettledRecord(session, amount).(
           status := if closes then Closed else if last then SessionStatus.Settled else session.status)
      && profile' == if closes then profile.(activeSession := None) else profile
  {
    session', profile' := session.(settledAmount := session.settledAmount + amount), profile;
    session' := session'.(settledEdgeCount := session'.settledEdgeCount + 1);
    r := Ok;
    if session'.settledEdgeCount == session'.allocatedEdgeCount {
      if session'.status.Conflicted? || session'.status.Insolvent? {
        r, session', profile' := CloseSessionState(session', profile', sid);
      } else {
        session' := session'.(status := SessionStatus.Settled);
      }
    }
  }

  /** Every guard of settle_claim but the lifetime counter of the vault. */
  lemma SettleGuards(w: World, sid: nat, h: nat, e: StateHash)
    requires WorldOk(w) && sid in w.sessions && var s := w.sessions[sid];
      s.status.Settling() && Complete(s) && h in Payable(s) && h !in s.settled && s.filed[h] == e
    ensures var s := w.sessions[sid];
      && h in Claims(s) && h in s.filed && w.profile.activeSession == Some(sid)
      && Owed(s, h) <= w.vault.reserved <= w.vault.deposited <= w.balance
      && SessionView(s).settledAmount + Owed(s, h) <= U64_MAX && SessionView(s).settledEdgeCount < U64_MAX
      && (s.status.Conflicted? || s.status.Insolvent?
          ==> SessionView(s).authenticatedFork || s.terms.cap < SessionView(s).frozenExposure)
      && (SessionView(s).settledEdgeCount + 1 == SessionView(s).allocatedEdgeCount <==> AllSettled(s.(settled := s.settled + {h})))
  {
    var s := w.sessions[sid];
    OpenSession(w, sid);
    WorldFacts(w, sid);
    SettleKeepsSession(s, h);
    SettleCounts(s, h);
    SettleStage(s);
    Figures(s);
    ScanFigures(s);
    hide WorldOk, SessionOk, SessionView, Claims, Complete, Owed, OwedTo, Sum, Outstanding, Allocated, Discharged, AllSettled,
         Forked, SettledOne;
  }

  lemma SettleStage(s: Session)
    requires SessionOk(s) && Complete(s)
    ensures s.frozen && s.settled <= Payable(s)
    ensures s.status.Conflicted? || s.status.Insolvent? ==> Forked(s.filed.Values) || s.terms.cap < Exposure(Claims(s))
  {
    hide BookOk, Forked, Claims, Payable;
  }

  lemma SettleCounts(s: Session, h: nat)
    requires SessionOk(s) && s.status.Settling() && Complete(s) && h in Payable(s) && h !in s.settled
    ensures h in Claims(s) && h in s.filed
    ensures |Discharged(s)| < U64_MAX
    ensures Sum(OwedTo(s, s.settled)) + Owed(s, h) <= U64_MAX
    ensures |Discharged(s)| + 1 == |Allocated(s)| <==> AllSettled(s.(settled := s.settled + {h}))
  {
    var t := s.(settled := s.settled + {h});
    SettledFlags(s, h);
    SettleKeepsPhase(s, h);
    SettleStage(s);
    SettledTotals(s, t, h);
    SettleCountsFit(s, t, h);
  }

  lemma SettleCountsFit(s: Session, t: Session, h: nat)
    requires BookOk(s) && t == s.(settled := s.settled + {h}) && Complete(s) && t.settled <= Payable(t)
    requires |Discharged(t)| == |Discharged(s)| + 1 && Allocated(t) == Allocated(s)
    requires h in Claims(s) && Sum(OwedTo(t, t.settled)) == Sum(OwedTo(s, s.settled)) + Owed(s, h)
    ensures |Discharged(s)| < U64_MAX
    ensures Sum(OwedTo(s, s.settled)) + Owed(s, h) <= U64_MAX
    ensures |Discharged(s)| + 1 == |Allocated(s)| <==> AllSettled(t)
  {
    SameBookOk(s, t);
    DischargedCount(t);
    SettledPart(t);
    AmountFits(s, h);
    SizesFit(s);
    EdgeCountFits(s);
    SubsetSize(Discharged(t), Allocated(t));
    SubsetSize(Allocated(t), Claims(t).Keys);
    hide BookOk, Claims, Payable, OwedTo, Sum, Owed, Discharged, Allocated, AllSettled;
    assert |Claims(t).Keys| == |Claims(t)|;
  }

  /** Moves the tokens of one settlement and writes the claim, edge, session, profile and vault accounts;
      only the lifetime total settled from collateral can refuse it. */
  method PayClaim(ghost w: World, sid: nat, l: Ledger, h: nat, e: StateHash,
                  profile: UserProfile, vault: CollateralVault, balance: nat)
    returns (r: Outcome, l': Ledger, profile': UserProfile, vault': CollateralVault, balance': nat)
    requires WorldOk(w) && sid in w.sessions && var s := w.sessions[sid];
      s.status.Settling() && Complete(s) && h in Payable(s) && h !in s.settled && h in s.filed && s.filed[h] == e
    requires l == View(w.sessions[sid]) && profile == w.profile && vault == w.vault && balance == w.balance
    ensures h in Claims(w.sessions[sid])
    ensures r.Ok? <==> vault.settledFromCollateral + Owed(w.sessions[sid], h) <= U64_MAX
    ensures r.Ok? ==> Owed(w.sessions[sid], h) <= vault.reserved <= vault.deposited <= balance
    ensures r.Ok? ==> l' == View(SettledOne(w.sessions[sid], h))
    ensures r.Ok? ==>
      AfterSettle(w, sid, h) == w.(sessions := w.sessions[sid := SettledOne(w.sessions[sid], h)],
                                   profile := profile', vault := vault', balance := balance')
  {
    hide WorldOk, SessionView, ClaimsView, EdgesView, ForksView, View, Complete, AllSettled, Payable, Claims, SettledOne,
         Owed, SettledRecord;
    ghost var s := w.sessions[sid];
    l', profile', vault', balance' := l, profile, vault, balance;
    ViewIs(s);
    Figures(s);
    SettleGuards(w, sid, h, e);
    SettledView(w, sid, h);
    SettledAmount(w, sid, h);
    SettledShape(s, h);
    var claim, edge := l.claims[h], l.edges[e];
    var amount := claim.allocatedAmount;
    if balance < amount { return Err(InsufficientAvailableCollateral), l', profile', vault', balance'; }
    balance' := balance - amount;
    var session;
    r, session, profile' := CountSettled(l.session, profile, sid, amount);
    if vault.deposited < amount || vault.reserved < amount {
      return Err(ArithmeticOverflow), l', profile', vault', balance';
    }
    if U64_MAX < vault.settledFromCollateral + amount { return Err(ArithmeticOverflow), l', profile', vault', balance'; }
    vault' := CollateralVault(vault.deposited - amount, vault.reserved - amount, vault.settledFromCollateral + amount);
    l' := Ledger(session, l.claims[h := PaidClaim(claim, amount)], l.edges[e := PaidEdge(edge, amount)], l.forks);
  }

  lemma SettledAmount(w: World, sid: nat, h: nat)
    requires WorldOk(w) && sid in w.sessions && var s := w.sessions[sid];
      Complete(s) && h in Payable(s) && h in s.filed
    ensures var s := w.sessions[sid]; h in Claims(s) && h in ClaimsView(s) && ClaimsView(s)[h].allocatedAmount == Owed(s, h)
  {
    var s := w.sessions[sid];
    OpenSession(w, sid);
    FiledIsPayment(s, h);
    hide WorldOk, SessionOk, Complete, Payable, Claims, ClaimsView, EdgesView, Owed;
    SettleableIs(s, h, s.filed[h]);
  }

  lemma SettledShape(s: Session, h: nat)
    ensures SettledOne(s, h).status ==
      if !AllSettled(s.(settled := s.settled + {h})) then s.status
      else if s.status.Reconciling? then SessionStatus.Settled else Closed
  {
    hide AllSettled;
  }

  class OfflineGuarantee {
    const config: Config
    const admin: nat
    const emergency: nat
    const owner: nat
    var paused: bool
    var clock: int
    var profile: UserProfile
    var vault: CollateralVault
    var vaultToken: nat
    var ledgers: map<nat, Ledger>
    ghost var world: World

    ghost predicate Valid()
      reads this
    {
      && WorldOk(world)
      && world == World(config, owner, paused, clock, profile, vault, vaultToken, world.sessions)
      && ledgers.Keys == world.sessions.Keys
      && forall sid :: sid in ledgers ==> ledgers[sid] == View(world.sessions[sid])
    }

    /** Writes back the accounts an instruction changed. */
    method Store(sid: nat, l: Ledger, profile': UserProfile, vault': CollateralVault, balance': nat,
                 ghost t: Session, ghost x: World)
      requires Valid() && l == View(t) && WorldOk(x)
      requires x == world.(profile := profile', vault := vault', balance := balance', sessions := world.sessions[sid := t])
      modifies this
      ensures Valid() && world == x
    {
      hide WorldOk, View;
      ledgers := ledgers[sid := l];
      profile, vault, vaultToken := profile', vault', balance';
      world := x;
    }

    predicate CanChangePause(authority: nat, flag: bool) { authority == admin || (flag && authority == emergency) }

    /** A freshly created profile and vault. */
    constructor (config: Config, admin: nat, emergency: nat, owner: nat, identityExpiresAt: int, now: int)
      ensures Valid() && this.admin == admin && this.emergency == emergency
      ensures world == World(config, owner, false, now, UserProfile(true, 0, 0, 0, identityExpiresAt, None),
                             CollateralVault(0, 0, 0), 0, map[])
    {
      this.config, this.admin, this.emergency := config, admin, emergency;
      this.owner, paused, clock := owner, false, now;
      profile := UserProfile(true, 0, 0, 0, identityExpiresAt, None);
      vault, vaultToken, ledgers := CollateralVault(0, 0, 0), 0, map[];
      world := World(config, owner, false, now, UserProfile(true, 0, 0, 0, identityExpiresAt, None),
                     CollateralVault(0, 0, 0), 0, map[]);
    }

    /** The cluster clock never runs backwards. */
    method Tick(now: int)
      requires Valid() && clock <= now
      modifies this
      ensures Valid() && world == old(world).(clock := now)
    {
      CustodyKeeps(world, world.(clock := now));
      clock := now;
      world := world.(clock := now);
    }

    /** The admin sets the flag either way, the emergency authority only pauses. */
    method SetPaused(authority: nat, flag: bool) returns (r: Outcome)
      requires Valid()
      modifies this
      ensures Valid() && (r.Ok? <==> authority == admin || (flag && authority == emergency))
      ensures world == if r.Ok? then old(world).(paused := flag) else old(world)
    {
      if !CanChangePause(authority, flag) { return Err(Unauthorized); }
      CustodyKeeps(world, world.(paused := flag));
      paused := flag;
      world := world.(paused := flag);
      r := Ok;
    }

    /** Anyone may send tokens to the vault's token account without the program taking part. */
    method ReceiveTokens(amount: nat)
      requires Valid() && vaultToken + amount <= U64_MAX
      modifies this
      ensures Valid() && world == old(world).(balance := old(world).balance + amount)
    {
      hide WorldOk, SessionView, ClaimsView, EdgesView, ForksView;
      WorldFacts(world, 0);
      CustodyKeeps(world, world.(balance := vaultToken + amount));
      vaultToken := vaultToken + amount;
      world := world.(balance := vaultToken);
    }

    method DepositCollateral(amount: nat, ownerTokens: nat) returns (r: Outcome)
      requires Valid()
      modifies this
      ensures Valid() && (r.Ok? <==> CanDeposit(old(world), amount, ownerTokens))
      ensures world == if r.Ok? then AfterDeposit(old(world), amount) else old(world)
      ensures old(paused) ==> r == Err(ProtocolPaused)
      ensures !old(paused) && amount == 0 ==> r == Err(InvalidAmount)
    {
      if paused { return Err(ProtocolPaused); }
      if amount == 0 { return Err(InvalidAmount); }
      if ownerTokens < amount || U64_MAX < vaultToken + amount { return Err(InsufficientAvailableCollateral); }
      var after := vaultToken + amount;
      if U64_MAX < vault.deposited + amount { return Err(ArithmeticOverflow); }
      var deposited := vault.deposited + amount;
      if after < deposited { return Err(VaultBalanceMismatch); }
      CustodyKeeps(world, AfterDeposit(world, amount));
      world := AfterDeposit(world, amount);
      vaultToken := after;
      vault := vault.(deposited := deposited);
      r := Ok;
    }

    method WithdrawCollateral(amount: nat) returns (r: Outcome)
      requires Valid()
      modifies this
      ensures Valid() && (r.Ok? <==> CanWithdraw(old(world), amount))
      ensures world == if r.Ok? then AfterWithdraw(old(world), amount) else old(world)
      ensures old(paused) ==> r == Err(ProtocolPaused)
      ensures !old(paused) && amount == 0 ==> r == Err(InvalidAmount)
      ensures !old(paused) && 0 < amount && r.Err? ==> r == Err(InsufficientAvailableCollateral)
    {
      if paused { return Err(ProtocolPaused); }
      if amount == 0 { return Err(InvalidAmount); }
      if vault.deposited < vault.reserved || vaultToken < vault.reserved { return Err(VaultBalanceMismatch); }
      var bookWithdrawable, realWithdrawable := vault.deposited - vault.reserved, vaultToken - vault.reserved;
      if bookWithdrawable < amount || realWithdrawable < amount { return Err(InsufficientAvailableCollateral); }
      CustodyKeeps(world, AfterWithdraw(world, amount));
      world := AfterWithdraw(world, amount);
      vaultToken := vaultToken - amount;
      vault := vault.(deposited := vault.deposited - amount);
      r := Ok;
    }

    method CreateOfflineSession(sid: nat, device: nat, locked: nat, limit: nat, expiresAt: int) returns (r: Outcome)
      requires Valid() && locked <= U64_MAX && limit <= U64_MAX
      modifies this
      ensures Valid() && (r.Ok? <==> CanCreate(old(world), sid, device, locked, limit, expiresAt))
      ensures world == if r.Ok? then AfterCreate(old(world), sid, device, locked, limit, expiresAt) else old(world)
      ensures old(paused) && sid !in old(ledgers) ==> r == Err(ProtocolPaused)
    {
      hide WorldOk, SessionView, ClaimsView, EdgesView, ForksView;
      WorldFacts(world, sid);
      if sid in ledgers { return Err(InvalidSessionMaterial); }
      if paused { return Err(ProtocolPaused); }
      if !profile.offlineAccessEnabled { return Err(OfflineAccessDisabled); }
      if profile.activeSession.Some? { return Err(ActiveSessionExists); }
      if profile.identityExpiresAt <= clock { return Err(IdentityExpired); }
      if device == 0 || sid == 0 { return Err(InvalidSessionMaterial); }
      if device == owner { return Err(DeviceKeyEqualsOwner); }
      if locked == 0 || limit == 0 { return Err(InvalidAmount); }
      if locked * BPS_DENOMINATOR < limit * MINIMUM_COLLATERAL_RATIO_BPS { return Err(InsufficientCollateralRatio); }
      if expiresAt - clock <= 0 || MAX_SESSION_DURATION_SECONDS < expiresAt - clock { return Err(InvalidSessionWindow); }
      if profile.identityExpiresAt < expiresAt { return Err(IdentityExpired); }
      if I64_MAX < expiresAt + CLAIM_GRACE_PERIOD_SECONDS { return Err(ArithmeticOverflow); }
      if U64_MAX < vault.reserved + locked { return Err(ArithmeticOverflow); }
      var reserved := vault.reserved + locked;
      if vault.deposited < reserved || vaultToken < reserved { return Err(InsufficientAvailableCollateral); }

      var terms := Terms(sid, owner, device, limit, locked, MAX_BRANCH_DEPTH, clock, expiresAt,
                         expiresAt + CLAIM_GRACE_PERIOD_SECONDS);
      var session := OfflineSession(terms, Active, false, Uncalculated, Root(terms), false, 0, 0, 0, 0, 0, 0, 0, 0, 0,
                                    0, 0, 0, 0, 0, NoKey, NoKey, NoKey, false, false);
      CreateKeeps(world, sid, device, locked, limit, expiresAt);
      EmptyView(NewSession(world, sid, device, locked, limit, expiresAt));
      Store(sid, Ledger(session, map[], map[], map[]), profile.(activeSession := Some(sid)),
            vault.(reserved := reserved), vaultToken, NewSession(world, sid, device, locked, limit, expiresAt),
            AfterCreate(world, sid, device, locked, limit, expiresAt));
      r := Ok;
    }

    method RegisterDeviceAuthorization(sid: nat, material: nat) returns (r: Outcome)
      requires Valid()
      modifies this
      ensures Valid() && (r.Ok? <==> CanAuthorize(old(world), sid, material))
      ensures world == if r.Ok? then AfterAuthorize(old(world), sid) else old(world)
      ensures old(paused) && sid in old(ledgers) ==> r == Err(ProtocolPaused)
    {
      hide WorldOk, SessionView, ClaimsView, EdgesView, ForksView;
      if sid !in ledgers { return Err(AccountNotFound); }
      if paused { return Err(ProtocolPaused); }
      if material == 0 { return Err(InvalidSessionMaterial); }
      var l := ledgers[sid];
      SessionTerms(world.sessions[sid]);
      if l.session.authorized { return Err(InvalidSessionMaterial); }
      AuthorizeKeeps(world, sid, material);
      AuthorizedView(world.sessions[sid]);
      Store(sid, l.(session := l.session.(authorized := true)), profile, vault, vaultToken,
            world.sessions[sid].(authorized := true), AfterAuthorize(world, sid));
      r := Ok;
    }

    method SubmitClaim(sid: nat, c: Credential, a: SubmitAccounts) returns (r: Outcome)
      requires Valid()
      modifies this
      ensures Valid() && (r.Ok? <==> CanSubmit(old(world), sid, c, a))
      ensures world == if r.Ok? then AfterSubmit(old(world), sid, c) else old(world)
      ensures old(paused) && sid in old(ledgers) ==> r == Err(ProtocolPaused)
    {
      hide WorldOk, SessionView, ClaimsView, EdgesView, ForksView, BookOk, PayloadOk, ParentOk, Spliced, Written,
           IsNewEdge, Siblings, MakesFork, PreviousKey, NextKey, HeadKey, TailKey, Rep, Wrappers;
      if sid !in ledgers { return Err(AccountNotFound); }
      if paused { return Err(ProtocolPaused); }
      var l := ledgers[sid];
      ghost var s := world.sessions[sid];
      SessionTerms(s);
      if !l.session.status.Collecting() { return Err(InvalidSessionStatus); }
      if !l.session.authorized { return Err(InvalidSessionMaterial); }
      if !c.signed { return Err(InvalidEd25519Verification); }
      r := ValidateClaimPayload(config, l.session.terms, a.merchant, clock, c);
      if r.Err? { return; }
      PayloadFacts(config, l.session.terms, a.merchant, clock, c);
      CollectingIsFresh(s, world, sid);
      if a.claim != ClaimKey(c.hash) { return Err(InvalidClaimAccount); }
      if a.edge != EdgeKey(c.previousState, c.sequence, c.newState) { return Err(InvalidClaimAccount); }
      if a.fork != ForkKey(c.previousState, c.sequence) { return Err(InvalidForkRecord); }
      ClaimsFiled(s);
      if c.hash in l.claims { return Err(DuplicateCredential); }
      assert c.hash !in s.filed;
      DepthOf(s);

      var marked;
      r, l, marked := FileClaim(s, l, profile, clock, c, a);
      if r.Err? { return; }
      SubmittedView(s, Filed(world, s, c), c, clock, l);
      SubmitKeeps(world, sid, c, a);
      Store(sid, l, marked, vault, vaultToken, Filed(world, s, c), AfterSubmit(world, sid, c));
    }

    method BeginFinalization(sid: nat) returns (r: Outcome)
      requires Valid()
      modifies this
      ensures Valid() && (r.Ok? <==> CanBegin(old(world), sid))
      ensures world == if r.Ok? then AfterBegin(old(world), sid) else old(world)
      ensures sid in old(ledgers) && old(clock) <= old(ledgers)[sid].session.terms.deadline ==> r == Err(ClaimSubmissionClosed)
    {
      hide WorldOk, SessionView, ClaimsView, EdgesView, ForksView, View, AfterBegin, Begun, HeadKey;
      if sid !in ledgers { return Err(AccountNotFound); }
      ghost var s := world.sessions[sid];
      ViewIs(s);
      Figures(s);
      var l := ledgers[sid];
      if clock <= l.session.terms.deadline { return Err(ClaimSubmissionClosed); }
      if !l.session.status.Collecting() { return Err(InvalidSessionStatus); }
      BegunRecords(world, sid);
      BeginShape(world, sid);
      BeginKeeps(world, sid);
      var session, updated;
      r, session, updated := Freeze(world, sid, l.session, vault);
      Store(sid, l.(session := session), profile, updated, vaultToken, Begun(s), AfterBegin(world, sid));
    }

    /** Classifies the edge account of state e, given its fork record and its parent's account. */
    method ClassifyEdge(sid: nat, e: StateHash, fork: Key, parent: Key) returns (r: Outcome)
      requires Valid()
      modifies this
      ensures Valid() && (r.Ok? <==> CanClassify(old(world), sid, e, fork, parent))
      ensures world == if r.Ok? then AfterClassify(old(world), sid, e) else old(world)
    {
      hide WorldOk, SessionView, ClaimsView, EdgesView, ForksView, View, Rep, ClassificationComplete, ParentReady;
      if sid !in ledgers { return Err(AccountNotFound); }
      ghost var s := world.sessions[sid];
      ViewIs(s);
      Figures(s);
      EdgesFiled(s);
      var l := ledgers[sid];
      if e !in l.edges { return Err(AccountNotFound); }
      EdgeMatching(s, e);
      if !l.session.status.Reconciling? || l.session.classificationComplete { return Err(InvalidSessionStatus); }
      if l.edges[e].classified { return Err(AlreadyProcessed); }
      OpenSession(world, sid);
      var updated;
      r, updated := Classify(s, l, e, fork, parent);
      if r.Err? { return; }
      ClassifyKeeps(world, sid, e, fork, parent);
      Store(sid, updated, profile, vault, vaultToken, s.(classified := s.classified + {Rep(s.filed, e)}),
            AfterClassify(world, sid, e));
    }

    /** Allocates the claim with hash h, whose edge account is that of state e. */
    method AllocateNextClaim(sid: nat, h: nat, e: StateHash) returns (r: Outcome)
      requires Valid()
      modifies this
      ensures Valid() && (r.Ok? <==> CanAllocate(old(world), sid, h, e))
      ensures world == if r.Ok? then AfterAllocate(old(world), sid, h) else old(world)
    {
      hide WorldOk, View, ClassificationComplete, Complete, Scanned, IsNext, ScannedLedger, SessionOk, CanAllocate;
      if sid !in ledgers { NoSession(world, sid, h, e); return Err(AccountNotFound); }
      ghost var s := world.sessions[sid];
      OpenSession(world, sid);
      var l := ledgers[sid];
      r := AdmitAllocation(world, sid, l, h, e);
      if r.Err? { return; }
      r, l := ScanClaim(s, l, h, e);
      ScannedView(s, h);
      AllocateKeeps(world, sid, h, e);
      var session, updated := l.session, vault;
      FinishGuards(world, sid, h, e);
      if session.scannedClaimCount == session.submittedClaimCount {
        r, session, updated := CompleteAllocation(session, vault);
        if r.Err? { return; }
      }
      Store(sid, l.(session := session), profile, updated, vaultToken, Scanned(s, h), AfterAllocate(world, sid, h));
    }

    /** Pays the claim with hash h, whose edge account is that of state e, into a token account of the
        settlement mint that belongs to the given owner. */
    method SettleClaim(sid: nat, h: nat, e: StateHash, to: nat) returns (r: Outcome)
      requires Valid()
      modifies this
      ensures Valid() && (r.Ok? <==> CanSettle(old(world), sid, h, e, to))
      ensures r.Ok? ==> && h in Claims(old(world).sessions[sid])
                        && Owed(old(world).sessions[sid], h)
                           <= old(world).vault.reserved <= old(world).vault.deposited <= old(world).balance
      ensures world == if r.Ok? then AfterSettle(old(world), sid, h) else old(world)
    {
      hide WorldOk, SessionOk, View, Complete, AllSettled, Payable, Claims, SettledOne, Owed, AfterSettle;
      if sid !in ledgers { return Err(AccountNotFound); }
      ghost var s := world.sessions[sid];
      OpenSession(world, sid);
      var l := ledgers[sid];
      r := AdmitSettlement(s, l, h, e, to);
      if r.Err? { return; }
      var updated, paid, balance;
      r, l, updated, paid, balance := PayClaim(world, sid, l, h, e, profile, vault, vaultToken);
      if r.Err? { return; }
      SettleKeeps(world, sid, h, e, to);
      Store(sid, l, updated, paid, balance, SettledOne(s, h), AfterSettle(world, sid, h));
    }

    method CloseSession(sid: nat) returns (r: Outcome)
      requires Valid()
      modifies this
      ensures Valid() && (r.Ok? <==> CanClose(old(world), sid))
      ensures world == if r.Ok? then AfterClose(old(world), sid) else old(world)
    {
      hide WorldOk, SessionView, ClaimsView, EdgesView, ForksView, View, Forked, AllSettled, Complete, Claims, StatusOk;
      if sid !in ledgers { return Err(AccountNotFound); }
      ghost var s := world.sessions[sid];
      ViewIs(s);
      Figures(s);
      ScanFigures(s);
      var l := ledgers[sid];
      CloseGuards(world, sid);
      if !(l.session.allocationComplete && l.session.settledAmount == l.session.allocatedTotal
           && (l.session.status.Settling() || l.session.status.Settled?)) { return Err(InvalidSessionStatus); }
      var session, updated;
      r, session, updated := CloseSessionState(l.session, profile, sid);
      if r.Err? { return; }
      CloseKeeps(world, sid);
      ClosedSession(s);
      ClosedView(s);
      Store(sid, l.(session := session), updated, vault, vaultToken, s.(status := Closed), AfterClose(world, sid));
    }
  }

  lemma UnfiledEdge(w: World, sid: nat, h: nat, e: StateHash)
    requires WorldOk(w) && sid in w.sessions
    ensures CanAllocate(w, sid, h, e) ==> h in w.sessions[sid].filed && e in w.sessions[sid].filed.Values && e.Payment?
  {
    OpenSession(w, sid);
    hide WorldOk, PhaseOk, Claims, ArrivalsOk, ClassificationComplete, Complete;
    if CanAllocate(w, sid, h, e) {
      assert States.Linked(Root(w.sessions[sid].terms), w.sessions[sid].terms.limit, w.sessions[sid].terms.maxDepth,
                           w.sessions[sid].filed.Values, e);
    }
  }

  /** The cursor account is the next unscanned claim. */
  lemma AtCursor(w: World, sid: nat, h: nat, e: StateHash)
    requires WorldOk(w) && sid in w.sessions && h in w.sessions[sid].filed
    requires e in w.sessions[sid].filed.Values && e.Payment?
    requires w.sessions[sid].status.Reconciling?
    requires ClassificationComplete(w.sessions[sid]) && !Complete(w.sessions[sid])
    ensures Cursor(w.sessions[sid]) == ClaimKey(h) <==> IsNext(w.sessions[sid], h)
    ensures CanAllocate(w, sid, h, e) <==> IsNext(w.sessions[sid], h) && w.sessions[sid].filed[h] == e
    ensures IsNext(w.sessions[sid], h) ==> h !in w.sessions[sid].scanned
    ensures w.sessions[sid].filed[h].Payment? && ClaimsView(w.sessions[sid])[h].allocationProcessed == (h in w.sessions[sid].scanned)
    ensures w.sessions[sid].filed[h] == e ==> SamePayment(EdgesView(w.sessions[sid])[e], ClaimsView(w.sessions[sid])[h])
  {
    var s := w.sessions[sid];
    OpenSession(w, sid);
    FiledIsPayment(s, h);
    ClaimFields(s, h);
    AtCursorSession(s, h);
    hide WorldOk, SessionOk, Claims, ClaimsView, EdgesView, SamePayment, ClassificationComplete, Complete, Cursor;
  }

  lemma AtCursorSession(s: Session, h: nat)
    requires SessionOk(s) && h in s.filed && s.status.Reconciling? && ClassificationComplete(s) && !Complete(s)
    ensures Cursor(s) == ClaimKey(h) <==> IsNext(s, h)
    ensures IsNext(s, h) <==> h !in s.scanned && Below(s.filed.Keys, h) <= s.scanned
  {
    CursorIs(s, h);
    hide BookOk, Payable, Claims, Forked, HeadKey, ParentsClassified;
  }

  lemma NoSession(w: World, sid: nat, h: nat, e: StateHash)
    ensures CanAllocate(w, sid, h, e) ==> sid in w.sessions
  {
    hide ClassificationComplete, Complete;
  }

  /** The account and order checks of an allocation step. */
  method AdmitAllocation(ghost w: World, ghost sid: nat, l: Ledger, h: nat, e: StateHash) returns (r: Outcome)
    requires WorldOk(w) && sid in w.sessions && l == View(w.sessions[sid])
    ensures r.Ok? <==> CanAllocate(w, sid, h, e)
    ensures r.Ok? ==> var s := w.sessions[sid];
      && s.status.Reconciling? && ClassificationComplete(s) && !Complete(s) && IsNext(s, h) && h in s.filed && s.filed[h] == e
      && e.Payment?
  {
    hide WorldOk, SessionView, ClaimsView, EdgesView, ForksView, View, ClassificationComplete, Complete, IsNext, SamePayment,
         HeadKey;
    ghost var s := w.sessions[sid];
    ViewIs(s);
    Figures(s);
    ScanFigures(s);
    EdgesFiled(s);
    ClaimsFiled(s);
    OpenSession(w, sid);
    if h !in l.claims || e !in l.edges { UnfiledEdge(w, sid, h, e); return Err(AccountNotFound); }
    if !l.session.status.Reconciling? || !l.session.classificationComplete || l.session.allocationComplete {
      return Err(InvalidSessionStatus);
    }
    AtCursor(w, sid, h, e);
    if ClaimKey(h) != l.session.nextAllocationClaim { return Err(InvalidClaimOrder); }
    if l.claims[h].allocationProcessed { return Err(AlreadyProcessed); }
    if !SamePayment(l.edges[e], l.claims[h]) { return Err(InvalidFinalization); }
    SamePaymentEdge(s, h, e);
    r := Ok;
  }

  lemma FiledIsPayment(s: Session, h: nat)
    requires SessionOk(s) && h in s.filed
    ensures s.filed[h] in s.filed.Values && s.filed[h].Payment?
  {
    assert s.filed[h] in s.filed.Values;
    assert States.Linked(Root(s.terms), s.terms.limit, s.terms.maxDepth, s.filed.Values, s.filed[h]);
  }

  /** When the scan ends, complete_allocation accepts and yields the finished account and reserve. */
  lemma FinishGuards(w: World, sid: nat, h: nat, e: StateHash)
    requires WorldOk(w) && CanAllocate(w, sid, h, e) && IsNext(w.sessions[sid], h) && w.sessions[sid].filed[h].Payment?
    ensures var s, x := w.sessions[sid], ScannedTotals(w.sessions[sid], h);
      && (x.scannedClaimCount == x.submittedClaimCount <==> Complete(Scanned(s, h)))
      && (!Complete(Scanned(s, h)) ==> AfterAllocate(w, sid, h).vault == w.vault)
      && (Complete(Scanned(s, h)) ==>
           && x.classificationComplete && x.allocatedEdgeCount == x.frozenEdgeCount && x.nextAllocationClaim == NoKey
           && x.allocatedTotal == CoverageAmount(x.frozenExposure, x.terms.cap)
           && x.terms.cap - CoverageAmount(x.frozenExposure, x.terms.cap) <= w.vault.reserved
           && AfterAllocate(w, sid, h).vault
              == w.vault.(reserved := w.vault.reserved - (x.terms.cap - CoverageAmount(x.frozenExposure, x.terms.cap))))
    ensures AfterAllocate(w, sid, h)
         == w.(sessions := w.sessions[sid := Scanned(w.sessions[sid], h)], vault := AfterAllocate(w, sid, h).vault)
  {
    var s := w.sessions[sid];
    OpenSession(w, sid);
    FinishVault(w, sid, h);
    hide WorldOk, SessionOk, Claims, Complete, ClassificationComplete, Scanned, IsNext, ScannedTotals, Outstanding,
         AfterAllocate, CoverageAmount;
    FinishTotals(s, h);
  }

  lemma FinishVault(w: World, sid: nat, h: nat)
    requires sid in w.sessions && SessionOk(w.sessions[sid]) && w.vault.reserved == Outstanding(w.sessions[sid])
    requires var s := w.sessions[sid];
      s.status.Reconciling? && ClassificationComplete(s) && !Complete(s) && IsNext(s, h)
    ensures var s, t := w.sessions[sid], Scanned(w.sessions[sid], h);
      && (!Complete(t) ==> AfterAllocate(w, sid, h).vault == w.vault)
      && (Complete(t) ==>
           && s.terms.cap - Coverage(Claims(s), s.terms.cap) <= w.vault.reserved
           && AfterAllocate(w, sid, h).vault
              == w.vault.(reserved := w.vault.reserved - (s.terms.cap - Coverage(Claims(s), s.terms.cap))))
    ensures AfterAllocate(w, sid, h)
         == w.(sessions := w.sessions[sid := Scanned(w.sessions[sid], h)], vault := AfterAllocate(w, sid, h).vault)
  {
    var s := w.sessions[sid];
    OutstandingBefore(s);
    ScannedFlags(s, h);
    hide SessionOk, Claims, Complete, ClassificationComplete, Scanned, IsNext, Coverage, Outstanding;
  }

  lemma FinishTotals(s: Session, h: nat)
    requires SessionOk(s) && s.status.Reconciling? && ClassificationComplete(s) && !Complete(s) && IsNext(s, h)
    ensures var x := ScannedTotals(s, h);
      && (x.scannedClaimCount == x.submittedClaimCount <==> Complete(Scanned(s, h)))
      && x.frozenExposure == Exposure(Claims(s)) && x.terms == s.terms
      && (Complete(Scanned(s, h)) ==>
           && x.classificationComplete && x.allocatedEdgeCount == x.frozenEdgeCount && x.nextAllocationClaim == NoKey
           && x.allocatedTotal == CoverageAmount(x.frozenExposure, x.terms.cap) == Coverage(Claims(s), s.terms.cap))
  {
    var t := Scanned(s, h);
    assert h in s.filed && h !in s.scanned;
    hide *;
    ScannedFlags(s, h);
    CursorMoves(s, h);
    assert SameBook(s, t);
    ScannedCounts(s, t, h);
    ScanCount(t);
    TotalsFields(s, h);
    if Complete(t) { ScanComplete(s, t); }
    CoverageIs(s);
    BookIs(s, t);
  }

  lemma CoverageIs(s: Session)
    ensures Coverage(Claims(s), s.terms.cap) == CoverageAmount(Exposure(Claims(s)), s.terms.cap)
  {
  }

  lemma BookIs(s: Session, t: Session)
    requires SameBook(s, t)
    ensures t.filed == s.filed && t.terms == s.terms && Claims(t) == Claims(s)
  {
  }

  lemma ScanComplete(s: Session, t: Session)
    requires SessionOk(s) && SameBook(s, t) && t.frozen && t.scanned == t.filed.Keys
    ensures |Allocated(t)| == |Claims(s)|
    ensures Sum(OwedTo(t, t.scanned)) == Coverage(Claims(s), s.terms.cap)
  {
    SameBookOk(s, t);
    hide Claims, BookOk, PhaseOk, Allocated, OwedTo, Sum;
    CompletionGuards(t);
    assert |Claims(t).Keys| == |Claims(t)|;
  }

  lemma TotalsFields(s: Session, h: nat)
    requires s.frozen && ClassificationComplete(s)
    ensures var x := ScannedTotals(s, h);
      && x.terms == s.terms && x.frozenExposure == Exposure(Claims(s)) && x.frozenEdgeCount == |Claims(s)|
      && x.submittedClaimCount == |s.filed| && x.scannedClaimCount == |s.scanned| + 1 && x.classificationComplete
      && x.nextAllocationClaim == NextKey(s.filed.Keys, h)
      && x.allocatedEdgeCount == |Allocated(s)| + (if h in Claims(s) then 1 else 0)
      && x.allocatedTotal == Sum(OwedTo(s, s.scanned)) + (if h in Claims(s) then Owed(s, h) else 0)
  {
    var v, n := SessionView(s), NextKey(s.filed.Keys, h);
    if h in Claims(s) {
      var conflicting := h in s.filed && Tainted(s.filed.Values, s.filed[h]);
      assert ScannedTotals(s, h) == AllocatedSession(v, Owed(s, h), conflicting, n);
      GrantFields(v, Owed(s, h), conflicting, n);
    } else {
      assert ScannedTotals(s, h) == PassedSession(v, n);
    }
    hide *;
    Figures(s);
    ScanFigures(s);
    PassFields(v, n);
  }

  lemma GrantFields(v: OfflineSession, owed: nat, conflicting: bool, n: Key)
    ensures var x := AllocatedSession(v, owed, conflicting, n);
      && x.terms == v.terms && x.frozenExposure == v.frozenExposure && x.frozenEdgeCount == v.frozenEdgeCount
      && x.submittedClaimCount == v.submittedClaimCount && x.scannedClaimCount == v.scannedClaimCount + 1
      && x.classificationComplete == v.classificationComplete && x.nextAllocationClaim == n
      && x.allocatedEdgeCount == v.allocatedEdgeCount + 1 && x.allocatedTotal == v.allocatedTotal + owed
  {
  }

  lemma PassFields(v: OfflineSession, n: Key)
    ensures var x := PassedSession(v, n);
      && x.terms == v.terms && x.frozenExposure == v.frozenExposure && x.frozenEdgeCount == v.frozenEdgeCount
      && x.submittedClaimCount == v.submittedClaimCount && x.scannedClaimCount == v.scannedClaimCount + 1
      && x.classificationComplete == v.classificationComplete && x.nextAllocationClaim == n
      && x.allocatedEdgeCount == v.allocatedEdgeCount && x.allocatedTotal == v.allocatedTotal
  {
  }

  lemma SettledView(w: World, sid: nat, h: nat)
    requires WorldOk(w) && sid in w.sessions && var s := w.sessions[sid];
      s.status.Settling() && Complete(s) && h in Payable(s) && h !in s.settled
    ensures var s, t := w.sessions[sid], SettledOne(w.sessions[sid], h);
      && h in Claims(s) && h in ClaimsView(s) && h in s.filed && s.filed[h] in EdgesView(s)
      && View(t) == Ledger(SettledRecord(SessionView(s), Owed(s, h)).(status := t.status),
                           ClaimsView(s)[h := PaidClaim(ClaimsView(s)[h], Owed(s, h))],
                           EdgesView(s)[s.filed[h] := PaidEdge(EdgesView(s)[s.filed[h]], Owed(s, h))],
                           ForksView(s))
  {
    var s, t := w.sessions[sid], SettledOne(w.sessions[sid], h);
    OpenSession(w, sid);
    SettledFlags(s, h);
    FiledIsPayment(s, h);
    SettledSession(s, h);
    SettledClaims(s, t, h);
    SettledEdges(s, t, h);
    ClaimAt(s, h);
    hide SessionView, ClaimsView, EdgesView, ForksView, WorldOk, SessionOk, SettledOne, Owed, Claims, Payable, Complete,
         PaidEdge, PaidClaim, SettledRecord, ClaimView;
    ViewIs(t);
  }

  lemma BeginShape(w: World, sid: nat)
    requires sid in w.sessions
    ensures AfterBegin(w, sid) == w.(sessions := w.sessions[sid := Begun(w.sessions[sid])], vault := AfterBegin(w, sid).vault)
  {
  }

  /** close_session_state: a session without fork or shortfall counts as successful. */
  method CloseSessionState(session: OfflineSession, profile: UserProfile, sid: nat)
    returns (r: Outcome, session': OfflineSession, profile': UserProfile)
    ensures var successful := !session.authenticatedFork && session.frozenExposure <= session.terms.cap;
      && (r.Ok? <==> profile.activeSession == Some(sid) && (successful ==> profile.successfulSessions < U32_MAX))
      && (r.Ok? ==>
           && session' == session.(status := Closed)
           && profile' == profile.(activeSession := None,
                                   successfulSessions := profile.successfulSessions + if successful then 1 else 0))
  {
    session', profile' := session, profile;
    if profile.activeSession != Some(sid) { return Err(InvalidFinalization), session', profile'; }
    var successful := !session.authenticatedFork && session.frozenExposure <= session.terms.cap;
    if successful {
      if U32_MAX <= profile'.successfulSessions { return Err(ArithmeticOverflow), session', profile'; }
      profile' := profile'.(successfulSessions := profile'.successfulSessions + 1);
    }
    profile' := profile'.(activeSession := None);
    session' := session'.(status := Closed);
    r := Ok;
  }

  lemma CloseGuards(w: World, sid: nat)
    requires WorldOk(w) && sid in w.sessions
    ensures var s := w.sessions[sid];
      && (Complete(s) ==> (Sum(OwedTo(s, s.settled)) == Sum(OwedTo(s, s.scanned)) <==> AllSettled(s)))
      && (Complete(s) && !s.status.Closed? ==> s.status.Settling() || s.status.Settled?)
      && (!s.status.Closed? ==> w.profile.activeSession == Some(sid))
      && (Complete(s) ==> s.frozen)
      && (Successful(s) <==> !Forked(s.filed.Values) && Exposure(Claims(s)) <= s.terms.cap)
  {
    var s := w.sessions[sid];
    OpenSession(w, sid);
    if Complete(s) {
      SettledPart(s);
      CompletionGuards(s);
    }
    hide WorldOk, BookOk, Payable, Claims, Forked, OwedTo, Sum;
  }

  lemma ClosedView(s: Session)
    ensures View(s.(status := Closed)) == View(s).(session := SessionView(s.(status := Closed)))
  {
    SameRecords(s, s.(status := Closed));
    hide *;
    ViewIs(s);
    ViewIs(s.(status := Closed));
  }


  lemma DepthOf(s: Session)
    requires BookOk(s)
    ensures s.terms.maxDepth == MAX_BRANCH_DEPTH
  {
    hide Tree, ArrivalsOk, Claims;
  }

  lemma PayloadFacts(config: Config, t: Terms, merchant: nat, now: int, c: Credential)
    requires PayloadOk(config, t, merchant, now, c)
    ensures c.newState == Successor(c) && now <= t.deadline && 0 < c.sequence <= t.maxDepth
    ensures 0 < c.amount <= c.previousRemaining && c.newRemaining == c.previousRemaining - c.amount
  {
  }

  lemma ClaimsFiled(s: Session)
    ensures ClaimsView(s).Keys == s.filed.Keys
  {
  }

  /** The remaining conditions and counters of submit_claim, for a valid payload of a new credential. */
  ghost predicate CanFile(s: Session, profile: UserProfile, c: Credential, a: SubmitAccounts)
  {
    && (if IsNewEdge(s, c) then a.representative == a.claim && ParentOk(s, c, a.parent)
        else a.representative == ClaimKey(Rep(s.filed, c.newState)))
    && a.predecessor == OrSession(PreviousKey(s.filed.Keys, c.hash))
    && a.successor == OrSession(NextKey(s.filed.Keys, c.hash))
    && |s.filed| < U64_MAX
    && if IsNewEdge(s, c) then
         && Exposure(Claims(s)) + c.amount <= U64_MAX
         && |Siblings(s, c)| < U32_MAX
         && (MakesFork(s, c) ==> profile.conflictCount < U32_MAX)
       else |Wrappers(s.filed, c.newState)| < U32_MAX
  }


  lemma EmptyView(s: Session)
    requires Fresh(s) && s.filed == map[] && s.arrivals == map[]
    ensures View(s) == Ledger(OfflineSession(s.terms, s.status, false, Uncalculated, Root(s.terms), s.authorized, 0, 0,
                                             0, 0, 0, 0, 0, 0, 0, 0, 0, 0, 0, 0, NoKey, NoKey, NoKey, false, false),
                              map[], map[], map[])
  {
    FreshSession(s);
    EmptyBook(s);
    EmptyClaims(s.filed);
    SumEmpty();
    hide SessionView, Forked, Eligible, Sum;
    assert ClaimsView(s) == map[];
    assert EdgesView(s) == map[];
    assert ForksView(s) == map[];
  }

  lemma AuthorizedView(s: Session)
    ensures View(s.(authorized := true)) == View(s).(session := SessionView(s).(authorized := true))
  {
    var t := s.(authorized := true);
    AuthorizedRecords(s);
    hide ClaimsView, EdgesView, ForksView, Payout, Tainted, Eligible, Forked, Sum, Coverage;
    assert Claims(t) == Claims(s) && SessionBases(t) == SessionBases(s);
    assert OwedTo(t, s.settled) == OwedTo(s, s.settled) && OwedTo(t, s.scanned) == OwedTo(s, s.scanned);
    assert Allocated(t) == Allocated(s);
    assert ConflictingClaims(t) == ConflictingClaims(s);
    assert Discharged(t) == Discharged(s);
  }

  lemma AuthorizedRecords(s: Session)
    ensures ClaimsView(s.(authorized := true)) == ClaimsView(s)
    ensures EdgesView(s.(authorized := true)) == EdgesView(s)
    ensures ForksView(s.(authorized := true)) == ForksView(s)
  {
    var t := s.(authorized := true);
    hide NextKey, PreviousKey, Payout, Tainted, Rep, Children, Wrappers, Eligible;
    assert Claims(t) == Claims(s);
    forall h | h in s.filed ensures ClaimView(t, h) == ClaimView(s, h) {
    }
    forall e | e in s.filed.Values && e.Payment? ensures EdgeView(t, e) == EdgeView(s, e) {
    }
  }
}
