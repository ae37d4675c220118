/** The on-chain protocol as a state machine over what its accounts mean: for each session the
    book of filed claims and how far finalization has come, and the owner's profile and vault.
    Program.dfy proves that the account updates of the instructions implement these steps. */
module Protocol {
  import opened Collections
  import opened ProRata
  import opened States

  const MINIMUM_COLLATERAL_RATIO_BPS: nat := 30_000
  const BPS_DENOMINATOR: nat := 10_000
  const MAX_SESSION_DURATION_SECONDS: int := 3 * 60 * 60
  const CLAIM_GRACE_PERIOD_SECONDS: int := 6 * 60 * 60
  const MAX_BRANCH_DEPTH: nat := 32
  const I64_MAX: int := 0x7FFF_FFFF_FFFF_FFFF
  const DEVICE_AUTHORIZATION_OBJECT_TYPE: nat := 1
  const SESSION_CERTIFICATE_OBJECT_TYPE: nat := 2
  const PAYMENT_CREDENTIAL_OBJECT_TYPE: nat := 5

  // ----- Credentials and the payload test (claims.rs) -----

  /** Header stands for the protocol name and both version numbers. */
  datatype Domain = Domain(header: nat, objectType: nat, networkId: nat, clusterGenesisHash: nat,
                           programId: nat, sessionId: nat)

  /** A payment credential: the signed payload, its 32-byte hash, and whether the payer device
      signature verifies over the payload. Nothing is assumed about how hash relates to the rest. */
  datatype Credential = Credential(domain: Domain, sessionId: nat, sequence: nat, payer: nat, payerDeviceKey: nat,
                                   merchant: nat, merchantDeviceKey: nat, amount: nat,
                                   previousState: StateHash, newState: StateHash,
                                   previousRemaining: nat, newRemaining: nat, challenge: nat,
                                   createdAt: int, sessionExpiresAt: int, hash: nat, signed: bool)

  datatype Config = Config(header: nat, networkId: nat, clusterGenesisHash: nat, programId: nat)

  /** The immutable terms of a session; cap is both collateral_locked and collateral_coverage_cap. */
  datatype Terms = Terms(sessionId: nat, owner: nat, device: nat, limit: nat, cap: nat, maxDepth: nat,
                         issuedAt: int, expiresAt: int, deadline: int)

  function Root(t: Terms): StateHash
  {
    Genesis(GenesisTerms(t.sessionId, t.owner, t.device, t.limit, t.maxDepth, t.issuedAt, t.expiresAt))
  }

  /** The state a payload's fields hash to. */
  function Successor(c: Credential): StateHash
  {
    Payment(c.previousState, c.sequence, c.merchant, c.amount, c.challenge, c.previousRemaining, c.newRemaining)
  }

  datatype Fault =
    | ProtocolPaused | InvalidSessionStatus | InvalidSessionMaterial | ClaimSubmissionClosed
    | InvalidCredentialPayload | ClaimBindingMismatch | InvalidAmount | BranchDepthExceeded
    | InvalidMerchantChallenge | InvalidStateTransition | InvalidEd25519Verification
    | InvalidClaimAccount | DuplicateCredential | InvalidForkRecord | InvalidClaimParent
    | InvalidClaimOrder | ArithmeticOverflow | AlreadyProcessed | InvalidFinalization
    | InvalidSettlement | AccountNotFound | OfflineAccessDisabled | ActiveSessionExists
    | IdentityExpired | DeviceKeyEqualsOwner | InsufficientCollateralRatio | InvalidSessionWindow
    | InsufficientAvailableCollateral | VaultBalanceMismatch | Unauthorized

  datatype Outcome = Ok | Err(fault: Fault)

  predicate PayloadOk(config: Config, t: Terms, merchant: nat, now: int, c: Credential)
  {
    && now <= t.deadline
    && c.domain == Domain(config.header, PAYMENT_CREDENTIAL_OBJECT_TYPE, config.networkId,
                          config.clusterGenesisHash, config.programId, t.sessionId)
    && c.sessionId == t.sessionId
    && c.payer == t.owner && c.payerDeviceKey == t.device && c.merchant == merchant != t.owner
    && 0 < c.amount <= c.previousRemaining <= t.limit
    && c.newRemaining == c.previousRemaining - c.amount
    && 0 < c.sequence <= t.maxDepth
    && t.issuedAt <= c.createdAt <= t.expiresAt == c.sessionExpiresAt
    && c.challenge != 0
    && c.newState == Successor(c)
  }

  // ----- Accounts other than the session's own records -----

  datatype UserProfile = UserProfile(offlineAccessEnabled: bool, successfulSessions: nat, conflictCount: nat,
                                     revokedAt: int, identityExpiresAt: int, activeSession: Option<nat>)

  datatype CollateralVault = CollateralVault(deposited: nat, reserved: nat, settledFromCollateral: nat)

  datatype SessionStatus = Active | ClaimWindow | Conflicted | Reconciling | Settled | Insolvent | Closed
  {
    predicate Collecting() { Active? || ClaimWindow? || Conflicted? }

    predicate Settling() { Reconciling? || Conflicted? || Insolvent? }
  }

  /** Addresses an instruction can be handed, relative to one session: the session itself, the
      addresses derived from its seeds, the all-zero key and everything else. */
  datatype Key =
    | NoKey
    | SessionKey
    | ClaimKey(hash: nat)
    | EdgeKey(prev: StateHash, sequence: nat, next: StateHash)
    | ForkKey(parent: StateHash, sequence: nat)
    | Alien(id: nat)

  function EdgeAddress(e: StateHash): Key
    requires e.Payment?
  {
    EdgeKey(e.prev, e.sequence, e)
  }

  datatype ForkSeed = ForkSeed(parent: StateHash, sequence: nat)

  /** The first two children of a fork record in order of arrival. */
  datatype FirstTwo = FirstTwo(first: StateHash, second: Option<StateHash>)

  /** What the accounts of one session mean. Classified and settled edges are named by their
      representative's credential hash. */
  datatype Session = Session(terms: Terms, authorized: bool, status: SessionStatus, frozen: bool, rewound: bool,
                             filed: Book, arrivals: map<ForkSeed, FirstTwo>,
                             classified: set<nat>, scanned: set<nat>, settled: set<nat>)

  datatype World = World(config: Config, owner: nat, paused: bool, clock: int, profile: UserProfile,
                         vault: CollateralVault, balance: nat, sessions: map<nat, Session>)

  // ----- What a session determines -----

  ghost function Claims(s: Session): map<nat, nat> { Eligible(s.filed) }

  ghost function Owed(s: Session, h: nat): nat
    requires h in Claims(s)
  {
    Payout(Claims(s), s.terms.cap, h)
  }

  ghost function OwedTo(s: Session, among: set<nat>): map<nat, nat>
  {
    Payouts(Claims(s), s.terms.cap, among)
  }

  ghost function Payable(s: Session): set<nat> { set h | h in Claims(s) && 0 < Owed(s, h) }

  ghost predicate ClassificationComplete(s: Session) { s.frozen && s.classified == Claims(s).Keys }

  ghost predicate Complete(s: Session) { ClassificationComplete(s) && s.scanned == s.filed.Keys }

  ghost predicate AllSettled(s: Session) { s.settled == Payable(s) }

  /** Collateral the session still holds in the vault's reserve. */
  ghost function Outstanding(s: Session): int
  {
    if Complete(s) then Coverage(Claims(s), s.terms.cap) - Sum(OwedTo(s, s.settled)) else s.terms.cap
  }

  ghost predicate Overdrawn(s: Session) { s.terms.cap < Exposure(Claims(s)) }

  ghost function FinalStatus(s: Session): SessionStatus
  {
    if Overdrawn(s) then Insolvent else if Forked(s.filed.Values) then Conflicted else Reconciling
  }

  ghost predicate Successful(s: Session) { !Forked(s.filed.Values) && !Overdrawn(s) }

  // ----- Neighbours in the hash-ordered claim list -----

  ghost function NextKey(keys: set<nat>, h: nat): Key
  {
    if Above(keys, h) == {} then NoKey else ClaimKey(Min(Above(keys, h)))
  }

  ghost function PreviousKey(keys: set<nat>, h: nat): Key
  {
    if Below(keys, h) == {} then NoKey else ClaimKey(Max(Below(keys, h)))
  }

  ghost function HeadKey(keys: set<nat>): Key { if keys == {} then NoKey else ClaimKey(Min(keys)) }

  ghost function TailKey(keys: set<nat>): Key { if keys == {} then NoKey else ClaimKey(Max(keys)) }

  function OrSession(k: Key): Key { if k == NoKey then SessionKey else k }

  // ----- Custody -----

  predicate CanDeposit(w: World, amount: nat, ownerTokens: nat)
  {
    !w.paused && 0 < amount <= ownerTokens && w.balance + amount <= U64_MAX && w.vault.deposited + amount <= U64_MAX
    && w.vault.deposited <= w.balance
  }

  function AfterDeposit(w: World, amount: nat): World
  {
    w.(balance := w.balance + amount, vault := w.vault.(deposited := w.vault.deposited + amount))
  }

  predicate CanWithdraw(w: World, amount: nat)
  {
    !w.paused && 0 < amount && w.vault.reserved + amount <= w.vault.deposited && w.vault.reserved + amount <= w.balance
  }

  function AfterWithdraw(w: World, amount: nat): World
    requires CanWithdraw(w, amount)
  {
    w.(balance := w.balance - amount, vault := w.vault.(deposited := w.vault.deposited - amount))
  }

  // ----- Sessions -----

  predicate EconomicsOk(locked: nat, limit: nat)
  {
    0 < locked && 0 < limit && limit * MINIMUM_COLLATERAL_RATIO_BPS <= locked * BPS_DENOMINATOR
  }

  predicate CanCreate(w: World, sid: nat, device: nat, locked: nat, limit: nat, expiresAt: int)
  {
    && !w.paused && w.profile.offlineAccessEnabled && w.profile.activeSession.None?
    && w.clock < w.profile.identityExpiresAt && expiresAt <= w.profile.identityExpiresAt
    && sid !in w.sessions && sid != 0 && device != 0 && device != w.owner
    && EconomicsOk(locked, limit) && locked <= U64_MAX && limit <= U64_MAX
    && 0 < expiresAt - w.clock <= MAX_SESSION_DURATION_SECONDS
    && expiresAt + CLAIM_GRACE_PERIOD_SECONDS <= I64_MAX
    && w.vault.reserved + locked <= w.vault.deposited && w.vault.reserved + locked <= w.balance
  }

  function NewSession(w: World, sid: nat, device: nat, locked: nat, limit: nat, expiresAt: int): Session
  {
    var terms := Terms(sid, w.owner, device, limit, locked, MAX_BRANCH_DEPTH, w.clock, expiresAt,
                       expiresAt + CLAIM_GRACE_PERIOD_SECONDS);
    Session(terms, false, Active, false, false, map[], map[], {}, {}, {})
  }

  function AfterCreate(w: World, sid: nat, device: nat, locked: nat, limit: nat, expiresAt: int): World
  {
    w.(sessions := w.sessions[sid := NewSession(w, sid, device, locked, limit, expiresAt)],
       vault := w.vault.(reserved := w.vault.reserved + locked),
       profile := w.profile.(activeSession := Some(sid)))
  }

  predicate CanAuthorize(w: World, sid: nat, material: nat)
  {
    !w.paused && sid in w.sessions && material != 0 && !w.sessions[sid].authorized
  }

  function AfterAuthorize(w: World, sid: nat): World
    requires sid in w.sessions
  {
    w.(sessions := w.sessions[sid := w.sessions[sid].(authorized := true)])
  }

  // ----- Claims -----

  datatype SubmitAccounts = SubmitAccounts(merchant: nat, claim: Key, edge: Key, representative: Key,
                                           predecessor: Key, successor: Key, fork: Key, parent: Key)

  ghost function Siblings(s: Session, c: Credential): set<StateHash>
  {
    Children(s.filed.Values, c.previousState, c.sequence)
  }

  ghost predicate IsNewEdge(s: Session, c: Credential) { c.newState !in s.filed.Values }

  ghost predicate MakesFork(s: Session, c: Credential) { IsNewEdge(s, c) && |Siblings(s, c)| == 1 }

  /** The parent account names the session for a first payment, and otherwise the filed edge that
      leads to the state the payment continues from. */
  ghost predicate ParentOk(s: Session, c: Credential, parent: Key)
  {
    if c.sequence == 1 then
      parent == SessionKey && c.previousState == Root(s.terms) && c.previousRemaining == s.terms.limit
    else
      c.previousState in s.filed.Values && c.previousState.Payment?
      && parent == EdgeAddress(c.previousState)
      && c.previousState.sequence + 1 == c.sequence && c.previousState.newRemaining == c.previousRemaining
  }

  ghost predicate CountersFit(w: World, s: Session, c: Credential)
  {
    && |s.filed| < U64_MAX
    && if IsNewEdge(s, c) then
         && Exposure(Claims(s)) + c.amount <= U64_MAX
         && |Siblings(s, c)| < U32_MAX
         && (MakesFork(s, c) ==> w.profile.conflictCount < U32_MAX)
       else |Wrappers(s.filed, c.newState)| < U32_MAX
  }

  /** submit_claim succeeds exactly here: the payload is valid, the credential is new, and the
      accounts are the derived addresses, the true list neighbours, the true representative and,
      for a new edge, the true parent. */
  ghost predicate CanSubmit(w: World, sid: nat, c: Credential, a: SubmitAccounts)
  {
    && !w.paused && sid in w.sessions
    && var s := w.sessions[sid];
    && s.status.Collecting() && s.authorized && c.signed
    && PayloadOk(w.config, s.terms, a.merchant, w.clock, c)
    && a.claim == ClaimKey(c.hash)
    && a.edge == EdgeKey(c.previousState, c.sequence, c.newState)
    && a.fork == ForkKey(c.previousState, c.sequence)
    && c.hash !in s.filed
    && (if IsNewEdge(s, c) then a.representative == a.claim && ParentOk(s, c, a.parent)
        else a.representative == ClaimKey(Rep(s.filed, c.newState)))
    && a.predecessor == OrSession(PreviousKey(s.filed.Keys, c.hash))
    && a.successor == OrSession(NextKey(s.filed.Keys, c.hash))
    && CountersFit(w, s, c)
  }

  ghost function Arrivals(s: Session, c: Credential): map<ForkSeed, FirstTwo>
  {
    var seed := ForkSeed(c.previousState, c.sequence);
    if !IsNewEdge(s, c) then s.arrivals
    else if seed !in s.arrivals then s.arrivals[seed := FirstTwo(c.newState, None)]
    else if s.arrivals[seed].second.None? then s.arrivals[seed := FirstTwo(s.arrivals[seed].first, Some(c.newState))]
    else s.arrivals
  }

  ghost function FiledStatus(s: Session, c: Credential, now: int): SessionStatus
  {
    if MakesFork(s, c) then Conflicted
    else if s.terms.expiresAt < now && s.status.Active? then ClaimWindow else s.status
  }

  ghost function Filed(w: World, s: Session, c: Credential): Session
  {
    s.(filed := s.filed[c.hash := c.newState],
       arrivals := Arrivals(s, c),
       status := FiledStatus(s, c, w.clock))
  }

  ghost function AfterSubmit(w: World, sid: nat, c: Credential): World
    requires sid in w.sessions
  {
    var s := w.sessions[sid];
    w.(sessions := w.sessions[sid := Filed(w, s, c)],
       profile := if MakesFork(s, c)
                  then w.profile.(offlineAccessEnabled := false, conflictCount := w.profile.conflictCount + 1,
                                  revokedAt := if w.profile.revokedAt == 0 then w.clock else w.profile.revokedAt)
                  else w.profile)
  }

  // ----- Finalization -----

  predicate CanBegin(w: World, sid: nat)
  {
    && sid in w.sessions && w.sessions[sid].terms.deadline < w.clock
    && w.sessions[sid].status.Collecting()
  }

  ghost function Begun(s: Session): Session
  {
    if s.frozen then s.(rewound := true, status := Reconciling)
    else s.(frozen := true, status := if s.filed == map[] then FinalStatus(s) else Reconciling)
  }

  /** Completing the allocation gives back the part of the cap that covers nothing. */
  ghost function ReleaseSurplus(v: CollateralVault, before: Session, after: Session): CollateralVault
  {
    if Complete(after) && !Complete(before) && after.terms.cap - Coverage(Claims(after), after.terms.cap) <= v.reserved
    then v.(reserved := v.reserved - (after.terms.cap - Coverage(Claims(after), after.terms.cap)))
    else v
  }

  ghost function AfterBegin(w: World, sid: nat): World
    requires sid in w.sessions
  {
    var s := w.sessions[sid];
    w.(sessions := w.sessions[sid := Begun(s)], vault := ReleaseSurplus(w.vault, s, Begun(s)))
  }

  /** The parent account given for an edge is its parent's, already classified, or the session. */
  ghost predicate ParentReady(s: Session, e: StateHash, parent: Key)
    requires e.Payment?
  {
    if e.sequence == 1 then parent == SessionKey
    else e.prev in s.filed.Values && e.prev.Payment? && parent == EdgeAddress(e.prev)
         && Rep(s.filed, e.prev) in s.classified
  }

  /** An edge can be classified once, and only after its parent, against its own fork record. */
  ghost predicate CanClassify(w: World, sid: nat, e: StateHash, fork: Key, parent: Key)
  {
    && sid in w.sessions
    && var s := w.sessions[sid];
    && s.status.Reconciling? && !ClassificationComplete(s)
    && e in s.filed.Values && e.Payment? && Rep(s.filed, e) !in s.classified
    && fork == ForkKey(e.prev, e.sequence) && ParentReady(s, e, parent)
  }

  ghost function AfterClassify(w: World, sid: nat, e: StateHash): World
    requires sid in w.sessions && e in w.sessions[sid].filed.Values
  {
    var s := w.sessions[sid];
    w.(sessions := w.sessions[sid := s.(classified := s.classified + {Rep(s.filed, e)})])
  }

  /** Claims are allocated in hash order. */
  ghost predicate CanAllocate(w: World, sid: nat, h: nat, e: StateHash)
  {
    && sid in w.sessions
    && var s := w.sessions[sid];
    && s.status.Reconciling? && ClassificationComplete(s) && !Complete(s)
    && h in s.filed && s.filed[h] == e
    && h !in s.scanned && Below(s.filed.Keys, h) <= s.scanned
  }

  ghost function Scanned(s: Session, h: nat): Session
  {
    var t := s.(scanned := s.scanned + {h});
    if Complete(t) then t.(status := FinalStatus(t)) else t
  }

  ghost function AfterAllocate(w: World, sid: nat, h: nat): World
    requires sid in w.sessions
  {
    var s := w.sessions[sid];
    w.(sessions := w.sessions[sid := Scanned(s, h)], vault := ReleaseSurplus(w.vault, s, Scanned(s, h)))
  }

  /** A claim is paid once, into a token account of the merchant it names. */
  ghost predicate CanSettle(w: World, sid: nat, h: nat, e: StateHash, to: nat)
  {
    && sid in w.sessions
    && var s := w.sessions[sid];
    && s.status.Settling() && Complete(s)
    && h in Payable(s) && h !in s.settled && s.filed[h] == e && e.Payment? && to == e.merchant
    && w.vault.settledFromCollateral + Owed(s, h) <= U64_MAX
  }

  ghost function SettledOne(s: Session, h: nat): Session
  {
    var t := s.(settled := s.settled + {h});
    if !AllSettled(t) then t
    else if !s.status.Reconciling? then t.(status := Closed) else t.(status := Settled)
  }

  /** The tokens of one settlement leave the vault and its reserve; the last settlement of a
      conflicted or insolvent session also closes it. */
  function PaidOut(w: World, sid: nat, t: Session, amount: nat): World
    requires amount <= w.vault.reserved <= w.vault.deposited <= w.balance
  {
    w.(sessions := w.sessions[sid := t],
       balance := w.balance - amount,
       vault := CollateralVault(w.vault.deposited - amount, w.vault.reserved - amount,
                                w.vault.settledFromCollateral + amount),
       profile := if t.status.Closed? then w.profile.(activeSession := None) else w.profile)
  }

  ghost function AfterSettle(w: World, sid: nat, h: nat): World
    requires sid in w.sessions && h in Claims(w.sessions[sid])
    requires Owed(w.sessions[sid], h) <= w.vault.reserved <= w.vault.deposited <= w.balance
  {
    PaidOut(w, sid, SettledOne(w.sessions[sid], h), Owed(w.sessions[sid], h))
  }

  ghost predicate CanClose(w: World, sid: nat)
  {
    && sid in w.sessions
    && var s := w.sessions[sid];
    && Complete(s) && AllSettled(s) && !s.status.Closed?
    && (Successful(s) ==> w.profile.successfulSessions < U32_MAX)
  }

  ghost function AfterClose(w: World, sid: nat): World
    requires sid in w.sessions
  {
    var s := w.sessions[sid];
    w.(sessions := w.sessions[sid := s.(status := Closed)],
       profile := w.profile.(activeSession := None,
                             successfulSessions := w.profile.successfulSessions + if Successful(s) then 1 else 0))
  }
}
