/** What acceptance off-chain guarantees, spelled out: whose signatures, for which terms, and that these
    are the terms the program creates sessions with. */
module Endorsements {
  import opened Collections
  import opened States
  import opened Protocol
  import opened Runs
  import opened Histories
  import opened Credentials

  // ----- The certificate chain -----

  /** The owner's and the trusted issuer's signatures are over the same terms, in this environment, and
      the owner authorized a key of its own device. */
  lemma AcceptedChain(ctx: TrustContext, cert: Certificate, auth: Authorization)
    requires ValidateCertificateChain(ctx, cert, auth).Accepted?
    ensures auth.verified && cert.verified && cert.issuer == ctx.trustedIssuer && auth.owner != auth.device
    ensures cert.authorizationHash == auth.hash && cert.vault == auth.vault
    ensures cert.owner == auth.owner && cert.device == auth.device && cert.sessionId == auth.sessionId
    ensures cert.limit == auth.limit && cert.cap == auth.cap == cert.locked && cert.maxDepth == auth.maxDepth == 32
    ensures cert.issuedAt == auth.issuedAt < cert.expiresAt == auth.expiresAt <= cert.issuedAt + 10_800
    ensures cert.deadline == cert.expiresAt + 21_600
    ensures 0 < cert.limit && 3 * cert.limit <= cert.locked
    ensures auth.domain == Domain(auth.domain.header, 1, ctx.config.networkId, ctx.config.clusterGenesisHash,
                                  ctx.config.programId, ctx.sessionId)
    ensures cert.domain == Domain(cert.domain.header, 2, ctx.config.networkId, ctx.config.clusterGenesisHash,
                                  ctx.config.programId, ctx.sessionId)
  {
  }

  /** An authorization that is not signed by the owner, not made for this environment, or differs from the
      certificate in any one term is refused, with the code of that fault. */
  lemma SpoiledAuthorization(ctx: TrustContext, cert: Certificate, auth: Authorization, x: nat, t: int)
    requires ValidateCertificateChain(ctx, cert, auth).Accepted?
    ensures ValidateCertificateChain(ctx, cert, auth.(verified := false)) == Refused(InvalidDeviceAuthorization)
    ensures x != 1 ==>
      ValidateCertificateChain(ctx, cert, auth.(domain := auth.domain.(objectType := x))) == Refused(DomainMismatch)
    ensures x != ctx.config.networkId ==>
      ValidateCertificateChain(ctx, cert, auth.(domain := auth.domain.(networkId := x))) == Refused(DomainMismatch)
    ensures x != ctx.config.clusterGenesisHash ==>
      ValidateCertificateChain(ctx, cert, auth.(domain := auth.domain.(clusterGenesisHash := x))) == Refused(DomainMismatch)
    ensures x != ctx.config.programId ==>
      ValidateCertificateChain(ctx, cert, auth.(domain := auth.domain.(programId := x))) == Refused(DomainMismatch)
    ensures x != ctx.sessionId ==>
      ValidateCertificateChain(ctx, cert, auth.(domain := auth.domain.(sessionId := x))) == Refused(DomainMismatch)
    ensures x != cert.authorizationHash ==>
      ValidateCertificateChain(ctx, cert, auth.(hash := x)) == Refused(InvalidDeviceAuthorization)
    ensures x != cert.sessionId ==>
      ValidateCertificateChain(ctx, cert, auth.(sessionId := x)) == Refused(InvalidDeviceAuthorization)
    ensures x != cert.owner ==>
      ValidateCertificateChain(ctx, cert, auth.(owner := x)) == Refused(InvalidDeviceAuthorization)
    ensures x != cert.device ==>
      ValidateCertificateChain(ctx, cert, auth.(device := x)) == Refused(InvalidDeviceAuthorization)
    ensures x != cert.vault ==>
      ValidateCertificateChain(ctx, cert, auth.(vault := x)) == Refused(InvalidDeviceAuthorization)
    ensures x != cert.limit ==>
      ValidateCertificateChain(ctx, cert, auth.(limit := x)) == Refused(InvalidDeviceAuthorization)
    ensures x != cert.cap ==> ValidateCertificateChain(ctx, cert, auth.(cap := x)) == Refused(InvalidDeviceAuthorization)
    ensures x != cert.maxDepth ==>
      ValidateCertificateChain(ctx, cert, auth.(maxDepth := x)) == Refused(InvalidDeviceAuthorization)
    ensures t != cert.issuedAt ==>
      ValidateCertificateChain(ctx, cert, auth.(issuedAt := t)) == Refused(InvalidDeviceAuthorization)
    ensures t != cert.expiresAt ==>
      ValidateCertificateChain(ctx, cert, auth.(expiresAt := t)) == Refused(InvalidDeviceAuthorization)
  {
  }

  /** So is a certificate that is not signed, not signed by the trusted issuer, not made for this
      environment, or differs from the authorization in any one term, or whose collateral or deadline are
      not those its limit and window fix. */
  lemma SpoiledCertificate(ctx: TrustContext, cert: Certificate, auth: Authorization, x: nat, t: int)
    requires ValidateCertificateChain(ctx, cert, auth).Accepted?
    ensures ValidateCertificateChain(ctx, cert.(verified := false), auth) == Refused(InvalidSessionCertificate)
    ensures x != ctx.trustedIssuer ==> ValidateCertificateChain(ctx, cert.(issuer := x), auth) == Refused(UntrustedIssuer)
    ensures x != 2 ==>
      ValidateCertificateChain(ctx, cert.(domain := cert.domain.(objectType := x)), auth) == Refused(DomainMismatch)
    ensures x != ctx.config.networkId ==>
      ValidateCertificateChain(ctx, cert.(domain := cert.domain.(networkId := x)), auth) == Refused(DomainMismatch)
    ensures x != ctx.config.clusterGenesisHash ==>
      ValidateCertificateChain(ctx, cert.(domain := cert.domain.(clusterGenesisHash := x)), auth) == Refused(DomainMismatch)
    ensures x != ctx.config.programId ==>
      ValidateCertificateChain(ctx, cert.(domain := cert.domain.(programId := x)), auth) == Refused(DomainMismatch)
    ensures x != ctx.sessionId ==>
      ValidateCertificateChain(ctx, cert.(domain := cert.domain.(sessionId := x)), auth) == Refused(DomainMismatch)
    ensures x != auth.hash ==>
      ValidateCertificateChain(ctx, cert.(authorizationHash := x), auth) == Refused(InvalidDeviceAuthorization)
    ensures x != auth.sessionId ==>
      ValidateCertificateChain(ctx, cert.(sessionId := x), auth) == Refused(InvalidDeviceAuthorization)
    ensures x != auth.owner ==>
      ValidateCertificateChain(ctx, cert.(owner := x), auth) == Refused(InvalidDeviceAuthorization)
    ensures x != auth.device ==>
      ValidateCertificateChain(ctx, cert.(device := x), auth) == Refused(InvalidDeviceAuthorization)
    ensures x != auth.vault ==>
      ValidateCertificateChain(ctx, cert.(vault := x), auth) == Refused(InvalidDeviceAuthorization)
    ensures x != auth.limit ==>
      ValidateCertificateChain(ctx, cert.(limit := x), auth) == Refused(InvalidDeviceAuthorization)
    ensures x != auth.cap ==> ValidateCertificateChain(ctx, cert.(cap := x), auth) == Refused(InvalidDeviceAuthorization)
    ensures x != auth.maxDepth ==>
      ValidateCertificateChain(ctx, cert.(maxDepth := x), auth) == Refused(InvalidDeviceAuthorization)
    ensures t != auth.issuedAt ==>
      ValidateCertificateChain(ctx, cert.(issuedAt := t), auth) == Refused(InvalidDeviceAuthorization)
    ensures t != auth.expiresAt ==>
      ValidateCertificateChain(ctx, cert.(expiresAt := t), auth) == Refused(InvalidDeviceAuthorization)
    ensures x != cert.locked ==>
      ValidateCertificateChain(ctx, cert.(locked := x), auth) == Refused(InvalidSessionCertificate)
    ensures t != cert.expiresAt + 21_600 ==>
      ValidateCertificateChain(ctx, cert.(deadline := t), auth) == Refused(InvalidSessionCertificate)
  {
  }

  /** One certificate is good for one authorization only. */
  lemma OneAuthorization(ctx: TrustContext, cert: Certificate, auth: Authorization, other: Authorization)
    requires ValidateCertificateChain(ctx, cert, auth).Accepted? && ValidateCertificateChain(ctx, cert, other).Accepted?
    ensures other == auth.(domain := other.domain) && other.domain == auth.domain.(header := other.domain.header)
  {
    AcceptedChain(ctx, cert, auth);
    AcceptedChain(ctx, cert, other);
    hide *;
  }

  /** The terms a certificate chain is accepted for are terms the program can create a session with ... */
  lemma CertifiedCreatable(ctx: TrustContext, cert: Certificate, auth: Authorization) returns (w: World, run: seq<Action>)
    requires ValidateCertificateChain(ctx, cert, auth).Accepted?
    requires cert.sessionId != 0 && cert.device != 0 && cert.cap <= 0xFFFF_FFFF_FFFF_FFFF && cert.deadline <= 0x7FFF_FFFF_FFFF_FFFF
    ensures Initial(w) && CanRun(w, run) && cert.sessionId in End(w, run).sessions
    ensures End(w, run).sessions[cert.sessionId].terms == TermsOf(cert)
  {
    AcceptedChain(ctx, cert, auth);
    w := World(ctx.config, cert.owner, false, cert.issuedAt, UserProfile(true, 0, 0, 0, cert.expiresAt, None),
               CollateralVault(0, 0, 0), 0, map[]);
    var deposit, create := Deposit(cert.cap, cert.cap), Create(cert.sessionId, cert.device, cert.locked, cert.limit, cert.expiresAt);
    run := [deposit, create];
    hide ValidateCertificateChain;
    assert Enabled(w, deposit);
    var x := Next(w, deposit);
    assert Enabled(x, create) && Next(x, create).sessions[cert.sessionId].terms == TermsOf(cert);
    TwoActions(w, deposit, create);
  }

  /** Some run of the program creates a session with these terms. */
  ghost predicate Creatable(t: Terms)
  {
    exists w, run :: Initial(w) && CanRun(w, run) && t.sessionId in End(w, run).sessions && End(w, run).sessions[t.sessionId].terms == t
  }

  /** Off-chain validation does not look for the all-zero key: exactly certificates with a non-zero session and
      device are for sessions the program can have. */
  lemma CertifiedCreatableIff(ctx: TrustContext, cert: Certificate, auth: Authorization)
    requires ValidateCertificateChain(ctx, cert, auth).Accepted?
    requires cert.cap <= 0xFFFF_FFFF_FFFF_FFFF && cert.deadline <= 0x7FFF_FFFF_FFFF_FFFF
    ensures Creatable(TermsOf(cert)) <==> cert.sessionId != 0 && cert.device != 0
  {
    var t := TermsOf(cert);
    assert t.sessionId == cert.sessionId && t.device == cert.device;
    if cert.sessionId != 0 && cert.device != 0 {
      var w, run := CertifiedCreatable(ctx, cert, auth);
    }
    if Creatable(t) {
      var w, run :| Initial(w) && CanRun(w, run) && t.sessionId in End(w, run).sessions && End(w, run).sessions[t.sessionId].terms == t;
      hide *;
      NonZero(w, run, t.sessionId);
    }
  }

  lemma NonZero(w: World, run: seq<Action>, sid: nat)
    requires Initial(w) && CanRun(w, run) && sid in End(w, run).sessions
    ensures End(w, run).sessions[sid].terms.sessionId != 0 && End(w, run).sessions[sid].terms.device != 0
  {
    EndsAt(w, run);
    var j := CreatedBefore(w, run, |run|, sid);
  }

  lemma TwoActions(w: World, a: Action, b: Action)
    requires Enabled(w, a) && Enabled(Next(w, a), b)
    ensures CanRun(w, [a, b]) && End(w, [a, b]) == Next(Next(w, a), b)
  {
    hide *;
    OneAction(w, a);
    OneAction(Next(w, a), b);
    Concatenated(w, [a], [b]);
    assert [a] + [b] == [a, b];
  }

  /** ... and for the terms of every session a run creates, the trusted issuer's certificate over the
      owner's authorization is accepted. */
  lemma CreatedCertifies(w: World, run: seq<Action>, sid: nat, issuer: nat, vault: nat, hash: nat) returns (cert: Certificate, auth: Authorization)
    requires Initial(w) && CanRun(w, run) && sid in End(w, run).sessions
    ensures TermsOf(cert) == End(w, run).sessions[sid].terms && cert.issuer == issuer && cert.genesis == Root(TermsOf(cert))
    ensures ValidateCertificateChain(TrustContext(w.config, sid, issuer), cert, auth).Accepted?
    ensures ValidateCertificateChain(TrustContext(w.config, sid, issuer), cert, auth.(verified := false)).Refused?
  {
    EndsAt(w, run);
    var j := CreatedBefore(w, run, |run|, sid);
    var t := End(w, run).sessions[sid].terms;
    assert t.sessionId == sid && t.device != t.owner && 0 < t.limit && 3 * t.limit <= t.cap && t.maxDepth == 32;
    assert t.issuedAt < t.expiresAt <= t.issuedAt + 10_800 && t.deadline == t.expiresAt + 21_600;
    cert, auth := CertificateOver(w.config, t, issuer, vault, hash), AuthorizationOver(w.config, t, vault, hash);
    hide CanRun, End, WorldAt, Created, Initial;
  }

  function CertificateOver(config: Config, t: Terms, issuer: nat, vault: nat, hash: nat): Certificate
  {
    Certificate(Domain(config.header, SESSION_CERTIFICATE_OBJECT_TYPE, config.networkId, config.clusterGenesisHash, config.programId,
                       t.sessionId),
                t.sessionId, t.owner, t.device, vault, t.limit, t.cap, t.cap, t.maxDepth, t.issuedAt, t.expiresAt, t.deadline,
                Root(t), hash, issuer, true)
  }

  function AuthorizationOver(config: Config, t: Terms, vault: nat, hash: nat): Authorization
  {
    Authorization(Domain(config.header, DEVICE_AUTHORIZATION_OBJECT_TYPE, config.networkId, config.clusterGenesisHash, config.programId,
                         t.sessionId),
                  t.sessionId, t.owner, t.device, vault, t.limit, t.cap, t.maxDepth, t.issuedAt, t.expiresAt, hash, true)
  }

  // ----- Payments -----

  /** Any one thing wrong with a valid payment, and it is refused: with the code of that thing. */
  lemma SpoiledPayment(ctx: TrustContext, cert: Certificate, parent: ParentState, c: Credential, x: nat, t: int, e: StateHash)
    requires ValidatePaymentCredential(ctx, cert, parent, c).Accepted?
    ensures ValidatePaymentCredential(ctx, cert, parent, c.(signed := false)) == Refused(InvalidSignature)
    ensures x != ctx.config.header ==>
      ValidatePaymentCredential(ctx, cert, parent, c.(domain := c.domain.(header := x))) == Refused(InvalidSignature)
    ensures x != 5 ==>
      ValidatePaymentCredential(ctx, cert, parent, c.(domain := c.domain.(objectType := x))) == Refused(DomainMismatch)
    ensures x != ctx.config.networkId ==>
      ValidatePaymentCredential(ctx, cert, parent, c.(domain := c.domain.(networkId := x))) == Refused(DomainMismatch)
    ensures x != ctx.config.clusterGenesisHash ==>
      ValidatePaymentCredential(ctx, cert, parent, c.(domain := c.domain.(clusterGenesisHash := x))) == Refused(DomainMismatch)
    ensures x != ctx.config.programId ==>
      ValidatePaymentCredential(ctx, cert, parent, c.(domain := c.domain.(programId := x))) == Refused(DomainMismatch)
    ensures x != ctx.sessionId ==>
      && ValidatePaymentCredential(ctx, cert, parent, c.(domain := c.domain.(sessionId := x))) == Refused(DomainMismatch)
      && ValidatePaymentCredential(ctx, cert, parent, c.(sessionId := x)) == Refused(SessionMismatch)
      && ValidatePaymentCredential(ctx, cert.(sessionId := x), parent, c) == Refused(SessionMismatch)
    ensures ValidatePaymentCredential(ctx, cert.(verified := false), parent, c) == Refused(InvalidSessionCertificate)
    ensures x != cert.issuer ==>
      ValidatePaymentCredential(ctx.(trustedIssuer := x), cert, parent, c) == Refused(UntrustedIssuer)
    ensures x != cert.owner ==>
      ValidatePaymentCredential(ctx, cert, parent, c.(payer := x)) == Refused(InvalidDeviceAuthorization)
    ensures x != cert.device ==>
      ValidatePaymentCredential(ctx, cert, parent, c.(payerDeviceKey := x)) == Refused(InvalidDeviceAuthorization)
    ensures ValidatePaymentCredential(ctx, cert, parent, c.(merchant := cert.owner)) == Refused(SelfMerchantForbidden)
    ensures x != c.merchant && x != cert.owner ==>
      ValidatePaymentCredential(ctx, cert, parent, c.(merchant := x)) == Refused(InvalidTransition)
    ensures e != parent.state ==>
      ValidatePaymentCredential(ctx, cert, parent, c.(previousState := e)) == Refused(InvalidParent)
    ensures x != c.sequence ==> ValidatePaymentCredential(ctx, cert, parent, c.(sequence := x)) == Refused(InvalidParent)
    ensures x < c.sequence ==>
      ValidatePaymentCredential(ctx, cert.(maxDepth := x), parent, c) == Refused(ErrorCode.BranchDepthExceeded)
    ensures x != c.amount ==> ValidatePaymentCredential(ctx, cert, parent, c.(amount := x)) == Refused(InvalidTransition)
    ensures x != c.newRemaining ==>
      ValidatePaymentCredential(ctx, cert, parent, c.(newRemaining := x)) == Refused(InvalidTransition)
    ensures x != c.previousRemaining ==>
      ValidatePaymentCredential(ctx, cert, parent, c.(previousRemaining := x)) == Refused(InvalidTransition)
    ensures t < cert.issuedAt || cert.expiresAt < t ==>
      ValidatePaymentCredential(ctx, cert, parent, c.(createdAt := t)) == Refused(SessionExpiredMetadata)
    ensures t != cert.expiresAt ==>
      ValidatePaymentCredential(ctx, cert, parent, c.(sessionExpiresAt := t)) == Refused(SessionExpiredMetadata)
    ensures ValidatePaymentCredential(ctx, cert, parent, c.(challenge := 0)) == Refused(InvalidChallenge)
    ensures x != 0 && x != c.challenge ==>
      ValidatePaymentCredential(ctx, cert, parent, c.(challenge := x)) == Refused(InvalidTransition)
    ensures e != c.newState ==>
      ValidatePaymentCredential(ctx, cert, parent, c.(newState := e)) == Refused(InvalidTransition)
  {
  }

  /** Any one thing wrong with a creation that succeeds, and it is refused: with the code of that thing. */
  lemma SpoiledCreation(ctx: TrustContext, cert: Certificate, parent: ParentState, q: PaymentRequest, device: nat, hash: nat, x: nat, t: int)
    requires CreatePaymentCredential(ctx, cert, parent, q, device, hash).Accepted?
    ensures CreatePaymentCredential(ctx, cert.(verified := false), parent, q, device, hash) == Refused(InvalidSessionCertificate)
    ensures x != ctx.trustedIssuer ==>
      CreatePaymentCredential(ctx, cert.(issuer := x), parent, q, device, hash) == Refused(UntrustedIssuer)
    ensures x != ctx.sessionId ==>
      && CreatePaymentCredential(ctx, cert.(sessionId := x), parent, q, device, hash) == Refused(SessionMismatch)
      && CreatePaymentCredential(ctx, cert.(domain := cert.domain.(sessionId := x)), parent, q, device, hash) == Refused(DomainMismatch)
    ensures CreatePaymentCredential(ctx, cert, parent, q.(challenge := 0), device, hash) == Refused(InvalidChallenge)
    ensures CreatePaymentCredential(ctx, cert, parent, q.(merchant := cert.owner), device, hash) == Refused(SelfMerchantForbidden)
    ensures x == 0 || parent.remaining < x ==>
      CreatePaymentCredential(ctx, cert, parent, q.(amount := x), device, hash) == Refused(ErrorCode.InvalidAmount)
    ensures cert.maxDepth <= x ==>
      CreatePaymentCredential(ctx, cert, parent.(sequence := x), q, device, hash) == Refused(ErrorCode.BranchDepthExceeded)
    ensures t < cert.issuedAt || cert.expiresAt < t ==>
      CreatePaymentCredential(ctx, cert, parent, q.(createdAt := t), device, hash) == Refused(SessionExpiredMetadata)
    ensures x != cert.device ==>
      CreatePaymentCredential(ctx, cert, parent, q, x, hash) == Refused(InvalidDeviceAuthorization)
  {
  }

  /** Payment i of an accepted bundle, term by term: who signed it for whom, where it continues from and
      what is left after it; under a certificate and an authorization both of which verify. */
  lemma BundleSpelledOut(ctx: TrustContext, b: Bundle, i: nat)
    requires BundleOk(ctx, b) && i < |b.credentials|
    ensures var c, cert := b.credentials[i], b.certificate;
      && c.signed && cert.verified && b.authorization.verified && cert.issuer == ctx.trustedIssuer
      && c.payer == cert.owner == b.authorization.owner && c.payerDeviceKey == cert.device == b.authorization.device
      && cert.owner != cert.device && c.merchant != cert.owner && c.sessionId == cert.sessionId == ctx.sessionId
      && c.domain == Domain(ctx.config.header, 5, ctx.config.networkId, ctx.config.clusterGenesisHash, ctx.config.programId, ctx.sessionId)
      && c.sequence == i + 1 <= 32 && 0 < c.amount
      && c.previousState == (if i == 0 then Genesis(GenesisTerms(cert.sessionId, cert.owner, cert.device, cert.limit, 32,
                                                                 cert.issuedAt, cert.expiresAt))
                             else b.credentials[i - 1].newState)
      && c.previousRemaining + Spent(b.credentials[..i]) == cert.limit
      && c.newRemaining + c.amount == c.previousRemaining
      && cert.issuedAt <= c.createdAt <= cert.expiresAt && c.sessionExpiresAt == cert.expiresAt && c.challenge != 0
      && c.newState == Payment(c.previousState, c.sequence, c.merchant, c.amount, c.challenge, c.previousRemaining, c.newRemaining)
  {
    var cert, parent := b.certificate, ChainEnd(GenesisParent(b.certificate), b.credentials[..i]);
    ChainFacts(ctx, cert, GenesisParent(cert), b.credentials, i);
    AcceptedChain(ctx, cert, b.authorization);
    hide Chain, ValidateCertificateChain;
    PaymentSpelledOut(ctx, cert, parent, b.credentials[i]);
    hide ValidatePaymentCredential;
  }

  lemma PaymentSpelledOut(ctx: TrustContext, cert: Certificate, parent: ParentState, c: Credential)
    requires ValidatePaymentCredential(ctx, cert, parent, c).Accepted?
    ensures c.signed && c.payer == cert.owner && c.payerDeviceKey == cert.device && c.merchant != cert.owner
    ensures c.sessionId == cert.sessionId == ctx.sessionId
    ensures c.domain == Domain(ctx.config.header, 5, ctx.config.networkId, ctx.config.clusterGenesisHash, ctx.config.programId, ctx.sessionId)
    ensures c.sequence == parent.sequence + 1 <= cert.maxDepth && c.previousState == parent.state
    ensures 0 < c.amount && c.previousRemaining == parent.remaining && c.newRemaining + c.amount == c.previousRemaining
    ensures cert.issuedAt <= c.createdAt <= cert.expiresAt && c.sessionExpiresAt == cert.expiresAt && c.challenge != 0
    ensures c.newState == Payment(c.previousState, c.sequence, c.merchant, c.amount, c.challenge, c.previousRemaining, c.newRemaining)
  {
  }
}
