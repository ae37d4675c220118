/** Off-chain credentials (packages/credentials): creating a payment credential, validating one
    against its parent state, and validating a whole proof bundle from the genesis state. */
module Credentials {
  import opened Collections
  import opened States
  import opened Protocol

  datatype TrustContext = TrustContext(config: Config, sessionId: nat, trustedIssuer: nat)

  /** Verified says that the signature over the encoded object verifies, which includes that its
      domain carries the protocol header and names the session of the payload. */
  datatype Authorization = Authorization(domain: Domain, sessionId: nat, owner: nat, device: nat, vault: nat,
                                         limit: nat, cap: nat, maxDepth: nat, issuedAt: int, expiresAt: int,
                                         hash: nat, verified: bool)

  datatype Certificate = Certificate(domain: Domain, sessionId: nat, owner: nat, device: nat, vault: nat,
                                     limit: nat, locked: nat, cap: nat, maxDepth: nat, issuedAt: int, expiresAt: int,
                                     deadline: int, genesis: StateHash, authorizationHash: nat, issuer: nat, verified: bool)

  datatype ParentState = ParentState(state: StateHash, sequence: nat, remaining: nat)

  datatype PaymentRequest = PaymentRequest(merchant: nat, merchantDeviceKey: nat, amount: nat, challenge: nat, createdAt: int)

  datatype Bundle = Bundle(certificate: Certificate, authorization: Authorization, credentials: seq<Credential>)

  datatype ErrorCode =
    | DomainMismatch | SessionMismatch | InvalidSessionCertificate | UntrustedIssuer | InvalidDeviceAuthorization
    | SelfMerchantForbidden | InvalidParent | BranchDepthExceeded | InvalidTransition | SessionExpiredMetadata
    | InvalidChallenge | InvalidSignature | InvalidAmount | StateHashCollision

  datatype Result<+T> = Accepted(value: T) | Refused(code: ErrorCode)

  predicate DomainIs(d: Domain, ctx: TrustContext, objectType: nat)
  {
    && d.objectType == objectType && d.networkId == ctx.config.networkId
    && d.clusterGenesisHash == ctx.config.clusterGenesisHash && d.programId == ctx.config.programId
    && d.sessionId == ctx.sessionId
  }

  function TermsOf(cert: Certificate): Terms
  {
    Terms(cert.sessionId, cert.owner, cert.device, cert.limit, cert.cap, cert.maxDepth, cert.issuedAt, cert.expiresAt,
          cert.deadline)
  }

  predicate TrustedCertificate(ctx: TrustContext, cert: Certificate)
  {
    && DomainIs(cert.domain, ctx, SESSION_CERTIFICATE_OBJECT_TYPE) && cert.sessionId == ctx.sessionId
    && cert.verified && cert.issuer == ctx.trustedIssuer
  }

  /** The owner authorized the device for exactly the certificate's terms, and the trusted issuer
      signed them, both in this environment. */
  predicate Endorsed(ctx: TrustContext, cert: Certificate, auth: Authorization)
  {
    && DomainIs(auth.domain, ctx, DEVICE_AUTHORIZATION_OBJECT_TYPE) && DomainIs(cert.domain, ctx, SESSION_CERTIFICATE_OBJECT_TYPE)
    && auth.verified && cert.verified && cert.issuer == ctx.trustedIssuer && cert.authorizationHash == auth.hash
    && cert.owner == auth.owner != auth.device
    && auth == Authorization(auth.domain, cert.sessionId, cert.owner, cert.device, cert.vault, cert.limit, cert.cap, cert.maxDepth,
                             cert.issuedAt, cert.expiresAt, auth.hash, auth.verified)
  }

  /** The terms a session may have: collateral of three limits, all of it covering, and a window of at
      most three hours with six more to claim. */
  predicate Sensible(cert: Certificate)
  {
    && EconomicsOk(cert.locked, cert.limit) && cert.cap == cert.locked && cert.maxDepth == MAX_BRANCH_DEPTH
    && 0 < cert.expiresAt - cert.issuedAt <= MAX_SESSION_DURATION_SECONDS
    && cert.deadline == cert.expiresAt + CLAIM_GRACE_PERIOD_SECONDS
  }

  /** validateCertificateChain. */
  function ValidateCertificateChain(ctx: TrustContext, cert: Certificate, auth: Authorization): (r: Result<()>)
    ensures r.Accepted? <==> Endorsed(ctx, cert, auth) && Sensible(cert)
  {
    if !DomainIs(auth.domain, ctx, DEVICE_AUTHORIZATION_OBJECT_TYPE) then Refused(DomainMismatch)
    else if !DomainIs(cert.domain, ctx, SESSION_CERTIFICATE_OBJECT_TYPE) then Refused(DomainMismatch)
    else if !auth.verified then Refused(InvalidDeviceAuthorization)
    else if !cert.verified then Refused(InvalidSessionCertificate)
    else if cert.issuer != ctx.trustedIssuer then Refused(UntrustedIssuer)
    else if auth.owner == auth.device then Refused(InvalidDeviceAuthorization)
    else if cert.authorizationHash != auth.hash then Refused(InvalidDeviceAuthorization)
    else if cert.sessionId != auth.sessionId || cert.owner != auth.owner || cert.device != auth.device
            || cert.vault != auth.vault || cert.limit != auth.limit || cert.cap != auth.cap
            || cert.maxDepth != auth.maxDepth || cert.issuedAt != auth.issuedAt || cert.expiresAt != auth.expiresAt
         then Refused(InvalidDeviceAuthorization)
    else if cert.limit == 0 || cert.locked == 0 || cert.cap != cert.locked
            || cert.limit * MINIMUM_COLLATERAL_RATIO_BPS > cert.locked * BPS_DENOMINATOR then Refused(InvalidSessionCertificate)
    else if cert.maxDepth != MAX_BRANCH_DEPTH || cert.expiresAt <= cert.issuedAt
            || cert.expiresAt - cert.issuedAt > MAX_SESSION_DURATION_SECONDS
            || cert.deadline != cert.expiresAt + CLAIM_GRACE_PERIOD_SECONDS then Refused(InvalidSessionCertificate)
    else Accepted(())
  }

  // ----- One payment -----

  /** What a payment must satisfy on its own: it is bound to the session and is signed. */
  predicate Bound(ctx: TrustContext, t: Terms, c: Credential)
  {
    && DomainIs(c.domain, ctx, PAYMENT_CREDENTIAL_OBJECT_TYPE) && c.domain.header == ctx.config.header
    && c.sessionId == ctx.sessionId == t.sessionId
    && c.payer == t.owner && c.payerDeviceKey == t.device && c.merchant != t.owner
    && c.sequence <= t.maxDepth
    && t.issuedAt <= c.createdAt <= t.expiresAt == c.sessionExpiresAt
    && c.challenge != 0 && c.newState == Successor(c) && c.signed
  }

  /** It spends part of what the parent state leaves. */
  predicate Follows(parent: ParentState, c: Credential)
  {
    && c.previousState == parent.state && c.sequence == parent.sequence + 1
    && 0 < c.amount <= parent.remaining == c.previousRemaining
    && c.newRemaining == parent.remaining - c.amount
  }

  /** validatePaymentCredential, in the order of its checks. The header is part of the signed bytes. */
  function ValidatePaymentCredential(ctx: TrustContext, cert: Certificate, parent: ParentState, c: Credential): (r: Result<ParentState>)
    ensures r.Accepted? <==> TrustedCertificate(ctx, cert) && Bound(ctx, TermsOf(cert), c) && Follows(parent, c)
    ensures r.Accepted? ==> r.value == ParentState(c.newState, c.sequence, c.newRemaining)
  {
    if !DomainIs(cert.domain, ctx, SESSION_CERTIFICATE_OBJECT_TYPE) then Refused(DomainMismatch)
    else if !DomainIs(c.domain, ctx, PAYMENT_CREDENTIAL_OBJECT_TYPE) then Refused(DomainMismatch)
    else if c.domain.sessionId != c.sessionId then Refused(SessionMismatch)
    else if ctx.sessionId != c.sessionId || cert.sessionId != c.sessionId then Refused(SessionMismatch)
    else if !cert.verified then Refused(InvalidSessionCertificate)
    else if cert.issuer != ctx.trustedIssuer then Refused(UntrustedIssuer)
    else if c.payer != cert.owner || c.payerDeviceKey != cert.device then Refused(InvalidDeviceAuthorization)
    else if c.payer == c.merchant then Refused(SelfMerchantForbidden)
    else if c.previousState != parent.state || c.sequence != parent.sequence + 1 then Refused(InvalidParent)
    else if c.sequence > cert.maxDepth then Refused(ErrorCode.BranchDepthExceeded)
    else if c.amount == 0 || c.amount > parent.remaining || c.previousRemaining != parent.remaining
            || c.newRemaining != parent.remaining - c.amount then Refused(InvalidTransition)
    else if c.createdAt < cert.issuedAt || c.createdAt > cert.expiresAt || c.sessionExpiresAt != cert.expiresAt
         then Refused(SessionExpiredMetadata)
    else if c.challenge == 0 then Refused(InvalidChallenge)
    else if Successor(c) != c.newState then Refused(InvalidTransition)
    else if !c.signed || c.domain.header != ctx.config.header then Refused(InvalidSignature)
    else Accepted(ParentState(c.newState, c.sequence, c.newRemaining))
  }

  /** createPaymentCredential: hash and signature are those of the resulting bytes. */
  function CreatePaymentCredential(ctx: TrustContext, cert: Certificate, parent: ParentState, request: PaymentRequest,
                                   device: nat, hash: nat): Result<Credential>
  {
    if !DomainIs(cert.domain, ctx, SESSION_CERTIFICATE_OBJECT_TYPE) then Refused(DomainMismatch)
    else if !cert.verified then Refused(InvalidSessionCertificate)
    else if cert.issuer != ctx.trustedIssuer then Refused(UntrustedIssuer)
    else if ctx.sessionId != cert.sessionId then Refused(SessionMismatch)
    else if request.challenge == 0 then Refused(InvalidChallenge)
    else if cert.owner == request.merchant then Refused(SelfMerchantForbidden)
    else if request.amount == 0 || request.amount > parent.remaining then Refused(ErrorCode.InvalidAmount)
    else if parent.sequence >= cert.maxDepth then Refused(ErrorCode.BranchDepthExceeded)
    else if request.createdAt < cert.issuedAt || request.createdAt > cert.expiresAt then Refused(SessionExpiredMetadata)
    else if device != cert.device then Refused(InvalidDeviceAuthorization)
    else
      var domain := Domain(ctx.config.header, PAYMENT_CREDENTIAL_OBJECT_TYPE, ctx.config.networkId,
                           ctx.config.clusterGenesisHash, ctx.config.programId, ctx.sessionId);
      var rest := parent.remaining - request.amount;
      var state := Payment(parent.state, parent.sequence + 1, request.merchant, request.amount, request.challenge,
                           parent.remaining, rest);
      Accepted(Credential(domain, ctx.sessionId, parent.sequence + 1, cert.owner, cert.device, request.merchant,
                          request.merchantDeviceKey, request.amount, parent.state, state, parent.remaining, rest,
                          request.challenge, request.createdAt, cert.expiresAt, hash, true))
  }

  /** Whatever is created validates against the same parent, and every acceptable payment can be created. */
  lemma CreatedValidates(ctx: TrustContext, cert: Certificate, parent: ParentState, request: PaymentRequest, device: nat, hash: nat)
    ensures var r := CreatePaymentCredential(ctx, cert, parent, request, device, hash);
      r.Accepted? ==>
        ValidatePaymentCredential(ctx, cert, parent, r.value)
        == Accepted(ParentState(r.value.newState, parent.sequence + 1, parent.remaining - request.amount))
  {
  }

  lemma ValidIsCreatable(ctx: TrustContext, cert: Certificate, parent: ParentState, c: Credential)
    requires ValidatePaymentCredential(ctx, cert, parent, c).Accepted?
    ensures CreatePaymentCredential(ctx, cert, parent,
              PaymentRequest(c.merchant, c.merchantDeviceKey, c.amount, c.challenge, c.createdAt), c.payerDeviceKey, c.hash)
         == Accepted(c)
  {
  }

  // ----- Chains and bundles -----

  /** Each payment validates against the state the previous one leads to. */
  predicate Chain(ctx: TrustContext, cert: Certificate, parent: ParentState, payments: seq<Credential>)
    decreases |payments|
  {
    payments == [] ||
    (var r := ValidatePaymentCredential(ctx, cert, parent, payments[0]);
     r.Accepted? && Chain(ctx, cert, r.value, payments[1..]))
  }

  function ChainEnd(parent: ParentState, payments: seq<Credential>): ParentState
  {
    if payments == [] then parent
    else var last := payments[|payments| - 1]; ParentState(last.newState, last.sequence, last.newRemaining)
  }

  function Spent(payments: seq<Credential>): nat
  {
    if payments == [] then 0 else payments[0].amount + Spent(payments[1..])
  }

  lemma {:induction false} ChainExtends(ctx: TrustContext, cert: Certificate, parent: ParentState, payments: seq<Credential>, c: Credential)
    ensures Chain(ctx, cert, parent, payments + [c])
       <==> Chain(ctx, cert, parent, payments) && ValidatePaymentCredential(ctx, cert, ChainEnd(parent, payments), c).Accepted?
    decreases |payments|
  {
    if payments == [] {
      assert (payments + [c])[1..] == [];
    } else {
      var r := ValidatePaymentCredential(ctx, cert, parent, payments[0]);
      assert (payments + [c])[1..] == payments[1..] + [c];
      if r.Accepted? { ChainExtends(ctx, cert, r.value, payments[1..], c); }
    }
  }

  /** A chain spends exactly the difference between the first and last remaining amounts, one
      sequence number at a time, and every part of it from the start is a chain. */
  lemma {:induction false} ChainFacts(ctx: TrustContext, cert: Certificate, parent: ParentState, payments: seq<Credential>, n: nat)
    requires Chain(ctx, cert, parent, payments) && n <= |payments|
    ensures Chain(ctx, cert, parent, payments[..n])
    ensures Spent(payments[..n]) + ChainEnd(parent, payments[..n]).remaining == parent.remaining
    ensures ChainEnd(parent, payments[..n]).sequence == parent.sequence + n
    ensures n < |payments| ==> ValidatePaymentCredential(ctx, cert, ChainEnd(parent, payments[..n]), payments[n]).Accepted?
    decreases |payments|
  {
    if 0 < n {
      var next := ValidatePaymentCredential(ctx, cert, parent, payments[0]).value;
      ChainFacts(ctx, cert, next, payments[1..], n - 1);
      assert payments[..n][1..] == payments[1..][..n - 1];
    }
  }

  function GenesisParent(cert: Certificate): ParentState { ParentState(Root(TermsOf(cert)), 0, cert.limit) }

  /** An accepted bundle: a valid certificate chain over the genesis state it commits to, and a
      chain of at most maxDepth payments from there. */
  predicate BundleOk(ctx: TrustContext, b: Bundle)
  {
    && ValidateCertificateChain(ctx, b.certificate, b.authorization).Accepted?
    && |b.credentials| <= b.certificate.maxDepth
    && b.certificate.genesis == Root(TermsOf(b.certificate))
    && Chain(ctx, b.certificate, GenesisParent(b.certificate), b.credentials)
  }

  /** Some payment of the bundle is the first that does not validate, and this is why. */
  predicate FirstFault(ctx: TrustContext, b: Bundle, code: ErrorCode)
  {
    exists k :: 0 <= k < |b.credentials| && Chain(ctx, b.certificate, GenesisParent(b.certificate), b.credentials[..k])
                && ValidatePaymentCredential(ctx, b.certificate, ChainEnd(GenesisParent(b.certificate), b.credentials[..k]),
                                             b.credentials[k]) == Refused(code)
  }

  method ValidateCredentialProofBundle(ctx: TrustContext, b: Bundle) returns (r: Result<ParentState>)
    ensures r.Accepted? <==> BundleOk(ctx, b)
    ensures r.Accepted? ==> r.value == ChainEnd(GenesisParent(b.certificate), b.credentials)
    ensures r.Accepted? ==> b.certificate.verified && b.authorization.verified && b.certificate.issuer == ctx.trustedIssuer
                            && b.authorization.owner != b.authorization.device
    ensures var chain := ValidateCertificateChain(ctx, b.certificate, b.authorization);
      && (chain.Refused? ==> r == Refused(chain.code))
      && (chain.Accepted? && |b.credentials| > b.certificate.maxDepth ==> r == Refused(ErrorCode.BranchDepthExceeded))
      && (chain.Accepted? && |b.credentials| <= b.certificate.maxDepth ==>
            if b.certificate.genesis != Root(TermsOf(b.certificate)) then r == Refused(InvalidSessionCertificate)
            else r.Refused? ==> FirstFault(ctx, b, r.code))
  {
    var chain := ValidateCertificateChain(ctx, b.certificate, b.authorization);
    if chain.Refused? { return Refused(chain.code); }
    var cert := b.certificate;
    if |b.credentials| > cert.maxDepth { return Refused(ErrorCode.BranchDepthExceeded); }
    var parent := GenesisParent(cert);
    if parent.state != cert.genesis { return Refused(InvalidSessionCertificate); }
    var i := 0;
    while i < |b.credentials|
      invariant 0 <= i <= |b.credentials|
      invariant Chain(ctx, cert, GenesisParent(cert), b.credentials[..i])
      invariant parent == ChainEnd(GenesisParent(cert), b.credentials[..i])
    {
      r := ValidatePaymentCredential(ctx, cert, parent, b.credentials[i]);
      ChainExtends(ctx, cert, GenesisParent(cert), b.credentials[..i], b.credentials[i]);
      assert b.credentials[..i + 1] == b.credentials[..i] + [b.credentials[i]];
      if r.Refused? {
        NotAChain(ctx, cert, GenesisParent(cert), b.credentials, i + 1);
        return;
      }
      parent := r.value;
      i := i + 1;
    }
    assert b.credentials[..i] == b.credentials;
    r := Accepted(parent);
  }

  lemma NotAChain(ctx: TrustContext, cert: Certificate, parent: ParentState, payments: seq<Credential>, n: nat)
    requires n <= |payments| && !Chain(ctx, cert, parent, payments[..n])
    ensures !Chain(ctx, cert, parent, payments)
  {
    if Chain(ctx, cert, parent, payments) { ChainFacts(ctx, cert, parent, payments, n); }
  }

  /** Accepted bundles are closed under dropping the last payments and never spend more than the
      branch limit. */
  lemma BundleFacts(ctx: TrustContext, b: Bundle, n: nat)
    requires BundleOk(ctx, b) && n <= |b.credentials|
    ensures BundleOk(ctx, b.(credentials := b.credentials[..n]))
    ensures Spent(b.credentials[..n]) + ChainEnd(GenesisParent(b.certificate), b.credentials[..n]).remaining == b.certificate.limit
    ensures Spent(b.credentials[..n]) <= b.certificate.limit
  {
    ChainFacts(ctx, b.certificate, GenesisParent(b.certificate), b.credentials, n);
  }

  /** Creating payments one after another from the genesis state, as a wallet does, gives a bundle
      that validates, as long as the certificate chain does and every creation succeeds. */
  function CreateChain(ctx: TrustContext, cert: Certificate, parent: ParentState, requests: seq<PaymentRequest>,
                       device: nat, hashes: seq<nat>): Result<seq<Credential>>
    requires |hashes| == |requests|
    decreases |requests|
  {
    if requests == [] then Accepted([])
    else
      var r := CreatePaymentCredential(ctx, cert, parent, requests[0], device, hashes[0]);
      if r.Refused? then Refused(r.code)
      else
        var next := ParentState(r.value.newState, r.value.sequence, r.value.newRemaining);
        var rest := CreateChain(ctx, cert, next, requests[1..], device, hashes[1..]);
        if rest.Refused? then rest else Accepted([r.value] + rest.value)
  }

  lemma {:induction false} CreatedChain(ctx: TrustContext, cert: Certificate, parent: ParentState, requests: seq<PaymentRequest>,
                                        device: nat, hashes: seq<nat>)
    requires |hashes| == |requests|
    ensures var r := CreateChain(ctx, cert, parent, requests, device, hashes);
      r.Accepted? ==> Chain(ctx, cert, parent, r.value) && |r.value| == |requests|
    decreases |requests|
  {
    if requests != [] {
      var r := CreatePaymentCredential(ctx, cert, parent, requests[0], device, hashes[0]);
      if r.Accepted? {
        CreatedValidates(ctx, cert, parent, requests[0], device, hashes[0]);
        var next := ParentState(r.value.newState, r.value.sequence, r.value.newRemaining);
        CreatedChain(ctx, cert, next, requests[1..], device, hashes[1..]);
        var rest := CreateChain(ctx, cert, next, requests[1..], device, hashes[1..]);
        if rest.Accepted? { assert ([r.value] + rest.value)[1..] == rest.value; }
      }
    }
  }

  /** A wallet's bundle is accepted. Depth never needs checking: creation refuses a payment too deep. */
  lemma WalletBundleAccepted(ctx: TrustContext, cert: Certificate, auth: Authorization, requests: seq<PaymentRequest>,
                             device: nat, hashes: seq<nat>)
    requires |hashes| == |requests|
    requires ValidateCertificateChain(ctx, cert, auth).Accepted? && cert.genesis == Root(TermsOf(cert))
    requires CreateChain(ctx, cert, GenesisParent(cert), requests, device, hashes).Accepted?
    ensures BundleOk(ctx, Bundle(cert, auth, CreateChain(ctx, cert, GenesisParent(cert), requests, device, hashes).value))
  {
    var payments := CreateChain(ctx, cert, GenesisParent(cert), requests, device, hashes).value;
    CreatedChain(ctx, cert, GenesisParent(cert), requests, device, hashes);
    if payments != [] {
      ChainFacts(ctx, cert, GenesisParent(cert), payments, |payments| - 1);
    }
  }

  // ----- The merchant -----

  datatype MerchantChallenge = MerchantChallenge(networkId: nat, clusterGenesisHash: nat, programId: nat, merchant: nat,
                                                 merchantDeviceKey: nat, amount: nat, challenge: nat)

  datatype MerchantError = Bundled(code: ErrorCode) | WrongEnvironment | NoPayment | MerchantMismatch | ChallengeMismatch

  datatype Response = Response(credential: Credential, finalState: ParentState) | Declined(error: MerchantError)

  predicate Asks(config: Config, challenge: MerchantChallenge)
  {
    && challenge.networkId == config.networkId && challenge.clusterGenesisHash == config.clusterGenesisHash
    && challenge.programId == config.programId
  }

  predicate Answers(challenge: MerchantChallenge, c: Credential)
  {
    && c.merchant == challenge.merchant && c.merchantDeviceKey == challenge.merchantDeviceKey
    && c.amount == challenge.amount && c.challenge == challenge.challenge
  }

  function ContextOf(config: Config, trustedIssuer: nat, b: Bundle): TrustContext
  {
    TrustContext(config, b.certificate.sessionId, trustedIssuer)
  }

  /** validateMerchantResponse: a merchant accepts exactly the valid bundles whose last payment answers
      its challenge. The check that the bundle ends at that payment never refuses a non-empty one. */
  method ValidateMerchantResponse(config: Config, trustedIssuer: nat, challenge: MerchantChallenge, b: Bundle) returns (r: Response)
    ensures r.Response? <==> Asks(config, challenge) && BundleOk(ContextOf(config, trustedIssuer, b), b) && b.credentials != []
                             && Answers(challenge, b.credentials[|b.credentials| - 1])
    ensures r.Response? ==> r.credential == b.credentials[|b.credentials| - 1]
    ensures r.Response? ==> r.finalState == ParentState(r.credential.newState, |b.credentials|, r.credential.newRemaining)
    ensures r.Response? ==> b.certificate.verified && b.authorization.verified && b.certificate.issuer == trustedIssuer
                            && b.authorization.owner != b.authorization.device && r.credential.signed
    ensures r.Response? ==>
      && r.credential.merchant == challenge.merchant && r.credential.merchantDeviceKey == challenge.merchantDeviceKey
      && r.credential.amount == challenge.amount && r.credential.challenge == challenge.challenge
      && challenge.networkId == config.networkId && challenge.clusterGenesisHash == config.clusterGenesisHash
      && challenge.programId == config.programId
    ensures !Asks(config, challenge) ==> r == Declined(WrongEnvironment)
    ensures Asks(config, challenge) && !BundleOk(ContextOf(config, trustedIssuer, b), b) ==> r.Declined? && r.error.Bundled?
    ensures Asks(config, challenge) && BundleOk(ContextOf(config, trustedIssuer, b), b) ==>
      if b.credentials == [] then r == Declined(NoPayment)
      else
        var c := b.credentials[|b.credentials| - 1];
        if c.merchant != challenge.merchant || c.merchantDeviceKey != challenge.merchantDeviceKey then r == Declined(MerchantMismatch)
        else c.amount != challenge.amount || c.challenge != challenge.challenge ==> r == Declined(ChallengeMismatch)
  {
    if !Asks(config, challenge) { return Declined(WrongEnvironment); }
    var ctx := ContextOf(config, trustedIssuer, b);
    var end := ValidateCredentialProofBundle(ctx, b);
    if end.Refused? { return Declined(Bundled(end.code)); }
    if b.credentials == [] { return Declined(NoPayment); }
    var credential := b.credentials[|b.credentials| - 1];
    if credential.sequence != end.value.sequence || credential.newState != end.value.state { return Declined(NoPayment); }
    ChainFacts(ctx, b.certificate, GenesisParent(b.certificate), b.credentials, |b.credentials|);
    ChainFacts(ctx, b.certificate, GenesisParent(b.certificate), b.credentials, |b.credentials| - 1);
    assert credential.signed;
    hide BundleOk, Chain, Asks, ContextOf;
    assert b.credentials[..|b.credentials|] == b.credentials;
    if credential.merchant != challenge.merchant || credential.merchantDeviceKey != challenge.merchantDeviceKey {
      return Declined(MerchantMismatch);
    }
    if credential.amount != challenge.amount || credential.challenge != challenge.challenge { return Declined(ChallengeMismatch); }
    r := Response(credential, end.value);
  }

  /** A payment a wallet creates for a merchant's challenge on top of an accepted bundle makes a bundle
      that is accepted again, and that the merchant who asked accepts. */
  lemma AnswerAccepted(ctx: TrustContext, b: Bundle, challenge: MerchantChallenge, createdAt: int, device: nat, hash: nat)
    requires BundleOk(ctx, b)
    ensures var r := CreatePaymentCredential(ctx, b.certificate, ChainEnd(GenesisParent(b.certificate), b.credentials),
                PaymentRequest(challenge.merchant, challenge.merchantDeviceKey, challenge.amount, challenge.challenge, createdAt),
                device, hash);
      r.Accepted? ==> BundleOk(ctx, b.(credentials := b.credentials + [r.value])) && Answers(challenge, r.value)
  {
    var parent := ChainEnd(GenesisParent(b.certificate), b.credentials);
    var request := PaymentRequest(challenge.merchant, challenge.merchantDeviceKey, challenge.amount, challenge.challenge, createdAt);
    var r := CreatePaymentCredential(ctx, b.certificate, parent, request, device, hash);
    if r.Accepted? {
      CreatedValidates(ctx, b.certificate, parent, request, device, hash);
      ChainExtends(ctx, b.certificate, GenesisParent(b.certificate), b.credentials, r.value);
      ChainFacts(ctx, b.certificate, GenesisParent(b.certificate), b.credentials, |b.credentials|);
      assert b.credentials[..|b.credentials|] == b.credentials;
      hide Chain, ValidatePaymentCredential, ValidateCertificateChain;
    }
  }

  // ----- Agreement with the program -----

  /** What is accepted off-chain passes the program's payload test for the certificate's session
      until the deadline, and conversely a signed credential that passes it and continues a state is
      accepted off-chain. */
  lemma PayloadAgrees(ctx: TrustContext, cert: Certificate, parent: ParentState, c: Credential, now: int)
    requires TrustedCertificate(ctx, cert) && parent.remaining <= cert.limit && now <= cert.deadline && Follows(parent, c)
    ensures ValidatePaymentCredential(ctx, cert, parent, c).Accepted?
       <==> PayloadOk(ctx.config, TermsOf(cert), c.merchant, now, c) && c.signed
  {
  }
}
