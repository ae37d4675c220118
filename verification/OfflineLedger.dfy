/** The off-chain state graph (packages/offline-ledger): a worklist over submitted credentials that
    accepts each valid transition whose parent is known, in passes over the credentials in hash order. */
module OfflineLedger {
  import opened Collections
  import opened States
  import opened Protocol
  import opened Credentials

  /** A credential as received: one that encodes, and so has a hash, or one that does not. */
  datatype Received = Readable(credential: Credential) | Malformed(id: nat, code: ErrorCode)

  datatype StateEdge = StateEdge(credentialHash: nat, parent: StateHash, child: StateHash, sequence: nat,
                                 merchant: nat, amount: nat)

  datatype Rejection = Unreadable(id: nat, reason: ErrorCode) | Invalid(hash: nat, reason: ErrorCode)

  datatype DuplicateReason = DuplicateCredential | DuplicateStateEdge

  datatype Duplicate = Duplicate(hash: nat, canonical: nat, reason: DuplicateReason)

  datatype Identity = Identity(parent: StateHash, sequence: nat, child: StateHash)

  /** The graph under construction. Lists that are sorted at the very end are kept as multisets. */
  datatype Build = Build(nodes: map<StateHash, ParentState>, accepted: map<Identity, StateEdge>, edges: seq<StateEdge>,
                         invalid: multiset<Rejection>, duplicates: multiset<Duplicate>)

  /** verifyStateTransition. */
  function VerifyStateTransition(ctx: TrustContext, cert: Certificate, parent: ParentState, c: Credential): (r: Result<ParentState>)
    ensures r.Accepted? ==> r.value == ParentState(c.newState, c.sequence, c.newRemaining)
  {
    if parent.sequence > cert.maxDepth || parent.remaining > cert.limit then Refused(InvalidParent)
    else ValidatePaymentCredential(ctx, cert, parent, c)
  }

  function EdgeOf(c: Credential): StateEdge
  {
    StateEdge(c.hash, c.previousState, c.newState, c.sequence, c.merchant, c.amount)
  }

  /** One credential whose parent is a node. */
  function Consider(ctx: TrustContext, cert: Certificate, g: Build, c: Credential): Build
    requires c.previousState in g.nodes
  {
    var r := VerifyStateTransition(ctx, cert, g.nodes[c.previousState], c);
    var id := Identity(c.previousState, c.sequence, c.newState);
    if r.Refused? then g.(invalid := g.invalid + multiset{Invalid(c.hash, r.code)})
    else if id in g.accepted then
      g.(duplicates := g.duplicates + multiset{Duplicate(c.hash, g.accepted[id].credentialHash, DuplicateStateEdge)})
    else if r.value.state in g.nodes then g.(invalid := g.invalid + multiset{Invalid(c.hash, StateHashCollision)})
    else g.(accepted := g.accepted[id := EdgeOf(c)], edges := g.edges + [EdgeOf(c)], nodes := g.nodes[r.value.state := r.value])
  }

  /** One pass over the pending credentials: what it makes of the graph and which it defers. */
  function Pass(ctx: TrustContext, cert: Certificate, g: Build, pending: seq<Credential>): (r: (Build, seq<Credential>))
    ensures |r.1| <= |pending|
    decreases |pending|
  {
    if pending == [] then (g, [])
    else if pending[0].previousState !in g.nodes then
      var rest := Pass(ctx, cert, g, pending[1..]);
      (rest.0, [pending[0]] + rest.1)
    else Pass(ctx, cert, Consider(ctx, cert, g, pending[0]), pending[1..])
  }

  function Orphaned(pending: seq<Credential>): multiset<Rejection>
  {
    if pending == [] then multiset{} else multiset{Invalid(pending[0].hash, InvalidParent)} + Orphaned(pending[1..])
  }

  /** Passes until nothing is pending or a pass makes no progress. */
  function Passes(ctx: TrustContext, cert: Certificate, g: Build, pending: seq<Credential>): Build
    decreases |pending|
  {
    if pending == [] then g
    else
      var (next, deferred) := Pass(ctx, cert, g, pending);
      if |deferred| == |pending| then next.(invalid := next.invalid + Orphaned(deferred))
      else Passes(ctx, cert, next, deferred)
  }

  /** The first credential received under each hash. */
  function Distinct(received: seq<Received>): map<nat, Credential>
  {
    if received == [] then map[]
    else
      var last := received[|received| - 1];
      var before := Distinct(received[..|received| - 1]);
      if last.Readable? && last.credential.hash !in before then before[last.credential.hash := last.credential] else before
  }

  function Unreadables(received: seq<Received>): multiset<Rejection>
  {
    if received == [] then multiset{}
    else
      var last := received[|received| - 1];
      Unreadables(received[..|received| - 1])
        + if last.Malformed? then multiset{Unreadable(last.id, last.code)} else multiset{}
  }

  function Repeats(received: seq<Received>): multiset<Duplicate>
  {
    if received == [] then multiset{}
    else
      var last := received[|received| - 1];
      Repeats(received[..|received| - 1])
        + if last.Readable? && last.credential.hash in Distinct(received[..|received| - 1])
          then multiset{Duplicate(last.credential.hash, last.credential.hash, DuplicateReason.DuplicateCredential)} else multiset{}
  }

  /** The distinct credentials in hash order. */
  function InOrder(distinct: map<nat, Credential>, hashes: seq<nat>): seq<Credential>
    requires forall h :: h in hashes ==> h in distinct
  {
    seq(|hashes|, i requires 0 <= i < |hashes| => assert hashes[i] in hashes; distinct[hashes[i]])
  }

  function Seed(cert: Certificate, received: seq<Received>): Build
  {
    var root := Root(TermsOf(cert));
    Build(map[root := ParentState(root, 0, cert.limit)], map[], [], Unreadables(received), Repeats(received))
  }

  function Worklist(received: seq<Received>): seq<Credential>
  {
    var distinct := Distinct(received);
    SortedElements(distinct.Keys);
    InOrder(distinct, Sorted(distinct.Keys))
  }

  function StateGraph(ctx: TrustContext, cert: Certificate, received: seq<Received>): Build
  {
    Passes(ctx, cert, Seed(cert, received), Worklist(received))
  }

  /** buildStateGraph: throws when the certificate chain or its genesis commitment is invalid, and
      otherwise always terminates with the graph above. */
  method BuildStateGraph(ctx: TrustContext, cert: Certificate, auth: Authorization, received: seq<Received>)
    returns (r: Result<Build>)
    ensures r.Accepted? <==> ValidateCertificateChain(ctx, cert, auth).Accepted? && cert.genesis == Root(TermsOf(cert))
    ensures r.Accepted? ==> r.value == StateGraph(ctx, cert, received)
    ensures ValidateCertificateChain(ctx, cert, auth).Refused? ==> r == Refused(ValidateCertificateChain(ctx, cert, auth).code)
    ensures ValidateCertificateChain(ctx, cert, auth).Accepted? && r.Refused? ==> r == Refused(InvalidSessionCertificate)
    ensures r.Accepted? ==> cert.verified && auth.verified && cert.issuer == ctx.trustedIssuer && auth.owner != auth.device
  {
    var chain := ValidateCertificateChain(ctx, cert, auth);
    if chain.Refused? { return Refused(chain.code); }
    var root := Root(TermsOf(cert));
    if root != cert.genesis { return Refused(InvalidSessionCertificate); }

    var distinct, invalid, duplicates := CollectDistinct(received);
    SortedElements(distinct.Keys);
    var pending := InOrder(distinct, Sorted(distinct.Keys));
    var g := Build(map[root := ParentState(root, 0, cert.limit)], map[], [], invalid, duplicates);
    assert g == Seed(cert, received) && pending == Worklist(received);
    hide Pass, Seed, Worklist, ValidateCertificateChain;
    while pending != []
      invariant Passes(ctx, cert, g, pending) == StateGraph(ctx, cert, received)
      decreases |pending|
    {
      var progressed, deferred;
      g, deferred, progressed := RunPass(ctx, cert, g, pending);
      if !progressed {
        g := RejectOrphans(g, deferred);
        deferred := [];
      }
      pending := deferred;
    }
    r := Accepted(g);
  }

  /** Drops repeated hashes and sets unreadable credentials aside. */
  method CollectDistinct(received: seq<Received>)
    returns (distinct: map<nat, Credential>, invalid: multiset<Rejection>, duplicates: multiset<Duplicate>)
    ensures distinct == Distinct(received) && invalid == Unreadables(received) && duplicates == Repeats(received)
  {
    distinct, invalid, duplicates := map[], multiset{}, multiset{};
    var i := 0;
    while i < |received|
      invariant 0 <= i <= |received|
      invariant distinct == Distinct(received[..i])
      invariant invalid == Unreadables(received[..i]) && duplicates == Repeats(received[..i])
    {
      assert received[..i + 1][..i] == received[..i];
      match received[i] {
        case Malformed(id, code) => invalid := invalid + multiset{Unreadable(id, code)};
        case Readable(c) =>
          if c.hash in distinct {
            duplicates := duplicates + multiset{Duplicate(c.hash, c.hash, DuplicateReason.DuplicateCredential)};
          } else {
            distinct := distinct[c.hash := c];
          }
      }
      i := i + 1;
    }
    assert received[..i] == received;
  }

  /** A pass without progress rejects everything still pending. */
  method RejectOrphans(g0: Build, pending: seq<Credential>) returns (g: Build)
    ensures g == g0.(invalid := g0.invalid + Orphaned(pending))
  {
    g := g0;
    var j := 0;
    while j < |pending|
      invariant 0 <= j <= |pending|
      invariant g == g0.(invalid := g.invalid)
      invariant g.invalid + Orphaned(pending[j..]) == g0.invalid + Orphaned(pending)
    {
      g := g.(invalid := g.invalid + multiset{Invalid(pending[j].hash, InvalidParent)});
      assert pending[j..][1..] == pending[j + 1..];
      j := j + 1;
    }
  }

  /** The inner loop: one pass in order, mutating the graph as it goes. */
  method RunPass(ctx: TrustContext, cert: Certificate, g0: Build, pending: seq<Credential>)
    returns (g: Build, deferred: seq<Credential>, progressed: bool)
    ensures g == Pass(ctx, cert, g0, pending).0 && deferred == Pass(ctx, cert, g0, pending).1
    ensures progressed <==> |deferred| < |pending|
  {
    g, deferred, progressed := g0, [], false;
    var i := 0;
    while i < |pending|
      invariant 0 <= i <= |pending| && |deferred| <= i && (progressed <==> |deferred| < i)
      invariant Pass(ctx, cert, g0, pending).0 == Pass(ctx, cert, g, pending[i..]).0
      invariant Pass(ctx, cert, g0, pending).1 == deferred + Pass(ctx, cert, g, pending[i..]).1
    {
      var c := pending[i];
      assert pending[i..][1..] == pending[i + 1..];
      if c.previousState !in g.nodes {
        deferred := deferred + [c];
      } else {
        progressed := true;
        var r := VerifyStateTransition(ctx, cert, g.nodes[c.previousState], c);
        var id := Identity(c.previousState, c.sequence, c.newState);
        if r.Refused? {
          g := g.(invalid := g.invalid + multiset{Invalid(c.hash, r.code)});
        } else if id in g.accepted {
          g := g.(duplicates := g.duplicates + multiset{Duplicate(c.hash, g.accepted[id].credentialHash, DuplicateStateEdge)});
        } else if r.value.state in g.nodes {
          g := g.(invalid := g.invalid + multiset{Invalid(c.hash, StateHashCollision)});
        } else {
          g := g.(accepted := g.accepted[id := EdgeOf(c)], edges := g.edges + [EdgeOf(c)],
                  nodes := g.nodes[r.value.state := r.value]);
        }
      }
      i := i + 1;
    }
    assert pending[i..] == [];
  }
}
