/** The claim relayer's planner (apps/claim-relayer): the check of the claim list it fetched, and the
    list neighbours, representative and parent it derives for a submission. */
module Relayer {
  import opened Collections
  import opened ProRata
  import opened States
  import opened Protocol
  import opened Invariants
  import opened Accounts
  import opened ClaimList
  import opened Runs

  /** A claim account as listed by the RPC node. */
  datatype Listed = Listed(address: Key, session: Key, value: Claim)

  /** A session account's address, by the seeds it is derived from. */
  datatype SessionSeed = SessionSeed(owner: nat, sessionId: nat)

  /** A request names its environment, its credential, and what it derived from it. */
  datatype Request = Request(networkId: nat, clusterGenesisHash: nat, programId: nat, credential: Credential,
                             credentialHash: nat, session: SessionSeed, claim: (SessionSeed, nat), merchant: nat)

  datatype PlanError =
    | DomainMismatch | RpcClusterMismatch | HashMismatch | NonCanonicalCredential | InvalidSignature | DerivationMismatch
    | ClaimAlreadyExists | AccountNotFound | SessionMismatch | StaleRpcState | ParentNotFound

  datatype PlanResult = Planned(accounts: SubmitAccounts) | Refused(error: PlanError)

  function ListedHash(x: Listed): nat { x.value.credentialHash }

  function AddressOr(claims: seq<Listed>, i: int): Key
  {
    if 0 <= i < |claims| then claims[i].address else NoKey
  }

  /** assertClaimList: count, head and tail match the session, every entry belongs to it and links to
      the entries beside it, and hashes strictly increase. */
  predicate AssertClaimList(session: OfflineSession, claims: seq<Listed>)
  {
    && |claims| == session.submittedClaimCount
    && if claims == [] then session.claimHead == NoKey && session.claimTail == NoKey
       else
         && claims[0].address == session.claimHead && claims[|claims| - 1].address == session.claimTail
         && forall i :: 0 <= i < |claims| ==> EntryOk(claims, i)
  }

  predicate EntryOk(claims: seq<Listed>, i: nat)
    requires i < |claims|
  {
    && claims[i].session == SessionKey
    && claims[i].value.previousClaim == AddressOr(claims, i - 1) && claims[i].value.nextClaim == AddressOr(claims, i + 1)
    && (0 < i ==> ListedHash(claims[i - 1]) < ListedHash(claims[i]))
  }

  /** Index of the first listed claim with a greater hash, or the length. */
  function Insertion(claims: seq<Listed>, h: nat): nat
  {
    if claims == [] || h < ListedHash(claims[0]) then 0 else 1 + Insertion(claims[1..], h)
  }

  function FindParent(claims: seq<Listed>, c: Credential): Option<Claim>
  {
    if claims == [] then None
    else if claims[0].value.sequence + 1 == c.sequence && claims[0].value.newState == c.previousState then Some(claims[0].value)
    else FindParent(claims[1..], c)
  }

  /** What plan checks of a request before it reads the session: its environment and the node's, the
      credential's hash, form, signature and domain, and the declared accounts. */
  function Screen(config: Config, observedGenesis: nat, q: Request): Option<PlanError>
  {
    var c := q.credential;
    var session := SessionSeed(c.payer, c.sessionId);
    if q.networkId != config.networkId || q.clusterGenesisHash != config.clusterGenesisHash || q.programId != config.programId
    then Some(DomainMismatch)
    else if observedGenesis != config.clusterGenesisHash then Some(RpcClusterMismatch)
    else if q.credentialHash != c.hash then Some(HashMismatch)
    else if c.domain.header != config.header || c.domain.objectType != PAYMENT_CREDENTIAL_OBJECT_TYPE
    then Some(NonCanonicalCredential)
    else if !c.signed then Some(InvalidSignature)
    else if c.domain.networkId != config.networkId || c.domain.clusterGenesisHash != config.clusterGenesisHash
            || c.domain.programId != config.programId || c.domain.sessionId != c.sessionId then Some(DomainMismatch)
    else if q.session != session || q.claim != (session, c.hash) || q.merchant != c.merchant then Some(DerivationMismatch)
    else None
  }

  /** plan, over the accounts of one owner the node serves: the session account, the claim accounts it
      lists, and the edge accounts. */
  function PlanRequest(config: Config, observedGenesis: nat, owner: nat, ledgers: map<nat, Ledger>, listing: seq<Listed>, q: Request): PlanResult
  {
    var screened := Screen(config, observedGenesis, q);
    if screened.Some? then Refused(screened.value)
    else if q.session.owner != owner || q.session.sessionId !in ledgers then Refused(PlanError.AccountNotFound)
    else Plan(ledgers[q.session.sessionId], listing, q.credential)
  }

  /** The part of plan that reads the session's accounts. */
  function Plan(l: Ledger, listing: seq<Listed>, c: Credential): PlanResult
  {
    if l.ReadClaim(ClaimKey(c.hash)).Some? then Refused(ClaimAlreadyExists)
    else if l.session.terms.sessionId != c.sessionId || l.session.terms.owner != c.payer
            || l.session.terms.device != c.payerDeviceKey then Refused(SessionMismatch)
    else
      var claims := SortBy(ListedHash, listing);
      if !AssertClaimList(l.session, claims) then Refused(StaleRpcState) else Choose(l, claims, c)
  }

  /** The insertion point, representative and parent. */
  function Choose(l: Ledger, claims: seq<Listed>, c: Credential): PlanResult
  {
    var at := Insertion(claims, c.hash);
    var predecessor, successor := OrSession(AddressOr(claims, at - 1)), OrSession(AddressOr(claims, at));
    var claim, edge := ClaimKey(c.hash), EdgeKey(c.previousState, c.sequence, c.newState);
    var fork := ForkKey(c.previousState, c.sequence);
    var found := l.ReadEdge(edge);
    if found.Some? then
      Planned(SubmitAccounts(c.merchant, claim, edge, ClaimKey(found.value.representative), predecessor, successor, fork, SessionKey))
    else if c.sequence <= 1 then
      Planned(SubmitAccounts(c.merchant, claim, edge, claim, predecessor, successor, fork, SessionKey))
    else
      match FindParent(claims, c)
      case None => Refused(ParentNotFound)
      case Some(p) =>
        var parent := EdgeKey(p.previousState, p.sequence, p.newState);
        if l.ReadEdge(parent).None? then Refused(ParentNotFound)
        else Planned(SubmitAccounts(c.merchant, claim, edge, claim, predecessor, successor, fork, parent))
  }

  // ----- The list check -----

  ghost function Account(s: Session, h: nat): Listed
    requires h in s.filed
  {
    Listed(ClaimKey(h), SessionKey, ClaimView(s, h))
  }

  /** The session's claims in hash order. */
  ghost function Authoritative(s: Session): (q: seq<Listed>)
    ensures |q| == |s.filed|
  {
    SortedElements(s.filed.Keys);
    assert |s.filed.Keys| == |s.filed|;
    seq(|s.filed|, i requires 0 <= i < |s.filed| =>
      assert Sorted(s.filed.Keys)[i] in Sorted(s.filed.Keys); Account(s, Sorted(s.filed.Keys)[i]))
  }

  /** Every entry is the true account at its address, though some may be missing or repeated. */
  ghost predicate Authentic(s: Session, listing: seq<Listed>)
  {
    forall i :: 0 <= i < |listing| ==>
      ListedHash(listing[i]) in s.filed && listing[i] == Account(s, ListedHash(listing[i]))
  }

  lemma AccountFields(s: Session, h: nat)
    requires h in s.filed
    ensures ListedHash(Account(s, h)) == h && Account(s, h).address == ClaimKey(h) && Account(s, h).session == SessionKey
    ensures Account(s, h).value.previousClaim == PreviousKey(s.filed.Keys, h)
    ensures Account(s, h).value.nextClaim == NextKey(s.filed.Keys, h)
    ensures Account(s, h).value.newState == s.filed[h]
    ensures s.filed[h].Payment? ==> Account(s, h).value.sequence == s.filed[h].sequence
                                    && Account(s, h).value.previousState == s.filed[h].prev
  {
    hide NextKey, PreviousKey, Claims, Owed, Tainted;
  }

  lemma NextInOrder(keys: set<nat>, q: seq<nat>, i: nat)
    requires Ascending(q) && (forall k :: k in q <==> k in keys) && i < |q|
    ensures NextKey(keys, q[i]) == (if i + 1 < |q| then ClaimKey(q[i + 1]) else NoKey)
    ensures i + 1 == |q| ==> TailKey(keys) == ClaimKey(q[i])
  {
    hide NextKey, TailKey;
    assert q[i] in q;
    forall k | k in keys ensures k <= q[i] || (i + 1 < |q| && q[i + 1] <= k) {
      var j :| 0 <= j < |q| && q[j] == k;
    }
    if i + 1 < |q| {
      assert q[i + 1] in q;
      NextIs(keys, q[i], q[i + 1]);
    } else {
      NextNone(keys, q[i]);
      HeadIs(keys, q[i]);
    }
  }

  lemma PreviousInOrder(keys: set<nat>, q: seq<nat>, i: nat)
    requires Ascending(q) && (forall k :: k in q <==> k in keys) && i < |q|
    ensures PreviousKey(keys, q[i]) == (if 0 < i then ClaimKey(q[i - 1]) else NoKey)
    ensures i == 0 ==> HeadKey(keys) == ClaimKey(q[i])
  {
    hide PreviousKey, HeadKey;
    assert q[i] in q;
    forall k | k in keys ensures q[i] <= k || (0 < i && k <= q[i - 1]) {
      var j :| 0 <= j < |q| && q[j] == k;
    }
    if 0 < i {
      assert q[i - 1] in q;
      PreviousIs(keys, q[i], q[i - 1]);
    } else {
      PreviousNone(keys, q[i]);
      HeadIs(keys, q[i]);
    }
  }

  /** Neighbours in the sorted enumeration are neighbours in the list. */
  lemma SortedNeighbours(keys: set<nat>, i: nat)
    requires i < |keys|
    ensures var q := Sorted(keys);
      && q[i] in keys && (0 < i ==> q[i - 1] < q[i])
      && NextKey(keys, q[i]) == (if i + 1 < |q| then ClaimKey(q[i + 1]) else NoKey)
      && PreviousKey(keys, q[i]) == (if 0 < i then ClaimKey(q[i - 1]) else NoKey)
      && (i == 0 ==> HeadKey(keys) == ClaimKey(q[i])) && (i + 1 == |q| ==> TailKey(keys) == ClaimKey(q[i]))
  {
    var q := Sorted(keys);
    SortedElements(keys);
    assert q[i] in q;
    hide Sorted, NextKey, PreviousKey, HeadKey, TailKey;
    NextInOrder(keys, q, i);
    PreviousInOrder(keys, q, i);
  }

  lemma AuthoritativeAt(s: Session, i: nat)
    requires i < |s.filed|
    ensures |Sorted(s.filed.Keys)| == |s.filed| && Sorted(s.filed.Keys)[i] in s.filed
    ensures Authoritative(s)[i] == Account(s, Sorted(s.filed.Keys)[i])
  {
    SortedElements(s.filed.Keys);
    assert |s.filed.Keys| == |s.filed|;
    assert Sorted(s.filed.Keys)[i] in Sorted(s.filed.Keys);
    hide Sorted;
  }

  /** The true list passes. */
  lemma AuthoritativePasses(s: Session)
    ensures AssertClaimList(View(s).session, Authoritative(s))
  {
    var q, claims := Sorted(s.filed.Keys), Authoritative(s);
    assert |s.filed.Keys| == |s.filed|;
    SessionEnds(s);
    forall i | 0 <= i < |claims| ensures EntryOk(claims, i) { AuthoritativeEntry(s, i); }
    if claims != [] {
      SortedNeighbours(s.filed.Keys, 0);
      SortedNeighbours(s.filed.Keys, |claims| - 1);
      AuthoritativeAt(s, 0);
      AuthoritativeAt(s, |claims| - 1);
      AccountFields(s, q[0]);
      AccountFields(s, q[|claims| - 1]);
    }
    hide View, Authoritative, Sorted, Account, EntryOk, HeadKey, TailKey, NextKey, PreviousKey;
    assert s.filed.Keys == {} ==> HeadKey(s.filed.Keys) == NoKey && TailKey(s.filed.Keys) == NoKey by { HeadIs(s.filed.Keys, 0); EmptyTail(s.filed.Keys); }
  }

  lemma EmptyTail(keys: set<nat>)
    ensures keys == {} ==> TailKey(keys) == NoKey
  {
  }

  lemma SessionEnds(s: Session)
    ensures View(s).session.submittedClaimCount == |s.filed|
    ensures View(s).session.claimHead == HeadKey(s.filed.Keys) && View(s).session.claimTail == TailKey(s.filed.Keys)
  {
  }

  lemma AuthoritativeEntry(s: Session, i: nat)
    requires i < |s.filed|
    ensures EntryOk(Authoritative(s), i)
  {
    var q := Sorted(s.filed.Keys);
    assert |s.filed.Keys| == |s.filed|;
    SortedNeighbours(s.filed.Keys, i);
    EntryFields(s, i);
    hide Authoritative, Sorted, Account, NextKey, PreviousKey, ListedHash;
    if i + 1 < |q| { EntryFields(s, i + 1); }
    if 0 < i { EntryFields(s, i - 1); }
  }

  lemma EntryFields(s: Session, i: nat)
    requires i < |s.filed|
    ensures |Sorted(s.filed.Keys)| == |s.filed| && Sorted(s.filed.Keys)[i] in s.filed
    ensures var x, h := Authoritative(s)[i], Sorted(s.filed.Keys)[i];
      && ListedHash(x) == h && x.address == ClaimKey(h) && x.session == SessionKey
      && x.value.previousClaim == PreviousKey(s.filed.Keys, h) && x.value.nextClaim == NextKey(s.filed.Keys, h)
  {
    hide *;
    AuthoritativeAt(s, i);
    AccountFields(s, Sorted(s.filed.Keys)[i]);
  }

  /** The check passes exactly when the entries, sorted by hash, are the whole authoritative list in
      order: an omitted or repeated account is always caught. */
  lemma ListCheckExact(s: Session, listing: seq<Listed>)
    requires Authentic(s, listing)
    ensures AssertClaimList(View(s).session, SortBy(ListedHash, listing)) <==> SortBy(ListedHash, listing) == Authoritative(s)
  {
    var claims := SortBy(ListedHash, listing);
    AuthoritativePasses(s);
    SortSorted(ListedHash, listing);
    SessionEnds(s);
    hide View, SortBy, Authoritative;
    if AssertClaimList(View(s).session, claims) {
      StillAuthentic(s, listing, claims);
      hide Authentic;
      WholeList(s, claims);
    }
  }

  lemma StillAuthentic(s: Session, listing: seq<Listed>, claims: seq<Listed>)
    requires Authentic(s, listing) && multiset(claims) == multiset(listing)
    ensures Authentic(s, claims)
  {
    hide Account;
    forall i | 0 <= i < |claims| ensures ListedHash(claims[i]) in s.filed && claims[i] == Account(s, ListedHash(claims[i])) {
      assert claims[i] in multiset(claims);
      var j :| 0 <= j < |listing| && listing[j] == claims[i];
    }
  }

  lemma WholeList(s: Session, claims: seq<Listed>)
    requires Authentic(s, claims) && |claims| == |s.filed|
    requires forall i :: 0 <= i < |claims| ==> EntryOk(claims, i)
    ensures claims == Authoritative(s)
  {
    var hs := seq(|claims|, i requires 0 <= i < |claims| => ListedHash(claims[i]));
    IncreasingHashes(claims, hs);
    SortedElements(s.filed.Keys);
    AllOf(hs, s.filed.Keys);
    AscendingUnique(hs, Sorted(s.filed.Keys));
    forall i | 0 <= i < |claims| ensures claims[i] == Authoritative(s)[i] {
      AuthoritativeAt(s, i);
      assert hs[i] == Sorted(s.filed.Keys)[i];
      hide Account, Authoritative, Sorted;
    }
  }

  lemma {:induction false} IncreasingHashes(claims: seq<Listed>, hs: seq<nat>)
    requires |hs| == |claims| && forall i :: 0 <= i < |claims| ==> EntryOk(claims, i) && hs[i] == ListedHash(claims[i])
    ensures Ascending(hs)
  {
    forall i, j | 0 <= i < j < |hs| ensures hs[i] < hs[j] { Increasing(claims, i, j); }
  }

  lemma {:induction false} Increasing(claims: seq<Listed>, i: nat, j: nat)
    requires i < j < |claims| && forall k :: 0 <= k < |claims| ==> EntryOk(claims, k)
    ensures ListedHash(claims[i]) < ListedHash(claims[j])
    decreases j
  {
    assert EntryOk(claims, j);
    if i < j - 1 { Increasing(claims, i, j - 1); }
  }

  // ----- The planned accounts -----

  lemma {:induction false} InsertionIs(claims: seq<Listed>, h: nat)
    ensures Insertion(claims, h) <= |claims|
    ensures forall i :: 0 <= i < Insertion(claims, h) ==> ListedHash(claims[i]) <= h
    ensures Insertion(claims, h) < |claims| ==> h < ListedHash(claims[Insertion(claims, h)])
  {
    if claims != [] && ListedHash(claims[0]) <= h { InsertionIs(claims[1..], h); }
  }

  /** The entries around the insertion point are the new claim's neighbours. */
  lemma InsertionNeighbours(s: Session, h: nat)
    requires h !in s.filed
    ensures var claims, at := Authoritative(s), Insertion(Authoritative(s), h);
      && OrSession(AddressOr(claims, at - 1)) == OrSession(PreviousKey(s.filed.Keys, h))
      && OrSession(AddressOr(claims, at)) == OrSession(NextKey(s.filed.Keys, h))
  {
    var claims, q, keys := Authoritative(s), Sorted(s.filed.Keys), s.filed.Keys;
    var at := Insertion(claims, h);
    assert |keys| == |s.filed|;
    SortedElements(keys);
    InsertionIs(claims, h);
    hide Authoritative, Sorted, NextKey, PreviousKey, Insertion, Account, ListedHash, Ascending;
    AddressesAre(s);
    assert forall i :: 0 <= i < at ==> q[i] == ListedHash(claims[i]);
    Between(keys, q, h, at);
  }

  lemma AddressesAre(s: Session)
    ensures |Sorted(s.filed.Keys)| == |s.filed|
    ensures forall i :: 0 <= i < |s.filed| ==>
      Authoritative(s)[i].address == ClaimKey(Sorted(s.filed.Keys)[i]) && ListedHash(Authoritative(s)[i]) == Sorted(s.filed.Keys)[i]
  {
    assert |s.filed.Keys| == |s.filed|;
    hide Authoritative, Sorted, Account, ListedHash;
    forall i | 0 <= i < |s.filed|
      ensures Authoritative(s)[i].address == ClaimKey(Sorted(s.filed.Keys)[i]) && ListedHash(Authoritative(s)[i]) == Sorted(s.filed.Keys)[i]
    {
      AuthoritativeAt(s, i);
      AccountFields(s, Sorted(s.filed.Keys)[i]);
    }
  }

  lemma Between(keys: set<nat>, q: seq<nat>, h: nat, at: nat)
    requires Ascending(q) && (forall k :: k in q <==> k in keys) && h !in keys && at <= |q|
    requires (forall i :: 0 <= i < at ==> q[i] <= h) && (at < |q| ==> h < q[at])
    ensures PreviousKey(keys, h) == if 0 < at then ClaimKey(q[at - 1]) else NoKey
    ensures NextKey(keys, h) == if at < |q| then ClaimKey(q[at]) else NoKey
  {
    hide PreviousKey, NextKey;
    forall k | k in keys ensures (0 < at && k <= q[at - 1] && k < h) || (at < |q| && q[at] <= k && h < k) {
      var j :| 0 <= j < |q| && q[j] == k;
      assert j < at ==> q[j] <= h;
    }
    if 0 < at { assert q[at - 1] in q; PreviousIs(keys, h, q[at - 1]); } else { PreviousNone(keys, h); }
    if at < |q| { assert q[at] in q; NextIs(keys, h, q[at]); } else { NextNone(keys, h); }
  }

  lemma {:induction false} FindParentIs(claims: seq<Listed>, c: Credential)
    ensures FindParent(claims, c).Some? ==>
      exists i :: 0 <= i < |claims| && claims[i].value == FindParent(claims, c).value
                  && claims[i].value.sequence + 1 == c.sequence && claims[i].value.newState == c.previousState
    ensures FindParent(claims, c).None? ==>
      forall i :: 0 <= i < |claims| ==>
        !(claims[i].value.sequence + 1 == c.sequence && claims[i].value.newState == c.previousState)
  {
    if claims != [] {
      FindParentIs(claims[1..], c);
      if FindParent(claims[1..], c).Some? {
        var i :| 0 <= i < |claims[1..]| && claims[1..][i].value == FindParent(claims[1..], c).value
                 && claims[1..][i].value.sequence + 1 == c.sequence && claims[1..][i].value.newState == c.previousState;
        assert claims[i + 1] == claims[1..][i];
      }
      assert claims[0].value.sequence + 1 == c.sequence && claims[0].value.newState == c.previousState ==>
             claims[0].value == FindParent(claims, c).value;
    }
  }

  /** The parent is found exactly when the state the payment continues is filed one step earlier, and
      then it is that state's edge account. */
  lemma ParentFound(s: Session, c: Credential)
    requires BookOk(s)
    ensures var p := FindParent(Authoritative(s), c);
      && (p.Some? <==> c.previousState in s.filed.Values && c.previousState.Payment?
                       && c.previousState.sequence + 1 == c.sequence)
      && (p.Some? ==> EdgeKey(p.value.previousState, p.value.sequence, p.value.newState) == EdgeAddress(c.previousState))
  {
    var claims, p := Authoritative(s), FindParent(Authoritative(s), c);
    FindParentIs(claims, c);
    if p.Some? {
      var i :| 0 <= i < |claims| && claims[i].value == p.value
               && claims[i].value.sequence + 1 == c.sequence && claims[i].value.newState == c.previousState;
      ListedState(s, i);
    }
    if c.previousState in s.filed.Values && c.previousState.Payment? && c.previousState.sequence + 1 == c.sequence {
      var h :| h in s.filed && s.filed[h] == c.previousState;
      var i := IndexOf(s, h);
      ListedState(s, i);
    }
    hide Authoritative, FindParent, BookOk;
  }

  lemma ListedState(s: Session, i: nat)
    requires BookOk(s) && i < |s.filed|
    ensures |Sorted(s.filed.Keys)| == |s.filed| && Sorted(s.filed.Keys)[i] in s.filed
    ensures var v, e := Authoritative(s)[i].value, s.filed[Sorted(s.filed.Keys)[i]];
      e in s.filed.Values && e.Payment? && v.newState == e && v.sequence == e.sequence && v.previousState == e.prev
  {
    AuthoritativeAt(s, i);
    var h := Sorted(s.filed.Keys)[i];
    assert s.filed[h] in s.filed.Values;
    assert States.Linked(Root(s.terms), s.terms.limit, s.terms.maxDepth, s.filed.Values, s.filed[h]);
    AccountFields(s, h);
    hide Authoritative, Sorted, Account;
  }

  lemma IndexOf(s: Session, h: nat) returns (i: nat)
    requires h in s.filed
    ensures i < |s.filed| && |Sorted(s.filed.Keys)| == |s.filed| && Sorted(s.filed.Keys)[i] == h
  {
    SortedElements(s.filed.Keys);
    assert |s.filed.Keys| == |s.filed|;
    assert h in Sorted(s.filed.Keys);
    i :| 0 <= i < |Sorted(s.filed.Keys)| && Sorted(s.filed.Keys)[i] == h;
  }

  /** What the planner reads from the accounts of a session. */
  lemma Reads(s: Session, c: Credential)
    requires BookOk(s)
    ensures View(s).ReadClaim(ClaimKey(c.hash)).Some? <==> c.hash in s.filed
    ensures View(s).session.terms == s.terms
    ensures View(s).ReadEdge(EdgeKey(c.previousState, c.sequence, c.newState)).None? <==> Unrecorded(s, c)
    ensures View(s).ReadEdge(EdgeKey(c.previousState, c.sequence, c.newState)).Some? ==>
      && c.newState in s.filed.Values
      && View(s).ReadEdge(EdgeKey(c.previousState, c.sequence, c.newState)).value.representative == Rep(s.filed, c.newState)
    ensures c.previousState.Payment? && c.previousState in s.filed.Values ==>
      View(s).ReadEdge(EdgeAddress(c.previousState)).Some?
  {
    hide Eligible, Owed, Tainted, Rep, Wrappers, BookOk, NextKey, PreviousKey;
  }

  /** No account is at the address of the credential's edge. */
  ghost predicate Unrecorded(s: Session, c: Credential)
  {
    var e := c.newState;
    !(e in s.filed.Values && e.Payment? && e.prev == c.previousState && e.sequence == c.sequence)
  }

  /** For a credential whose new state is the hash of its fields, that means the edge is new. */
  lemma UnrecordedIsNew(s: Session, c: Credential)
    requires c.newState == Successor(c)
    ensures Unrecorded(s, c) <==> IsNewEdge(s, c)
  {
  }

  /** The new claim's own neighbours, the edge's representative, and for a new edge the account of
      the filed payment it continues. */
  ghost function RightAccounts(s: Session, c: Credential): SubmitAccounts
  {
    SubmitAccounts(
      c.merchant, ClaimKey(c.hash), EdgeKey(c.previousState, c.sequence, c.newState),
      ClaimKey(if Unrecorded(s, c) then c.hash else Rep(s.filed, c.newState)),
      OrSession(PreviousKey(s.filed.Keys, c.hash)), OrSession(NextKey(s.filed.Keys, c.hash)),
      ForkKey(c.previousState, c.sequence),
      if Unrecorded(s, c) && 1 < c.sequence && c.previousState.Payment? then EdgeAddress(c.previousState) else SessionKey)
  }

  /** An unrecorded edge beyond the first payment continues a filed one. */
  ghost predicate ParentKnown(s: Session, c: Credential)
  {
    Unrecorded(s, c) && 1 < c.sequence ==>
      c.previousState in s.filed.Values && c.previousState.Payment? && c.previousState.sequence + 1 == c.sequence
  }

  lemma ChosenIs(s: Session, c: Credential)
    requires BookOk(s) && c.hash !in s.filed
    ensures Choose(View(s), Authoritative(s), c)
         == if ParentKnown(s, c) then Planned(RightAccounts(s, c)) else Refused(ParentNotFound)
  {
    hide BookOk, View, Authoritative, Insertion, FindParent, Rep, NextKey, PreviousKey, AddressOr;
    Reads(s, c);
    InsertionNeighbours(s, c.hash);
    ParentFound(s, c);
  }

  lemma PlanParts(l: Ledger, listing: seq<Listed>, c: Credential)
    requires Plan(l, listing, c).Planned?
    ensures l.ReadClaim(ClaimKey(c.hash)).None? && AssertClaimList(l.session, SortBy(ListedHash, listing))
    ensures Plan(l, listing, c) == Choose(l, SortBy(ListedHash, listing), c)
  {
  }

  /** The accounts of every session, as the program stores them. */
  ghost function Ledgers(w: World): map<nat, Ledger> { map sid | sid in w.sessions :: View(w.sessions[sid]) }

  /** Whatever plan names over authentic accounts is right, and a credential that is not for a session
      of the owner or continues no filed payment is never planned. */
  lemma PlanIsRight(w: World, q: Request, observedGenesis: nat, listing: seq<Listed>)
    requires WorldOk(w) && PlanRequest(w.config, observedGenesis, w.owner, Ledgers(w), listing, q).Planned?
    requires q.session.sessionId in w.sessions ==> Authentic(w.sessions[q.session.sessionId], listing)
    ensures var c := q.credential;
      && c.sessionId in w.sessions && c.payer == w.owner && c.signed
      && var s := w.sessions[c.sessionId];
      && c.payerDeviceKey == s.terms.device && c.hash !in s.filed && ParentKnown(s, c)
      && PlanRequest(w.config, observedGenesis, w.owner, Ledgers(w), listing, q).accounts == RightAccounts(s, c)
  {
    var sid, c := q.session.sessionId, q.credential;
    ScreenedParts(w, q, observedGenesis, listing);
    hide *;
    NamesRight(w, sid, c, listing);
  }

  lemma ScreenedParts(w: World, q: Request, observedGenesis: nat, listing: seq<Listed>)
    requires PlanRequest(w.config, observedGenesis, w.owner, Ledgers(w), listing, q).Planned?
    ensures var sid, c := q.session.sessionId, q.credential;
      && sid == c.sessionId && sid in w.sessions && c.payer == w.owner && c.signed
      && PlanRequest(w.config, observedGenesis, w.owner, Ledgers(w), listing, q) == Plan(View(w.sessions[sid]), listing, c)
      && c.payerDeviceKey == w.sessions[sid].terms.device
  {
    ScreenIs(w.config, observedGenesis, q);
    hide Screen, Plan, View;
    SameDevice(w.sessions[q.session.sessionId], listing, q.credential);
  }

  lemma SameDevice(s: Session, listing: seq<Listed>, c: Credential)
    requires Plan(View(s), listing, c).Planned?
    ensures c.payerDeviceKey == s.terms.device
  {
    hide Choose, AssertClaimList, ClaimsView, EdgesView, ForksView, Forked, Complete, HeadKey, TailKey;
  }

  lemma ScreenIs(config: Config, observedGenesis: nat, q: Request)
    requires Screen(config, observedGenesis, q).None?
    ensures q.session == SessionSeed(q.credential.payer, q.credential.sessionId) && q.credential.signed
  {
  }

  lemma NamesRight(w: World, sid: nat, c: Credential, listing: seq<Listed>)
    requires WorldOk(w) && sid in w.sessions && Authentic(w.sessions[sid], listing)
    requires Plan(View(w.sessions[sid]), listing, c).Planned?
    ensures var s := w.sessions[sid];
      && c.hash !in s.filed && ParentKnown(s, c)
      && Plan(View(s), listing, c).accounts == RightAccounts(s, c)
  {
    var s := w.sessions[sid];
    OpenSession(w, sid);
    PlanParts(View(s), listing, c);
    hide WorldOk, SessionIn, BookOk, PhaseOk, View, AssertClaimList, Authoritative, SortBy, Choose, ParentKnown, RightAccounts,
         Authentic, Plan;
    ListCheckExact(s, listing);
    Reads(s, c);
    if c.hash !in s.filed { ChosenIs(s, c); }
  }

  /** The request a client makes for a credential. */
  function RequestFor(config: Config, c: Credential): Request
  {
    var session := SessionSeed(c.payer, c.sessionId);
    Request(config.networkId, config.clusterGenesisHash, config.programId, c, c.hash, session, (session, c.hash), c.merchant)
  }

  /** Whenever some accounts make the submission succeed, the plan on a complete listing is the only
      such choice: it names the same accounts in every position the program looks at. */
  lemma PlanIsTheOnlyOne(w: World, sid: nat, c: Credential, listing: seq<Listed>, a: SubmitAccounts)
    requires WorldOk(w) && sid in w.sessions && SortBy(ListedHash, listing) == Authoritative(w.sessions[sid])
    requires CanSubmit(w, sid, c, a)
    ensures var p := PlanRequest(w.config, w.config.clusterGenesisHash, w.owner, Ledgers(w), listing, RequestFor(w.config, c));
      && p.Planned? && CanSubmit(w, sid, c, p.accounts)
      && p.accounts == a.(parent := if IsNewEdge(w.sessions[sid], c) then a.parent else SessionKey)
  {
    Passes(w, sid, c, listing, a);
    hide *;
    NamesOnly(w, sid, c, listing, a);
  }

  lemma Passes(w: World, sid: nat, c: Credential, listing: seq<Listed>, a: SubmitAccounts)
    requires WorldOk(w) && sid in w.sessions && CanSubmit(w, sid, c, a)
    ensures PlanRequest(w.config, w.config.clusterGenesisHash, w.owner, Ledgers(w), listing, RequestFor(w.config, c))
         == Plan(View(w.sessions[sid]), listing, c)
  {
    OwnSession(w, sid);
    SamePayload(w, sid, c, a);
    PayloadParts(w, sid, c, a);
    hide WorldOk, CanSubmit, Plan, View, Screen, PayloadOk, Ledgers;
    ScreenPasses(w.config, w.sessions[sid].terms, c.merchant, w.clock, c);
    LedgerOf(w, sid);
  }

  lemma LedgerOf(w: World, sid: nat)
    requires sid in w.sessions
    ensures sid in Ledgers(w) && Ledgers(w)[sid] == View(w.sessions[sid])
  {
    hide View;
  }

  lemma OwnSession(w: World, sid: nat)
    requires WorldOk(w) && sid in w.sessions
    ensures w.sessions[sid].terms.owner == w.owner && w.sessions[sid].terms.sessionId == sid
  {
    OpenSession(w, sid);
    hide WorldOk, SessionOk, Forked;
  }

  lemma ScreenPasses(config: Config, t: Terms, merchant: nat, now: int, c: Credential)
    requires c.signed && PayloadOk(config, t, merchant, now, c)
    ensures Screen(config, config.clusterGenesisHash, RequestFor(config, c)).None?
    ensures c.payer == t.owner && c.sessionId == t.sessionId
  {
  }

  lemma NamesOnly(w: World, sid: nat, c: Credential, listing: seq<Listed>, a: SubmitAccounts)
    requires WorldOk(w) && sid in w.sessions && SortBy(ListedHash, listing) == Authoritative(w.sessions[sid])
    requires CanSubmit(w, sid, c, a)
    ensures var p := Plan(View(w.sessions[sid]), listing, c);
      && p.Planned? && CanSubmit(w, sid, c, p.accounts)
      && p.accounts == a.(parent := if IsNewEdge(w.sessions[sid], c) then a.parent else SessionKey)
  {
    var s := w.sessions[sid];
    OpenSession(w, sid);
    AuthoritativePasses(s);
    PayloadParts(w, sid, c, a);
    OnlyAccounts(w, sid, c, a);
    UnrecordedIsNew(s, c);
    hide WorldOk, SessionIn, BookOk, PhaseOk, View, AssertClaimList, Authoritative, SortBy, Choose, RightAccounts, CanSubmit,
         IsNewEdge, Unrecorded, ParentKnown;
    Reads(s, c);
    ChosenIs(s, c);
  }

  /** Accepted accounts are the right ones. */
  lemma OnlyAccounts(w: World, sid: nat, c: Credential, a: SubmitAccounts)
    requires CanSubmit(w, sid, c, a)
    ensures var s := w.sessions[sid];
      && ParentKnown(s, c) && CanSubmit(w, sid, c, RightAccounts(s, c))
      && RightAccounts(s, c) == a.(parent := if IsNewEdge(s, c) then a.parent else SessionKey)
  {
    PayloadParts(w, sid, c, a);
    UnrecordedIsNew(w.sessions[sid], c);
    hide PayloadOk, CountersFit, Rep, PreviousKey, NextKey, Unrecorded, IsNewEdge;
    SamePayload(w, sid, c, a);
  }

  lemma SamePayload(w: World, sid: nat, c: Credential, a: SubmitAccounts)
    requires CanSubmit(w, sid, c, a)
    ensures a.merchant == c.merchant && PayloadOk(w.config, w.sessions[sid].terms, c.merchant, w.clock, c)
  {
    hide ParentOk, CountersFit, Rep, PreviousKey, NextKey;
  }

  lemma PayloadParts(w: World, sid: nat, c: Credential, a: SubmitAccounts)
    requires CanSubmit(w, sid, c, a)
    ensures var s := w.sessions[sid];
      && c.domain.networkId == w.config.networkId && c.domain.clusterGenesisHash == w.config.clusterGenesisHash
      && c.domain.programId == w.config.programId && c.domain.sessionId == c.sessionId == s.terms.sessionId
      && c.payer == s.terms.owner && c.payerDeviceKey == s.terms.device && a.merchant == c.merchant
      && c.newState == Successor(c) && 0 < c.sequence && c.hash !in s.filed && c.signed
  {
    hide ParentOk, CountersFit, Rep, PreviousKey, NextKey;
  }

  /** A planned request is one for this environment and this cluster, names the accounts derived from its
      own credential, and that is a signed payment credential of this program's domain. */
  lemma PlannedMeans(config: Config, observedGenesis: nat, owner: nat, ledgers: map<nat, Ledger>, listing: seq<Listed>, q: Request)
    requires PlanRequest(config, observedGenesis, owner, ledgers, listing, q).Planned?
    ensures var c := q.credential;
      && q.networkId == config.networkId && q.programId == config.programId
      && q.clusterGenesisHash == observedGenesis == config.clusterGenesisHash
      && q.credentialHash == c.hash && q.merchant == c.merchant && c.signed && c.payer == owner
      && q.session == SessionSeed(c.payer, c.sessionId) && q.claim == (SessionSeed(c.payer, c.sessionId), c.hash)
      && c.domain == Domain(config.header, 5, config.networkId, config.clusterGenesisHash, config.programId, c.sessionId)
      && c.sessionId in ledgers && ClaimKey(c.hash).hash !in ledgers[c.sessionId].claims
      && ledgers[c.sessionId].session.terms.sessionId == c.sessionId && ledgers[c.sessionId].session.terms.owner == c.payer
      && ledgers[c.sessionId].session.terms.device == c.payerDeviceKey
  {
    hide Choose, AssertClaimList, SortBy;
  }

  /** Any one thing wrong with a planned request, and it is refused: with the code of that thing. */
  lemma SpoiledRequest(config: Config, observedGenesis: nat, owner: nat, ledgers: map<nat, Ledger>, listing: seq<Listed>, q: Request, x: nat)
    requires PlanRequest(config, observedGenesis, owner, ledgers, listing, q).Planned?
    ensures x != config.networkId ==>
      PlanRequest(config, observedGenesis, owner, ledgers, listing, q.(networkId := x)) == Refused(DomainMismatch)
    ensures x != config.clusterGenesisHash ==>
      && PlanRequest(config, observedGenesis, owner, ledgers, listing, q.(clusterGenesisHash := x)) == Refused(DomainMismatch)
      && PlanRequest(config, x, owner, ledgers, listing, q) == Refused(RpcClusterMismatch)
    ensures x != config.programId ==>
      PlanRequest(config, observedGenesis, owner, ledgers, listing, q.(programId := x)) == Refused(DomainMismatch)
    ensures x != q.credential.hash ==>
      && PlanRequest(config, observedGenesis, owner, ledgers, listing, q.(credentialHash := x)) == Refused(HashMismatch)
      && PlanRequest(config, observedGenesis, owner, ledgers, listing, q.(claim := (q.session, x))) == Refused(DerivationMismatch)
    ensures PlanRequest(config, observedGenesis, owner, ledgers, listing, q.(credential := q.credential.(signed := false)))
         == Refused(PlanError.InvalidSignature)
    ensures x != q.session.owner ==>
      PlanRequest(config, observedGenesis, owner, ledgers, listing, q.(session := q.session.(owner := x))) == Refused(DerivationMismatch)
    ensures x != q.session.sessionId ==>
      PlanRequest(config, observedGenesis, owner, ledgers, listing, q.(session := q.session.(sessionId := x))) == Refused(DerivationMismatch)
    ensures x != q.merchant ==>
      PlanRequest(config, observedGenesis, owner, ledgers, listing, q.(merchant := x)) == Refused(DerivationMismatch)
    ensures x != owner ==> PlanRequest(config, observedGenesis, x, ledgers, listing, q) == Refused(PlanError.AccountNotFound)
    ensures PlanRequest(config, observedGenesis, owner, ledgers - {q.session.sessionId}, listing, q) == Refused(PlanError.AccountNotFound)
  {
    hide Choose, AssertClaimList, SortBy;
  }
}
