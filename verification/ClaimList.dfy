/** The doubly linked claim list of a session (lib.rs insert_claim_in_order): links kept in account
    records by local surgery are always the neighbours in credential-hash order. */
module ClaimList {
  import opened Collections
  import opened ProRata
  import opened States
  import opened Protocol
  import opened Accounts

  /** Every claim but a new one links to its neighbours in hash order. */
  ghost predicate Listed(claims: map<nat, Claim>, keys: set<nat>)
  {
    forall k :: k in keys ==>
      && k in claims && claims[k].credentialHash == k
      && claims[k].previousClaim == PreviousKey(keys, k) && claims[k].nextClaim == NextKey(keys, k)
  }

  /** A listed claim after h is spliced in next to it, or elsewhere. */
  ghost function Relinked(claim: Claim, k: nat, keys: set<nat>, h: nat): Claim
  {
    claim.(nextClaim := if PreviousKey(keys, h) == ClaimKey(k) then ClaimKey(h) else claim.nextClaim,
           previousClaim := if NextKey(keys, h) == ClaimKey(k) then ClaimKey(h) else claim.previousClaim)
  }

  /** The list with h spliced in between its neighbours. */
  ghost function Spliced(claims: map<nat, Claim>, keys: set<nat>, h: nat): map<nat, Claim>
  {
    map k | k in claims ::
      if k == h then claims[k].(previousClaim := PreviousKey(keys, h), nextClaim := NextKey(keys, h))
      else Relinked(claims[k], k, keys, h)
  }

  lemma NextIs(keys: set<nat>, h: nat, n: nat)
    ensures NextKey(keys, h) == ClaimKey(n) <==> n in keys && h < n && forall k :: k in keys && h < k ==> n <= k
  {
    if n in keys && h < n && forall k :: k in keys && h < k ==> n <= k {
      assert n in Above(keys, h);
      assert Min(Above(keys, h)) in Above(keys, h);
    }
    if NextKey(keys, h) == ClaimKey(n) {
      assert n in Above(keys, h);
      assert forall k :: k in keys && h < k ==> k in Above(keys, h);
    }
  }

  lemma PreviousIs(keys: set<nat>, h: nat, p: nat)
    ensures PreviousKey(keys, h) == ClaimKey(p) <==> p in keys && p < h && forall k :: k in keys && k < h ==> k <= p
  {
    if p in keys && p < h && forall k :: k in keys && k < h ==> k <= p {
      assert p in Below(keys, h);
      assert Max(Below(keys, h)) in Below(keys, h);
    }
    if PreviousKey(keys, h) == ClaimKey(p) {
      assert p in Below(keys, h);
      assert forall k :: k in keys && k < h ==> k in Below(keys, h);
    }
  }

  lemma NextNone(keys: set<nat>, h: nat)
    ensures NextKey(keys, h) == NoKey <==> forall k :: k in keys ==> k <= h
    ensures NextKey(keys, h) == NoKey || NextKey(keys, h).ClaimKey?
  {
    assert forall k :: k in keys && h < k ==> k in Above(keys, h);
  }

  lemma PreviousNone(keys: set<nat>, h: nat)
    ensures PreviousKey(keys, h) == NoKey <==> forall k :: k in keys ==> h <= k
    ensures PreviousKey(keys, h) == NoKey || PreviousKey(keys, h).ClaimKey?
  {
    assert forall k :: k in keys && k < h ==> k in Below(keys, h);
  }

  /** Adding h changes the next link of its predecessor only. */
  lemma NextAfterInsert(keys: set<nat>, h: nat, k: nat)
    requires h !in keys && k in keys
    ensures NextKey(keys + {h}, k) == if PreviousKey(keys, h) == ClaimKey(k) then ClaimKey(h) else NextKey(keys, k)
  {
    PreviousIs(keys, h, k);
    if PreviousKey(keys, h) == ClaimKey(k) {
      NextIs(keys + {h}, k, h);
    } else {
      NextNone(keys, k);
      NextNone(keys + {h}, k);
      if n :| NextKey(keys, k) == ClaimKey(n) {
        NextIs(keys, k, n);
        NextIs(keys + {h}, k, n);
      }
    }
  }

  lemma PreviousAfterInsert(keys: set<nat>, h: nat, k: nat)
    requires h !in keys && k in keys
    ensures PreviousKey(keys + {h}, k) == if NextKey(keys, h) == ClaimKey(k) then ClaimKey(h) else PreviousKey(keys, k)
  {
    NextIs(keys, h, k);
    if NextKey(keys, h) == ClaimKey(k) {
      PreviousIs(keys + {h}, k, h);
    } else {
      PreviousNone(keys, k);
      PreviousNone(keys + {h}, k);
      if p :| PreviousKey(keys, k) == ClaimKey(p) {
        PreviousIs(keys, k, p);
        PreviousIs(keys + {h}, k, p);
      }
    }
  }

  lemma SelfAfterInsert(keys: set<nat>, h: nat)
    ensures NextKey(keys + {h}, h) == NextKey(keys, h)
    ensures PreviousKey(keys + {h}, h) == PreviousKey(keys, h)
  {
    assert Above(keys + {h}, h) == Above(keys, h);
    assert Below(keys + {h}, h) == Below(keys, h);
  }

  lemma EndsAfterInsert(keys: set<nat>, h: nat)
    requires h !in keys
    ensures HeadKey(keys + {h}) == if PreviousKey(keys, h) == NoKey then ClaimKey(h) else HeadKey(keys)
    ensures TailKey(keys + {h}) == if NextKey(keys, h) == NoKey then ClaimKey(h) else TailKey(keys)
  {
    PreviousNone(keys, h);
    NextNone(keys, h);
    var all := keys + {h};
    assert Min(all) in all && Max(all) in all;
    if keys != {} {
      assert Min(keys) in all && Max(keys) in all;
    }
  }

  lemma HeadIs(keys: set<nat>, n: nat)
    ensures HeadKey(keys) == ClaimKey(n) <==> n in keys && forall k :: k in keys ==> n <= k
    ensures TailKey(keys) == ClaimKey(n) <==> n in keys && forall k :: k in keys ==> k <= n
    ensures HeadKey(keys) == NoKey <==> keys == {}
  {
    if keys != {} {
      assert Min(keys) in keys && Max(keys) in keys;
    }
  }

  lemma NeighboursListed(keys: set<nat>, h: nat)
    ensures PreviousKey(keys, h) == NoKey || (PreviousKey(keys, h).ClaimKey? && PreviousKey(keys, h).hash in keys)
    ensures NextKey(keys, h) == NoKey || (NextKey(keys, h).ClaimKey? && NextKey(keys, h).hash in keys)
    ensures HeadKey(keys) == NoKey || (HeadKey(keys).ClaimKey? && HeadKey(keys).hash in keys)
    ensures TailKey(keys) == NoKey || (TailKey(keys).ClaimKey? && TailKey(keys).hash in keys)
    ensures HeadKey(keys) == NoKey <==> keys == {}
    ensures TailKey(keys) == NoKey <==> keys == {}
  {
    assert Below(keys, h) != {} ==> Max(Below(keys, h)) in Below(keys, h);
    assert Above(keys, h) != {} ==> Min(Above(keys, h)) in Above(keys, h);
  }

  /** Past the last claim the predecessor is the tail; before the first the successor is the head. */
  lemma EndNeighbours(keys: set<nat>, h: nat)
    requires h !in keys && keys != {}
    ensures NextKey(keys, h) == NoKey ==> PreviousKey(keys, h) == TailKey(keys)
    ensures PreviousKey(keys, h) == NoKey ==> NextKey(keys, h) == HeadKey(keys)
  {
    NextNone(keys, h);
    PreviousNone(keys, h);
    if NextKey(keys, h) == NoKey { PreviousIs(keys, h, Max(keys)); }
    if PreviousKey(keys, h) == NoKey { NextIs(keys, h, Min(keys)); }
  }

  /** Splicing keeps the links right. */
  lemma SplicedLinked(claims: map<nat, Claim>, keys: set<nat>, h: nat)
    requires h !in keys && claims.Keys == keys + {h} && Listed(claims, keys) && claims[h].credentialHash == h
    ensures Listed(Spliced(claims, keys, h), keys + {h})
  {
    hide NextKey, PreviousKey;
    SelfAfterInsert(keys, h);
    forall k | k in keys ensures
      && Spliced(claims, keys, h)[k].nextClaim == NextKey(keys + {h}, k)
      && Spliced(claims, keys, h)[k].previousClaim == PreviousKey(keys + {h}, k)
    {
      NextAfterInsert(keys, h, k);
      PreviousAfterInsert(keys, h, k);
    }
  }

  /** The neighbours a caller must present to insert h, and nothing else is accepted. */
  lemma NeighboursBetween(claims: map<nat, Claim>, keys: set<nat>, h: nat, p: nat, n: nat)
    requires h !in keys && claims.Keys == keys + {h} && Listed(claims, keys) && p in keys && n in keys
    ensures PreviousKey(keys, h) == ClaimKey(p) && NextKey(keys, h) == ClaimKey(n)
       <==> claims[p].nextClaim == ClaimKey(n) && claims[n].previousClaim == ClaimKey(p) && p < h < n
  {
    hide NextKey, PreviousKey;
    PreviousIs(keys, h, p);
    NextIs(keys, h, n);
    NextIs(keys, p, n);
    PreviousIs(keys, n, p);
    assert claims[p].nextClaim == NextKey(keys, p) && claims[n].previousClaim == PreviousKey(keys, n);
  }

  lemma BeforeHead(claims: map<nat, Claim>, h: nat, n: nat, keys: set<nat>)
    requires h !in keys && n in claims && Listed(claims, keys) && claims.Keys == keys + {h} && claims[h].credentialHash == h
    requires HeadKey(keys) == ClaimKey(n)
    ensures claims[n].previousClaim == NoKey && h < claims[n].credentialHash
       <==> PreviousKey(keys, h) == NoKey && NextKey(keys, h) == ClaimKey(n)
  {
    HeadIs(keys, n);
    hide NextKey, PreviousKey, HeadKey;
    NextIs(keys, h, n);
    PreviousNone(keys, h);
    PreviousNone(keys, n);
  }

  lemma AfterTail(claims: map<nat, Claim>, h: nat, p: nat, keys: set<nat>)
    requires h !in keys && p in claims && Listed(claims, keys) && claims.Keys == keys + {h} && claims[h].credentialHash == h
    requires TailKey(keys) == ClaimKey(p)
    ensures claims[p].nextClaim == NoKey && claims[p].credentialHash < h
       <==> NextKey(keys, h) == NoKey && PreviousKey(keys, h) == ClaimKey(p)
  {
    HeadIs(keys, p);
    hide NextKey, PreviousKey, TailKey;
    PreviousIs(keys, h, p);
    NextNone(keys, h);
    NextNone(keys, p);
  }

  /** Links the new claim before the head of the list, if it belongs there. */
  method LinkFirst(claims: map<nat, Claim>, h: nat, head: Key, ghost keys: set<nat>)
    returns (r: Outcome, claims': map<nat, Claim>, claim: Claim)
    requires h !in keys && claims.Keys == keys + {h} && Listed(claims, keys)
    requires claims[h].credentialHash == h && claims[h].previousClaim == claims[h].nextClaim == NoKey
    requires keys != {} && head == HeadKey(keys)
    ensures r.Ok? <==> PreviousKey(keys, h) == NoKey && head == NextKey(keys, h)
    ensures r.Ok? ==> claims'[h := claim] == Spliced(claims, keys, h)
  {
    hide NextKey, PreviousKey, HeadKey;
    NeighboursListed(keys, h);
    claims', claim := claims, claims[h];
    var next := claims[head.hash];
    BeforeHead(claims, h, head.hash, keys);
    hide Listed;
    if !(next.previousClaim == NoKey && claim.credentialHash < next.credentialHash) {
      return Err(InvalidClaimOrder), claims', claim;
    }
    claims' := claims'[head.hash := next.(previousClaim := ClaimKey(h))];
    claim := claim.(nextClaim := head);
    r := Ok;
  }

  /** Links the new claim after the tail of the list, if it belongs there. */
  method LinkLast(claims: map<nat, Claim>, h: nat, tail: Key, ghost keys: set<nat>)
    returns (r: Outcome, claims': map<nat, Claim>, claim: Claim)
    requires h !in keys && claims.Keys == keys + {h} && Listed(claims, keys)
    requires claims[h].credentialHash == h && claims[h].previousClaim == claims[h].nextClaim == NoKey
    requires keys != {} && tail == TailKey(keys)
    ensures r.Ok? <==> NextKey(keys, h) == NoKey && tail == PreviousKey(keys, h)
    ensures r.Ok? ==> claims'[h := claim] == Spliced(claims, keys, h)
  {
    hide NextKey, PreviousKey, TailKey;
    NeighboursListed(keys, h);
    claims', claim := claims, claims[h];
    var previous := claims[tail.hash];
    AfterTail(claims, h, tail.hash, keys);
    hide Listed;
    if !(previous.nextClaim == NoKey && previous.credentialHash < claim.credentialHash) {
      return Err(InvalidClaimOrder), claims', claim;
    }
    claims' := claims'[tail.hash := previous.(nextClaim := ClaimKey(h))];
    claim := claim.(previousClaim := tail);
    r := Ok;
  }

  /** Links the new claim between two listed claims, if they are adjacent and enclose it. */
  method LinkBetween(claims: map<nat, Claim>, h: nat, predecessor: Key, successor: Key, ghost keys: set<nat>)
    returns (r: Outcome, claims': map<nat, Claim>, claim: Claim)
    requires h !in keys && claims.Keys == keys + {h} && Listed(claims, keys)
    requires claims[h].credentialHash == h && claims[h].previousClaim == claims[h].nextClaim == NoKey
    requires predecessor.ClaimKey? && predecessor.hash in claims && successor.ClaimKey? && successor.hash in claims
    ensures r.Ok? <==> predecessor == PreviousKey(keys, h) && successor == NextKey(keys, h)
    ensures r.Ok? ==> claims'[h := claim] == Spliced(claims, keys, h)
  {
    hide NextKey, PreviousKey;
    claims', claim := claims, claims[h];
    NeighboursListed(keys, h);
    var previous, next := claims[predecessor.hash], claims[successor.hash];
    if predecessor.hash != h && successor.hash != h {
      NeighboursBetween(claims, keys, h, predecessor.hash, successor.hash);
    }
    if !(previous.nextClaim == successor && next.previousClaim == predecessor
         && previous.credentialHash < claim.credentialHash && claim.credentialHash < next.credentialHash) {
      return Err(InvalidClaimOrder), claims', claim;
    }
    claims' := claims'[predecessor.hash := previous.(nextClaim := ClaimKey(h))];
    claims' := claims'[successor.hash := next.(previousClaim := ClaimKey(h))];
    claim := claim.(previousClaim := predecessor, nextClaim := successor);
    r := Ok;
    assert claims'[h := claim] == Spliced(claims, keys, h);
  }

  method InsertClaimInOrder(session: OfflineSession, claims: map<nat, Claim>, h: nat, predecessor: Key, successor: Key,
                            ghost keys: set<nat>)
    returns (r: Outcome, session': OfflineSession, claims': map<nat, Claim>)
    requires h !in keys && claims.Keys == keys + {h} && Listed(claims, keys)
    requires claims[h].credentialHash == h && claims[h].previousClaim == claims[h].nextClaim == NoKey
    requires session.claimHead == HeadKey(keys) && session.claimTail == TailKey(keys)
    requires session.submittedClaimCount == |keys|
    ensures r.Ok? <==> && predecessor == OrSession(PreviousKey(keys, h))
                       && successor == OrSession(NextKey(keys, h))
                       && |keys| < U64_MAX
    ensures r.Ok? ==> claims' == Spliced(claims, keys, h)
    ensures r.Ok? ==> session' == session.(claimHead := HeadKey(keys + {h}), claimTail := TailKey(keys + {h}),
                                           submittedClaimCount := |keys| + 1)
  {
    hide NextKey, PreviousKey, HeadKey, TailKey;
    session', claims' := session, claims;
    var claim := claims[h];
    EndsAfterInsert(keys, h);
    NeighboursListed(keys, h);
    PreviousNone(keys, h);
    NextNone(keys, h);
    if session.submittedClaimCount == 0 && session.claimHead == NoKey {
      assert keys == {};
      if predecessor != SessionKey || successor != SessionKey { return Err(InvalidClaimOrder), session', claims'; }
      assert claims'[h := claim] == Spliced(claims, keys, h);
      session' := session'.(claimHead := ClaimKey(h), claimTail := ClaimKey(h));
    } else {
      assert keys != {};
      EndNeighbours(keys, h);
      if predecessor == SessionKey && successor == SessionKey { return Err(InvalidClaimOrder), session', claims'; }
      if predecessor == SessionKey {
        if successor != session.claimHead { return Err(InvalidClaimOrder), session', claims'; }
        r, claims', claim := LinkFirst(claims', h, successor, keys);
        if r.Err? { return; }
        session' := session'.(claimHead := ClaimKey(h));
      } else if successor == SessionKey {
        if predecessor != session.claimTail { return Err(InvalidClaimOrder), session', claims'; }
        r, claims', claim := LinkLast(claims', h, predecessor, keys);
        if r.Err? { return; }
        session' := session'.(claimTail := ClaimKey(h));
      } else {
        if !predecessor.ClaimKey? || predecessor.hash !in claims' || !successor.ClaimKey? || successor.hash !in claims' {
          return Err(InvalidClaimAccount), session', claims';
        }
        r, claims', claim := LinkBetween(claims', h, predecessor, successor, keys);
        if r.Err? { return; }
      }
    }
    claims' := claims'[h := claim];
    if session'.submittedClaimCount >= U64_MAX { return Err(ArithmeticOverflow), session', claims'; }
    session' := session'.(submittedClaimCount := session'.submittedClaimCount + 1);
    r := Ok;
  }
}
