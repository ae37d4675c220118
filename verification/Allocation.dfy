/** allocateDeterministicCoverage (packages/reconciliation): the off-chain mirror of pro-rata
    allocation, over claims in any order. */
module Allocation {
  import opened Collections
  import opened ProRata

  datatype EligibleClaim = EligibleClaim(hash: nat, merchant: nat, amount: int)

  datatype CoverageAllocation = CoverageAllocation(hash: nat, merchant: nat, amount: int, base: int, dust: int, payout: int)

  datatype CoverageResult = CoverageResult(exposure: int, cap: int, coverage: int, baseTotal: int, dustUnits: int,
                                           totalPayout: int, insolvent: bool, allocations: seq<CoverageAllocation>)

  datatype AllocationError =
    | CapOutOfRange | AmountOutOfRange | DuplicateEdge | ExposureOverflow
    | InvalidDustRemainder | AllocationExceedsClaim | CoverageInvariantViolation

  datatype Outcome = Computed(result: CoverageResult) | Failed(error: AllocationError)

  function ClaimHash(c: EligibleClaim): nat { c.hash }

  function SortByHash(q: seq<EligibleClaim>): seq<EligibleClaim> { SortBy(ClaimHash, q) }

  lemma SortedByHash(q: seq<EligibleClaim>)
    ensures forall i, j :: 0 <= i < j < |q| ==> |SortByHash(q)| == |q| && SortByHash(q)[i].hash <= SortByHash(q)[j].hash
    ensures multiset(SortByHash(q)) == multiset(q)
  {
    SortSorted(ClaimHash, q);
    assert |multiset(SortByHash(q))| == |SortByHash(q)| && |multiset(q)| == |q|;
  }

  // ----- Claims as a map -----

  predicate DistinctHashes(q: seq<EligibleClaim>) { forall i, j :: 0 <= i < j < |q| ==> q[i].hash != q[j].hash }

  /** Values listed beside claims, by credential hash. */
  ghost function ByHash(q: seq<EligibleClaim>, vs: seq<nat>): map<nat, nat>
    requires |q| == |vs|
  {
    if q == [] then map[] else ByHash(q[..|q| - 1], vs[..|q| - 1])[q[|q| - 1].hash := vs[|q| - 1]]
  }

  function SumOf(vs: seq<nat>): nat
  {
    if vs == [] then 0 else SumOf(vs[..|vs| - 1]) + vs[|vs| - 1]
  }

  function Hashes(q: seq<EligibleClaim>): set<nat> { set c | c in q :: c.hash }

  lemma {:induction false} ByHashKeys(q: seq<EligibleClaim>, vs: seq<nat>)
    requires |q| == |vs|
    ensures ByHash(q, vs).Keys == Hashes(q)
  {
    if q != [] {
      ByHashKeys(q[..|q| - 1], vs[..|q| - 1]);
      assert q == q[..|q| - 1] + [q[|q| - 1]];
      assert Hashes(q) == Hashes(q[..|q| - 1]) + {q[|q| - 1].hash};
    }
  }

  lemma LastIsNew(q: seq<EligibleClaim>)
    requires DistinctHashes(q) && q != []
    ensures q[|q| - 1].hash !in Hashes(q[..|q| - 1]) && DistinctHashes(q[..|q| - 1])
  {
    forall c | c in q[..|q| - 1] ensures c.hash != q[|q| - 1].hash {
      var i :| 0 <= i < |q| - 1 && q[i] == c;
    }
  }

  lemma {:induction false} ByHashSum(q: seq<EligibleClaim>, vs: seq<nat>)
    requires |q| == |vs| && DistinctHashes(q)
    ensures Sum(ByHash(q, vs)) == SumOf(vs) && |ByHash(q, vs)| == |q|
  {
    if q == [] {
      SumEmpty();
    } else {
      var p, us, h, v := q[..|q| - 1], vs[..|q| - 1], q[|q| - 1].hash, vs[|q| - 1];
      LastIsNew(q);
      ByHashKeys(p, us);
      ByHashSum(p, us);
      hide Sum, Hashes, DistinctHashes;
      SumAdd(ByHash(p, us), h, v);
      assert ByHash(q, vs).Keys == ByHash(p, us).Keys + {h};
      assert |ByHash(q, vs).Keys| == |ByHash(p, us).Keys| + 1;
    }
  }

  lemma {:induction false} ByHashAt(q: seq<EligibleClaim>, vs: seq<nat>, i: nat)
    requires |q| == |vs| && DistinctHashes(q) && i < |q|
    ensures q[i].hash in ByHash(q, vs) && ByHash(q, vs)[q[i].hash] == vs[i]
    decreases |q|
  {
    if i < |q| - 1 {
      LastIsNew(q);
      ByHashAt(q[..|q| - 1], vs[..|q| - 1], i);
    }
  }

  function AmountsIn(q: seq<EligibleClaim>): seq<nat> { seq(|q|, i requires 0 <= i < |q| => if q[i].amount < 0 then 0 else q[i].amount) }

  /** The claims as a map from credential hash to amount. */
  ghost function AmountsOf(q: seq<EligibleClaim>): map<nat, nat> { ByHash(q, AmountsIn(q)) }

  /** Exactly the inputs that are accepted. */
  ghost predicate Acceptable(q: seq<EligibleClaim>, cap: int)
  {
    && 0 <= cap <= U64_MAX && DistinctHashes(q)
    && (forall i :: 0 <= i < |q| ==> 0 < q[i].amount <= U64_MAX)
    && SumOf(AmountsIn(q)) <= U64_MAX
  }

  lemma DistinctPermuted(p: seq<EligibleClaim>, q: seq<EligibleClaim>)
    requires multiset(p) == multiset(q) && DistinctHashes(p)
    ensures DistinctHashes(q)
  {
    assert forall c :: c in p <==> c in multiset(p);
    assert forall c :: c in q <==> c in multiset(q);
    forall i, j | 0 <= i < j < |q| ensures q[i].hash != q[j].hash {
      if q[i] == q[j] { TwiceIn(q, i, j); OnceIn(p, q[i]); }
      assert q[i] in p && q[j] in p;
      var a, b :| 0 <= a < |p| && 0 <= b < |p| && p[a] == q[i] && p[b] == q[j];
    }
  }

  lemma TwiceIn(q: seq<EligibleClaim>, i: nat, j: nat)
    requires i < j < |q| && q[i] == q[j]
    ensures 2 <= multiset(q)[q[i]]
  {
    assert q == q[..j] + [q[j]] + q[j + 1..];
    assert q[i] in q[..j];
  }

  lemma {:induction false} OnceIn(q: seq<EligibleClaim>, c: EligibleClaim)
    requires DistinctHashes(q)
    ensures multiset(q)[c] <= 1
  {
    if q != [] {
      var p := q[..|q| - 1];
      OnceIn(p, c);
      assert q == p + [q[|q| - 1]];
      assert c == q[|q| - 1] ==> c !in p;
    }
  }

  /** The amounts by hash do not depend on the order of the claims. */
  lemma AmountsPermuted(p: seq<EligibleClaim>, q: seq<EligibleClaim>)
    requires multiset(p) == multiset(q) && DistinctHashes(p) && DistinctHashes(q)
    ensures AmountsOf(p) == AmountsOf(q)
  {
    SameHashes(p, q);
    ByHashKeys(p, AmountsIn(p));
    ByHashKeys(q, AmountsIn(q));
    hide ByHash, AmountsIn, DistinctHashes;
    forall h | h in AmountsOf(q) ensures AmountsOf(q)[h] == AmountsOf(p)[h] {
      var c :| c in q && c.hash == h;
      assert c in multiset(q) && c in p;
      AmountAt(q, c);
      AmountAt(p, c);
    }
  }

  lemma SameHashes(p: seq<EligibleClaim>, q: seq<EligibleClaim>)
    requires multiset(p) == multiset(q)
    ensures Hashes(p) == Hashes(q)
  {
    assert forall c :: c in p <==> c in multiset(p);
    assert forall c :: c in q <==> c in multiset(q);
  }

  lemma AmountAt(q: seq<EligibleClaim>, c: EligibleClaim)
    requires DistinctHashes(q) && c in q
    ensures c.hash in AmountsOf(q) && AmountsOf(q)[c.hash] == if c.amount < 0 then 0 else c.amount
  {
    var i :| 0 <= i < |q| && q[i] == c;
    ByHashAt(q, AmountsIn(q), i);
  }

  lemma AcceptablePermuted(p: seq<EligibleClaim>, q: seq<EligibleClaim>, cap: int)
    requires multiset(p) == multiset(q) && Acceptable(p, cap)
    ensures Acceptable(q, cap) && AmountsOf(p) == AmountsOf(q)
  {
    DistinctPermuted(p, q);
    AmountsPermuted(p, q);
    ByHashSum(p, AmountsIn(p));
    ByHashSum(q, AmountsIn(q));
    forall i | 0 <= i < |q| ensures 0 < q[i].amount <= U64_MAX {
      assert q[i] in multiset(q) && q[i] in p;
    }
  }

  // ----- The allocation -----

  /** The checking loop: amounts in range, hashes fresh, and a running total that fits. */
  method CheckClaims(ordered: seq<EligibleClaim>) returns (error: Option<AllocationError>, exposure: nat)
    ensures error.None? <==> Acceptable(ordered, 0)
    ensures error.None? ==> exposure == SumOf(AmountsIn(ordered))
    ensures error.Some? ==> error.value.AmountOutOfRange? || error.value.DuplicateEdge? || error.value.ExposureOverflow?
    ensures error == Some(AmountOutOfRange) ==> exists i :: 0 <= i < |ordered| && (ordered[i].amount <= 0 || U64_MAX < ordered[i].amount)
    ensures error == Some(DuplicateEdge) ==> exists i, j :: 0 <= i < j < |ordered| && ordered[i].hash == ordered[j].hash
    ensures error == Some(ExposureOverflow) ==> U64_MAX < SumOf(AmountsIn(ordered))
  {
    exposure := 0;
    var seen: set<nat> := {};
    var i := 0;
    while i < |ordered|
      invariant 0 <= i <= |ordered|
      invariant Acceptable(ordered[..i], 0) && seen == Hashes(ordered[..i])
      invariant exposure == SumOf(AmountsIn(ordered[..i]))
    {
      var claim := ordered[i];
      PrefixStep(ordered, i);
      if claim.amount < 0 || U64_MAX < claim.amount { return Some(AmountOutOfRange), exposure; }
      if claim.amount == 0 { return Some(AmountOutOfRange), exposure; }
      if claim.hash in seen {
        SeenBefore(ordered, i);
        return Some(DuplicateEdge), exposure;
      }
      seen := seen + {claim.hash};
      exposure := exposure + claim.amount;
      if exposure > U64_MAX {
        PrefixExposure(ordered, i + 1);
        return Some(ExposureOverflow), exposure;
      }
      i := i + 1;
    }
    assert ordered[..i] == ordered;
    error := None;
  }

  lemma SeenBefore(q: seq<EligibleClaim>, i: nat)
    requires i < |q| && q[i].hash in Hashes(q[..i])
    ensures exists j :: 0 <= j < i && q[j].hash == q[i].hash
  {
    var c :| c in q[..i] && c.hash == q[i].hash;
    var j :| 0 <= j < i && q[..i][j] == c;
    assert q[j].hash == q[i].hash;
  }

  lemma PrefixExposure(q: seq<EligibleClaim>, n: nat)
    requires n <= |q|
    ensures SumOf(AmountsIn(q[..n])) <= SumOf(AmountsIn(q))
  {
    assert AmountsIn(q[..n]) == AmountsIn(q)[..n];
    SumOfPrefix(AmountsIn(q), n);
  }

  lemma PrefixStep(q: seq<EligibleClaim>, i: nat)
    requires i < |q|
    ensures Hashes(q[..i + 1]) == Hashes(q[..i]) + {q[i].hash}
    ensures SumOf(AmountsIn(q[..i + 1])) == SumOf(AmountsIn(q[..i])) + if q[i].amount < 0 then 0 else q[i].amount
    ensures Acceptable(q[..i + 1], 0) <==> Acceptable(q[..i], 0) && 0 < q[i].amount <= U64_MAX && q[i].hash !in Hashes(q[..i])
                                           && SumOf(AmountsIn(q[..i + 1])) <= U64_MAX
    ensures !Acceptable(q[..i + 1], 0) ==> !Acceptable(q, 0)
  {
    var p, m := q[..i], q[..i + 1];
    assert m == p + [q[i]];
    assert AmountsIn(m)[..i] == AmountsIn(p);
    PrefixHashes(q, i);
    PrefixAcceptable(q, i + 1);
    hide Hashes;
  }

  lemma PrefixHashes(q: seq<EligibleClaim>, i: nat)
    requires i < |q|
    ensures Hashes(q[..i + 1]) == Hashes(q[..i]) + {q[i].hash}
    ensures DistinctHashes(q[..i + 1]) <==> DistinctHashes(q[..i]) && q[i].hash !in Hashes(q[..i])
  {
    var p, m := q[..i], q[..i + 1];
    assert m == p + [q[i]];
    if DistinctHashes(m) { LastIsNew(m); assert m[..i] == p; }
    if DistinctHashes(p) && q[i].hash !in Hashes(p) {
      forall a, b | 0 <= a < b < |m| ensures m[a].hash != m[b].hash {
        assert p[a] in p;
      }
    }
  }

  lemma PrefixAcceptable(q: seq<EligibleClaim>, n: nat)
    requires n <= |q|
    ensures Acceptable(q, 0) ==> Acceptable(q[..n], 0)
  {
    assert AmountsIn(q[..n]) == AmountsIn(q)[..n];
    SumOfPrefix(AmountsIn(q), n);
  }

  lemma {:induction false} SumOfPrefix(vs: seq<nat>, n: nat)
    requires n <= |vs|
    ensures SumOf(vs[..n]) <= SumOf(vs)
    decreases |vs|
  {
    if n < |vs| {
      SumOfPrefix(vs[..|vs| - 1], n);
      assert vs[..|vs| - 1][..n] == vs[..n];
    } else {
      assert vs[..n] == vs;
    }
  }

  /** What the result says about the claims, in terms of their amounts by hash only. */
  ghost predicate Mirrors(claims: seq<EligibleClaim>, cap: nat, x: CoverageResult)
  {
    var m := AmountsOf(claims);
    && x.exposure == Sum(m) && x.cap == cap && x.coverage == x.totalPayout == Coverage(m, cap)
    && x.baseTotal == BaseTotal(m, cap) && x.dustUnits == Remainder(m, cap) && (x.insolvent <==> cap < Sum(m))
    && |x.allocations| == |claims|
    && (forall i, j :: 0 <= i < j < |x.allocations| ==> x.allocations[i].hash < x.allocations[j].hash)
    && forall i :: 0 <= i < |x.allocations| ==> Share(claims, m, cap, x.allocations[i])
  }

  /** One claim's line: its own merchant and amount, its base share and its payout. */
  ghost predicate Share(claims: seq<EligibleClaim>, m: map<nat, nat>, cap: nat, a: CoverageAllocation)
  {
    && EligibleClaim(a.hash, a.merchant, a.amount) in claims && a.hash in m
    && a.base == Base(m[a.hash], Coverage(m, cap), Sum(m))
    && a.payout == a.base + a.dust == Payout(m, cap, a.hash)
  }

  /** Increasing hashes over acceptable claims. */
  ghost predicate Prepared(claims: seq<EligibleClaim>, ordered: seq<EligibleClaim>, m: map<nat, nat>)
  {
    && Acceptable(ordered, 0) && (forall i, j :: 0 <= i < j < |ordered| ==> ordered[i].hash < ordered[j].hash)
    && multiset(ordered) == multiset(claims) && m == AmountsOf(ordered) == AmountsOf(claims) && Positive(m)
    && Sum(m) == SumOf(AmountsIn(ordered)) && m.Keys == Hashes(ordered)
  }

  lemma Prepare(claims: seq<EligibleClaim>)
    requires Acceptable(SortByHash(claims), 0)
    ensures Prepared(claims, SortByHash(claims), AmountsOf(claims)) && Acceptable(claims, 0)
  {
    var ordered := SortByHash(claims);
    SortedByHash(claims);
    AcceptablePermuted(ordered, claims, 0);
    ByHashKeys(ordered, AmountsIn(ordered));
    ByHashSum(ordered, AmountsIn(ordered));
    forall h | h in AmountsOf(ordered) ensures 0 < AmountsOf(ordered)[h] {
      var c :| c in ordered && c.hash == h;
      AmountAt(ordered, c);
    }
    hide SortByHash, ByHash, AmountsIn;
  }

  lemma PreparedAt(claims: seq<EligibleClaim>, ordered: seq<EligibleClaim>, m: map<nat, nat>, i: nat)
    requires Prepared(claims, ordered, m) && i < |ordered|
    ensures ordered[i].hash in m && m[ordered[i].hash] == ordered[i].amount && Rank(m, ordered[i].hash) == i
    ensures ordered[i] in claims
  {
    AmountAt(ordered, ordered[i]);
    assert ordered[i] in multiset(ordered);
    var hs := seq(|ordered|, j requires 0 <= j < |ordered| => ordered[j].hash);
    forall h ensures h in hs <==> h in m.Keys {
      if h in m.Keys {
        var c :| c in ordered && c.hash == h;
        var j :| 0 <= j < |ordered| && ordered[j] == c;
        assert hs[j] == h;
      }
    }
    SortedRank(m.Keys, hs, i);
  }

  /** A list of values that gives each claim a map's value sums to the map's sum. */
  lemma ListedSum(claims: seq<EligibleClaim>, ordered: seq<EligibleClaim>, m: map<nat, nat>, vs: seq<nat>, target: map<nat, nat>)
    requires Prepared(claims, ordered, m) && |vs| == |ordered| && target.Keys == m.Keys
    requires forall i :: 0 <= i < |ordered| ==> ordered[i].hash in target && target[ordered[i].hash] == vs[i]
    ensures SumOf(vs) == Sum(target)
  {
    hide *;
    PreparedKeys(claims, ordered, m);
    ByHashKeys(ordered, vs);
    ByHashSum(ordered, vs);
    forall h | h in target ensures ByHash(ordered, vs)[h] == target[h] {
      var i := HashIndex(ordered, h);
      ByHashAt(ordered, vs, i);
    }
    assert ByHash(ordered, vs) == target;
  }

  lemma PreparedKeys(claims: seq<EligibleClaim>, ordered: seq<EligibleClaim>, m: map<nat, nat>)
    requires Prepared(claims, ordered, m)
    ensures DistinctHashes(ordered) && m.Keys == Hashes(ordered)
  {
    hide AmountsOf, AmountsIn, Positive, Sum, SumOf, Hashes;
  }

  lemma HashIndex(q: seq<EligibleClaim>, h: nat) returns (i: nat)
    requires h in Hashes(q)
    ensures i < |q| && q[i].hash == h
  {
    var c :| c in q && c.hash == h;
    i :| 0 <= i < |q| && q[i] == c;
  }

  function ShareOf(amount: int, coverage: nat, exposure: nat): nat
    requires 0 < exposure
  {
    if amount < 0 then 0 else amount * coverage / exposure
  }

  /** The share computed for the claim at index i is the program's, and within the claim. */
  ghost predicate ShareFits(c: EligibleClaim, m: map<nat, nat>, cap: nat, base: nat, i: nat)
  {
    && c.hash in m && base == Base(m[c.hash], Coverage(m, cap), Sum(m))
    && base + (if i < Remainder(m, cap) then 1 else 0) == Payout(m, cap, c.hash) <= c.amount
  }

  lemma ShareFitsAt(claims: seq<EligibleClaim>, ordered: seq<EligibleClaim>, m: map<nat, nat>, cap: nat, i: nat)
    requires Prepared(claims, ordered, m) && 0 < Sum(m) && i < |ordered|
    ensures ShareFits(ordered[i], m, cap, ShareOf(ordered[i].amount, Coverage(m, cap), Sum(m)), i)
  {
    PreparedAt(claims, ordered, m, i);
    PayoutBounds(m, cap, ordered[i].hash);
    hide Sum, Coverage, Remainder, Prepared, Rank;
  }

  /** The three checks after the shares are computed cannot fail. */
  lemma SharesFit(claims: seq<EligibleClaim>, ordered: seq<EligibleClaim>, m: map<nat, nat>, cap: nat, bases: seq<nat>)
    requires Prepared(claims, ordered, m) && 0 < Sum(m) && |bases| == |ordered|
    requires forall i :: 0 <= i < |ordered| ==> bases[i] == ShareOf(ordered[i].amount, Coverage(m, cap), Sum(m))
    ensures SumOf(bases) == BaseTotal(m, cap) && 0 <= Remainder(m, cap) <= |ordered|
    ensures forall i :: 0 <= i < |ordered| ==> ShareFits(ordered[i], m, cap, bases[i], i)
  {
    RemainderBounds(m, cap);
    ExposurePositive(m);
    ByHashSum(ordered, AmountsIn(ordered));
    var target := Bases(m, Coverage(m, cap), Sum(m));
    hide Sum, Coverage, Remainder, Prepared, Base, ShareOf, Rank, Payout;
    forall i | 0 <= i < |ordered| ensures ShareFits(ordered[i], m, cap, bases[i], i) {
      ShareFitsAt(claims, ordered, m, cap, i);
    }
    ListedSum(claims, ordered, m, bases, target);
  }

  lemma PayoutsListed(claims: seq<EligibleClaim>, ordered: seq<EligibleClaim>, m: map<nat, nat>, cap: nat, payouts: seq<nat>)
    requires Prepared(claims, ordered, m) && |payouts| == |ordered|
    requires forall i :: 0 <= i < |ordered| ==> ordered[i].hash in m && payouts[i] == Payout(m, cap, ordered[i].hash)
    ensures SumOf(payouts) == Coverage(m, cap) <= cap
  {
    PayoutsTotal(m, cap);
    hide Payout;
    ListedSum(claims, ordered, m, payouts, Payouts(m, cap, m.Keys));
  }

  /** Adds a unit of dust to the first shares and checks each against its claim. */
  method Allocate(ghost claims: seq<EligibleClaim>, ordered: seq<EligibleClaim>, ghost m: map<nat, nat>, ghost cap: nat,
                  bases: seq<nat>, dustUnits: int)
    returns (fits: bool, allocations: seq<CoverageAllocation>, payouts: seq<nat>)
    requires Prepared(claims, ordered, m) && |bases| == |ordered| && dustUnits == Remainder(m, cap)
    requires forall i :: 0 <= i < |ordered| ==> ShareFits(ordered[i], m, cap, bases[i], i)
    ensures fits && |allocations| == |payouts| == |ordered|
    ensures forall j :: 0 <= j < |ordered| ==> ordered[j].hash in m && payouts[j] == Payout(m, cap, ordered[j].hash)
    ensures forall j :: 0 <= j < |ordered| ==>
      allocations[j].hash == ordered[j].hash && Share(claims, m, cap, allocations[j])
  {
    hide Acceptable, AmountsOf, Payout, Base, Coverage, Remainder, Rank, Hashes;
    fits, allocations, payouts := true, [], [];
    var i := 0;
    while i < |ordered|
      invariant 0 <= i <= |ordered| && |allocations| == |payouts| == i
      invariant forall j :: 0 <= j < i ==> ordered[j].hash in m && payouts[j] == Payout(m, cap, ordered[j].hash)
      invariant forall j :: 0 <= j < i ==> allocations[j].hash == ordered[j].hash && Share(claims, m, cap, allocations[j])
    {
      PreparedAt(claims, ordered, m, i);
      assert ShareFits(ordered[i], m, cap, bases[i], i);
      var dust := if i < dustUnits then 1 else 0;
      var payout := bases[i] + dust;
      if payout > ordered[i].amount { return false, allocations, payouts; }
      var allocation := CoverageAllocation(ordered[i].hash, ordered[i].merchant, ordered[i].amount, bases[i], dust, payout);
      assert EligibleClaim(allocation.hash, allocation.merchant, allocation.amount) == ordered[i];
      assert Share(claims, m, cap, allocation);
      allocations, payouts := allocations + [allocation], payouts + [payout];
      i := i + 1;
    }
  }

  /** The mirror accepts exactly well-formed claims, its internal checks never throw, and it pays each
      claim what the program's allocation rule says. */
  method AllocateDeterministicCoverage(claims: seq<EligibleClaim>, cap: int) returns (r: Outcome)
    ensures r.Computed? <==> Acceptable(claims, cap)
    ensures r.Computed? ==> Mirrors(claims, cap, r.result)
    ensures r == Failed(CapOutOfRange) <==> cap < 0 || U64_MAX < cap
    ensures r.Failed? ==> !r.error.InvalidDustRemainder? && !r.error.AllocationExceedsClaim?
                          && !r.error.CoverageInvariantViolation?
  {
    AcceptableSorted(claims, cap);
    hide *;
    if cap < 0 || U64_MAX < cap { return Failed(CapOutOfRange); }
    var ordered := SortByHash(claims);
    var error, exposure := CheckClaims(ordered);
    if error.Some? { return Failed(error.value); }
    ghost var m := AmountsOf(claims);
    Prepare(claims);
    PreparedTotals(claims, ordered, m);
    if exposure == 0 {
      NothingClaimed(claims, ordered, m, cap);
      return Computed(CoverageResult(exposure, cap, if exposure < cap then exposure else cap, 0, 0, 0, false, []));
    }
    r := Divide(claims, ordered, m, exposure, cap);
  }

  /** The pro-rata shares of a positive exposure. */
  method Divide(ghost claims: seq<EligibleClaim>, ordered: seq<EligibleClaim>, ghost m: map<nat, nat>, exposure: nat, cap: nat)
    returns (r: Outcome)
    requires Prepared(claims, ordered, m) && 0 < exposure == Sum(m) && |ordered| == |claims|
    ensures r.Computed? && Mirrors(claims, cap, r.result)
  {
    var coverage := if exposure < cap then exposure else cap;
    RemainderIs(m, cap);
    assert coverage == Coverage(m, cap);
    hide Acceptable, SortByHash, AmountsOf, Sum, Payout, Base, Remainder, BaseTotal, Mirrors, Prepared, Share, Coverage, ShareFits;
    var bases := seq(|ordered|, i requires 0 <= i < |ordered| => ShareOf(ordered[i].amount, coverage, exposure));
    var baseTotal := SumOf(bases);
    var dustUnits := coverage - baseTotal;
    SharesFit(claims, ordered, m, cap, bases);
    if dustUnits < 0 || |ordered| < dustUnits { return Failed(InvalidDustRemainder); }
    var fits, allocations, payouts := Allocate(claims, ordered, m, cap, bases, dustUnits);
    if !fits { return Failed(AllocationExceedsClaim); }
    var totalPayout := SumOf(payouts);
    PayoutsListed(claims, ordered, m, cap, payouts);
    if totalPayout != coverage || totalPayout > cap { return Failed(CoverageInvariantViolation); }
    var result := CoverageResult(exposure, cap, coverage, baseTotal, dustUnits, totalPayout, exposure > cap, allocations);
    MirrorsFrom(claims, ordered, m, cap, result);
    r := Computed(result);
  }

  lemma AcceptableSorted(claims: seq<EligibleClaim>, cap: int)
    ensures Acceptable(claims, cap) <==> 0 <= cap <= U64_MAX && Acceptable(SortByHash(claims), 0)
  {
    SortedByHash(claims);
    hide SortByHash;
    if Acceptable(claims, cap) { AcceptablePermuted(claims, SortByHash(claims), cap); }
    if Acceptable(SortByHash(claims), 0) { AcceptablePermuted(SortByHash(claims), claims, 0); }
  }

  lemma PreparedTotals(claims: seq<EligibleClaim>, ordered: seq<EligibleClaim>, m: map<nat, nat>)
    requires Prepared(claims, ordered, m)
    ensures Sum(m) == SumOf(AmountsIn(ordered)) && |ordered| == |claims|
  {
    assert |multiset(ordered)| == |ordered| && |multiset(claims)| == |claims|;
  }

  lemma MirrorsFrom(claims: seq<EligibleClaim>, ordered: seq<EligibleClaim>, m: map<nat, nat>, cap: nat, x: CoverageResult)
    requires Prepared(claims, ordered, m) && x.exposure == Sum(m) && x.cap == cap && (x.insolvent <==> cap < x.exposure)
    requires x.coverage == x.totalPayout == Coverage(m, cap) && x.baseTotal == BaseTotal(m, cap)
    requires x.dustUnits == Remainder(m, cap) && |x.allocations| == |ordered| == |claims|
    requires forall j :: 0 <= j < |ordered| ==>
      x.allocations[j].hash == ordered[j].hash && Share(claims, m, cap, x.allocations[j])
    ensures Mirrors(claims, cap, x)
  {
    hide Share, Acceptable, Sum, Coverage, BaseTotal, Remainder, Hashes;
  }

  lemma RemainderIs(m: map<nat, nat>, cap: nat)
    ensures Remainder(m, cap) == Coverage(m, cap) - BaseTotal(m, cap)
  {
  }

  lemma NothingClaimed(claims: seq<EligibleClaim>, ordered: seq<EligibleClaim>, m: map<nat, nat>, cap: nat)
    requires Prepared(claims, ordered, m) && Sum(m) == 0
    ensures Mirrors(claims, cap, CoverageResult(0, cap, 0, 0, 0, 0, false, []))
  {
    assert |multiset(ordered)| == |ordered| && |multiset(claims)| == |claims|;
    ExposurePositive(m);
    ByHashSum(ordered, AmountsIn(ordered));
    RemainderBounds(m, cap);
  }

  /** Permuting the claims changes nothing in the result. */
  lemma PermutationIrrelevant(p: seq<EligibleClaim>, q: seq<EligibleClaim>, cap: nat, x: CoverageResult, y: CoverageResult)
    requires multiset(p) == multiset(q) && Acceptable(p, cap) && Mirrors(p, cap, x) && Mirrors(q, cap, y)
    ensures Acceptable(q, cap) && x == y
  {
    AcceptablePermuted(p, q, cap);
    var m := AmountsOf(p);
    assert forall c :: c in p <==> c in multiset(p);
    assert forall c :: c in q <==> c in multiset(q);
    assert |multiset(p)| == |p| && |multiset(q)| == |q|;
    ResultHashes(p, cap, x);
    ResultHashes(q, cap, y);
    AscendingUnique(HashesOf(x), HashesOf(y));
    forall i | 0 <= i < |x.allocations| ensures x.allocations[i] == y.allocations[i] {
      assert HashesOf(x)[i] == HashesOf(y)[i];
      assert Share(p, m, cap, x.allocations[i]) && Share(q, m, cap, y.allocations[i]);
      SameClaim(p, x.allocations[i], y.allocations[i]);
      hide Payout, Base, Coverage, Acceptable, AmountsOf;
    }
    assert x.allocations == y.allocations;
  }

  function HashesOf(x: CoverageResult): seq<nat> { seq(|x.allocations|, i requires 0 <= i < |x.allocations| => x.allocations[i].hash) }

  lemma SameClaim(p: seq<EligibleClaim>, a: CoverageAllocation, b: CoverageAllocation)
    requires DistinctHashes(p) && a.hash == b.hash
    requires EligibleClaim(a.hash, a.merchant, a.amount) in p && EligibleClaim(b.hash, b.merchant, b.amount) in p
    ensures a.merchant == b.merchant && a.amount == b.amount
  {
  }

  /** The allocation lists every claim's hash, in increasing order. */
  lemma ResultHashes(claims: seq<EligibleClaim>, cap: nat, x: CoverageResult)
    requires Acceptable(claims, cap) && Mirrors(claims, cap, x)
    ensures Ascending(HashesOf(x)) && forall h :: h in HashesOf(x) <==> h in Hashes(claims)
  {
    var hs, all := HashesOf(x), Hashes(claims);
    ByHashKeys(claims, AmountsIn(claims));
    ByHashSum(claims, AmountsIn(claims));
    forall i | 0 <= i < |hs| ensures hs[i] in all {
      assert Share(claims, AmountsOf(claims), cap, x.allocations[i]);
    }
    AscendingSize(hs);
    assert |AmountsOf(claims).Keys| == |claims|;
    EqualSize(Members(hs), all);
    assert forall h :: h in hs <==> h in Members(hs);
  }

  /** Every payout is at most its claim and within one unit of the exact pro-rata share, and the dust
      is less than the number of claims. */
  lemma SharesAreFair(claims: seq<EligibleClaim>, cap: nat, x: CoverageResult, i: nat)
    requires Acceptable(claims, cap) && Mirrors(claims, cap, x) && i < |x.allocations|
    ensures var a := x.allocations[i];
      && 0 <= a.payout <= a.amount
      && (a.payout - 1) * x.exposure <= a.amount * x.coverage < (a.payout + 1) * x.exposure
      && 0 <= x.dustUnits < |claims|
  {
    var m, a := AmountsOf(claims), x.allocations[i];
    assert Share(claims, m, cap, a);
    AmountAt(claims, EligibleClaim(a.hash, a.merchant, a.amount));
    ByHashKeys(claims, AmountsIn(claims));
    ByHashSum(claims, AmountsIn(claims));
    forall h | h in m ensures 0 < m[h] {
      var c :| c in claims && c.hash == h;
      AmountAt(claims, c);
      var j :| 0 <= j < |claims| && claims[j] == c;
    }
    PayoutBounds(m, cap, a.hash);
    RemainderBounds(m, cap);
    hide Sum, Coverage, Payout, Base, AmountsOf, BaseTotal;
  }
}
