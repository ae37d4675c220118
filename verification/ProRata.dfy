/** Pro-rata coverage arithmetic (math.rs): base shares, the dust remainder and the payout of
    each claim. Claims are given as a map from credential hash to amount. */
module ProRata {
  import opened Collections

  const U64_MAX: nat := 0xFFFF_FFFF_FFFF_FFFF
  const U32_MAX: nat := 0xFFFF_FFFF

  function CoverageAmount(exposure: nat, cap: nat): nat
  {
    if exposure < cap then exposure else cap
  }

  /** The checked base allocation; None stands for InvalidFinalization and ArithmeticOverflow. */
  function CheckedBaseAllocation(amount: nat, exposure: nat, cap: nat): (r: Option<nat>)
    ensures r.Some? <==> 0 < exposure && amount <= exposure && amount * CoverageAmount(exposure, cap) / exposure <= U64_MAX
  {
    if exposure == 0 || amount > exposure then None
    else
      var share := amount * CoverageAmount(exposure, cap) / exposure;
      if share <= U64_MAX then Some(share) else None
  }

  function Base(amount: nat, coverage: nat, exposure: nat): nat
  {
    if exposure == 0 then 0 else amount * coverage / exposure
  }

  lemma TimesMonotone(a: int, b: int, x: nat)
    requires a <= b
    ensures a * x <= b * x
  {
    assert 0 <= (b - a) * x;
  }

  lemma TimesOrder(a: int, b: int, x: nat)
    requires a * x < b * x
    ensures a < b
  {
    if b <= a { TimesMonotone(b, a, x); }
  }

  lemma TimesDistributes(a: int, b: int, x: nat)
    ensures (a + b) * x == a * x + b * x
  {
  }

  /** The rounded-down share, its defect of less than one unit, and its bound by the amount. */
  lemma BaseBounds(amount: nat, coverage: nat, exposure: nat)
    requires 0 < exposure
    ensures Base(amount, coverage, exposure) * exposure <= amount * coverage
    ensures amount * coverage < (Base(amount, coverage, exposure) + 1) * exposure
    ensures coverage <= exposure ==> Base(amount, coverage, exposure) <= amount
    ensures coverage < exposure && 0 < amount ==> Base(amount, coverage, exposure) < amount
    ensures coverage == exposure ==> Base(amount, coverage, exposure) == amount
  {
    var b, p := Base(amount, coverage, exposure), amount * coverage;
    DivisionBounds(p, exposure);
    BaseBelowAmount(amount, coverage, exposure, b, p);
  }

  lemma BaseBelowAmount(amount: nat, coverage: nat, exposure: nat, b: nat, p: nat)
    requires p == amount * coverage && b * exposure <= p < (b + 1) * exposure
    ensures coverage <= exposure ==> b <= amount
    ensures coverage < exposure && 0 < amount ==> b < amount
    ensures coverage == exposure ==> b == amount
  {
    if coverage <= exposure {
      TimesMonotone(coverage, exposure, amount);
      TimesDistributes(amount, 1, exposure);
      if 0 < exposure { TimesOrder(b, amount + 1, exposure); }
    }
    if coverage < exposure && 0 < amount {
      TimesMonotone(coverage + 1, exposure, amount);
      TimesDistributes(coverage, 1, amount);
      TimesOrder(b, amount, exposure);
    }
    if coverage == exposure {
      TimesOrder(amount, b + 1, exposure);
    }
  }

  lemma DivisionBounds(x: nat, d: nat)
    requires 0 < d
    ensures x / d * d <= x < (x / d + 1) * d
  {
    assert x == x / d * d + x % d;
  }

  /** The base allocation of every claim. */
  ghost function Bases(claims: map<nat, nat>, coverage: nat, exposure: nat): map<nat, nat>
  {
    map h | h in claims :: Base(claims[h], coverage, exposure)
  }

  ghost function Scaled(m: map<nat, nat>, x: nat): map<nat, nat> { map h | h in m :: m[h] * x }

  ghost function Incremented(m: map<nat, nat>): map<nat, nat> { map h | h in m :: m[h] + 1 }

  lemma {:induction false} ScaledSum(m: map<nat, nat>, x: nat)
    ensures Sum(Scaled(m, x)) == Sum(m) * x
    decreases |m|
  {
    if m == map[] {
      assert Scaled(m, x) == map[];
    } else {
      var h :| h in m;
      ScaledSum(m - {h}, x);
      SumRemove(m, h);
      SumRemove(Scaled(m, x), h);
      assert Scaled(m, x) - {h} == Scaled(m - {h}, x);
      TimesDistributes(m[h], Sum(m - {h}), x);
    }
  }

  lemma {:induction false} IncrementedSum(m: map<nat, nat>)
    ensures Sum(Incremented(m)) == Sum(m) + |m|
    decreases |m|
  {
    if m == map[] {
      assert Incremented(m) == map[];
    } else {
      var h :| h in m;
      IncrementedSum(m - {h});
      SumRemove(m, h);
      SumRemove(Incremented(m), h);
      assert Incremented(m) - {h} == Incremented(m - {h});
      assert |m| == |m - {h}| + 1;
    }
  }

  /** Rounding down loses less than one unit a claim. */
  lemma BasesBounds(claims: map<nat, nat>, coverage: nat, exposure: nat)
    requires 0 < exposure
    ensures Sum(Bases(claims, coverage, exposure)) * exposure <= Sum(claims) * coverage
    ensures claims != map[] ==>
              Sum(claims) * coverage < (Sum(Bases(claims, coverage, exposure)) + |claims|) * exposure
  {
    var bases := Bases(claims, coverage, exposure);
    assert bases.Keys == claims.Keys;
    hide *;
    ScaledBounds(claims, bases, coverage, exposure);
    UnscaledBounds(claims, bases, coverage, exposure);
  }

  lemma UnscaledBounds(claims: map<nat, nat>, bases: map<nat, nat>, coverage: nat, exposure: nat)
    requires bases.Keys == claims.Keys
    requires Sum(Scaled(bases, exposure)) <= Sum(Scaled(claims, coverage))
    requires claims != map[] ==> Sum(Scaled(claims, coverage)) < Sum(Scaled(Incremented(bases), exposure))
    ensures Sum(bases) * exposure <= Sum(claims) * coverage
    ensures claims != map[] ==> Sum(claims) * coverage < (Sum(bases) + |claims|) * exposure
  {
    hide *;
    ScaledSum(claims, coverage);
    ScaledSum(bases, exposure);
    ScaledSum(Incremented(bases), exposure);
    IncrementedSum(bases);
    assert |bases.Keys| == |claims.Keys|;
  }

  lemma ScaledBounds(claims: map<nat, nat>, bases: map<nat, nat>, coverage: nat, exposure: nat)
    requires 0 < exposure && bases == Bases(claims, coverage, exposure)
    ensures Sum(Scaled(bases, exposure)) <= Sum(Scaled(claims, coverage))
    ensures claims != map[] ==> Sum(Scaled(claims, coverage)) < Sum(Scaled(Incremented(bases), exposure))
  {
    var exact, low, high := Scaled(claims, coverage), Scaled(bases, exposure), Scaled(Incremented(bases), exposure);
    forall h | h in claims ensures low[h] <= exact[h] < high[h] {
      BaseBounds(claims[h], coverage, exposure);
    }
    SumMonotone(low, exact);
    if claims != map[] {
      var h :| h in claims;
      SumSqueezeAt(exact, high, h);
    }
  }

  lemma SumSqueezeAt(a: map<nat, nat>, b: map<nat, nat>, h: nat)
    requires a.Keys == b.Keys && h in a && a[h] < b[h]
    requires forall k :: k in a ==> a[k] <= b[k]
    ensures Sum(a) < Sum(b)
  {
    SumMonotone(a, b);
    if Sum(a) == Sum(b) { SumSqueeze(a, b); }
  }

  ghost function Exposure(claims: map<nat, nat>): nat { Sum(claims) }

  ghost function Coverage(claims: map<nat, nat>, cap: nat): nat { CoverageAmount(Sum(claims), cap) }

  ghost function BaseTotal(claims: map<nat, nat>, cap: nat): nat
  {
    Sum(Bases(claims, Coverage(claims, cap), Sum(claims)))
  }

  /** Every claim carries a positive amount. */
  ghost predicate Positive(claims: map<nat, nat>) { forall h :: h in claims ==> 0 < claims[h] }

  lemma ExposurePositive(claims: map<nat, nat>)
    requires Positive(claims)
    ensures Sum(claims) == 0 <==> claims == map[]
  {
    if claims != map[] {
      var h :| h in claims;
      SumRemove(claims, h);
    }
  }

  /** The dust left over after the base shares is non-negative and smaller than the number of
      claims, and there is none when the claims are fully covered. */
  lemma RemainderBounds(claims: map<nat, nat>, cap: nat)
    requires Positive(claims)
    ensures BaseTotal(claims, cap) <= Coverage(claims, cap)
    ensures claims != map[] ==> Coverage(claims, cap) - BaseTotal(claims, cap) < |claims|
    ensures Coverage(claims, cap) == Sum(claims) ==> BaseTotal(claims, cap) == Coverage(claims, cap)
  {
    var x, c, b := Sum(claims), Coverage(claims, cap), BaseTotal(claims, cap);
    ExposurePositive(claims);
    SumEmpty();
    hide Base, Sum, Positive;
    if claims == map[] {
      assert Bases(claims, c, x) == map[];
    } else {
      BaseTotalBounds(claims, c);
      if c == x {
        AllCovered(claims);
      }
    }
  }

  lemma BaseTotalBounds(claims: map<nat, nat>, coverage: nat)
    requires claims != map[] && 0 < Sum(claims)
    ensures Sum(Bases(claims, coverage, Sum(claims))) <= coverage
         && coverage < Sum(Bases(claims, coverage, Sum(claims))) + |claims|
  {
    hide *;
    BasesBounds(claims, coverage, Sum(claims));
    DustBounds(Sum(claims), coverage, Sum(Bases(claims, coverage, Sum(claims))), |claims|);
  }

  lemma DustBounds(x: nat, c: nat, b: nat, n: nat)
    requires 0 < x && b * x <= x * c < (b + n) * x
    ensures b <= c < b + n
  {
    TimesOrder(c, b + n, x);
    TimesDistributes(c, 1, x);
    TimesOrder(b, c + 1, x);
  }

  lemma AllCovered(claims: map<nat, nat>)
    requires 0 < Sum(claims)
    ensures Bases(claims, Sum(claims), Sum(claims)) == claims
  {
    forall h | h in claims ensures Base(claims[h], Sum(claims), Sum(claims)) == claims[h] {
      BaseBounds(claims[h], Sum(claims), Sum(claims));
    }
  }

  /** Units of dust: the first this-many claims in hash order receive one unit each. */
  ghost function Remainder(claims: map<nat, nat>, cap: nat): int
  {
    Coverage(claims, cap) - BaseTotal(claims, cap)
  }

  ghost function Rank(claims: map<nat, nat>, h: nat): nat { |Below(claims.Keys, h)| }

  /** What a claim is paid: its base share, plus one unit of dust to the lowest-ranked hashes. */
  ghost function Payout(claims: map<nat, nat>, cap: nat, h: nat): nat
    requires h in claims
  {
    Base(claims[h], Coverage(claims, cap), Sum(claims))
      + if Rank(claims, h) < Remainder(claims, cap) then 1 else 0
  }

  ghost function Payouts(claims: map<nat, nat>, cap: nat, among: set<nat>): map<nat, nat>
  {
    map h | h in claims && h in among :: Payout(claims, cap, h)
  }

  /** No claim is paid more than its amount, and each payout is within one unit of the exact
      proportional share amount * coverage / exposure. */
  lemma PayoutBounds(claims: map<nat, nat>, cap: nat, h: nat)
    requires Positive(claims) && h in claims
    ensures Payout(claims, cap, h) <= claims[h]
    ensures Coverage(claims, cap) == Sum(claims) ==> Payout(claims, cap, h) == claims[h]
    ensures (Payout(claims, cap, h) - 1) * Sum(claims) <= claims[h] * Coverage(claims, cap)
    ensures claims[h] * Coverage(claims, cap) < (Payout(claims, cap, h) + 1) * Sum(claims)
  {
    ExposurePositive(claims);
    RemainderBounds(claims, cap);
    var x, c := Sum(claims), Coverage(claims, cap);
    var b := Base(claims[h], c, x);
    BaseBounds(claims[h], c, x);
    SumRemove(claims, h);
    DustKeepsShare(claims[h], b, Payout(claims, cap, h) - b, c, x);
  }

  lemma DustKeepsShare(a: nat, b: nat, dust: int, c: nat, x: nat)
    requires 0 <= dust <= 1 && b * x <= a * c < (b + 1) * x
    ensures (b + dust - 1) * x <= a * c < (b + dust + 1) * x
  {
    TimesMonotone(b + dust - 1, b, x);
    TimesMonotone(b + 1, b + dust + 1, x);
  }

  /** Base shares of some claims, each with a unit of dust if its rank is below r. */
  ghost function WithDust(bases: map<nat, nat>, r: nat, among: set<nat>): map<nat, nat>
  {
    map h | h in bases && h in among :: bases[h] + if |Below(bases.Keys, h)| < r then 1 else 0
  }

  ghost function Among(m: map<nat, nat>, among: set<nat>): map<nat, nat>
  {
    map h | h in m && h in among :: m[h]
  }

  function Smaller(a: int, b: int): int { if a < b then a else b }

  lemma {:induction false} DustSum(bases: map<nat, nat>, r: nat, among: set<nat>)
    requires among <= bases.Keys
    requires forall h, k :: h in among && k in bases && k < h ==> k in among
    ensures Sum(WithDust(bases, r, among)) == Sum(Among(bases, among)) + Smaller(|among|, r)
    decreases |among|
  {
    SumEmpty();
    hide Sum;
    var pays, plain := WithDust(bases, r, among), Among(bases, among);
    if among == {} {
      assert pays == map[];
      assert plain == map[];
    } else {
      var last := Max(among);
      var fewer := among - {last};
      DustSum(bases, r, fewer);
      SumRemove(pays, last);
      SumRemove(plain, last);
      assert pays - {last} == WithDust(bases, r, fewer);
      assert plain - {last} == Among(bases, fewer);
      assert Below(bases.Keys, last) == fewer;
    }
  }

  /** Paying a downward-closed part of the claims distributes its base shares and as much dust
      as there are claims in it, up to the remainder. */
  lemma PrefixPayout(claims: map<nat, nat>, cap: nat, among: set<nat>)
    requires Positive(claims)
    requires among <= claims.Keys
    requires forall h, k :: h in among && k in claims && k < h ==> k in among
    ensures 0 <= Remainder(claims, cap)
    ensures Sum(Payouts(claims, cap, among))
         == Sum(Among(Bases(claims, Coverage(claims, cap), Sum(claims)), among)) + Smaller(|among|, Remainder(claims, cap))
  {
    hide Base, Sum, Coverage, CoverageAmount, BaseTotal, Positive;
    RemainderBounds(claims, cap);
    var bases := Bases(claims, Coverage(claims, cap), Sum(claims));
    assert bases.Keys == claims.Keys;
    assert Payouts(claims, cap, among) == WithDust(bases, Remainder(claims, cap), among) by {
      DustedShares(claims, cap, among);
    }
    hide *;
    DustSum(bases, Remainder(claims, cap), among);
  }

  lemma DustedShares(claims: map<nat, nat>, cap: nat, among: set<nat>)
    requires 0 <= Remainder(claims, cap)
    ensures Payouts(claims, cap, among)
         == WithDust(Bases(claims, Coverage(claims, cap), Sum(claims)), Remainder(claims, cap), among)
  {
    hide Base, Sum, Coverage, Remainder, Below;
    var bases := Bases(claims, Coverage(claims, cap), Sum(claims));
    assert bases.Keys == claims.Keys;
    forall h | h in claims && h in among
      ensures Payout(claims, cap, h) == WithDust(bases, Remainder(claims, cap), among)[h]
    {
    }
  }

  /** Together the claims are paid exactly the coverage, min(exposure, cap). */
  lemma PayoutsTotal(claims: map<nat, nat>, cap: nat)
    requires Positive(claims)
    ensures Sum(Payouts(claims, cap, claims.Keys)) == Coverage(claims, cap)
  {
    var bases := Bases(claims, Coverage(claims, cap), Sum(claims));
    RemainderBounds(claims, cap);
    ExposurePositive(claims);
    PrefixPayout(claims, cap, claims.Keys);
    hide Base, Sum, Coverage;
    assert Among(bases, claims.Keys) == bases;
    assert |claims.Keys| == |claims|;
    assert claims == map[] ==> |claims.Keys| == 0;
  }
}
