/** The vault's lifetime total of settlements runs out as well: four sessions, each paying out a third
    of the greatest amount, and the fourth can pay nothing. */
module Exhaustion {
  import opened Collections
  import opened ProRata
  import opened States
  import opened Protocol
  import opened Invariants
  import opened Runs
  import opened Liveness
  import opened Standstill

  /** A third of the greatest amount, which is divisible by three. */
  const THIRD: nat := 0x5555_5555_5555_5555

  function ThirdTerms(n: nat): Terms
  {
    Terms(n + 1, 1, 2, THIRD, U64_MAX, MAX_BRANCH_DEPTH, n * CYCLE, n * CYCLE + 1, n * CYCLE + 1 + CLAIM_GRACE_PERIOD_SECONDS)
  }

  /** The one payment of session n + 1, of its whole limit. */
  function ThirdPayment(n: nat): Credential
  {
    var state := Payment(Root(ThirdTerms(n)), 1, 3, THIRD, 1, THIRD, 0);
    Credential(Domain(0, PAYMENT_CREDENTIAL_OBJECT_TYPE, 0, 0, 0, n + 1), n + 1, 1, 1, 2, 3, 4, THIRD, Root(ThirdTerms(n)), state,
               THIRD, 0, 1, n * CYCLE, n * CYCLE + 1, 7, true)
  }

  function ThirdEdge(n: nat): StateHash { ThirdPayment(n).newState }

  /** The owner has closed n sessions; the newest, if open, is session n + 1. */
  ghost predicate Scene(w: World, n: nat, clock: int, held: nat, reserved: nat, settled: nat, active: bool)
  {
    && !w.paused && w.owner == 1 && w.config == Config(0, 0, 0, 0) && w.clock == clock
    && w.balance == held && w.vault == CollateralVault(held, reserved, settled)
    && w.profile == UserProfile(true, n, 0, 0, I64_MAX, if active then Some(n + 1) else None)
    && (forall k :: k in w.sessions ==> k <= if active then n + 1 else n)
    && (active ==> n + 1 in w.sessions && w.sessions[n + 1].terms == ThirdTerms(n) && !w.sessions[n + 1].rewound)
  }

  /** How far the open session is. */
  ghost predicate Stage(s: Session, n: nat, filed: bool, frozen: bool, classified: bool, scanned: bool, settled: bool)
  {
    && s.filed == (if filed then map[7 := ThirdEdge(n)] else map[]) && s.frozen == frozen
    && s.classified == (if classified then {7} else {}) && s.scanned == (if scanned then {7} else {})
    && s.settled == (if settled then {7} else {})
  }

  // ----- One session with one payment -----

  lemma OneClaim(s: Session, n: nat)
    requires s.terms == ThirdTerms(n) && s.filed == map[7 := ThirdEdge(n)]
    ensures Claims(s) == map[7 := THIRD] && ThirdEdge(n) in s.filed.Values && Rep(s.filed, ThirdEdge(n)) == 7
    ensures Owed(s, 7) == THIRD && Payable(s) == {7} && Coverage(Claims(s), U64_MAX) == THIRD
    ensures !Overdrawn(s) && !Forked(s.filed.Values)
  {
    OneRep(s.filed, ThirdEdge(n));
    assert Claims(s) == map[7 := THIRD];
    OneSum(THIRD);
    PayoutBounds(Claims(s), U64_MAX, 7);
    hide Payout, Sum;
    assert Payable(s) == {7};
    assert s.filed.Values == {ThirdEdge(n)};
    NoSiblings({ThirdEdge(n)}, ThirdEdge(n));
  }

  lemma OneRep(f: Book, e: StateHash)
    requires f == map[7 := e] && e.Payment?
    ensures f.Values == {e} && Wrappers(f, e) == {7} && Rep(f, e) == 7 && Eligible(f) == map[7 := e.amount]
  {
    assert f[7] == e && e in f.Values;
    RepLeast(f, e);
    assert Wrappers(f, e) == {7};
    RepEligible(f, e);
    EligibleKey(f, 7);
  }

  lemma OneSum(x: nat)
    ensures Sum(map[7 := x]) == x
  {
    SumAdd(map[], 7, x);
    SumEmpty();
  }

  lemma NoSiblings(states: set<StateHash>, e: StateHash)
    requires states == {e}
    ensures !Forked(states)
  {
  }

  // ----- The steps of a session -----

  /** The open session and its status. */
  ghost predicate At(w: World, n: nat, clock: int, reserved: nat, settled: nat, status: SessionStatus)
  {
    && Scene(w, n, clock, U64_MAX, reserved, settled, true)
    && w.sessions[n + 1].status == status && w.sessions[n + 1].authorized
  }

  lemma Creates(w: World, n: nat)
    requires Scene(w, n, n * CYCLE, 2 * THIRD, 0, n * THIRD, false) && n <= 3
    ensures var d, c := Deposit(THIRD, THIRD), Create(n + 1, 2, U64_MAX, THIRD, n * CYCLE + 1);
      && Enabled(w, d) && Enabled(Next(w, d), c)
      && var x := Next(Next(w, d), c);
      && Scene(x, n, n * CYCLE, U64_MAX, U64_MAX, n * THIRD, true)
      && Stage(x.sessions[n + 1], n, false, false, false, false, false)
      && x.sessions[n + 1].status.Active? && !x.sessions[n + 1].authorized
  {
  }

  lemma Authorizes(w: World, n: nat)
    requires Scene(w, n, n * CYCLE, U64_MAX, U64_MAX, n * THIRD, true)
    requires Stage(w.sessions[n + 1], n, false, false, false, false, false)
    requires w.sessions[n + 1].status.Active? && !w.sessions[n + 1].authorized
    ensures var z := Authorize(n + 1, 1);
      && Enabled(w, z) && At(Next(w, z), n, n * CYCLE, U64_MAX, n * THIRD, Active)
      && Stage(Next(w, z).sessions[n + 1], n, false, false, false, false, false)
  {
  }

  function AccountsOf(n: nat): SubmitAccounts
  {
    var c := ThirdPayment(n);
    SubmitAccounts(c.merchant, ClaimKey(7), EdgeKey(c.previousState, 1, c.newState), ClaimKey(7), SessionKey, SessionKey,
                   ForkKey(c.previousState, 1), SessionKey)
  }

  lemma Submits(w: World, n: nat)
    requires At(w, n, n * CYCLE, U64_MAX, n * THIRD, Active) && Stage(w.sessions[n + 1], n, false, false, false, false, false)
    ensures var u := Submit(n + 1, ThirdPayment(n), AccountsOf(n));
      && Enabled(w, u) && At(Next(w, u), n, n * CYCLE, U64_MAX, n * THIRD, Active)
      && Stage(Next(w, u).sessions[n + 1], n, true, false, false, false, false)
  {
    var s, c := w.sessions[n + 1], ThirdPayment(n);
    EmptyClaims(s.filed);
    SumEmpty();
    assert s.filed.Values == {} && Siblings(s, c) == {};
    assert PayloadOk(w.config, s.terms, 3, w.clock, c);
    assert CountersFit(w, s, c);
    hide PayloadOk, CountersFit, Claims, Children;
  }

  lemma Begins(w: World, n: nat)
    requires At(w, n, n * CYCLE, U64_MAX, n * THIRD, Active) && Stage(w.sessions[n + 1], n, true, false, false, false, false)
    ensures var t, b := Tick((n + 1) * CYCLE), Begin(n + 1);
      && Enabled(w, t) && Enabled(Next(w, t), b)
      && var x := Next(Next(w, t), b);
      && At(x, n, (n + 1) * CYCLE, U64_MAX, n * THIRD, Reconciling)
      && Stage(x.sessions[n + 1], n, true, true, false, false, false)
  {
    OneClaim(w.sessions[n + 1], n);
    OneClaim(Begun(w.sessions[n + 1]), n);
    hide Claims, Coverage;
  }

  lemma Classifies(w: World, n: nat)
    requires At(w, n, (n + 1) * CYCLE, U64_MAX, n * THIRD, Reconciling) && Stage(w.sessions[n + 1], n, true, true, false, false, false)
    ensures var k := Classify(n + 1, ThirdEdge(n), ForkKey(Root(ThirdTerms(n)), 1), SessionKey);
      && Enabled(w, k) && At(Next(w, k), n, (n + 1) * CYCLE, U64_MAX, n * THIRD, Reconciling)
      && Stage(Next(w, k).sessions[n + 1], n, true, true, true, false, false)
  {
    OneClaim(w.sessions[n + 1], n);
    hide Claims, Rep;
  }

  lemma Allocates(w: World, n: nat)
    requires At(w, n, (n + 1) * CYCLE, U64_MAX, n * THIRD, Reconciling) && Stage(w.sessions[n + 1], n, true, true, true, false, false)
    ensures var k := Allocate(n + 1, 7, ThirdEdge(n));
      && Enabled(w, k) && At(Next(w, k), n, (n + 1) * CYCLE, THIRD, n * THIRD, Reconciling)
      && Stage(Next(w, k).sessions[n + 1], n, true, true, true, true, false)
  {
    var s := w.sessions[n + 1];
    OneClaim(s, n);
    OneClaim(Scanned(s, 7), n);
    OneClaim(s.(scanned := s.scanned + {7}), n);
    assert s.scanned + {7} == {7};
    hide Claims, Coverage, Overdrawn, Forked;
  }

  /** Everything is allocated and the one payment is owed its amount. */
  ghost predicate Due(w: World, n: nat)
  {
    && At(w, n, (n + 1) * CYCLE, THIRD, n * THIRD, Reconciling)
    && Stage(w.sessions[n + 1], n, true, true, true, true, false)
  }

  ghost predicate Paid(w: World, n: nat)
  {
    && Scene(w, n, (n + 1) * CYCLE, 2 * THIRD, 0, (n + 1) * THIRD, true)
    && w.sessions[n + 1].status.Settled? && Stage(w.sessions[n + 1], n, true, true, true, true, true)
  }

  lemma Settles(w: World, n: nat)
    requires Due(w, n) && n < 3
    ensures var p := Settle(n + 1, 7, ThirdEdge(n), 3); Enabled(w, p) && Paid(Next(w, p), n)
  {
    var s := w.sessions[n + 1];
    PaysOut(s, n);
    hide Claims, Owed, SettledOne, Complete, Payable;
  }

  lemma PaysOut(s: Session, n: nat)
    requires s.terms == ThirdTerms(n) && Stage(s, n, true, true, true, true, false) && s.status.Reconciling?
    ensures Complete(s) && 7 in Payable(s) && 7 in Claims(s) && Owed(s, 7) == THIRD
    ensures SettledOne(s, 7) == s.(settled := {7}, status := Settled)
  {
    OneClaim(s, n);
    OneClaim(s.(settled := s.settled + {7}), n);
    assert s.settled + {7} == {7};
    hide Claims, Owed;
  }

  lemma ClosesPaid(w: World, n: nat)
    requires Paid(w, n) && n < 3
    ensures var c := Close(n + 1);
      Enabled(w, c) && Scene(Next(w, c), n + 1, (n + 1) * CYCLE, 2 * THIRD, 0, (n + 1) * THIRD, false)
  {
    OneClaim(w.sessions[n + 1], n);
    hide Claims, Overdrawn, Forked, Owed;
  }

  // ----- The run -----

  lemma Then(w: World, run: seq<Action>, a: Action)
    requires CanRun(w, run) && Enabled(End(w, run), a)
    ensures CanRun(w, run + [a]) && End(w, run + [a]) == Next(End(w, run), a)
  {
    hide *;
    OneAction(End(w, run), a);
    Concatenated(w, run, [a]);
  }

  lemma ReachesSubmitted(w: World, n: nat) returns (run: seq<Action>)
    requires Scene(w, n, n * CYCLE, 2 * THIRD, 0, n * THIRD, false) && n <= 3
    ensures CanRun(w, run) && At(End(w, run), n, n * CYCLE, U64_MAX, n * THIRD, Active)
    ensures Stage(End(w, run).sessions[n + 1], n, true, false, false, false, false)
  {
    hide *;
    Creates(w, n);
    NoRun(w);
    Then(w, [], Deposit(THIRD, THIRD));
    run := [] + [Deposit(THIRD, THIRD)];
    Then(w, run, Create(n + 1, 2, U64_MAX, THIRD, n * CYCLE + 1));
    run := run + [Create(n + 1, 2, U64_MAX, THIRD, n * CYCLE + 1)];
    Authorizes(End(w, run), n);
    Then(w, run, Authorize(n + 1, 1));
    run := run + [Authorize(n + 1, 1)];
    Submits(End(w, run), n);
    Then(w, run, Submit(n + 1, ThirdPayment(n), AccountsOf(n)));
    run := run + [Submit(n + 1, ThirdPayment(n), AccountsOf(n))];
  }

  lemma ReachesDue(w: World, n: nat) returns (run: seq<Action>)
    requires Scene(w, n, n * CYCLE, 2 * THIRD, 0, n * THIRD, false) && n <= 3
    ensures CanRun(w, run) && Due(End(w, run), n)
  {
    hide *;
    run := ReachesSubmitted(w, n);
    Begins(End(w, run), n);
    Then(w, run, Tick((n + 1) * CYCLE));
    run := run + [Tick((n + 1) * CYCLE)];
    Then(w, run, Begin(n + 1));
    run := run + [Begin(n + 1)];
    var k := Classify(n + 1, ThirdEdge(n), ForkKey(Root(ThirdTerms(n)), 1), SessionKey);
    Classifies(End(w, run), n);
    Then(w, run, k);
    run := run + [k];
    Allocates(End(w, run), n);
    Then(w, run, Allocate(n + 1, 7, ThirdEdge(n)));
    run := run + [Allocate(n + 1, 7, ThirdEdge(n))];
    DueIs(End(w, run), n);
  }

  lemma DueIs(w: World, n: nat)
    requires At(w, n, (n + 1) * CYCLE, THIRD, n * THIRD, Reconciling) && Stage(w.sessions[n + 1], n, true, true, true, true, false)
    ensures Due(w, n)
  {
  }

  /** Up to three sessions can pay out their third. */
  lemma {:induction false} PaysMany(w: World, n: nat) returns (run: seq<Action>)
    requires Scene(w, 0, 0, 2 * THIRD, 0, 0, false) && n <= 3
    ensures CanRun(w, run) && Scene(End(w, run), n, n * CYCLE, 2 * THIRD, 0, n * THIRD, false)
    decreases n
  {
    hide *;
    if n == 0 {
      run := [];
      NoRun(w);
    } else {
      var before := PaysMany(w, n - 1);
      var rest := ReachesDue(End(w, before), n - 1);
      Concatenated(w, before, rest);
      run := before + rest;
      Settles(End(w, run), n - 1);
      Then(w, run, Settle(n, 7, ThirdEdge(n - 1), 3));
      run := run + [Settle(n, 7, ThirdEdge(n - 1), 3)];
      ClosesPaid(End(w, run), n - 1);
      Then(w, run, Close(n));
      run := run + [Close(n)];
    }
  }

  /** The total settled can hold up finalization for good, and with it a payment that is owed. */
  lemma SettlementsRunOut()
    ensures exists w, run :: Stranded(w, run, 4) && Due(End(w, run), 3)
  {
    var w := World(Config(0, 0, 0, 0), 1, false, 0, UserProfile(true, 0, 0, 0, I64_MAX, None), CollateralVault(0, 0, 0), 0, map[]);
    var d := Deposit(2 * THIRD, 2 * THIRD);
    assert Initial(w) && Enabled(w, d) && Scene(Next(w, d), 0, 0, 2 * THIRD, 0, 0, false);
    hide *;
    OneAction(w, d);
    var many := PaysMany(Next(w, d), 3);
    Concatenated(w, [d], many);
    var last := ReachesDue(End(w, [d] + many), 3);
    Concatenated(w, [d] + many, last);
    var run := [d] + many + last;
    NothingPayable(w, run);
    assert Stranded(w, run, 4) && Due(End(w, run), 3);
  }

  lemma NothingPayable(w: World, run: seq<Action>)
    requires Initial(w) && CanRun(w, run) && Due(End(w, run), 3)
    ensures Stranded(w, run, 4)
  {
    DueBlocks(End(w, run));
    hide *;
    NeverStuck(w, run, 4);
    StrandedIs(w, run, 4);
  }

  lemma DueBlocks(w: World)
    requires Due(w, 3)
    ensures Frozen(w, 4) && !CountersAllow(w, 4)
  {
    OneClaim(w.sessions[4], 3);
    hide Claims, Owed;
  }
}
