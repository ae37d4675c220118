/** The counters that finalization waits for do run out: an owner whose sessions all close without a
    claim reaches the last success that can be counted, and the next session can never be closed. */
module Standstill {
  import opened Collections
  import opened ProRata
  import opened States
  import opened Protocol
  import opened Invariants
  import opened Runs
  import opened Liveness

  /** A run from the start after which a frozen session that is not closed can take no step. */
  ghost predicate Stranded(w: World, run: seq<Action>, sid: nat)
  {
    && Initial(w) && CanRun(w, run) && Frozen(End(w, run), sid) && !CountersAllow(End(w, run), sid)
    && forall a :: !(Finalizing(a, sid) && Enabled(End(w, run), a))
  }

  /** Seconds from creating a session of one second to the end of its grace period. */
  const CYCLE: int := 1 + CLAIM_GRACE_PERIOD_SECONDS + 1

  /** The owner has closed n sessions, one after another, and has none open. */
  ghost predicate Idle(w: World, n: nat)
  {
    && !w.paused && w.owner == 1 && w.clock == n * CYCLE && w.balance == 3 && w.vault == CollateralVault(3, 0, 0)
    && w.profile == UserProfile(true, n, 0, 0, I64_MAX, None)
    && forall k :: k in w.sessions ==> k <= n
  }

  /** Opening session n + 1 and beginning its finalization once the grace period is over. */
  function OpenAndBegin(n: nat): seq<Action>
  {
    [Create(n + 1, 2, 3, 1, n * CYCLE + 1), Tick((n + 1) * CYCLE), Begin(n + 1)]
  }

  /** The empty session is allocated and settled at once. */
  ghost predicate Waiting(w: World, n: nat)
  {
    && !w.paused && w.owner == 1 && w.clock == (n + 1) * CYCLE && w.balance == 3 && w.vault == CollateralVault(3, 0, 0)
    && w.profile == UserProfile(true, n, 0, 0, I64_MAX, Some(n + 1))
    && (forall k :: k in w.sessions ==> k <= n + 1)
    && n + 1 in w.sessions
    && var s := w.sessions[n + 1];
    && s.frozen && s.status.Reconciling? && Complete(s) && AllSettled(s) && Successful(s)
  }

  lemma Opens(w: World, n: nat)
    requires Idle(w, n) && n <= U32_MAX
    ensures CanRun(w, OpenAndBegin(n)) && Waiting(End(w, OpenAndBegin(n)), n)
  {
    var c, t, b := Create(n + 1, 2, 3, 1, n * CYCLE + 1), Tick((n + 1) * CYCLE), Begin(n + 1);
    var x := Next(w, c);
    var y := Next(x, t);
    BeginsEmpty(y, n);
    assert OpenAndBegin(n) == [c] + ([t] + [b]);
    hide *;
    OneAction(w, c);
    OneAction(x, t);
    OneAction(y, b);
    Concatenated(x, [t], [b]);
    Concatenated(w, [c], [t] + [b]);
  }

  lemma BeginsEmpty(w: World, n: nat)
    requires !w.paused && w.owner == 1 && w.clock == (n + 1) * CYCLE && w.balance == 3 && w.vault == CollateralVault(3, 3, 0)
    requires w.profile == UserProfile(true, n, 0, 0, I64_MAX, Some(n + 1)) && n + 1 in w.sessions
    requires forall k :: k in w.sessions ==> k <= n + 1
    requires var s := w.sessions[n + 1];
      && s.filed == map[] && s.classified == s.scanned == s.settled == {} && !s.frozen && s.status.Active?
      && s.terms.deadline < w.clock && s.terms.cap == 3
    ensures Enabled(w, Begin(n + 1)) && Waiting(Next(w, Begin(n + 1)), n)
  {
    var s := w.sessions[n + 1];
    EmptySession(s);
    assert !Complete(s);
    hide Complete, AllSettled, Successful, FinalStatus, Claims, Coverage;
  }

  /** Beginning the finalization of a session without claims. */
  lemma EmptySession(s: Session)
    requires s.filed == map[] && s.classified == s.scanned == s.settled == {} && !s.frozen
    ensures var t := Begun(s);
      && Complete(t) && AllSettled(t) && Successful(t) && t.status.Reconciling? && Coverage(Claims(t), t.terms.cap) == 0
  {
    var t := Begun(s);
    EmptyClaims(s.filed);
    assert t.filed.Values == {};
  }

  lemma Closes(w: World, n: nat)
    requires Waiting(w, n) && n < U32_MAX
    ensures Enabled(w, Close(n + 1)) && Idle(Next(w, Close(n + 1)), n + 1)
  {
    hide Complete, AllSettled, Successful;
  }

  /** Any number of sessions that the count can hold. */
  lemma {:induction false} ClosesMany(w: World, n: nat) returns (run: seq<Action>)
    requires Idle(w, 0) && n <= U32_MAX
    ensures CanRun(w, run) && Idle(End(w, run), n)
    decreases n
  {
    hide *;
    if n == 0 {
      run := [];
      NoRun(w);
    } else {
      var before := ClosesMany(w, n - 1);
      var x := End(w, before);
      Opens(x, n - 1);
      var y := End(x, OpenAndBegin(n - 1));
      Closes(y, n - 1);
      OneAction(y, Close(n));
      Concatenated(x, OpenAndBegin(n - 1), [Close(n)]);
      Concatenated(w, before, OpenAndBegin(n - 1) + [Close(n)]);
      run := before + (OpenAndBegin(n - 1) + [Close(n)]);
    }
  }

  lemma NoRun(w: World)
    ensures CanRun(w, []) && End(w, []) == w
  {
  }

  /** The count of successes can hold up finalization for good. */
  lemma CountersRunOut()
    ensures exists w, run, sid :: Stranded(w, run, sid)
  {
    var w := World(Config(0, 0, 0, 0), 1, false, 0, UserProfile(true, 0, 0, 0, I64_MAX, None), CollateralVault(0, 0, 0), 0, map[]);
    var deposit := Deposit(3, 3);
    assert Initial(w) && Enabled(w, deposit) && Idle(Next(w, deposit), 0);
    hide *;
    OneAction(w, deposit);
    var v := End(w, [deposit]);
    var many := ClosesMany(v, U32_MAX);
    Opens(End(v, many), U32_MAX);
    Concatenated(v, many, OpenAndBegin(U32_MAX));
    Concatenated(w, [deposit], many + OpenAndBegin(U32_MAX));
    var run := [deposit] + (many + OpenAndBegin(U32_MAX));
    WaitsForever(w, run);
    assert Stranded(w, run, U32_MAX + 1);
  }

  lemma WaitsForever(w: World, run: seq<Action>)
    requires Initial(w) && CanRun(w, run) && Waiting(End(w, run), U32_MAX)
    ensures Stranded(w, run, U32_MAX + 1)
  {
    var sid := U32_MAX + 1;
    assert Frozen(End(w, run), sid) && !CountersAllow(End(w, run), sid) by { hide Complete, AllSettled, Successful; }
    hide *;
    NeverStuck(w, run, sid);
    StrandedIs(w, run, sid);
  }

  lemma StrandedIs(w: World, run: seq<Action>, sid: nat)
    requires Initial(w) && CanRun(w, run) && Frozen(End(w, run), sid) && !CountersAllow(End(w, run), sid)
    requires !exists a :: Finalizing(a, sid) && Enabled(End(w, run), a)
    ensures Stranded(w, run, sid)
  {
    hide Initial, CanRun, Frozen, CountersAllow, Finalizing, Enabled, End;
  }
}
