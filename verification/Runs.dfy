/** Whole runs of the program: every instruction by anyone, in any order, with the clock moving
    on, the pause flag changing and tokens arriving in between. */
module Runs {
  import opened Collections
  import opened ProRata
  import opened States
  import opened Protocol
  import opened Invariants

  datatype Action =
    | Tick(now: int)
    | Pause(flag: bool)
    | Receive(amount: nat)
    | Deposit(amount: nat, ownerTokens: nat)
    | Withdraw(amount: nat)
    | Create(sid: nat, device: nat, locked: nat, limit: nat, expiresAt: int)
    | Authorize(sid: nat, material: nat)
    | Submit(sid: nat, c: Credential, accounts: SubmitAccounts)
    | Begin(sid: nat)
    | Classify(sid: nat, e: StateHash, fork: Key, parent: Key)
    | Allocate(sid: nat, h: nat, e: StateHash)
    | Settle(sid: nat, h: nat, e: StateHash, to: nat)
    | Close(sid: nat)

  /** The transfer and the two subtractions of a settlement go through. */
  ghost predicate Affordable(w: World, sid: nat, h: nat)
  {
    && sid in w.sessions && h in Claims(w.sessions[sid])
    && Owed(w.sessions[sid], h) <= w.vault.reserved <= w.vault.deposited <= w.balance
  }

  ghost predicate Enabled(w: World, a: Action)
  {
    match a
    case Tick(now) => w.clock <= now
    case Pause(_) => true
    case Receive(amount) => w.balance + amount <= U64_MAX
    case Deposit(amount, tokens) => CanDeposit(w, amount, tokens)
    case Withdraw(amount) => CanWithdraw(w, amount)
    case Create(sid, device, locked, limit, expiresAt) => CanCreate(w, sid, device, locked, limit, expiresAt)
    case Authorize(sid, material) => CanAuthorize(w, sid, material)
    case Submit(sid, c, accounts) => CanSubmit(w, sid, c, accounts)
    case Begin(sid) => CanBegin(w, sid)
    case Classify(sid, e, fork, parent) => CanClassify(w, sid, e, fork, parent)
    case Allocate(sid, h, e) => CanAllocate(w, sid, h, e)
    case Settle(sid, h, e, to) => CanSettle(w, sid, h, e, to) && Affordable(w, sid, h)
    case Close(sid) => CanClose(w, sid)
  }

  ghost function Next(w: World, a: Action): World
    requires Enabled(w, a)
  {
    match a
    case Tick(now) => w.(clock := now)
    case Pause(flag) => w.(paused := flag)
    case Receive(amount) => w.(balance := w.balance + amount)
    case Deposit(amount, _) => AfterDeposit(w, amount)
    case Withdraw(amount) => AfterWithdraw(w, amount)
    case Create(sid, device, locked, limit, expiresAt) => AfterCreate(w, sid, device, locked, limit, expiresAt)
    case Authorize(sid, _) => AfterAuthorize(w, sid)
    case Submit(sid, c, _) => AfterSubmit(w, sid, c)
    case Begin(sid) => AfterBegin(w, sid)
    case Classify(sid, e, _, _) => AfterClassify(w, sid, e)
    case Allocate(sid, h, _) => AfterAllocate(w, sid, h)
    case Settle(sid, h, _, _) => AfterSettle(w, sid, h)
    case Close(sid) => AfterClose(w, sid)
  }

  ghost predicate CanRun(w: World, run: seq<Action>)
    decreases |run|
  {
    run != [] ==> Enabled(w, run[0]) && CanRun(Next(w, run[0]), run[1..])
  }

  ghost function End(w: World, run: seq<Action>): World
    requires CanRun(w, run)
    decreases |run|
  {
    if run == [] then w else End(Next(w, run[0]), run[1..])
  }

  lemma OneAction(w: World, a: Action)
    requires Enabled(w, a)
    ensures CanRun(w, [a]) && End(w, [a]) == Next(w, a)
  {
    hide Enabled, Next;
    assert [a][1..] == [];
  }

  /** One run after another. */
  lemma {:induction false} Concatenated(w: World, first: seq<Action>, rest: seq<Action>)
    requires CanRun(w, first) && CanRun(End(w, first), rest)
    ensures CanRun(w, first + rest) && End(w, first + rest) == End(End(w, first), rest)
    decreases |first|
  {
    hide Enabled, Next;
    if first == [] {
      assert first + rest == rest;
    } else {
      assert (first + rest)[1..] == first[1..] + rest;
      Concatenated(Next(w, first[0]), first[1..], rest);
    }
  }

  /** A vault and profile just initialized. */
  ghost predicate Initial(w: World)
  {
    && w.sessions == map[] && w.vault == CollateralVault(0, 0, 0) && w.balance == 0
    && w.profile == UserProfile(true, 0, 0, 0, w.profile.identityExpiresAt, None)
  }

  lemma InitialOk(w: World)
    requires Initial(w)
    ensures WorldOk(w)
  {
  }

  lemma CustodyStep(w: World, a: Action)
    requires WorldOk(w) && Enabled(w, a) && (a.Tick? || a.Pause? || a.Receive? || a.Deposit? || a.Withdraw?)
    ensures WorldOk(Next(w, a))
  {
    WorldFacts(w, 0);
    hide WorldOk;
    CustodyKeeps(w, Next(w, a));
  }

  lemma NextKeeps(w: World, a: Action)
    requires WorldOk(w) && Enabled(w, a)
    ensures WorldOk(Next(w, a))
  {
    hide WorldOk, CanCreate, CanAuthorize, CanSubmit, CanBegin, CanClassify, CanAllocate, CanSettle, CanClose,
         AfterCreate, AfterAuthorize, AfterSubmit, AfterBegin, AfterClassify, AfterAllocate, AfterSettle, AfterClose,
         Owed, CanDeposit, CanWithdraw, AfterDeposit, AfterWithdraw, Claims;
    match a
    case Create(sid, device, locked, limit, expiresAt) => CreateKeeps(w, sid, device, locked, limit, expiresAt);
    case Authorize(sid, material) => AuthorizeKeeps(w, sid, material);
    case Submit(sid, c, accounts) => SubmitKeeps(w, sid, c, accounts);
    case Begin(sid) => BeginKeeps(w, sid);
    case Classify(sid, e, fork, parent) => ClassifyKeeps(w, sid, e, fork, parent);
    case Allocate(sid, h, e) => AllocateKeeps(w, sid, h, e);
    case Settle(sid, h, e, to) => SettleKeeps(w, sid, h, e, to);
    case Close(sid) => CloseKeeps(w, sid);
    case _ => CustodyStep(w, a);
  }

  lemma {:induction false} RunKeeps(w: World, run: seq<Action>)
    requires WorldOk(w) && CanRun(w, run)
    ensures WorldOk(End(w, run))
    decreases |run|
  {
    hide WorldOk, Enabled, Next;
    if run != [] {
      NextKeeps(w, run[0]);
      RunKeeps(Next(w, run[0]), run[1..]);
    }
  }

  /** What the reserve of a vault must hold for one session. */
  ghost function HeldFor(s: Session): int
  {
    if s.status.Closed? then 0
    else if Complete(s) then Coverage(Claims(s), s.terms.cap) - Sum(OwedTo(s, s.settled))
    else s.terms.cap
  }

  predicate Open(w: World, sid: nat) { sid in w.sessions && !w.sessions[sid].status.Closed? }

  /** Solvency over every run from initialization: the vault account always covers its ledger, at
      most one session is open, and the reserve is exactly what that session still needs: its whole
      cap until allocation completes, the unpaid coverage afterwards, nothing once it is closed. */
  lemma SolventOverRuns(w: World, run: seq<Action>, sid: nat, other: nat)
    requires Initial(w) && CanRun(w, run)
    ensures End(w, run).vault.reserved <= End(w, run).vault.deposited <= End(w, run).balance <= U64_MAX
    ensures Open(End(w, run), sid) && Open(End(w, run), other) ==> sid == other
    ensures Open(End(w, run), sid) ==> End(w, run).vault.reserved == HeldFor(End(w, run).sessions[sid])
    ensures (forall k :: !Open(End(w, run), k)) ==> End(w, run).vault.reserved == 0
  {
    InitialOk(w);
    RunKeeps(w, run);
    var x := End(w, run);
    WorldFacts(x, sid);
    if sid in x.sessions { OpenSession(x, sid); }
    if other in x.sessions { OpenSession(x, other); }
    if x.profile.activeSession.Some? {
      WorldFacts(x, x.profile.activeSession.value);
      assert Open(x, x.profile.activeSession.value);
    }
    hide CanRun, End, WorldOk, SessionIn, SessionOk, Complete, Coverage, OwedTo, Claims;
  }

  /** A settlement that passes the account checks never fails for lack of funds. */
  lemma SettlementsAffordable(w: World, run: seq<Action>, sid: nat, h: nat, e: StateHash, to: nat)
    requires Initial(w) && CanRun(w, run)
    requires CanSettle(End(w, run), sid, h, e, to)
    ensures Affordable(End(w, run), sid, h)
  {
    InitialOk(w);
    RunKeeps(w, run);
    var x := End(w, run);
    hide CanRun, End, WorldOk, Claims, Owed, Complete, Payable;
    SettleFits(x, sid, h, e, to);
  }

  // ----- What one action does to one session -----

  predicate Touches(a: Action, sid: nat)
  {
    match a
    case Create(k, _, _, _, _) => k == sid
    case Authorize(k, _) => k == sid
    case Submit(k, _, _) => k == sid
    case Begin(k) => k == sid
    case Classify(k, _, _, _) => k == sid
    case Allocate(k, _, _) => k == sid
    case Settle(k, _, _, _) => k == sid
    case Close(k) => k == sid
    case _ => false
  }

  /** The session an action leaves behind. */
  ghost function Stepped(w: World, s: Session, a: Action): Session
  {
    match a
    case Authorize(_, _) => s.(authorized := true)
    case Submit(_, c, _) => Filed(w, s, c)
    case Begin(_) => Begun(s)
    case Classify(_, e, _, _) => if e in s.filed.Values then s.(classified := s.classified + {Rep(s.filed, e)}) else s
    case Allocate(_, h, _) => Scanned(s, h)
    case Settle(_, h, _, _) => SettledOne(s, h)
    case Close(_) => s.(status := Closed)
    case _ => s
  }

  lemma SessionAfter(w: World, a: Action, sid: nat)
    requires Enabled(w, a) && sid in w.sessions
    ensures sid in Next(w, a).sessions
    ensures Next(w, a).sessions[sid] == if Touches(a, sid) then Stepped(w, w.sessions[sid], a) else w.sessions[sid]
  {
    hide PayloadOk, ParentOk, CountersFit, Claims, Owed, Filed, Begun, Scanned, SettledOne, MakesFork, Rep, Complete,
         ReleaseSurplus, ClassificationComplete, Payable, ParentReady, AllSettled, Successful;
  }

  /** An action files at most the credential it submits. */
  ghost function FiledBy(f: Book, a: Action, sid: nat): Book
  {
    if a.Submit? && a.sid == sid then f[a.c.hash := a.c.newState] else f
  }

  lemma BookAfter(w: World, a: Action, sid: nat)
    requires Enabled(w, a) && sid in w.sessions
    ensures sid in Next(w, a).sessions && Next(w, a).sessions[sid].terms == w.sessions[sid].terms
    ensures Next(w, a).sessions[sid].filed == FiledBy(w.sessions[sid].filed, a, sid)
    ensures a.Submit? && a.sid == sid ==> a.c.hash !in w.sessions[sid].filed
  {
    SessionAfter(w, a, sid);
    SteppedBook(w, w.sessions[sid], a);
    if a.Submit? { SubmitNew(w, a); }
    hide Enabled, Next, Stepped;
  }

  lemma SubmitNew(w: World, a: Action)
    requires Enabled(w, a) && a.Submit?
    ensures a.sid in w.sessions && a.c.hash !in w.sessions[a.sid].filed
  {
    hide PayloadOk, ParentOk, CountersFit, IsNewEdge;
  }

  lemma SteppedBook(w: World, s: Session, a: Action)
    ensures Stepped(w, s, a).terms == s.terms
    ensures Stepped(w, s, a).filed == if a.Submit? then s.filed[a.c.hash := a.c.newState] else s.filed
  {
    hide Complete, AllSettled, FinalStatus, Arrivals, FiledStatus;
  }
}
