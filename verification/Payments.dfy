/** Money over whole runs: surplus collateral is released once, every claim is paid once and in
    the amount it is owed, and a closed session has used up its cap exactly. */
module Payments {
  import opened Collections
  import opened ProRata
  import opened States
  import opened Protocol
  import opened Invariants
  import opened Runs

  // ----- Once allocation is complete, what is owed is fixed -----

  lemma NeverAfterCompletion(w: World, a: Action, s: Session)
    requires WorldOk(w) && Enabled(w, a) && (a.Create? || a.Submit? || a.Classify? || a.Allocate?)
    requires a.sid in w.sessions && w.sessions[a.sid] == s
    ensures !Complete(s)
  {
    if a.Submit? {
      SubmitKeepsSession(w, a.sid, a.c, a.accounts);
    }
    if a.Classify? { OpenSession(w, a.sid); ClassifyKeepsSession(w, a.sid, a.e, a.fork, a.parent); }
    hide WorldOk, Claims, PayloadOk, ParentOk, CountersFit, SessionOk, ParentReady;
  }

  lemma SteppedComplete(w: World, s: Session, a: Action)
    requires Complete(s) && !a.Submit? && !a.Classify? && !a.Allocate?
    ensures Complete(Stepped(w, s, a))
    ensures Stepped(w, s, a).filed == s.filed && Stepped(w, s, a).terms == s.terms
    ensures Stepped(w, s, a).settled == s.settled + (if a.Settle? then {a.h} else {})
  {
    hide Eligible, AllSettled, FinalStatus;
  }

  /** After allocation a session's book, terms and allocation stay; only settlements are added. */
  lemma CompleteStays(w: World, a: Action, sid: nat)
    requires WorldOk(w) && Enabled(w, a) && sid in w.sessions && Complete(w.sessions[sid])
    ensures sid in Next(w, a).sessions && Complete(Next(w, a).sessions[sid])
    ensures Next(w, a).sessions[sid].filed == w.sessions[sid].filed
    ensures Next(w, a).sessions[sid].terms == w.sessions[sid].terms
    ensures Next(w, a).sessions[sid].settled
         == w.sessions[sid].settled + (if a.Settle? && a.sid == sid then {a.h} else {})
  {
    var s := w.sessions[sid];
    SessionAfter(w, a, sid);
    hide WorldOk, Enabled, Next, Complete, Stepped;
    if Touches(a, sid) {
      if a.Create? || a.Submit? || a.Classify? || a.Allocate? { NeverAfterCompletion(w, a, s); }
      SteppedComplete(w, s, a);
    }
  }

  lemma {:induction false} CompleteForever(w: World, run: seq<Action>, sid: nat)
    requires WorldOk(w) && CanRun(w, run) && sid in w.sessions && Complete(w.sessions[sid])
    ensures sid in End(w, run).sessions && Complete(End(w, run).sessions[sid])
    ensures End(w, run).sessions[sid].filed == w.sessions[sid].filed
    ensures End(w, run).sessions[sid].terms == w.sessions[sid].terms
    ensures w.sessions[sid].settled <= End(w, run).sessions[sid].settled
    decreases |run|
  {
    hide WorldOk, Enabled, Next, Complete;
    if run != [] {
      NextKeeps(w, run[0]);
      CompleteStays(w, run[0], sid);
      CompleteForever(Next(w, run[0]), run[1..], sid);
    }
  }

  /** What one settlement pays. */
  ghost function Payment(w: World, a: Action, sid: nat, h: nat): nat
    requires Enabled(w, a)
  {
    if a.Settle? && a.sid == sid && a.h == h then Owed(w.sessions[sid], h) else 0
  }

  /** Everything a run pays to one claim. */
  ghost function PaidTo(w: World, run: seq<Action>, sid: nat, h: nat): nat
    requires CanRun(w, run)
    decreases |run|
  {
    if run == [] then 0 else Payment(w, run[0], sid, h) + PaidTo(Next(w, run[0]), run[1..], sid, h)
  }

  ghost predicate Settles(w: World, sid: nat, h: nat) { sid in w.sessions && h in w.sessions[sid].settled }

  lemma SettleStep(w: World, a: Action, sid: nat, h: nat)
    requires WorldOk(w) && Enabled(w, a) && sid in w.sessions
    ensures sid in Next(w, a).sessions
    ensures Settles(Next(w, a), sid, h) <==> Settles(w, sid, h) || (a.Settle? && a.sid == sid && a.h == h)
    ensures a.Settle? && a.sid == sid && a.h == h ==> Complete(w.sessions[sid]) && !Settles(w, sid, h)
  {
    SessionAfter(w, a, sid);
    if Complete(w.sessions[sid]) { CompleteStays(w, a, sid); }
    if a.Settle? && a.sid == sid && a.h == h { SettleNew(w, a); }
    SteppedSettled(w, w.sessions[sid], a);
    hide WorldOk, Enabled, Next, Complete, Stepped;
  }

  lemma SettleNew(w: World, a: Action)
    requires Enabled(w, a) && a.Settle?
    ensures a.sid in w.sessions && Complete(w.sessions[a.sid]) && a.h !in w.sessions[a.sid].settled
  {
    hide Complete, Payable, Claims;
  }

  lemma SteppedSettled(w: World, s: Session, a: Action)
    ensures Stepped(w, s, a).settled == s.settled + (if a.Settle? then {a.h} else {})
  {
    hide Complete, AllSettled, FinalStatus, Arrivals, FiledStatus;
  }

  /** No run pays a claim twice, and it pays exactly what the allocation owes it. */
  lemma {:induction false} PaidOnce(w: World, run: seq<Action>, sid: nat, h: nat)
    requires WorldOk(w) && CanRun(w, run) && sid in w.sessions
    ensures sid in End(w, run).sessions
    ensures Settles(w, sid, h) ==> Settles(End(w, run), sid, h)
    ensures Settles(End(w, run), sid, h) && !Settles(w, sid, h)
            ==> h in Claims(End(w, run).sessions[sid]) && PaidTo(w, run, sid, h) == Owed(End(w, run).sessions[sid], h)
    ensures !Settles(End(w, run), sid, h) || Settles(w, sid, h) ==> PaidTo(w, run, sid, h) == 0
    decreases |run|
  {
    hide WorldOk, Enabled, Next, Complete, Payout;
    if run != [] {
      var a, x := run[0], Next(w, run[0]);
      NextKeeps(w, a);
      SettleStep(w, a, sid, h);
      PaidOnce(x, run[1..], sid, h);
      if a.Settle? && a.sid == sid && a.h == h {
        CompleteStays(w, a, sid);
        CompleteForever(x, run[1..], sid);
        SettledClaim(w, a);
      }
    }
  }

  lemma SettledClaim(w: World, a: Action)
    requires Enabled(w, a) && a.Settle?
    ensures a.sid in w.sessions && a.h in Claims(w.sessions[a.sid])
  {
    hide Claims, Payable, Complete;
  }

  /** By the time a session is closed every representative claim has received exactly its share and
      every duplicate wrapper nothing. */
  lemma PaidInFull(w: World, run: seq<Action>, sid: nat, h: nat)
    requires WorldOk(w) && CanRun(w, run) && sid in w.sessions && !Complete(w.sessions[sid])
    requires sid in End(w, run).sessions && End(w, run).sessions[sid].status.Closed?
    ensures PaidTo(w, run, sid, h)
         == (if h in Claims(End(w, run).sessions[sid]) then Owed(End(w, run).sessions[sid], h) else 0)
  {
    var t := End(w, run).sessions[sid];
    RunKeeps(w, run);
    OpenSession(w, sid);
    OpenSession(End(w, run), sid);
    UnsettledBefore(w.sessions[sid]);
    PaidOnce(w, run, sid, h);
    ClosedSettled(t);
    hide WorldOk, SessionOk, Complete, Claims, Owed, CanRun, End, PaidTo;
    assert h in Claims(t) && 0 < Owed(t, h) ==> h in Payable(t);
  }

  lemma ClosedSettled(s: Session)
    requires SessionOk(s) && s.status.Closed?
    ensures AllSettled(s) && Complete(s)
  {
    hide BookOk, ProgressOk, Claims, Payable, Forked;
  }

  // ----- The surplus and the cap -----

  /** Collateral that begin_finalization and allocate_next_claim give back from the reserve. */
  ghost function Released(w: World, run: seq<Action>, sid: nat): int
    requires CanRun(w, run)
    decreases |run|
  {
    if run == [] then 0
    else
      var x := Next(w, run[0]);
      (if (run[0].Begin? || run[0].Allocate?) && run[0].sid == sid then w.vault.reserved - x.vault.reserved else 0)
      + Released(x, run[1..], sid)
  }

  ghost function Surplus(s: Session): int { s.terms.cap - Coverage(Claims(s), s.terms.cap) }

  /** The reserve moves only when the allocation completes, and then by the surplus. */
  lemma ReleaseStep(w: World, a: Action, sid: nat)
    requires WorldOk(w) && Enabled(w, a) && (a.Begin? || a.Allocate?) && a.sid == sid
    ensures sid in w.sessions && sid in Next(w, a).sessions
    ensures w.vault.reserved - Next(w, a).vault.reserved
         == if Complete(Next(w, a).sessions[sid]) && !Complete(w.sessions[sid]) then Surplus(Next(w, a).sessions[sid]) else 0
  {
    NextKeeps(w, a);
    OpenSession(w, sid);
    ReleasingSession(w, a);
    var s, t := w.sessions[sid], Next(w, a).sessions[sid];
    OpenSession(Next(w, a), sid);
    hide WorldOk, Enabled, Next, Complete, SessionOk, SessionIn, Outstanding, Claims, Coverage;
    UnsettledBefore(s);
    if !Complete(s) {
      OutstandingBefore(s);
      if Complete(t) { OutstandingAtCompletion(t); } else { OutstandingBefore(t); }
    }
  }

  lemma ReleasingSession(w: World, a: Action)
    requires WorldOk(w) && Enabled(w, a) && (a.Begin? || a.Allocate?)
    ensures var sid := a.sid;
      && sid in w.sessions && sid in Next(w, a).sessions
      && !w.sessions[sid].status.Closed? && !Next(w, a).sessions[sid].status.Closed?
      && Next(w, a).sessions[sid].terms == w.sessions[sid].terms
      && Next(w, a).sessions[sid].settled == w.sessions[sid].settled
      && (Complete(w.sessions[sid]) ==> Complete(Next(w, a).sessions[sid])
                                        && Outstanding(Next(w, a).sessions[sid]) == Outstanding(w.sessions[sid]))
  {
    var s := w.sessions[a.sid];
    OpenSession(w, a.sid);
    SessionAfter(w, a, a.sid);
    if a.Begin? {
      BeginKeepsSession(s);
      hide Complete, Outstanding, Begun, WorldOk, SessionOk;
      if Complete(s) { RewindOutstanding(s); }
    } else {
      AllocateKeepsSession(s, a.h);
      hide Complete, Outstanding, Scanned, WorldOk, SessionOk;
    }
  }

  /** Only begin_finalization and allocate_next_claim complete an allocation. */
  lemma CompletionStep(w: World, a: Action, sid: nat)
    requires WorldOk(w) && Enabled(w, a) && sid in w.sessions && !Complete(w.sessions[sid])
    ensures sid in Next(w, a).sessions
    ensures Complete(Next(w, a).sessions[sid]) ==> (a.Begin? || a.Allocate?) && a.sid == sid
  {
    SessionAfter(w, a, sid);
    if Touches(a, sid) && !a.Begin? && !a.Allocate? {
      var s := w.sessions[sid];
      if a.Submit? {
        SubmitKeepsSession(w, sid, a.c, a.accounts);
      } else if a.Classify? {
        OpenSession(w, sid);
        ClassifyKeepsSession(w, sid, a.e, a.fork, a.parent);
      }
      hide WorldOk, Claims, PayloadOk, ParentOk, CountersFit, SessionOk, ParentReady, Payable, AllSettled, SessionIn;
    }
  }

  /** Over any run the session's reserve is reduced by its surplus once, when allocation completes,
      however often finalization is begun again. */
  lemma {:induction false} ReleasedOnce(w: World, run: seq<Action>, sid: nat)
    requires WorldOk(w) && CanRun(w, run) && sid in w.sessions
    ensures sid in End(w, run).sessions
    ensures Released(w, run, sid)
         == if Complete(End(w, run).sessions[sid]) && !Complete(w.sessions[sid]) then Surplus(End(w, run).sessions[sid]) else 0
    decreases |run|
  {
    hide WorldOk, Enabled, Next, Complete, Coverage, Claims;
    if run != [] {
      var a, x := run[0], Next(w, run[0]);
      NextKeeps(w, a);
      if Complete(w.sessions[sid]) { CompleteStays(w, a, sid); } else { CompletionStep(w, a, sid); }
      if (a.Begin? || a.Allocate?) && a.sid == sid { ReleaseStep(w, a, sid); }
      ReleasedOnce(x, run[1..], sid);
      if Complete(x.sessions[sid]) {
        CompleteForever(x, run[1..], sid);
        SameSurplus(x.sessions[sid], End(x, run[1..]).sessions[sid]);
      }
    }
  }

  lemma SameSurplus(s: Session, t: Session)
    requires s.filed == t.filed && s.terms == t.terms
    ensures Surplus(s) == Surplus(t)
    ensures forall among :: OwedTo(s, among) == OwedTo(t, among)
  {
  }

  /** Everything a run pays to the claims of one session. */
  ghost function Disbursed(w: World, run: seq<Action>, sid: nat): nat
    requires CanRun(w, run)
    decreases |run|
  {
    if run == [] then 0
    else
      var a := run[0];
      (if a.Settle? && a.sid == sid then Owed(w.sessions[sid], a.h) else 0) + Disbursed(Next(w, a), run[1..], sid)
  }

  ghost function Settled(w: World, sid: nat): nat
    requires sid in w.sessions
  {
    Sum(OwedTo(w.sessions[sid], w.sessions[sid].settled))
  }

  lemma DisburseStep(w: World, a: Action, sid: nat)
    requires WorldOk(w) && Enabled(w, a) && a.Settle? && a.sid == sid
    ensures sid in w.sessions && sid in Next(w, a).sessions && a.h in Claims(w.sessions[sid])
    ensures Settled(Next(w, a), sid) == Settled(w, sid) + Owed(w.sessions[sid], a.h)
  {
    SettleNew(w, a);
    SettledClaim(w, a);
    CompleteStays(w, a, sid);
    SettleAdds(w.sessions[sid], a.h);
    SameSurplus(w.sessions[sid], Next(w, a).sessions[sid]);
    hide WorldOk, Enabled, Next, Complete, Claims, OwedTo, Owed, Sum;
  }

  lemma {:induction false} DisbursedIs(w: World, run: seq<Action>, sid: nat)
    requires WorldOk(w) && CanRun(w, run) && sid in w.sessions
    ensures sid in End(w, run).sessions
    ensures w.sessions[sid].settled == {} ==>
              Disbursed(w, run, sid) == Settled(End(w, run), sid)
    ensures Complete(w.sessions[sid]) ==> Disbursed(w, run, sid) + Settled(w, sid) == Settled(End(w, run), sid)
    decreases |run|
  {
    hide WorldOk, Enabled, Next, Complete, OwedTo, Owed, Sum;
    NoneOwed(w.sessions[sid]);
    if run != [] {
      var a, x := run[0], Next(w, run[0]);
      NextKeeps(w, a);
      if a.Settle? && a.sid == sid {
        SettleNew(w, a);
        CompleteStays(w, a, sid);
        DisburseStep(w, a, sid);
      } else {
        Unsettling(w, a, sid);
      }
      DisbursedIs(x, run[1..], sid);
    }
  }

  lemma NoneOwed(s: Session)
    ensures s.settled == {} ==> Sum(OwedTo(s, s.settled)) == 0
  {
    hide Payout, Claims;
    if s.settled == {} { assert OwedTo(s, s.settled) == map[]; }
  }

  lemma Unsettling(w: World, a: Action, sid: nat)
    requires WorldOk(w) && Enabled(w, a) && sid in w.sessions && !(a.Settle? && a.sid == sid)
    ensures sid in Next(w, a).sessions && Next(w, a).sessions[sid].settled == w.sessions[sid].settled
    ensures Complete(w.sessions[sid]) ==> Complete(Next(w, a).sessions[sid])
    ensures Complete(w.sessions[sid]) ==> Settled(Next(w, a), sid) == Settled(w, sid)
  {
    SessionAfter(w, a, sid);
    SteppedSettled(w, w.sessions[sid], a);
    hide WorldOk, Enabled, Next, Complete, OwedTo, Owed, Sum, Stepped;
    if Complete(w.sessions[sid]) {
      CompleteStays(w, a, sid);
      SameSurplus(w.sessions[sid], Next(w, a).sessions[sid]);
    }
  }

  /** A session that goes from collecting claims to closed has used its whole cap: its claims were
      paid the coverage min(exposure, cap) and the rest was released to the owner. */
  lemma CapUsedUp(w: World, run: seq<Action>, sid: nat)
    requires WorldOk(w) && CanRun(w, run) && sid in w.sessions && !Complete(w.sessions[sid])
    requires sid in End(w, run).sessions && End(w, run).sessions[sid].status.Closed?
    ensures var t := End(w, run).sessions[sid];
      && Disbursed(w, run, sid) == Coverage(Claims(t), t.terms.cap)
      && Disbursed(w, run, sid) + Released(w, run, sid) == w.sessions[sid].terms.cap == t.terms.cap
  {
    var t := End(w, run).sessions[sid];
    RunKeeps(w, run);
    OpenSession(w, sid);
    OpenSession(End(w, run), sid);
    UnsettledBefore(w.sessions[sid]);
    ClosedSettled(t);
    SettledPart(t);
    ReleasedOnce(w, run, sid);
    DisbursedIs(w, run, sid);
    TermsStay(w, run, sid);
    hide WorldOk, SessionOk, SessionIn, Complete, Claims, OwedTo, CanRun, End, Released, Disbursed, Coverage;
  }

  lemma {:induction false} TermsStay(w: World, run: seq<Action>, sid: nat)
    requires CanRun(w, run) && sid in w.sessions
    ensures sid in End(w, run).sessions && End(w, run).sessions[sid].terms == w.sessions[sid].terms
    decreases |run|
  {
    hide Enabled, Next;
    if run != [] {
      BookAfter(w, run[0], sid);
      TermsStay(Next(w, run[0]), run[1..], sid);
    }
  }

  // ----- Tokens -----

  ghost function InFlow(a: Action): nat { if a.Receive? || a.Deposit? then a.amount else 0 }

  ghost function OutFlow(w: World, a: Action): nat
    requires Enabled(w, a)
  {
    if a.Withdraw? then a.amount else if a.Settle? then Owed(w.sessions[a.sid], a.h) else 0
  }

  ghost function Net(w: World, run: seq<Action>): int
    requires CanRun(w, run)
    decreases |run|
  {
    if run == [] then 0 else InFlow(run[0]) - OutFlow(w, run[0]) + Net(Next(w, run[0]), run[1..])
  }

  /** No token appears or disappears: the vault's balance changes by what is sent in, withdrawn and
      paid to claims, and by nothing else. */
  lemma {:induction false} TokensConserved(w: World, run: seq<Action>)
    requires CanRun(w, run)
    ensures End(w, run).balance == w.balance + Net(w, run)
    decreases |run|
  {
    hide CanCreate, CanSubmit, CanClassify, CanAllocate, CanSettle, CanClose, CanBegin, Owed, Claims, MakesFork, Filed,
         Begun, Scanned, SettledOne, ReleaseSurplus, Rep, Successful;
    if run != [] { TokensConserved(Next(w, run[0]), run[1..]); }
  }

  /** Sums over a run of what is deposited, sent in directly and withdrawn. */
  function Deposits(run: seq<Action>): nat
  {
    if run == [] then 0 else (if run[0].Deposit? then run[0].amount else 0) + Deposits(run[1..])
  }

  function Gifts(run: seq<Action>): nat
  {
    if run == [] then 0 else (if run[0].Receive? then run[0].amount else 0) + Gifts(run[1..])
  }

  function Withdrawals(run: seq<Action>): nat
  {
    if run == [] then 0 else (if run[0].Withdraw? then run[0].amount else 0) + Withdrawals(run[1..])
  }

  ghost function PaidOutBy(w: World, run: seq<Action>): nat
    requires CanRun(w, run)
    decreases |run|
  {
    if run == [] then 0
    else (if run[0].Settle? then Owed(w.sessions[run[0].sid], run[0].h) else 0) + PaidOutBy(Next(w, run[0]), run[1..])
  }

  lemma LedgerStep(w: World, a: Action)
    requires Enabled(w, a)
    ensures a.Settle? ==> a.sid in w.sessions && a.h in Claims(w.sessions[a.sid])
    ensures var paid, x := if a.Settle? then Owed(w.sessions[a.sid], a.h) else 0, Next(w, a);
      && x.vault.deposited == w.vault.deposited + (if a.Deposit? then a.amount else 0)
                              - (if a.Withdraw? then a.amount else 0) - paid
      && x.vault.settledFromCollateral == w.vault.settledFromCollateral + paid
      && x.balance == w.balance + (if a.Deposit? || a.Receive? then a.amount else 0)
                      - (if a.Withdraw? then a.amount else 0) - paid
  {
    hide CanCreate, CanSubmit, CanClassify, CanAllocate, CanClose, CanBegin, Owed, Claims, MakesFork, Filed, Payable,
         Begun, Scanned, SettledOne, Rep, Successful, Complete, Coverage;
  }

  /** The vault's books: what it records as deposited is the deposits less the withdrawals and payments,
      what it records as settled is the payments, and its balance exceeds its deposit by exactly what was
      sent to it directly. */
  lemma {:induction false} BooksBalance(w: World, run: seq<Action>)
    requires CanRun(w, run)
    ensures End(w, run).vault.deposited == w.vault.deposited + Deposits(run) - Withdrawals(run) - PaidOutBy(w, run)
    ensures End(w, run).vault.settledFromCollateral == w.vault.settledFromCollateral + PaidOutBy(w, run)
    ensures End(w, run).balance - End(w, run).vault.deposited == w.balance - w.vault.deposited + Gifts(run)
    decreases |run|
  {
    hide Enabled, Next, Owed, Claims;
    if run != [] {
      LedgerStep(w, run[0]);
      BooksBalance(Next(w, run[0]), run[1..]);
    }
  }
}
