/** Off-chain acceptance implies on-chain acceptance: the payments of an accepted proof bundle, taken
    in order, can all be submitted to the session the certificate describes. */
module Submission {
  import opened Collections
  import opened ProRata
  import opened States
  import opened Protocol
  import opened Invariants
  import opened Runs
  import opened Credentials
  import opened Agreement
  import opened Relayer

  /** The session takes claims now, and its counters have room for n more carrying that amount. */
  ghost predicate Receptive(w: World, sid: nat, n: nat, amount: nat)
    requires sid in w.sessions
  {
    var s := w.sessions[sid];
    && !w.paused && s.authorized && s.status.Collecting() && w.clock <= s.terms.deadline
    && |s.filed| + n <= U32_MAX && w.profile.conflictCount + n <= U32_MAX
    && Exposure(Claims(s)) + amount <= U64_MAX
  }

  /** The parent is the genesis state or a filed payment, with the balance its hash commits to. */
  ghost predicate Known(s: Session, parent: ParentState)
  {
    if parent.sequence == 0 then parent.state == Root(s.terms) && parent.remaining == s.terms.limit
    else parent.state in s.filed.Values && parent.state.Payment?
         && parent.sequence == parent.state.sequence && parent.remaining == parent.state.newRemaining
  }

  lemma {:induction false} ValuesSize(f: Book)
    ensures |f.Values| <= |f|
    decreases |f|
  {
    if f == map[] {
      assert f.Values == {};
    } else {
      var h :| h in f;
      var g := f - {h};
      ValuesSize(g);
      assert f == g[h := f[h]];
      ValuesAfter(g, h, f[h]);
      assert f.Values == g.Values + {f[h]};
    }
  }

  lemma CountersFitRoom(w: World, sid: nat, c: Credential, n: nat, amount: nat)
    requires sid in w.sessions && Receptive(w, sid, n, amount) && 0 < n && c.amount <= amount
    ensures CountersFit(w, w.sessions[sid], c)
  {
    var s := w.sessions[sid];
    ValuesSize(s.filed);
    SubsetSize(Siblings(s, c), s.filed.Values);
    SubsetSize(Wrappers(s.filed, c.newState), s.filed.Keys);
    assert |s.filed.Keys| == |s.filed|;
    hide Wrappers, Claims;
  }

  /** A payment accepted off-chain from a known parent can be submitted, unless it is already filed. */
  lemma AcceptedSubmits(ctx: TrustContext, cert: Certificate, w: World, sid: nat, parent: ParentState, c: Credential, n: nat, amount: nat)
    requires WorldOk(w) && Describes(ctx, cert, w, sid) && Receptive(w, sid, n, amount) && 0 < n && c.amount <= amount
    requires Known(w.sessions[sid], parent) && ValidatePaymentCredential(ctx, cert, parent, c).Accepted?
    requires parent.remaining <= cert.limit && c.hash !in w.sessions[sid].filed
    ensures CanSubmit(w, sid, c, RightAccounts(w.sessions[sid], c))
  {
    var s := w.sessions[sid];
    CountersFitRoom(w, sid, c, n, amount);
    PayloadAgrees(ctx, cert, parent, c, w.clock);
    assert c.newState == Successor(c) && c.signed && c.sequence == parent.sequence + 1;
    assert c.previousState == parent.state && c.previousRemaining == parent.remaining;
    assert !w.paused && s.authorized && s.status.Collecting() && PayloadOk(w.config, s.terms, c.merchant, w.clock, c);
    hide *;
    ParentAccepted(s, parent, c);
    RightOnes(w, sid, c);
  }

  lemma ParentAccepted(s: Session, parent: ParentState, c: Credential)
    requires Known(s, parent) && c.newState == Successor(c) && c.sequence == parent.sequence + 1
    requires c.previousState == parent.state && c.previousRemaining == parent.remaining
    ensures IsNewEdge(s, c) ==> ParentOk(s, c, RightAccounts(s, c).parent)
  {
    UnrecordedIsNew(s, c);
    hide Rep, PreviousKey, NextKey, IsNewEdge, Unrecorded;
  }

  lemma RightOnes(w: World, sid: nat, c: Credential)
    requires sid in w.sessions && !w.paused && c.signed && c.newState == Successor(c)
    requires var s := w.sessions[sid];
      && s.authorized && s.status.Collecting() && PayloadOk(w.config, s.terms, c.merchant, w.clock, c) && c.hash !in s.filed
      && CountersFit(w, s, c) && (IsNewEdge(s, c) ==> ParentOk(s, c, RightAccounts(s, c).parent))
    ensures CanSubmit(w, sid, c, RightAccounts(w.sessions[sid], c))
  {
    UnrecordedIsNew(w.sessions[sid], c);
    hide PayloadOk, CountersFit, Rep, PreviousKey, NextKey, IsNewEdge, Unrecorded, ParentOk;
  }

  /** Filing a payment keeps the session receptive for the rest. */
  lemma StaysReceptive(w: World, sid: nat, c: Credential, a: SubmitAccounts, n: nat, amount: nat)
    requires WorldOk(w) && CanSubmit(w, sid, c, a) && Receptive(w, sid, n, amount) && 0 < n && c.amount <= amount
    ensures sid in AfterSubmit(w, sid, c).sessions && Receptive(AfterSubmit(w, sid, c), sid, n - 1, amount - c.amount)
  {
    var s := w.sessions[sid];
    ExposureAfterFiling(s.filed, c.hash, c.newState);
    FiledSize(s.filed, c.hash, c.newState);
    PayloadParts(w, sid, c, a);
    hide WorldOk, CanSubmit, MakesFork, Eligible, Arrivals, IsNewEdge;
  }

  lemma FiledIsKnown(w: World, sid: nat, c: Credential, t: Session)
    requires c.newState == Successor(c) && 0 < c.sequence && c.hash in t.filed && t.filed[c.hash] == c.newState
    ensures Known(t, ParentState(c.newState, c.sequence, c.newRemaining))
  {
    assert c.newState in t.filed.Values;
  }

  /** Entries already filed under these hashes are these credentials' states, and hashes differ. */
  ghost predicate Compatible(f: Book, payments: seq<Credential>)
  {
    && (forall i :: 0 <= i < |payments| && payments[i].hash in f ==> f[payments[i].hash] == payments[i].newState)
    && (forall i, j :: 0 <= i < j < |payments| ==> payments[i].hash != payments[j].hash)
  }

  lemma RestCompatible(f: Book, payments: seq<Credential>)
    requires payments != [] && Compatible(f, payments)
    ensures Compatible(f, payments[1..]) && Compatible(f[payments[0].hash := payments[0].newState], payments[1..])
  {
    var rest := payments[1..];
    assert forall i :: 0 <= i < |rest| ==> rest[i] == payments[i + 1];
  }

  ghost predicate AllFiled(f: Book, payments: seq<Credential>)
  {
    forall i :: 0 <= i < |payments| ==> payments[i].hash in f && f[payments[i].hash] == payments[i].newState
  }

  /** Only submissions of these payments. */
  predicate Submits(run: seq<Action>, sid: nat, payments: seq<Credential>)
  {
    forall i :: 0 <= i < |run| ==> run[i].Submit? && run[i].sid == sid && run[i].c in payments
  }

  lemma {:induction false} FiledStays(w: World, run: seq<Action>, sid: nat, h: nat)
    requires CanRun(w, run) && sid in w.sessions && h in w.sessions[sid].filed
    ensures sid in End(w, run).sessions && h in End(w, run).sessions[sid].filed
    ensures End(w, run).sessions[sid].filed[h] == w.sessions[sid].filed[h]
    decreases |run|
  {
    hide Enabled, Next;
    if run != [] {
      BookAfter(w, run[0], sid);
      FiledStays(Next(w, run[0]), run[1..], sid, h);
    }
  }

  lemma SubmitStep(ctx: TrustContext, cert: Certificate, w: World, sid: nat, parent: ParentState, c: Credential, n: nat, amount: nat)
    returns (a: Action)
    requires WorldOk(w) && Describes(ctx, cert, w, sid) && Receptive(w, sid, n, amount) && 0 < n && c.amount <= amount
    requires Known(w.sessions[sid], parent) && ValidatePaymentCredential(ctx, cert, parent, c).Accepted?
    requires parent.remaining <= cert.limit && c.hash !in w.sessions[sid].filed
    ensures a.Submit? && a.sid == sid && a.c == c && Enabled(w, a)
    ensures var x := Next(w, a);
      && sid in x.sessions && WorldOk(x) && Describes(ctx, cert, x, sid) && Receptive(x, sid, n - 1, amount - c.amount)
      && x.sessions[sid].filed == w.sessions[sid].filed[c.hash := c.newState]
      && x.sessions[sid].terms == w.sessions[sid].terms
  {
    var accounts := RightAccounts(w.sessions[sid], c);
    AcceptedSubmits(ctx, cert, w, sid, parent, c, n, amount);
    a := Submit(sid, c, accounts);
    SubmitEnabled(w, a);
    hide WorldOk, CanSubmit, Describes, Receptive, Known, AfterSubmit, RightAccounts;
    NextKeeps(w, a);
    StaysReceptive(w, sid, c, accounts, n, amount);
    hide Enabled, Next;
    DescribesStays(ctx, cert, w, sid, a);
    BookAfter(w, a, sid);
  }

  lemma SubmitEnabled(w: World, a: Action)
    requires a.Submit? && CanSubmit(w, a.sid, a.c, a.accounts)
    ensures Enabled(w, a) && Next(w, a) == AfterSubmit(w, a.sid, a.c)
  {
    hide CanSubmit, AfterSubmit;
  }

  /** Submitting the payments of a chain in order, passing over those already filed, files them all. */
  lemma {:induction false} ChainSubmits(ctx: TrustContext, cert: Certificate, w: World, sid: nat, parent: ParentState,
                                        payments: seq<Credential>) returns (run: seq<Action>)
    requires WorldOk(w) && Describes(ctx, cert, w, sid) && Receptive(w, sid, |payments|, Spent(payments))
    requires Known(w.sessions[sid], parent) && parent.remaining <= cert.limit
    requires Chain(ctx, cert, parent, payments) && Compatible(w.sessions[sid].filed, payments)
    ensures CanRun(w, run) && Submits(run, sid, payments)
    ensures sid in End(w, run).sessions && AllFiled(End(w, run).sessions[sid].filed, payments)
    decreases |payments|
  {
    hide *;
    DescribesSession(ctx, cert, w, sid);
    if payments == [] {
      run := [];
      NothingToSubmit(w, sid, payments);
    } else {
      var c := payments[0];
      ChainStep(ctx, cert, parent, payments);
      var first := FirstSubmits(ctx, cert, w, sid, parent, payments);
      var x := End(w, first);
      AdvancedParts(ctx, cert, x, sid, payments);
      var rest := ChainSubmits(ctx, cert, x, sid, ParentState(c.newState, c.sequence, c.newRemaining), payments[1..]);
      run := first + rest;
      Joined(w, first, rest, sid, payments);
    }
  }

  /** The first payment is filed and the session is ready for the rest. */
  ghost predicate Advanced(ctx: TrustContext, cert: Certificate, x: World, sid: nat, payments: seq<Credential>)
    requires payments != []
  {
    var c := payments[0];
    && WorldOk(x) && Describes(ctx, cert, x, sid) && sid in x.sessions
    && Receptive(x, sid, |payments| - 1, Spent(payments[1..]))
    && Known(x.sessions[sid], ParentState(c.newState, c.sequence, c.newRemaining))
    && Compatible(x.sessions[sid].filed, payments[1..])
    && c.hash in x.sessions[sid].filed && x.sessions[sid].filed[c.hash] == c.newState
  }

  lemma AdvancedIs(ctx: TrustContext, cert: Certificate, x: World, sid: nat, payments: seq<Credential>)
    requires payments != [] && sid in x.sessions
    requires var c := payments[0];
      && WorldOk(x) && Describes(ctx, cert, x, sid) && Receptive(x, sid, |payments| - 1, Spent(payments[1..]))
      && Known(x.sessions[sid], ParentState(c.newState, c.sequence, c.newRemaining))
      && Compatible(x.sessions[sid].filed, payments[1..])
      && c.hash in x.sessions[sid].filed && x.sessions[sid].filed[c.hash] == c.newState
    ensures Advanced(ctx, cert, x, sid, payments)
  {
    hide WorldOk, Describes, Receptive, Known, Compatible;
  }

  lemma AdvancedParts(ctx: TrustContext, cert: Certificate, x: World, sid: nat, payments: seq<Credential>)
    requires payments != [] && Advanced(ctx, cert, x, sid, payments)
    ensures var c := payments[0];
      && WorldOk(x) && Describes(ctx, cert, x, sid) && sid in x.sessions
      && Receptive(x, sid, |payments| - 1, Spent(payments[1..]))
      && Known(x.sessions[sid], ParentState(c.newState, c.sequence, c.newRemaining))
      && Compatible(x.sessions[sid].filed, payments[1..])
      && c.hash in x.sessions[sid].filed && x.sessions[sid].filed[c.hash] == c.newState
  {
    hide WorldOk, Describes, Receptive, Known, Compatible;
  }

  /** Files the first payment of a chain, or passes over it. */
  lemma FirstSubmits(ctx: TrustContext, cert: Certificate, w: World, sid: nat, parent: ParentState, payments: seq<Credential>)
    returns (run: seq<Action>)
    requires WorldOk(w) && Describes(ctx, cert, w, sid) && Receptive(w, sid, |payments|, Spent(payments))
    requires Known(w.sessions[sid], parent) && parent.remaining <= cert.limit && payments != []
    requires Chain(ctx, cert, parent, payments) && Compatible(w.sessions[sid].filed, payments)
    ensures CanRun(w, run) && |run| <= 1 && (run != [] ==> run[0].Submit? && run[0].sid == sid && run[0].c == payments[0])
    ensures Advanced(ctx, cert, End(w, run), sid, payments)
  {
    hide *;
    DescribesSession(ctx, cert, w, sid);
    ChainStep(ctx, cert, parent, payments);
    if payments[0].hash in w.sessions[sid].filed {
      run := [];
      NothingToSubmit(w, sid, []);
      FiledAlready(w, sid, payments);
      AdvancedIs(ctx, cert, w, sid, payments);
    } else {
      var a := SubmitsNew(ctx, cert, w, sid, parent, payments[0], |payments|, Spent(payments));
      run := [a];
      OneAction(w, a);
      RestCompatible(w.sessions[sid].filed, payments);
      AdvancedIs(ctx, cert, Next(w, a), sid, payments);
    }
  }

  lemma DescribesSession(ctx: TrustContext, cert: Certificate, w: World, sid: nat)
    requires Describes(ctx, cert, w, sid)
    ensures sid in w.sessions
  {
  }

  /** A payment filed before is passed over. */
  lemma FiledAlready(w: World, sid: nat, payments: seq<Credential>)
    requires sid in w.sessions && payments != [] && Compatible(w.sessions[sid].filed, payments)
    requires payments[0].hash in w.sessions[sid].filed && Receptive(w, sid, |payments|, Spent(payments))
    requires payments[0].newState == Successor(payments[0]) && 0 < payments[0].sequence
    ensures var c, f := payments[0], w.sessions[sid].filed;
      && Receptive(w, sid, |payments| - 1, Spent(payments[1..])) && Compatible(f, payments[1..]) && f[c.hash] == c.newState
      && Known(w.sessions[sid], ParentState(c.newState, c.sequence, c.newRemaining))
  {
    assert Spent(payments) == payments[0].amount + Spent(payments[1..]);
    hide *;
    SameState(w.sessions[sid].filed, payments);
    FiledIsKnown(w, sid, payments[0], w.sessions[sid]);
    LessRoom(w, sid, |payments|, |payments| - 1, Spent(payments), Spent(payments[1..]));
    RestCompatible(w.sessions[sid].filed, payments);
  }

  /** A payment not filed yet is filed, and known from then on. */
  lemma SubmitsNew(ctx: TrustContext, cert: Certificate, w: World, sid: nat, parent: ParentState, c: Credential, n: nat, amount: nat)
    returns (a: Action)
    requires WorldOk(w) && Describes(ctx, cert, w, sid) && Receptive(w, sid, n, amount) && 0 < n && c.amount <= amount
    requires Known(w.sessions[sid], parent) && ValidatePaymentCredential(ctx, cert, parent, c).Accepted?
    requires parent.remaining <= cert.limit && c.hash !in w.sessions[sid].filed
    requires c.newState == Successor(c) && 0 < c.sequence
    ensures a.Submit? && a.sid == sid && a.c == c && Enabled(w, a)
    ensures var x := Next(w, a);
      && WorldOk(x) && Describes(ctx, cert, x, sid) && sid in x.sessions && Receptive(x, sid, n - 1, amount - c.amount)
      && x.sessions[sid].filed == w.sessions[sid].filed[c.hash := c.newState]
      && Known(x.sessions[sid], ParentState(c.newState, c.sequence, c.newRemaining))
  {
    assert sid in w.sessions;
    hide *;
    a := SubmitStep(ctx, cert, w, sid, parent, c, n, amount);
    FiledIsKnown(w, sid, c, Next(w, a).sessions[sid]);
  }

  lemma Joined(w: World, first: seq<Action>, rest: seq<Action>, sid: nat, payments: seq<Credential>)
    requires CanRun(w, first) && |first| <= 1 && payments != []
    requires first != [] ==> first[0].Submit? && first[0].sid == sid && first[0].c == payments[0]
    requires var x := End(w, first);
      && sid in x.sessions && CanRun(x, rest) && sid in End(x, rest).sessions && Submits(rest, sid, payments[1..])
      && AllFiled(End(x, rest).sessions[sid].filed, payments[1..])
      && payments[0].hash in x.sessions[sid].filed && x.sessions[sid].filed[payments[0].hash] == payments[0].newState
    ensures CanRun(w, first + rest) && Submits(first + rest, sid, payments)
    ensures sid in End(w, first + rest).sessions && AllFiled(End(w, first + rest).sessions[sid].filed, payments)
  {
    var x := End(w, first);
    hide Enabled, Next, AllFiled, Submits;
    Skipped(x, rest, sid, payments);
    if first == [] {
      assert first + rest == rest;
    } else {
      assert first == [first[0]];
      OneAction(w, first[0]);
      Prepend(w, first[0], rest);
      SubmitsFirst(first[0], rest, sid, payments);
    }
  }

  lemma NothingToSubmit(w: World, sid: nat, payments: seq<Credential>)
    requires sid in w.sessions && payments == []
    ensures CanRun(w, []) && Submits([], sid, payments) && End(w, []) == w && AllFiled(w.sessions[sid].filed, payments)
  {
  }

  lemma ChainStep(ctx: TrustContext, cert: Certificate, parent: ParentState, payments: seq<Credential>)
    requires Chain(ctx, cert, parent, payments) && payments != [] && parent.remaining <= cert.limit
    ensures var c := payments[0];
      && ValidatePaymentCredential(ctx, cert, parent, c).Accepted? && c.newState == Successor(c) && 0 < c.sequence
      && Chain(ctx, cert, ParentState(c.newState, c.sequence, c.newRemaining), payments[1..])
      && c.newRemaining <= cert.limit && Spent(payments) == c.amount + Spent(payments[1..])
  {
  }

  lemma SameState(f: Book, payments: seq<Credential>)
    requires payments != [] && Compatible(f, payments) && payments[0].hash in f
    ensures f[payments[0].hash] == payments[0].newState
  {
  }

  lemma FiledFirst(f: Book, payments: seq<Credential>)
    requires payments != [] && AllFiled(f, payments[1..])
    requires payments[0].hash in f && f[payments[0].hash] == payments[0].newState
    ensures AllFiled(f, payments)
  {
    assert forall i :: 0 < i < |payments| ==> payments[i] == payments[1..][i - 1];
  }

  lemma SubmitsMore(run: seq<Action>, sid: nat, payments: seq<Credential>)
    requires payments != [] && Submits(run, sid, payments[1..])
    ensures Submits(run, sid, payments)
  {
    assert forall c :: c in payments[1..] ==> c in payments;
  }

  lemma Skipped(w: World, run: seq<Action>, sid: nat, payments: seq<Credential>)
    requires CanRun(w, run) && sid in w.sessions && sid in End(w, run).sessions && payments != []
    requires payments[0].hash in w.sessions[sid].filed && w.sessions[sid].filed[payments[0].hash] == payments[0].newState
    requires Submits(run, sid, payments[1..]) && AllFiled(End(w, run).sessions[sid].filed, payments[1..])
    ensures Submits(run, sid, payments) && AllFiled(End(w, run).sessions[sid].filed, payments)
  {
    hide *;
    FiledStays(w, run, sid, payments[0].hash);
    FiledFirst(End(w, run).sessions[sid].filed, payments);
    SubmitsMore(run, sid, payments);
  }

  lemma SubmitsFirst(a: Action, run: seq<Action>, sid: nat, payments: seq<Credential>)
    requires Submits(run, sid, payments) && a.Submit? && a.sid == sid && a.c in payments
    ensures Submits([a] + run, sid, payments)
  {
  }

  lemma Prepend(w: World, a: Action, run: seq<Action>)
    requires Enabled(w, a) && CanRun(Next(w, a), run)
    ensures CanRun(w, [a] + run) && End(w, [a] + run) == End(Next(w, a), run)
  {
    hide Enabled, Next;
    assert ([a] + run)[1..] == run;
  }

  lemma LessRoom(w: World, sid: nat, n: nat, m: nat, amount: nat, less: nat)
    requires sid in w.sessions && Receptive(w, sid, n, amount) && m <= n && less <= amount
    ensures Receptive(w, sid, m, less)
  {
    hide Claims;
  }

  /** Every bundle that validates off-chain can be submitted in order until the deadline, to an open,
      authorized session with the certificate's terms while the protocol is not paused: no payload,
      parent or list check fails, and afterwards every payment of the bundle is filed. */
  lemma BundleSubmits(ctx: TrustContext, b: Bundle, w: World, sid: nat) returns (run: seq<Action>)
    requires WorldOk(w) && BundleOk(ctx, b) && Describes(ctx, b.certificate, w, sid)
    requires Receptive(w, sid, |b.credentials|, b.certificate.limit)
    requires Compatible(w.sessions[sid].filed, b.credentials)
    ensures CanRun(w, run) && Submits(run, sid, b.credentials)
    ensures sid in End(w, run).sessions && AllFiled(End(w, run).sessions[sid].filed, b.credentials)
  {
    var n := |b.credentials|;
    BundleFacts(ctx, b, n);
    assert b.credentials[..n] == b.credentials;
    LessRoom(w, sid, n, n, b.certificate.limit, Spent(b.credentials));
    assert Known(w.sessions[sid], GenesisParent(b.certificate));
    hide WorldOk, Describes, Receptive, Known, Compatible, Chain;
    run := ChainSubmits(ctx, b.certificate, w, sid, GenesisParent(b.certificate), b.credentials);
  }
}
