/** When each instruction goes through, in terms of what happened before: the guards that compare
    counters, flags and reserves never refuse anything else in a reachable world. */
module Admissions {
  import opened Collections
  import opened ProRata
  import opened States
  import opened Protocol
  import opened Invariants
  import opened Runs
  import opened Histories
  import opened Profiles
  import opened Liveness
  import opened Relayer
  import opened Submission

  // ----- Custody -----

  /** A deposit is refused only while paused, for an amount the depositor lacks, or for want of room in
      the 64-bit balance. */
  lemma DepositAdmitted(w: World, run: seq<Action>, amount: nat, tokens: nat)
    requires Initial(w) && CanRun(w, run)
    ensures Enabled(End(w, run), Deposit(amount, tokens))
       <==> !End(w, run).paused && 0 < amount <= tokens && End(w, run).balance + amount <= 0xFFFF_FFFF_FFFF_FFFF
  {
    InitialOk(w);
    RunKeeps(w, run);
    hide CanRun, End, WorldOk, Initial;
    WorldFacts(End(w, run), 0);
    hide Reserve;
  }

  /** The owner may withdraw everything the open session does not hold, unless paused. */
  lemma WithdrawAdmitted(w: World, run: seq<Action>, amount: nat)
    requires Initial(w) && CanRun(w, run)
    ensures Enabled(End(w, run), Withdraw(amount))
       <==> && !End(w, run).paused && 0 < amount <= End(w, run).vault.deposited
            && forall k :: Open(End(w, run), k) ==> amount + HeldFor(End(w, run).sessions[k]) <= End(w, run).vault.deposited
  {
    var x := End(w, run);
    forall k ensures Open(x, k) ==> x.vault.reserved == HeldFor(x.sessions[k]) { SolventOverRuns(w, run, k, k); }
    SolventOverRuns(w, run, 0, 0);
    hide CanRun, End, Initial, Open, HeldFor;
  }

  // ----- Sessions -----

  /** A session can be created exactly when the protocol is not paused, every earlier session is closed
      and none of them was forked, the terms are legal and end before the identity does, and the
      deposit covers the collateral. */
  lemma CreateAdmitted(w: World, run: seq<Action>, sid: nat, device: nat, locked: nat, limit: nat, expiresAt: int)
    requires Initial(w) && CanRun(w, run)
    ensures var x := End(w, run);
      Enabled(x, Create(sid, device, locked, limit, expiresAt)) <==>
        && !x.paused && (forall k :: k in x.sessions ==> x.sessions[k].status.Closed? && !Forked(x.sessions[k].filed.Values))
        && sid !in x.sessions && sid != 0 && device != 0 && device != x.owner
        && 0 < limit && 3 * limit <= locked <= x.vault.deposited
        && x.clock < expiresAt <= x.clock + 10_800 && expiresAt <= x.profile.identityExpiresAt
        && expiresAt + 21_600 <= 0x7FFF_FFFF_FFFF_FFFF
  {
    var x := End(w, run);
    forall k: nat ensures x.profile.activeSession == Some(k) <==> Open(x, k) { ProfileTells(w, run, k, k); }
    ProfileTells(w, run, 0, 0);
    SolventOverRuns(w, run, 0, 0);
    hide CanRun, End, Initial, Forked, HeldFor, NewSession;
    CreateGuards(x, sid, device, locked, limit, expiresAt);
  }

  lemma AllClosed(x: World)
    ensures (forall k :: !Open(x, k)) <==> forall k :: k in x.sessions ==> x.sessions[k].status.Closed?
  {
    if (forall k :: !Open(x, k)) {
      forall k | k in x.sessions ensures x.sessions[k].status.Closed? { assert !Open(x, k); }
    }
  }

  lemma CreateGuards(x: World, sid: nat, device: nat, locked: nat, limit: nat, expiresAt: int)
    requires x.profile.offlineAccessEnabled <==> forall k :: k in x.sessions ==> !Forked(x.sessions[k].filed.Values)
    requires forall k: nat :: x.profile.activeSession == Some(k) <==> Open(x, k)
    requires (forall k :: !Open(x, k)) ==> x.vault.reserved == 0
    requires x.vault.deposited <= x.balance <= U64_MAX
    ensures Enabled(x, Create(sid, device, locked, limit, expiresAt)) <==>
        && !x.paused && (forall k :: k in x.sessions ==> x.sessions[k].status.Closed? && !Forked(x.sessions[k].filed.Values))
        && sid !in x.sessions && sid != 0 && device != 0 && device != x.owner
        && 0 < limit && 3 * limit <= locked <= x.vault.deposited
        && x.clock < expiresAt <= x.clock + 10_800 && expiresAt <= x.profile.identityExpiresAt
        && expiresAt + 21_600 <= 0x7FFF_FFFF_FFFF_FFFF
  {
    hide Forked;
    assert x.profile.activeSession.None? <==> forall k :: !Open(x, k) by {
      if x.profile.activeSession.Some? { assert Open(x, x.profile.activeSession.value); }
    }
    AllClosed(x);
  }

  /** A device is authorized once for each session, and never while paused. */
  lemma AuthorizeAdmitted(w: World, run: seq<Action>, sid: nat, material: nat)
    requires Initial(w) && CanRun(w, run)
    ensures Enabled(End(w, run), Authorize(sid, material)) <==>
      && !End(w, run).paused && material != 0 && sid in End(w, run).sessions
      && forall i :: 0 <= i < |run| && run[i].Authorize? ==> run[i].sid != sid
  {
    EndsAt(w, run);
    if sid in End(w, run).sessions {
      if End(w, run).sessions[sid].authorized { var j := AuthorizedBefore(w, run, |run|, sid); }
      forall i | 0 <= i < |run| && run[i].Authorize? && run[i].sid == sid ensures End(w, run).sessions[sid].authorized {
        AuthorizedAfter(w, run, i);
      }
    }
    hide CanRun, End, WorldAt, Initial;
  }

  lemma AuthorizedAfter(w: World, run: seq<Action>, i: nat)
    requires Initial(w) && CanRun(w, run) && i < |run| && run[i].Authorize?
    ensures run[i].sid in End(w, run).sessions && End(w, run).sessions[run[i].sid].authorized
  {
    StepAt(w, run, i);
    EndsAt(w, run);
    hide *;
    AuthorizeEffect(WorldAt(w, run, i), run[i]);
    FurtherAt(w, run, i + 1, |run|, run[i].sid);
    StaysAuthorized(WorldAt(w, run, i + 1).sessions[run[i].sid], End(w, run).sessions[run[i].sid]);
  }

  lemma AuthorizeEffect(x: World, a: Action)
    requires Enabled(x, a) && a.Authorize?
    ensures a.sid in Next(x, a).sessions && Next(x, a).sessions[a.sid].authorized
  {
  }

  lemma StaysAuthorized(s: Session, t: Session)
    requires Further(s, t) && s.authorized
    ensures t.authorized
  {
  }

  // ----- Claims -----

  /** The payment is one already submitted in another wrapper, or continues from the genesis state or
      from a payment already submitted. */
  predicate Reaches(run: seq<Action>, sid: nat, t: Terms, c: Credential)
  {
    || (exists i :: 0 <= i < |run| && run[i].Submit? && run[i].sid == sid && run[i].c.newState == c.newState)
    || (c.sequence == 1 && c.previousRemaining == t.limit
        && c.previousState == Genesis(GenesisTerms(t.sessionId, t.owner, t.device, t.limit, t.maxDepth, t.issuedAt, t.expiresAt)))
    || (c.sequence != 1 && exists k :: 0 <= k < |run| && run[k].Submit? && run[k].sid == sid && run[k].c.newState == c.previousState
                                       && run[k].c.sequence + 1 == c.sequence && run[k].c.newRemaining == c.previousRemaining)
  }

  /** Some accounts let a credential be filed exactly when it is a legal payment of the session, a device
      was authorized, its hash is new, its edge or its parent was submitted, and the counters have room. */
  lemma SubmitAdmitted(w: World, run: seq<Action>, sid: nat, c: Credential)
    requires Initial(w) && CanRun(w, run)
    ensures var x := End(w, run);
      (exists a :: Enabled(x, Submit(sid, c, a))) <==>
        && sid in x.sessions && LegalPayment(x, x.sessions[sid].terms, c)
        && (exists i :: 0 <= i < |run| && run[i].Authorize? && run[i].sid == sid)
        && (forall i :: 0 <= i < |run| && run[i].Submit? && run[i].sid == sid ==> run[i].c.hash != c.hash)
        && Reaches(run, sid, x.sessions[sid].terms, c) && CountersFit(x, x.sessions[sid], c)
  {
    var x := End(w, run);
    assert (exists a :: Enabled(x, Submit(sid, c, a))) ==> sid in x.sessions by { SubmitNeedsSession(x, sid, c); }
    hide *;
    if sid in x.sessions {
      HistoryTells(w, run, sid, c);
      GuardsTell(w, run, sid, c);
    }
  }

  lemma SubmitNeedsSession(x: World, sid: nat, c: Credential)
    ensures (exists a :: Enabled(x, Submit(sid, c, a))) ==> sid in x.sessions
  {
    hide PayloadOk, ParentOk, CountersFit, IsNewEdge;
  }

  /** What the history says of the session's authorization and book. */
  lemma HistoryTells(w: World, run: seq<Action>, sid: nat, c: Credential)
    requires Initial(w) && CanRun(w, run) && sid in End(w, run).sessions
    ensures var s := End(w, run).sessions[sid];
      && (s.authorized <==> exists i :: 0 <= i < |run| && run[i].Authorize? && run[i].sid == sid)
      && (c.hash !in s.filed <==> forall i :: 0 <= i < |run| && run[i].Submit? && run[i].sid == sid ==> run[i].c.hash != c.hash)
      && (Reaches(run, sid, s.terms, c) <==> c.newState in s.filed.Values || ParentFiled(s, c))
  {
    var s := End(w, run).sessions[sid];
    EndsAt(w, run);
    hide *;
    if s.authorized { var j := AuthorizedBefore(w, run, |run|, sid); }
    forall i | 0 <= i < |run| && run[i].Authorize? && run[i].sid == sid ensures s.authorized { AuthorizedAfter(w, run, i); }
    if c.hash in s.filed { var j := FiledBefore(w, run, |run|, sid, c.hash); }
    forall i | 0 <= i < |run| && run[i].Submit? && run[i].sid == sid ensures run[i].c.hash in s.filed { FiledAfter(w, run, i, |run|); }
    StateTells(w, run, sid, c.newState);
    StateTells(w, run, sid, c.previousState);
    ReachesFiled(run, s, sid, c);
  }

  /** The parent of a payment, filed with the balance it left. */
  predicate ParentFiled(s: Session, c: Credential)
  {
    if c.sequence == 1 then c.previousState == Root(s.terms) && c.previousRemaining == s.terms.limit
    else c.previousState in s.filed.Values && c.previousState.Payment?
         && c.previousState.sequence + 1 == c.sequence && c.previousState.newRemaining == c.previousRemaining
  }

  lemma StateTells(w: World, run: seq<Action>, sid: nat, e: StateHash)
    requires Initial(w) && CanRun(w, run) && sid in End(w, run).sessions
    ensures var f := End(w, run).sessions[sid].filed;
      && (e in f.Values <==> exists i :: 0 <= i < |run| && run[i].Submit? && run[i].sid == sid && run[i].c.newState == e)
      && forall i :: 0 <= i < |run| && run[i].Submit? && run[i].sid == sid && run[i].c.newState == e ==>
           e.Payment? && e.sequence == run[i].c.sequence && e.newRemaining == run[i].c.newRemaining
  {
    var f := End(w, run).sessions[sid].filed;
    EndsAt(w, run);
    hide *;
    if e in f.Values {
      var h :| h in f && f[h] == e;
      var j := FiledBefore(w, run, |run|, sid, h);
    }
    forall i | 0 <= i < |run| && run[i].Submit? && run[i].sid == sid && run[i].c.newState == e
      ensures e in f.Values && e.Payment? && e.sequence == run[i].c.sequence && e.newRemaining == run[i].c.newRemaining
    {
      FiledAfter(w, run, i, |run|);
      StepAt(w, run, i);
      SubmitState(WorldAt(w, run, i), run[i]);
    }
  }

  lemma ReachesFiled(run: seq<Action>, s: Session, sid: nat, c: Credential)
    requires forall e | e == c.newState || e == c.previousState ::
      && (e in s.filed.Values <==> exists i :: 0 <= i < |run| && run[i].Submit? && run[i].sid == sid && run[i].c.newState == e)
      && forall i :: 0 <= i < |run| && run[i].Submit? && run[i].sid == sid && run[i].c.newState == e ==>
           e.Payment? && e.sequence == run[i].c.sequence && e.newRemaining == run[i].c.newRemaining
    ensures Reaches(run, sid, s.terms, c) <==> c.newState in s.filed.Values || ParentFiled(s, c)
  {
    var p := c.previousState;
    assert p in s.filed.Values <==> exists i :: 0 <= i < |run| && run[i].Submit? && run[i].sid == sid && run[i].c.newState == p;
  }

  lemma GuardsTell(w: World, run: seq<Action>, sid: nat, c: Credential)
    requires Initial(w) && CanRun(w, run) && sid in End(w, run).sessions
    ensures var x, s := End(w, run), End(w, run).sessions[sid];
      (exists a :: Enabled(x, Submit(sid, c, a))) <==>
        && LegalPayment(x, s.terms, c) && s.authorized && c.hash !in s.filed
        && (c.newState in s.filed.Values || ParentFiled(s, c)) && CountersFit(x, s, c)
  {
    var x, s := End(w, run), End(w, run).sessions[sid];
    EndsAt(w, run);
    var j := CreatedBefore(w, run, |run|, sid);
    assert s.terms.deadline == s.terms.expiresAt + 21_600 && s.terms.maxDepth == 32 && s.terms.sessionId == sid by { OkAt(w, run, |run|); }
    OkAt(w, run, |run|);
    hide *;
    forall a | Enabled(x, Submit(sid, c, a))
      ensures LegalPayment(x, s.terms, c) && s.authorized && c.hash !in s.filed
      ensures (c.newState in s.filed.Values || ParentFiled(s, c)) && CountersFit(x, s, c)
    {
      SubmitLegal(x, Submit(sid, c, a), s.terms);
      SubmitParts(x, sid, c, a);
    }
    if LegalPayment(x, s.terms, c) && s.authorized && c.hash !in s.filed
       && (c.newState in s.filed.Values || ParentFiled(s, c)) && CountersFit(x, s, c) {
      LegalSubmits(x, sid, c);
    }
  }

  lemma SubmitParts(x: World, sid: nat, c: Credential, a: SubmitAccounts)
    requires Enabled(x, Submit(sid, c, a))
    ensures sid in x.sessions
    ensures var s := x.sessions[sid];
      && s.authorized && c.hash !in s.filed && CountersFit(x, s, c) && (c.newState in s.filed.Values || ParentFiled(s, c))
  {
    hide PayloadOk, CountersFit, Rep, PreviousKey, NextKey;
  }

  lemma LegalPayload(x: World, t: Terms, c: Credential)
    requires LegalPayment(x, t, c) && t.deadline == t.expiresAt + 21_600 && t.maxDepth == 32
    ensures !x.paused && c.signed && x.clock <= t.deadline && c.newState == Successor(c) && 1 <= c.sequence
    ensures PayloadOk(x.config, t, c.merchant, x.clock, c)
  {
  }

  lemma LegalSubmits(x: World, sid: nat, c: Credential)
    requires WorldOk(x) && sid in x.sessions
    requires var s := x.sessions[sid];
      && s.terms.deadline == s.terms.expiresAt + 21_600 && s.terms.maxDepth == 32 && s.terms.sessionId == sid
      && LegalPayment(x, s.terms, c) && s.authorized && c.hash !in s.filed
      && (c.newState in s.filed.Values || ParentFiled(s, c)) && CountersFit(x, s, c)
    ensures Enabled(x, Submit(sid, c, RightAccounts(x.sessions[sid], c)))
  {
    var s := x.sessions[sid];
    OpenSession(x, sid);
    hide *;
    LegalPayload(x, s.terms, c);
    UnfrozenCollects(x, sid);
    FiledParent(s, c);
    RightOnes(x, sid, c);
    SubmitEnabled(x, Submit(sid, c, RightAccounts(s, c)));
  }

  lemma UnfrozenCollects(x: World, sid: nat)
    requires WorldOk(x) && sid in x.sessions && x.clock <= x.sessions[sid].terms.deadline
    ensures x.sessions[sid].status.Collecting()
  {
    OpenSession(x, sid);
    hide WorldOk, BookOk, ProgressOk, Complete, Forked, Overdrawn, AllSettled;
  }

  lemma FiledParent(s: Session, c: Credential)
    requires c.newState == Successor(c) && 1 <= c.sequence && (c.newState in s.filed.Values || ParentFiled(s, c))
    ensures IsNewEdge(s, c) ==> ParentOk(s, c, RightAccounts(s, c).parent)
  {
    UnrecordedIsNew(s, c);
    hide Rep, PreviousKey, NextKey, Unrecorded;
  }

  // ----- Finalization -----

  /** begin_finalization asks for the deadline alone of a session that collects claims: whether or not
      the protocol is paused. It also takes a session again that finalization left conflicted. */
  lemma BeginAdmitted(w: World, run: seq<Action>, sid: nat)
    requires Initial(w) && CanRun(w, run)
    ensures var x := End(w, run);
      Enabled(x, Begin(sid)) <==>
        && Open(x, sid) && x.sessions[sid].terms.deadline < x.clock
        && (x.sessions[sid].frozen ==> x.sessions[sid].status.Conflicted?)
  {
    InitialOk(w);
    RunKeeps(w, run);
    var x := End(w, run);
    hide CanRun, End, Initial;
    if sid in x.sessions { CollectingIs(x, sid); }
    hide WorldOk;
  }

  lemma CollectingIs(x: World, sid: nat)
    requires WorldOk(x) && sid in x.sessions
    ensures x.sessions[sid].status.Collecting() <==>
      !x.sessions[sid].status.Closed? && (x.sessions[sid].frozen ==> x.sessions[sid].status.Conflicted?)
  {
    OpenSession(x, sid);
    hide WorldOk, SessionIn, BookOk, ProgressOk, Complete, Forked, Overdrawn, AllSettled;
  }

  /** Every open session past its deadline whose finalization has not begun can begin it, paused or not. */
  lemma DeadlineOpensFinalization(w: World, run: seq<Action>, sid: nat)
    requires Initial(w) && CanRun(w, run)
    requires Open(End(w, run), sid) && !End(w, run).sessions[sid].frozen
    requires End(w, run).sessions[sid].terms.deadline < End(w, run).clock
    ensures Enabled(End(w, run), Begin(sid))
  {
    hide CanRun, End, Initial, Enabled;
    BeginAdmitted(w, run, sid);
  }

  lemma BeginRoomy(w: World, sid: nat)
    requires WorldOk(w) && Roomy(w) && Enabled(w, Begin(sid))
    ensures Roomy(Next(w, Begin(sid))) && Frozen(Next(w, Begin(sid)), sid)
  {
    BeginEffect(w, sid);
    hide Enabled, Next;
    BegunOpen(w.sessions[sid]);
    hide Begun, ReleaseSurplus, WorldOk;
    LessReserved(w.vault, w.sessions[sid], Begun(w.sessions[sid]));
  }

  lemma BeginEffect(w: World, sid: nat)
    requires Enabled(w, Begin(sid))
    ensures sid in w.sessions
    ensures var s, x := w.sessions[sid], Next(w, Begin(sid));
      sid in x.sessions && x.sessions[sid] == Begun(s) && x.vault == ReleaseSurplus(w.vault, s, Begun(s)) && x.profile == w.profile
  {
    hide Begun, ReleaseSurplus;
  }

  lemma BegunOpen(s: Session)
    ensures Begun(s).frozen && !Begun(s).status.Closed?
  {
    FinalStatusOpen(s);
    hide FinalStatus;
  }

  /** Every open session past its deadline can be closed, by one begin_finalization at most and then
      finalization steps, given room in the two lifetime counters. The pause flag plays no part. */
  lemma DeadlineReachesClosed(w: World, run: seq<Action>, sid: nat) returns (rest: seq<Action>)
    requires Initial(w) && CanRun(w, run) && Roomy(End(w, run))
    requires Open(End(w, run), sid) && End(w, run).sessions[sid].terms.deadline < End(w, run).clock
    ensures CanRun(w, run + rest)
    ensures forall i :: 0 <= i < |rest| ==> (i == 0 && rest[i] == Begin(sid)) || Finalizing(rest[i], sid)
    ensures sid in End(w, run + rest).sessions && End(w, run + rest).sessions[sid].status.Closed?
  {
    var x := End(w, run);
    assert sid in x.sessions && !x.sessions[sid].status.Closed?;
    assert x.sessions[sid].frozen ==> Frozen(x, sid);
    hide *;
    InitialOk(w);
    RunKeeps(w, run);
    if x.sessions[sid].frozen {
      rest := ReachesClosed(x, sid);
      Concatenated(w, run, rest);
    } else {
      DeadlineOpensFinalization(w, run, sid);
      NextKeeps(x, Begin(sid));
      BeginRoomy(x, sid);
      OneAction(x, Begin(sid));
      var steps := ReachesClosed(Next(x, Begin(sid)), sid);
      Concatenated(x, [Begin(sid)], steps);
      rest := [Begin(sid)] + steps;
      Concatenated(w, run, rest);
    }
  }
}
