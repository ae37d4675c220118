/** What must have happened before: every step of a run is explained by earlier steps, with the
    numbers the program promises written out. */
module Histories {
  import opened Collections
  import opened ProRata
  import opened States
  import opened Protocol
  import opened Invariants
  import opened Runs

  /** The world before action i. */
  ghost function WorldAt(w: World, run: seq<Action>, i: nat): World
    requires CanRun(w, run) && i <= |run|
    decreases |run|
  {
    if i == 0 then w else WorldAt(Next(w, run[0]), run[1..], i - 1)
  }

  lemma {:induction false} StepAt(w: World, run: seq<Action>, i: nat)
    requires CanRun(w, run) && i < |run|
    ensures Enabled(WorldAt(w, run, i), run[i])
    ensures WorldAt(w, run, i + 1) == Next(WorldAt(w, run, i), run[i])
    decreases |run|
  {
    hide Enabled, Next;
    if 0 < i { StepAt(Next(w, run[0]), run[1..], i - 1); }
  }

  lemma {:induction false} EndsAt(w: World, run: seq<Action>)
    requires CanRun(w, run)
    ensures WorldAt(w, run, |run|) == End(w, run)
    decreases |run|
  {
    hide Enabled, Next;
    if run != [] { EndsAt(Next(w, run[0]), run[1..]); }
  }

  lemma StartAt(w: World, run: seq<Action>)
    requires CanRun(w, run)
    ensures WorldAt(w, run, 0) == w
  {
    hide Enabled, Next;
  }

  lemma {:induction false} OkAt(w: World, run: seq<Action>, i: nat)
    requires Initial(w) && CanRun(w, run) && i <= |run|
    ensures WorldOk(WorldAt(w, run, i))
    decreases i
  {
    if i == 0 {
      InitialOk(w);
    } else {
      OkAt(w, run, i - 1);
      StepAt(w, run, i - 1);
      hide *;
      NextKeeps(WorldAt(w, run, i - 1), run[i - 1]);
    }
  }

  // ----- What never changes -----

  lemma FixedStep(w: World, a: Action)
    requires Enabled(w, a)
    ensures Next(w, a).config == w.config && Next(w, a).owner == w.owner && w.clock <= Next(w, a).clock
    ensures Next(w, a).profile.identityExpiresAt == w.profile.identityExpiresAt
    ensures w.sessions.Keys <= Next(w, a).sessions.Keys
  {
    hide PayloadOk, ParentOk, CountersFit, Claims, Owed, Filed, Begun, Scanned, SettledOne, MakesFork, Rep, Complete,
         ReleaseSurplus, ClassificationComplete, Payable, ParentReady, AllSettled, Successful;
  }

  lemma {:induction false} Fixed(w: World, run: seq<Action>, i: nat)
    requires CanRun(w, run) && i <= |run|
    ensures var x := WorldAt(w, run, i);
      x.config == w.config && x.owner == w.owner && w.clock <= x.clock && x.profile.identityExpiresAt == w.profile.identityExpiresAt
    decreases i
  {
    if 0 < i {
      Fixed(w, run, i - 1);
      StepAt(w, run, i - 1);
      hide *;
      FixedStep(WorldAt(w, run, i - 1), run[i - 1]);
    }
  }

  /** The parts of a session that, once set, stay: its terms, the authorization, the filed claims and
      the finalization done so far. */
  ghost predicate Further(s: Session, t: Session)
  {
    && t.terms == s.terms && (s.authorized ==> t.authorized)
    && s.filed.Keys <= t.filed.Keys && (forall h :: h in s.filed ==> t.filed[h] == s.filed[h])
    && s.classified <= t.classified && s.scanned <= t.scanned && s.settled <= t.settled
    && (s.frozen ==> t.frozen && t.filed == s.filed)
    && (s.status.Closed? ==> t.status.Closed?)
  }

  lemma FurtherStep(w: World, a: Action, sid: nat)
    requires WorldOk(w) && Enabled(w, a) && sid in w.sessions
    ensures sid in Next(w, a).sessions && Further(w.sessions[sid], Next(w, a).sessions[sid])
  {
    SessionAfter(w, a, sid);
    if Touches(a, sid) {
      StepStatus(w, a, sid);
      SteppedBook(w, w.sessions[sid], a);
      hide WorldOk, Enabled, Next;
      SteppedFurther(w, w.sessions[sid], a);
    }
  }

  /** Only an authorization touches a closed session, and a frozen one takes no more claims. */
  lemma StepStatus(w: World, a: Action, sid: nat)
    requires WorldOk(w) && Enabled(w, a) && Touches(a, sid) && sid in w.sessions
    ensures w.sessions[sid].status.Closed? ==> a.Authorize?
    ensures a.Submit? ==> !w.sessions[sid].frozen && a.c.hash !in w.sessions[sid].filed
    ensures !a.Create?
  {
    if a.Submit? { SubmitKeepsSession(w, sid, a.c, a.accounts); }
    hide WorldOk, Claims, PayloadOk, ParentOk, CountersFit, IsNewEdge, Complete, ClassificationComplete, Payable,
         ParentReady, Rep, AllSettled, Successful, Owed;
  }

  lemma SteppedFurther(w: World, s: Session, a: Action)
    requires s.status.Closed? ==> a.Authorize?
    requires a.Submit? ==> !s.frozen && a.c.hash !in s.filed
    ensures Further(s, Stepped(w, s, a))
  {
    SteppedBook(w, s, a);
    hide Complete, AllSettled, FinalStatus, Arrivals, FiledStatus, Rep;
  }

  lemma TermsStep(w: World, a: Action, sid: nat)
    requires WorldOk(w) && Enabled(w, a) && sid in w.sessions
    ensures sid in Next(w, a).sessions && Next(w, a).sessions[sid].terms == w.sessions[sid].terms
  {
    hide WorldOk, Enabled, Next;
    FurtherStep(w, a, sid);
  }

  lemma FurtherTrans(s: Session, t: Session, u: Session)
    requires Further(s, t) && Further(t, u)
    ensures Further(s, u)
  {
  }

  lemma {:induction false} FurtherAt(w: World, run: seq<Action>, i: nat, j: nat, sid: nat)
    requires Initial(w) && CanRun(w, run) && i <= j <= |run| && sid in WorldAt(w, run, i).sessions
    ensures sid in WorldAt(w, run, j).sessions
    ensures Further(WorldAt(w, run, i).sessions[sid], WorldAt(w, run, j).sessions[sid])
    decreases j
  {
    if i < j {
      FurtherAt(w, run, i, j - 1, sid);
      OkAt(w, run, j - 1);
      StepAt(w, run, j - 1);
      hide WorldOk, Enabled, Next, Further, CanRun, WorldAt;
      var x, a := WorldAt(w, run, j - 1), run[j - 1];
      FurtherStep(x, a, sid);
      FurtherTrans(WorldAt(w, run, i).sessions[sid], x.sessions[sid], Next(x, a).sessions[sid]);
    } else {
      hide *;
      FurtherSelf(WorldAt(w, run, i).sessions[sid]);
    }
  }

  lemma FurtherSelf(s: Session)
    ensures Further(s, s)
  {
  }

  // ----- Sessions come from their creation -----

  /** An economic promise of a session in numbers: collateral of at least three times the limit, at
      most three hours to spend, six more to claim, 32 payments deep, and nothing outliving the
      owner's identity. */
  ghost predicate Created(x: World, a: Action, t: Terms)
  {
    && a.Create?
    && t == Terms(a.sid, x.owner, a.device, a.limit, a.locked, 32, x.clock, a.expiresAt, a.expiresAt + 21_600)
    && !x.paused && x.profile.offlineAccessEnabled
    && t.sessionId != 0 && t.device != 0 && t.device != t.owner
    && 0 < t.limit && 3 * t.limit <= t.cap <= 0xFFFF_FFFF_FFFF_FFFF
    && t.issuedAt < t.expiresAt <= t.issuedAt + 10_800
    && t.expiresAt <= x.profile.identityExpiresAt && x.clock < x.profile.identityExpiresAt
    && t.deadline <= 0x7FFF_FFFF_FFFF_FFFF
    && x.vault.reserved + t.cap <= x.vault.deposited <= x.balance
  }

  lemma CreateStep(x: World, a: Action, sid: nat)
    requires Solvent(x) && Enabled(x, a) && sid !in x.sessions && sid in Next(x, a).sessions
    ensures a.Create? && a.sid == sid && Created(x, a, Next(x, a).sessions[sid].terms)
    ensures Next(x, a).sessions[sid] == Session(Next(x, a).sessions[sid].terms, false, Active, false, false, map[], map[], {}, {}, {})
  {
    hide PayloadOk, ParentOk, CountersFit, Claims, Owed, Filed, Begun, Scanned, SettledOne, MakesFork, Rep, Complete,
         ReleaseSurplus, ClassificationComplete, Payable, ParentReady, AllSettled, Successful;
  }

  /** The step before a world a session is in: the session was there, or is created by it. */
  lemma Before(w: World, run: seq<Action>, i: nat, sid: nat)
    requires Initial(w) && CanRun(w, run) && i <= |run| && sid in WorldAt(w, run, i).sessions
    ensures 0 < i
    ensures var x, a, y := WorldAt(w, run, i - 1), run[i - 1], WorldAt(w, run, i);
      && WorldOk(x) && Enabled(x, a) && y == Next(x, a)
      && (sid !in x.sessions ==>
            && a.Create? && a.sid == sid && Created(x, a, y.sessions[sid].terms)
            && y.sessions[sid] == Session(y.sessions[sid].terms, false, Active, false, false, map[], map[], {}, {}, {}))
  {
    assert i != 0;
    StepAt(w, run, i - 1);
    OkAt(w, run, i - 1);
    hide CanRun, WorldAt, Enabled, Next, Created;
    var x := WorldAt(w, run, i - 1);
    WorldFacts(x, sid);
    hide WorldOk, Solvent;
    if sid !in x.sessions { CreateStep(x, run[i - 1], sid); }
  }

  lemma CreationStep(w: World, run: seq<Action>, i: nat, sid: nat)
    requires Initial(w) && CanRun(w, run) && i <= |run| && sid in WorldAt(w, run, i).sessions
    ensures 0 < i
    ensures var x, a, t := WorldAt(w, run, i - 1), run[i - 1], WorldAt(w, run, i).sessions[sid].terms;
      if sid in x.sessions then x.sessions[sid].terms == t else a.Create? && a.sid == sid && Created(x, a, t)
  {
    Before(w, run, i, sid);
    hide *;
    if sid in WorldAt(w, run, i - 1).sessions { TermsStep(WorldAt(w, run, i - 1), run[i - 1], sid); }
  }

  /** Every session of a run was created by it, on these terms. */
  lemma {:induction false} CreatedBefore(w: World, run: seq<Action>, i: nat, sid: nat) returns (j: nat)
    requires Initial(w) && CanRun(w, run) && i <= |run| && sid in WorldAt(w, run, i).sessions
    ensures j < i && run[j].Create? && run[j].sid == sid
    ensures Created(WorldAt(w, run, j), run[j], WorldAt(w, run, i).sessions[sid].terms)
    decreases i
  {
    CreationStep(w, run, i, sid);
    hide *;
    if sid in WorldAt(w, run, i - 1).sessions { j := CreatedBefore(w, run, i - 1, sid); } else { j := i - 1; }
  }

  // ----- Authorization and pauses -----

  lemma AuthorizeStep(x: World, a: Action, sid: nat)
    requires Enabled(x, a) && sid in x.sessions && sid in Next(x, a).sessions
    ensures Next(x, a).sessions[sid].authorized && !x.sessions[sid].authorized
            ==> a.Authorize? && a.sid == sid && a.material != 0
  {
    SessionAfter(x, a, sid);
    if a.Authorize? { AuthorizeMaterial(x, a); }
    hide Enabled, Next;
    SteppedAuthorized(x, x.sessions[sid], a);
  }

  lemma AuthorizeMaterial(x: World, a: Action)
    requires Enabled(x, a) && a.Authorize?
    ensures a.material != 0 && a.sid in x.sessions && !x.sessions[a.sid].authorized
  {
  }

  lemma SteppedAuthorized(x: World, s: Session, a: Action)
    ensures Stepped(x, s, a).authorized == (s.authorized || a.Authorize?)
  {
    hide Complete, AllSettled, FinalStatus, Arrivals, FiledStatus, Rep;
  }

  lemma AuthorizationStep(w: World, run: seq<Action>, i: nat, sid: nat)
    requires Initial(w) && CanRun(w, run) && i <= |run| && sid in WorldAt(w, run, i).sessions
    requires WorldAt(w, run, i).sessions[sid].authorized
    ensures 0 < i && sid in WorldAt(w, run, i - 1).sessions
    ensures WorldAt(w, run, i - 1).sessions[sid].authorized
         || (run[i - 1].Authorize? && run[i - 1].sid == sid && run[i - 1].material != 0)
  {
    Before(w, run, i, sid);
    hide *;
    if sid in WorldAt(w, run, i - 1).sessions { AuthorizeStep(WorldAt(w, run, i - 1), run[i - 1], sid); }
  }

  lemma {:induction false} AuthorizedBefore(w: World, run: seq<Action>, i: nat, sid: nat) returns (j: nat)
    requires Initial(w) && CanRun(w, run) && i <= |run| && sid in WorldAt(w, run, i).sessions
    requires WorldAt(w, run, i).sessions[sid].authorized
    ensures j < i && run[j].Authorize? && run[j].sid == sid && run[j].material != 0
    ensures sid in WorldAt(w, run, j).sessions
    decreases i
  {
    AuthorizationStep(w, run, i, sid);
    hide *;
    if WorldAt(w, run, i - 1).sessions[sid].authorized { j := AuthorizedBefore(w, run, i - 1, sid); } else { j := i - 1; }
  }

  lemma PauseStep(x: World, a: Action)
    requires Enabled(x, a)
    ensures Next(x, a).paused == if a.Pause? then a.flag else x.paused
    ensures x.paused ==> !a.Submit? && !a.Create? && !a.Authorize? && !a.Deposit? && !a.Withdraw?
  {
    hide PayloadOk, ParentOk, CountersFit, Claims, Owed, Filed, Begun, Scanned, SettledOne, MakesFork, Rep, Complete,
         ReleaseSurplus, ClassificationComplete, Payable, ParentReady, AllSettled, Successful;
  }

  lemma {:induction false} PausedSince(w: World, run: seq<Action>, i: nat, j: nat)
    requires CanRun(w, run) && i < j <= |run| && run[i] == Pause(true)
    requires forall k :: i < k < j ==> run[k] != Pause(false)
    ensures WorldAt(w, run, j).paused
    decreases j
  {
    StepAt(w, run, j - 1);
    if i < j - 1 { PausedSince(w, run, i, j - 1); }
    hide *;
    PauseStep(WorldAt(w, run, j - 1), run[j - 1]);
  }

  lemma SubmitAuthorized(x: World, a: Action)
    requires Enabled(x, a) && a.Submit?
    ensures a.sid in x.sessions && x.sessions[a.sid].authorized
  {
    hide PayloadOk, ParentOk, CountersFit, IsNewEdge;
  }

  /** Before a claim is submitted its session was created and then authorized for a device; between
      a pause and the next resumption nothing is submitted, created, authorized, deposited or withdrawn. */
  lemma SubmittedOnceAuthorized(w: World, run: seq<Action>)
    requires Initial(w) && CanRun(w, run)
    ensures forall i :: 0 <= i < |run| && run[i].Submit? ==>
              exists j, k :: 0 <= j < k < i && run[j].Create? && run[j].sid == run[i].sid
                             && run[k].Authorize? && run[k].sid == run[i].sid && run[k].material != 0
    ensures forall i, j :: 0 <= i < j < |run| && run[i] == Pause(true) && (forall k :: i < k < j ==> run[k] != Pause(false))
              ==> !run[j].Submit? && !run[j].Create? && !run[j].Authorize? && !run[j].Deposit? && !run[j].Withdraw?
  {
    hide CanRun, WorldAt, Enabled, Next, Created, Initial;
    forall i | 0 <= i < |run| && run[i].Submit?
      ensures exists j, k :: 0 <= j < k < i && run[j].Create? && run[j].sid == run[i].sid
                             && run[k].Authorize? && run[k].sid == run[i].sid && run[k].material != 0
    {
      StepAt(w, run, i);
      SubmitAuthorized(WorldAt(w, run, i), run[i]);
      var k := AuthorizedBefore(w, run, i, run[i].sid);
      var j := CreatedBefore(w, run, k, run[i].sid);
    }
    forall i, j | 0 <= i < j < |run| && run[i] == Pause(true) && (forall k :: i < k < j ==> run[k] != Pause(false))
      ensures !run[j].Submit? && !run[j].Create? && !run[j].Authorize? && !run[j].Deposit? && !run[j].Withdraw?
    {
      PausedSince(w, run, i, j);
      StepAt(w, run, j);
      PauseStep(WorldAt(w, run, j), run[j]);
    }
  }

  // ----- Claims -----

  lemma BookStep(x: World, a: Action, sid: nat, h: nat)
    requires Enabled(x, a) && sid in x.sessions && sid in Next(x, a).sessions && h in Next(x, a).sessions[sid].filed
    ensures if h in x.sessions[sid].filed then Next(x, a).sessions[sid].filed[h] == x.sessions[sid].filed[h]
            else a.Submit? && a.sid == sid && a.c.hash == h && a.c.newState == Next(x, a).sessions[sid].filed[h]
  {
    hide Enabled, Next;
    BookAfter(x, a, sid);
  }

  lemma FiledStep(w: World, run: seq<Action>, i: nat, sid: nat, h: nat)
    requires Initial(w) && CanRun(w, run) && i <= |run| && sid in WorldAt(w, run, i).sessions
    requires h in WorldAt(w, run, i).sessions[sid].filed
    ensures 0 < i
    ensures var x, a, e := WorldAt(w, run, i - 1), run[i - 1], WorldAt(w, run, i).sessions[sid].filed[h];
      if sid in x.sessions && h in x.sessions[sid].filed then x.sessions[sid].filed[h] == e
      else a.Submit? && a.sid == sid && a.c.hash == h && a.c.newState == e
  {
    Before(w, run, i, sid);
    hide *;
    if sid in WorldAt(w, run, i - 1).sessions { BookStep(WorldAt(w, run, i - 1), run[i - 1], sid, h); }
  }

  lemma {:induction false} FiledBefore(w: World, run: seq<Action>, i: nat, sid: nat, h: nat) returns (j: nat)
    requires Initial(w) && CanRun(w, run) && i <= |run| && sid in WorldAt(w, run, i).sessions
    requires h in WorldAt(w, run, i).sessions[sid].filed
    ensures j < i && run[j].Submit? && run[j].sid == sid
    ensures run[j].c.hash == h && run[j].c.newState == WorldAt(w, run, i).sessions[sid].filed[h]
    decreases i
  {
    FiledStep(w, run, i, sid, h);
    hide *;
    if sid in WorldAt(w, run, i - 1).sessions && h in WorldAt(w, run, i - 1).sessions[sid].filed {
      j := FiledBefore(w, run, i - 1, sid, h);
    } else {
      j := i - 1;
    }
  }

  /** What a submission leaves filed stays filed. */
  lemma FiledAfter(w: World, run: seq<Action>, i: nat, j: nat)
    requires Initial(w) && CanRun(w, run) && i < j <= |run| && run[i].Submit?
    ensures run[i].sid in WorldAt(w, run, j).sessions
    ensures run[i].c.hash in WorldAt(w, run, j).sessions[run[i].sid].filed
    ensures WorldAt(w, run, j).sessions[run[i].sid].filed[run[i].c.hash] == run[i].c.newState
  {
    StepAt(w, run, i);
    hide CanRun, WorldAt, Enabled, Next;
    SubmitNew(WorldAt(w, run, i), run[i]);
    BookAfter(WorldAt(w, run, i), run[i], run[i].sid);
    FurtherAt(w, run, i + 1, j, run[i].sid);
    hide Initial;
  }

  /** What the program promises of a payment it files, in numbers. */
  ghost predicate LegalPayment(x: World, t: Terms, c: Credential)
  {
    && c.signed && !x.paused && x.clock <= t.expiresAt + 21_600
    && c.domain == Domain(x.config.header, 5, x.config.networkId, x.config.clusterGenesisHash, x.config.programId, t.sessionId)
    && c.sessionId == t.sessionId && c.payer == t.owner && c.payerDeviceKey == t.device && c.merchant != t.owner
    && 0 < c.amount && c.amount + c.newRemaining == c.previousRemaining <= t.limit
    && 1 <= c.sequence <= 32
    && t.issuedAt <= c.createdAt <= t.expiresAt && c.sessionExpiresAt == t.expiresAt
    && c.challenge != 0
    && c.newState == Payment(c.previousState, c.sequence, c.merchant, c.amount, c.challenge, c.previousRemaining, c.newRemaining)
  }

  lemma SubmitLegal(x: World, a: Action, t: Terms)
    requires Enabled(x, a) && a.Submit? && a.sid in x.sessions && x.sessions[a.sid].terms == t
    requires t.deadline == t.expiresAt + 21_600 && t.maxDepth == 32
    ensures LegalPayment(x, t, a.c) && a.accounts.merchant == a.c.merchant
  {
    hide ParentOk, CountersFit, IsNewEdge, Rep, PreviousKey, NextKey;
  }

  lemma SubmitState(x: World, a: Action)
    requires Enabled(x, a) && a.Submit?
    ensures var c := a.c;
      c.newState == Payment(c.previousState, c.sequence, c.merchant, c.amount, c.challenge, c.previousRemaining, c.newRemaining)
  {
    hide ParentOk, CountersFit, IsNewEdge, Rep, PreviousKey, NextKey;
  }

  lemma ParentInBook(s: Session, e: StateHash)
    requires BookOk(s) && e in s.filed.Values
    ensures e.Payment?
    ensures e.sequence == 1 ==> e.prev == Root(s.terms) && e.previousRemaining == s.terms.limit
    ensures e.sequence != 1 ==> exists h :: h in s.filed && s.filed[h] == e.prev
    ensures e.sequence != 1 ==> e.prev.Payment? && e.prev.sequence + 1 == e.sequence
                                && e.prev.newRemaining == e.previousRemaining
  {
    assert Linked(Root(s.terms), s.terms.limit, s.terms.maxDepth, s.filed.Values, e);
  }

  /** A payment continues from the session's genesis state with the whole limit, or from the state of
      a payment submitted before it with what that one left. */
  predicate Continues(run: seq<Action>, i: nat, t: Terms)
    requires i < |run| && run[i].Submit?
  {
    var c := run[i].c;
    if c.sequence == 1 then
      && c.previousState == Genesis(GenesisTerms(t.sessionId, t.owner, t.device, t.limit, t.maxDepth, t.issuedAt, t.expiresAt))
      && c.previousRemaining == t.limit
    else
      exists k :: 0 <= k < i && run[k].Submit? && run[k].sid == run[i].sid && run[k].c.newState == c.previousState
                  && run[k].c.sequence + 1 == c.sequence && run[k].c.newRemaining == c.previousRemaining
  }

  /** Every claim filed in a run is a legal payment of the session as created, continues from one filed
      before it, and carries a hash submitted once. */
  lemma SubmittedPayments(w: World, run: seq<Action>, i: nat) returns (j: nat)
    requires Initial(w) && CanRun(w, run) && i < |run| && run[i].Submit?
    ensures j < i && run[j].Create? && run[j].sid == run[i].sid
    ensures run[i].sid in WorldAt(w, run, i).sessions
    ensures var t := WorldAt(w, run, i).sessions[run[i].sid].terms;
      && Created(WorldAt(w, run, j), run[j], t) && LegalPayment(WorldAt(w, run, i), t, run[i].c) && Continues(run, i, t)
    ensures forall k :: 0 <= k < i && run[k].Submit? && run[k].sid == run[i].sid ==> run[k].c.hash != run[i].c.hash
  {
    var sid, x := run[i].sid, WorldAt(w, run, i);
    StepAt(w, run, i);
    SubmitAuthorized(x, run[i]);
    SubmitNew(x, run[i]);
    OkAt(w, run, i + 1);
    j := CreatedBefore(w, run, i, sid);
    var t := x.sessions[sid].terms;
    assert t.deadline == t.expiresAt + 21_600 && t.maxDepth == 32;
    hide *;
    SubmitLegal(x, run[i], t);
    SubmissionContinues(w, run, i, t);
    forall k | 0 <= k < i && run[k].Submit? && run[k].sid == run[i].sid ensures run[k].c.hash != run[i].c.hash {
      FiledAfter(w, run, k, i);
    }
  }

  lemma SubmissionContinues(w: World, run: seq<Action>, i: nat, t: Terms)
    requires Initial(w) && CanRun(w, run) && i < |run| && run[i].Submit?
    requires run[i].sid in WorldAt(w, run, i).sessions && WorldAt(w, run, i).sessions[run[i].sid].terms == t
    requires LegalPayment(WorldAt(w, run, i), t, run[i].c)
    ensures Continues(run, i, t)
  {
    StepAt(w, run, i);
    var sid, c, y := run[i].sid, run[i].c, WorldAt(w, run, i + 1);
    FiledAfter(w, run, i, i + 1);
    FurtherAt(w, run, i, i + 1, sid);
    OkAt(w, run, i + 1);
    OpenSession(y, sid);
    hide CanRun, WorldAt, WorldOk, SessionIn, Initial, Enabled, Next;
    ParentInBook(y.sessions[sid], c.newState);
    hide BookOk, PhaseOk;
    if c.sequence != 1 {
      var h :| h in y.sessions[sid].filed && y.sessions[sid].filed[h] == c.previousState;
      var k := FiledBefore(w, run, i + 1, sid, h);
      assert k != i;
      StepAt(w, run, k);
      SubmitState(WorldAt(w, run, k), run[k]);
    }
  }
}
