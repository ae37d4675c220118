/** What the accounts of a session record of a run: the credentials submitted, how often and when they
    were processed, and what was paid on them. */
module Records {
  import opened Collections
  import opened ProRata
  import opened States
  import opened Protocol
  import opened Invariants
  import opened Accounts
  import opened Runs
  import opened Payments
  import opened Histories
  import opened Orderings

  // ----- The submitted credentials -----

  lemma ClaimFields(s: Session, h: nat)
    requires h in s.filed && s.filed[h].Payment?
    ensures h in View(s).claims
    ensures var l, e := View(s).claims[h], s.filed[h];
      && l.credentialHash == h && l.merchant == e.merchant && l.amount == e.amount && l.sequence == e.sequence
      && l.previousState == e.prev && l.newState == e
      && (l.allocationProcessed <==> h in s.scanned)
      && l.settledAmount == if h in Claims(s) && h in s.settled then Owed(s, h) else 0
  {
    hide Claims, Owed, Tainted, NextKey, PreviousKey;
  }

  lemma EdgeFields(s: Session, e: StateHash)
    requires e in s.filed.Values && e.Payment?
    ensures Rep(s.filed, e) in Claims(s) && e in View(s).edges
    ensures var l, r := View(s).edges[e], Rep(s.filed, e);
      && l.previousState == e.prev && l.sequence == e.sequence && l.newState == e && l.merchant == e.merchant
      && l.amount == e.amount && l.previousRemaining == e.previousRemaining && l.newRemaining == e.newRemaining
      && (l.classified <==> r in s.classified) && (l.allocationFinalized <==> r in s.scanned)
      && (r in s.classified && r in s.scanned ==> l.allocatedAmount == Owed(s, r))
      && l.settledAmount == if r in s.settled then Owed(s, r) else 0
  {
    RepEligible(s.filed, e);
    hide Rep, Eligible, Owed, Tainted, SessionBases;
  }

  /** Every submitted credential stays on record in its claim and edge accounts, field by field. */
  lemma CredentialRecorded(w: World, run: seq<Action>, i: nat)
    requires Initial(w) && CanRun(w, run) && i < |run| && run[i].Submit?
    ensures run[i].sid in End(w, run).sessions
    ensures var l, c := View(End(w, run).sessions[run[i].sid]), run[i].c;
      && c.hash in l.claims && c.newState in l.edges
      && var claim, edge := l.claims[c.hash], l.edges[c.newState];
      && claim.credentialHash == c.hash && claim.merchant == c.merchant && claim.amount == c.amount
      && claim.sequence == c.sequence && claim.previousState == c.previousState && claim.newState == c.newState
      && edge.previousState == c.previousState && edge.sequence == c.sequence && edge.newState == c.newState
      && edge.merchant == c.merchant && edge.amount == c.amount
      && edge.previousRemaining == c.previousRemaining && edge.newRemaining == c.newRemaining
      && ForkSeed(c.previousState, c.sequence) in l.forks
      && l.forks[ForkSeed(c.previousState, c.sequence)].parentState == c.previousState
      && l.forks[ForkSeed(c.previousState, c.sequence)].sequence == c.sequence
  {
    EndsAt(w, run);
    hide *;
    FiledAfter(w, run, i, |run|);
    StepAt(w, run, i);
    SubmitState(WorldAt(w, run, i), run[i]);
    var s := End(w, run).sessions[run[i].sid];
    ClaimFields(s, run[i].c.hash);
    assert run[i].c.newState in s.filed.Values;
    EdgeFields(s, run[i].c.newState);
    OkAt(w, run, |run|);
    SessionParts(End(w, run), run[i].sid);
    ForkOf(s, run[i].c.newState);
  }

  lemma ForkOf(s: Session, e: StateHash)
    requires BookOk(s) && e in s.filed.Values && e.Payment?
    ensures ForkSeed(e.prev, e.sequence) in View(s).forks
    ensures var f := View(s).forks[ForkSeed(e.prev, e.sequence)]; f.parentState == e.prev && f.sequence == e.sequence
  {
    assert e in Children(s.filed.Values, e.prev, e.sequence);
    assert ArrivalsOk(s.filed.Values, s.arrivals);
    hide SessionView, ClaimsView, EdgesView, Claims, Children;
  }

  // ----- Conflicting claims -----

  /** The claims that have been allocated on conflicting edges. */
  ghost function AllocatedInConflict(l: Ledger): set<nat>
  {
    set h | h in l.claims && l.claims[h].allocationProcessed && !l.claims[h].status.Rejected?
            && l.claims[h].newState in l.edges && l.edges[l.claims[h].newState].conflicting
  }

  lemma ConflictingAt(s: Session, h: nat)
    requires BookOk(s) && ProgressOk(s) && h in s.filed
    ensures h in View(s).claims
    ensures h in AllocatedInConflict(View(s)) <==> h in ConflictingClaims(s)
  {
    ParentInBook(s, s.filed[h]);
    assert s.filed[h] in s.filed.Values;
    ClaimFields(s, h);
    ClaimStage(s, h);
    EdgeConflict(s, s.filed[h]);
    EligibleKey(s.filed, h);
    assert h in s.scanned ==> s.classified == Claims(s).Keys;
    assert Claims(s) == Eligible(s.filed);
    hide View, BookOk, ProgressOk, Claims, Tainted, Owed, Rep, Eligible;
  }

  lemma EdgeConflict(s: Session, e: StateHash)
    requires e in s.filed.Values && e.Payment?
    ensures e in View(s).edges
    ensures View(s).edges[e].conflicting <==> Rep(s.filed, e) in s.classified && Tainted(s.filed.Values, e)
  {
    RepEligible(s.filed, e);
    hide Rep, Eligible, Owed, Tainted, SessionBases;
  }

  /** The session account counts the allocated claims of conflicting edges. */
  lemma ConflictsCounted(w: World, run: seq<Action>, sid: nat)
    requires Initial(w) && CanRun(w, run) && sid in End(w, run).sessions
    ensures var l := View(End(w, run).sessions[sid]); l.session.conflictingClaimCount == |AllocatedInConflict(l)|
  {
    EndsAt(w, run);
    var s := End(w, run).sessions[sid];
    hide *;
    OkAt(w, run, |run|);
    SessionParts(End(w, run), sid);
    CountedConflicts(s);
  }

  lemma CountedConflicts(s: Session)
    requires BookOk(s) && ProgressOk(s)
    ensures View(s).session.conflictingClaimCount == |AllocatedInConflict(View(s))|
  {
    hide *;
    ConflictFigure(s);
    forall h ensures h in AllocatedInConflict(View(s)) <==> h in ConflictingClaims(s) {
      ConflictFiled(s, h);
      if h in s.filed { ConflictingAt(s, h); }
    }
    assert AllocatedInConflict(View(s)) == ConflictingClaims(s);
  }

  lemma ConflictFigure(s: Session)
    ensures View(s).session.conflictingClaimCount == |ConflictingClaims(s)|
  {
    hide ConflictingClaims, ClaimsView, EdgesView, ForksView;
  }

  lemma ConflictFiled(s: Session, h: nat)
    ensures h in AllocatedInConflict(View(s)) || h in ConflictingClaims(s) ==> h in s.filed
  {
    ClaimKeys(s);
    hide View, Claims, Tainted;
  }

  lemma ClaimKeys(s: Session)
    ensures View(s).claims.Keys == s.filed.Keys
  {
    hide Claims, Owed, Tainted, NextKey, PreviousKey, ClaimView;
  }

  // ----- Counts and payments -----

  /** How many claims a run submits to a session. */
  function Submissions(run: seq<Action>, sid: nat): nat
  {
    if run == [] then 0 else (if run[0].Submit? && run[0].sid == sid then 1 else 0) + Submissions(run[1..], sid)
  }

  lemma CreatedEmpty(w: World, a: Action, sid: nat)
    requires WorldOk(w) && Enabled(w, a) && sid !in w.sessions
    ensures sid in Next(w, a).sessions ==> Next(w, a).sessions[sid].filed == map[] && Next(w, a).sessions[sid].settled == {}
    ensures Touches(a, sid) ==> a.Create? && sid in Next(w, a).sessions
  {
    WorldFacts(w, sid);
    if sid in Next(w, a).sessions { CreateStep(w, a, sid); }
    if Touches(a, sid) { NewTouched(w, a, sid); }
    hide *;
  }

  lemma NewTouched(w: World, a: Action, sid: nat)
    requires Enabled(w, a) && sid !in w.sessions && Touches(a, sid)
    ensures a.Create? && sid in Next(w, a).sessions
  {
    hide PayloadOk, ParentOk, CountersFit, Claims, Owed, IsNewEdge, Rep, Complete, ClassificationComplete, Payable,
         ParentReady, AllSettled, Successful;
  }

  lemma BookGrows(w: World, a: Action, sid: nat)
    requires Enabled(w, a) && sid in w.sessions
    ensures sid in Next(w, a).sessions
    ensures |Next(w, a).sessions[sid].filed| == |w.sessions[sid].filed| + if a.Submit? && a.sid == sid then 1 else 0
  {
    BookAfter(w, a, sid);
    hide Enabled, Next;
    if a.Submit? && a.sid == sid { FiledSize(w.sessions[sid].filed, a.c.hash, a.c.newState); }
  }

  lemma {:induction false} SubmissionsCounted(w: World, run: seq<Action>, sid: nat)
    requires WorldOk(w) && CanRun(w, run) && sid in End(w, run).sessions
    ensures |End(w, run).sessions[sid].filed| == Submissions(run, sid) + if sid in w.sessions then |w.sessions[sid].filed| else 0
    decreases |run|
  {
    hide WorldOk, Enabled, Next;
    if run != [] {
      NextKeeps(w, run[0]);
      SubmissionsCounted(Next(w, run[0]), run[1..], sid);
      if sid in w.sessions { BookGrows(w, run[0], sid); } else { CreatedEmpty(w, run[0], sid); }
    }
  }

  lemma {:induction false} PaidSoFar(w: World, run: seq<Action>, sid: nat, h: nat)
    requires WorldOk(w) && CanRun(w, run) && sid !in w.sessions && sid in End(w, run).sessions
    ensures Settles(End(w, run), sid, h) ==>
      h in Claims(End(w, run).sessions[sid]) && PaidTo(w, run, sid, h) == Owed(End(w, run).sessions[sid], h)
    ensures !Settles(End(w, run), sid, h) ==> PaidTo(w, run, sid, h) == 0
    ensures Disbursed(w, run, sid) == Payments.Settled(End(w, run), sid)
    decreases |run|
  {
    hide WorldOk, Enabled, Next, Owed, Claims, OwedTo;
    var x := Next(w, run[0]);
    NextKeeps(w, run[0]);
    CreatedEmpty(w, run[0], sid);
    if sid in x.sessions {
      PaidOnce(x, run[1..], sid, h);
      DisbursedIs(x, run[1..], sid);
    } else {
      PaidSoFar(x, run[1..], sid, h);
    }
  }

  /** The session account counts the submissions and the payments of the run, and each claim and edge
      account the payment made on it. */
  lemma AmountsRecorded(w: World, run: seq<Action>, sid: nat, h: nat)
    requires Initial(w) && CanRun(w, run) && sid in End(w, run).sessions
    ensures var l := View(End(w, run).sessions[sid]);
      && l.session.submittedClaimCount == Submissions(run, sid) && l.session.settledAmount == Disbursed(w, run, sid)
      && (h in l.claims ==> l.claims[h].settledAmount == PaidTo(w, run, sid, h))
      && (h in l.claims && l.claims[h].newState in l.edges && l.edges[l.claims[h].newState].representative == h ==>
            l.edges[l.claims[h].newState].settledAmount == PaidTo(w, run, sid, h))
  {
    InitialOk(w);
    RunKeeps(w, run);
    assert sid !in w.sessions;
    var s := End(w, run).sessions[sid];
    assert Settles(End(w, run), sid, h) <==> h in s.settled;
    assert Payments.Settled(End(w, run), sid) == Sum(OwedTo(s, s.settled));
    SessionParts(End(w, run), sid);
    hide *;
    SubmissionsCounted(w, run, sid);
    PaidSoFar(w, run, sid, h);
    SessionFigures(s);
    if h in View(s).claims { AmountOf(s, h); }
  }

  lemma AmountOf(s: Session, h: nat)
    requires BookOk(s) && h in View(s).claims
    ensures View(s).claims[h].settledAmount == if h in s.settled && h in Claims(s) then Owed(s, h) else 0
    ensures var l, e := View(s), View(s).claims[h].newState;
      e in l.edges && l.edges[e].representative == h ==>
        l.edges[e].settledAmount == if h in s.settled && h in Claims(s) then Owed(s, h) else 0
  {
    ClaimsListed(s, h);
    ParentInBook(s, s.filed[h]);
    ClaimFields(s, h);
    EdgeFields(s, s.filed[h]);
    EdgeRep(s, s.filed[h]);
    hide *;
  }

  lemma ClaimsListed(s: Session, h: nat)
    requires h in View(s).claims
    ensures h in s.filed && s.filed[h] in s.filed.Values
  {
    assert View(s).claims.Keys == s.filed.Keys by { hide Claims, Owed, Tainted, NextKey, PreviousKey, ClaimView; }
  }

  lemma EdgeRep(s: Session, e: StateHash)
    requires e in View(s).edges
    ensures View(s).edges[e].representative == Rep(s.filed, e)
  {
    hide Rep, Eligible, Owed, Tainted, SessionBases;
  }

  lemma SessionFigures(s: Session)
    ensures View(s).session.submittedClaimCount == |s.filed| && View(s).session.settledAmount == Sum(OwedTo(s, s.settled))
  {
  }

  // ----- How far a claim has come -----

  lemma ClaimStage(s: Session, h: nat)
    requires h in s.filed
    ensures h in View(s).claims
    ensures View(s).claims[h].status
         == if h !in Claims(s) then Rejected else if h !in s.scanned then Submitted
            else if h in s.settled || Owed(s, h) == 0 then Paid
            else if Tainted(s.filed.Values, s.filed[h]) then Conflicting else Valid
    ensures View(s).claims[h].allocatedAmount == if h in Claims(s) && h in s.scanned then Owed(s, h) else 0
    ensures View(s).claims[h].rejectionReason == if h in Claims(s) then NoReason else DuplicateStateEdge
  {
    hide Claims, Owed, Tainted, NextKey, PreviousKey;
  }

  lemma MarksTell(w: World, run: seq<Action>, sid: nat, h: nat)
    requires Initial(w) && CanRun(w, run) && sid in End(w, run).sessions
    ensures var s := End(w, run).sessions[sid];
      && (h in s.scanned <==> exists k :: 0 <= k < |run| && run[k].Allocate? && run[k].sid == sid && run[k].h == h)
      && (h in s.settled <==> exists k :: 0 <= k < |run| && run[k].Settle? && run[k].sid == sid && run[k].h == h)
  {
    var s := End(w, run).sessions[sid];
    EndsAt(w, run);
    hide *;
    if h in s.scanned { var k := AllocatedBefore(w, run, |run|, sid, h); }
    forall k | 0 <= k < |run| && run[k].Allocate? && run[k].sid == sid && run[k].h == h ensures h in s.scanned {
      ScannedAfter(w, run, k, |run|);
    }
    if h in s.settled { var k := SettledBefore(w, run, |run|, sid, h); }
    forall k | 0 <= k < |run| && run[k].Settle? && run[k].sid == sid && run[k].h == h ensures h in s.settled {
      SettledAfter(w, run, k, |run|);
    }
  }

  lemma {:induction false} SettledBefore(w: World, run: seq<Action>, i: nat, sid: nat, h: nat) returns (j: nat)
    requires Initial(w) && CanRun(w, run) && i <= |run| && sid in WorldAt(w, run, i).sessions
    requires h in WorldAt(w, run, i).sessions[sid].settled
    ensures j < i && run[j].Settle? && run[j].sid == sid && run[j].h == h
    decreases i
  {
    MarkAt(w, run, i, sid, h);
    var x := WorldAt(w, run, i - 1);
    assert sid in x.sessions && h !in x.sessions[sid].settled ==> run[i - 1].Settle? && run[i - 1].sid == sid && run[i - 1].h == h;
    hide *;
    if h in x.sessions[sid].settled { j := SettledBefore(w, run, i - 1, sid, h); } else { j := i - 1; }
  }

  lemma ClassifiedTell(w: World, run: seq<Action>, sid: nat, e: StateHash)
    requires Initial(w) && CanRun(w, run) && sid in End(w, run).sessions && e in End(w, run).sessions[sid].filed.Values
    ensures var s := End(w, run).sessions[sid];
      Rep(s.filed, e) in s.classified <==> exists k :: 0 <= k < |run| && run[k].Classify? && run[k].sid == sid && run[k].e == e
  {
    var s := End(w, run).sessions[sid];
    EndsAt(w, run);
    hide *;
    RepLeads(s.filed, e);
    if Rep(s.filed, e) in s.classified { var k := ClassifiedBefore(w, run, |run|, sid, Rep(s.filed, e)); }
    forall k | 0 <= k < |run| && run[k].Classify? && run[k].sid == sid && run[k].e == e ensures Rep(s.filed, e) in s.classified {
      ClassifiedAfter(w, run, k);
    }
  }

  lemma ClassifiedAfter(w: World, run: seq<Action>, i: nat)
    requires Initial(w) && CanRun(w, run) && i < |run| && run[i].Classify?
    ensures run[i].sid in End(w, run).sessions && run[i].e in End(w, run).sessions[run[i].sid].filed.Values
    ensures Rep(End(w, run).sessions[run[i].sid].filed, run[i].e) in End(w, run).sessions[run[i].sid].classified
  {
    var sid, x, y, z := run[i].sid, WorldAt(w, run, i), WorldAt(w, run, i + 1), End(w, run);
    EndsAt(w, run);
    StepAt(w, run, i);
    OkAt(w, run, i);
    hide *;
    ClassifyFacts(x, run[i]);
    SessionParts(x, sid);
    FurtherStep(x, run[i], sid);
    StaysFrozen(x.sessions[sid], y.sessions[sid]);
    FurtherAt(w, run, i + 1, |run|, sid);
    StaysFrozen(y.sessions[sid], z.sessions[sid]);
    FurtherClassified(y.sessions[sid], z.sessions[sid], Rep(x.sessions[sid].filed, run[i].e));
  }

  lemma FurtherClassified(s: Session, t: Session, h: nat)
    requires Further(s, t) && h in s.classified
    ensures h in t.classified
  {
  }

  /** The claim whose edge was submitted with a smaller hash. */
  predicate Outranked(run: seq<Action>, i: nat)
    requires i < |run| && run[i].Submit?
  {
    exists k :: 0 <= k < |run| && run[k].Submit? && run[k].sid == run[i].sid
                && run[k].c.newState == run[i].c.newState && run[k].c.hash < run[i].c.hash
  }

  lemma RankTells(w: World, run: seq<Action>, i: nat)
    requires Initial(w) && CanRun(w, run) && i < |run| && run[i].Submit? && run[i].sid in End(w, run).sessions
    requires run[i].c.hash in End(w, run).sessions[run[i].sid].filed
    requires End(w, run).sessions[run[i].sid].filed[run[i].c.hash] == run[i].c.newState
    ensures run[i].c.hash !in Claims(End(w, run).sessions[run[i].sid]) <==> Outranked(run, i)
  {
    var sid, h, s := run[i].sid, run[i].c.hash, End(w, run).sessions[run[i].sid];
    EndsAt(w, run);
    assert Claims(s) == Eligible(s.filed);
    hide *;
    EligibleKey(s.filed, h);
    RepLeads(s.filed, s.filed[h]);
    RepLeast(s.filed, s.filed[h]);
    if h !in Claims(s) {
      var k := FiledBefore(w, run, |run|, sid, Rep(s.filed, s.filed[h]));
      OutrankedBy(run, i, k);
    }
    if Outranked(run, i) {
      var k := Outranker(run, i);
      FiledAfter(w, run, k, |run|);
    }
  }

  lemma OutrankedBy(run: seq<Action>, i: nat, k: nat)
    requires i < |run| && run[i].Submit? && k < |run| && run[k].Submit? && run[k].sid == run[i].sid
    requires run[k].c.newState == run[i].c.newState && run[k].c.hash < run[i].c.hash
    ensures Outranked(run, i)
  {
  }

  lemma Outranker(run: seq<Action>, i: nat) returns (k: nat)
    requires i < |run| && run[i].Submit? && Outranked(run, i)
    ensures k < |run| && run[k].Submit? && run[k].sid == run[i].sid
    ensures run[k].c.newState == run[i].c.newState && run[k].c.hash < run[i].c.hash
  {
    k :| 0 <= k < |run| && run[k].Submit? && run[k].sid == run[i].sid
         && run[k].c.newState == run[i].c.newState && run[k].c.hash < run[i].c.hash;
  }

  /** What the accounts of a claim and its edge say, given what happened to them. */
  ghost predicate Tells(s: Session, l: Ledger, h: nat, e: StateHash, outranked: bool, scanned: bool, settled: bool, classified: bool)
  {
    && h in l.claims && e in l.edges && (!outranked ==> h in Claims(s))
    && l.claims[h].status
       == (if outranked then Rejected else if !scanned then Submitted else if settled || Owed(s, h) == 0 then Paid
           else if Tainted(s.filed.Values, e) then Conflicting else Valid)
    && l.claims[h].allocatedAmount == (if outranked || !scanned then 0 else Owed(s, h))
    && l.claims[h].rejectionReason == (if outranked then DuplicateStateEdge else NoReason)
    && (l.edges[e].classified <==> classified)
    && (!outranked ==> (l.edges[e].allocationFinalized <==> scanned))
    && (!outranked && scanned && classified ==> l.edges[e].allocatedAmount == Owed(s, h))
  }

  lemma Told(s: Session, h: nat, e: StateHash)
    requires h in s.filed && s.filed[h] == e && e in s.filed.Values && e.Payment?
    ensures Tells(s, View(s), h, e, h !in Claims(s), h in s.scanned, h in s.settled, Rep(s.filed, e) in s.classified)
  {
    ClaimStage(s, h);
    EdgeFields(s, e);
    assert Claims(s) == Eligible(s.filed);
    hide View, Owed, Claims, Tainted, Rep, Eligible;
    EligibleKey(s.filed, h);
  }

  /** The claim account of a submitted credential tells the run's history: rejected when its edge also came
      with a smaller hash, and otherwise submitted until it is allocated, then owed its share, paid once
      that is settled or nothing, and until then marked by the forks above it. The edge account is
      classified once the run classified it. */
  lemma ClaimTells(w: World, run: seq<Action>, i: nat)
    requires Initial(w) && CanRun(w, run) && i < |run| && run[i].Submit?
    ensures run[i].sid in End(w, run).sessions
    ensures var s, sid, h, e := End(w, run).sessions[run[i].sid], run[i].sid, run[i].c.hash, run[i].c.newState;
      Tells(s, View(s), h, e, Outranked(run, i),
            exists k :: 0 <= k < |run| && run[k].Allocate? && run[k].sid == sid && run[k].h == h,
            exists k :: 0 <= k < |run| && run[k].Settle? && run[k].sid == sid && run[k].h == h,
            exists k :: 0 <= k < |run| && run[k].Classify? && run[k].sid == sid && run[k].e == e)
  {
    var sid, h, e := run[i].sid, run[i].c.hash, run[i].c.newState;
    EndsAt(w, run);
    hide *;
    FiledAfter(w, run, i, |run|);
    var s := End(w, run).sessions[sid];
    StepAt(w, run, i);
    SubmitState(WorldAt(w, run, i), run[i]);
    RankTells(w, run, i);
    MarksTell(w, run, sid, h);
    assert e in s.filed.Values;
    ClassifiedTell(w, run, sid, e);
    Told(s, h, e);
  }
}
