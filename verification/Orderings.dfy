/** The order of finalization over whole runs: nothing is classified before its parent, allocated
    before everything is classified and every lower claim allocated, or settled before everything
    is allocated; nothing is done twice, and a closed session is left alone. */
module Orderings {
  import opened Collections
  import opened ProRata
  import opened States
  import opened Protocol
  import opened Invariants
  import opened Runs
  import opened Histories

  // ----- What marks a session -----

  lemma SteppedProgress(w: World, s: Session, a: Action, h: nat)
    ensures var t := Stepped(w, s, a);
      && (h in t.classified ==> h in s.classified || (a.Classify? && a.e in s.filed.Values && h == Rep(s.filed, a.e)))
      && (h in t.scanned ==> h in s.scanned || (a.Allocate? && a.h == h))
      && (h in t.settled ==> h in s.settled || (a.Settle? && a.h == h))
      && (t.frozen ==> s.frozen || a.Begin?)
  {
    hide Complete, AllSettled, FinalStatus, Arrivals, FiledStatus, Rep;
  }

  /** A mark on the session is either older or made by the step. */
  ghost predicate Marks(s: Session, a: Action, t: Session, sid: nat, h: nat)
  {
    && (h in t.classified ==> h in s.classified || (a.Classify? && a.sid == sid && h in t.filed && t.filed[h] == a.e))
    && (h in t.scanned ==> h in s.scanned || (a.Allocate? && a.sid == sid && a.h == h))
    && (h in t.settled ==> h in s.settled || (a.Settle? && a.sid == sid && a.h == h))
    && (t.frozen ==> s.frozen || (a.Begin? && a.sid == sid))
  }

  lemma MarkStep(w: World, a: Action, sid: nat, h: nat)
    requires WorldOk(w) && Enabled(w, a) && sid in w.sessions
    ensures sid in Next(w, a).sessions && Marks(w.sessions[sid], a, Next(w, a).sessions[sid], sid, h)
  {
    SessionAfter(w, a, sid);
    SteppedProgress(w, w.sessions[sid], a, h);
    SteppedBook(w, w.sessions[sid], a);
    if a.Classify? && a.e in w.sessions[sid].filed.Values { RepLeads(w.sessions[sid].filed, a.e); }
    hide WorldOk, Enabled, Next, Stepped;
  }

  lemma RepLeads(f: Book, e: StateHash)
    requires e in f.Values
    ensures Rep(f, e) in f && f[Rep(f, e)] == e && Rep(f, e) in Eligible(f)
  {
    RepLeast(f, e);
    RepEligible(f, e);
  }

  lemma MarkAt(w: World, run: seq<Action>, i: nat, sid: nat, h: nat)
    requires Initial(w) && CanRun(w, run) && i <= |run| && sid in WorldAt(w, run, i).sessions
    ensures 0 < i
    ensures var x, t := WorldAt(w, run, i - 1), WorldAt(w, run, i).sessions[sid];
      if sid in x.sessions then Marks(x.sessions[sid], run[i - 1], t, sid, h) && Further(x.sessions[sid], t)
      else h !in t.classified && h !in t.scanned && h !in t.settled && !t.frozen
  {
    Before(w, run, i, sid);
    hide *;
    if sid in WorldAt(w, run, i - 1).sessions {
      MarkStep(WorldAt(w, run, i - 1), run[i - 1], sid, h);
      FurtherStep(WorldAt(w, run, i - 1), run[i - 1], sid);
    }
  }

  lemma FurtherFiled(s: Session, t: Session, h: nat)
    requires Further(s, t) && h in s.filed
    ensures h in t.filed && t.filed[h] == s.filed[h]
  {
  }

  lemma {:induction false} FrozenBefore(w: World, run: seq<Action>, i: nat, sid: nat) returns (j: nat)
    requires Initial(w) && CanRun(w, run) && i <= |run| && sid in WorldAt(w, run, i).sessions
    requires WorldAt(w, run, i).sessions[sid].frozen
    ensures j < i && run[j].Begin? && run[j].sid == sid
    decreases i
  {
    MarkAt(w, run, i, sid, 0);
    var x, t := WorldAt(w, run, i - 1), WorldAt(w, run, i).sessions[sid];
    assert sid in x.sessions && !x.sessions[sid].frozen ==> run[i - 1].Begin? && run[i - 1].sid == sid;
    hide *;
    if x.sessions[sid].frozen { j := FrozenBefore(w, run, i - 1, sid); } else { j := i - 1; }
  }

  lemma ClassifiedStep(w: World, run: seq<Action>, i: nat, sid: nat, h: nat)
    requires Initial(w) && CanRun(w, run) && i <= |run| && sid in WorldAt(w, run, i).sessions
    requires h in WorldAt(w, run, i).sessions[sid].classified && h in WorldAt(w, run, i).sessions[sid].filed
    ensures 0 < i && sid in WorldAt(w, run, i - 1).sessions
    ensures var s, t := WorldAt(w, run, i - 1).sessions[sid], WorldAt(w, run, i).sessions[sid];
      if h in s.classified then h in s.filed && s.filed[h] == t.filed[h]
      else run[i - 1].Classify? && run[i - 1].sid == sid && run[i - 1].e == t.filed[h]
  {
    MarkAt(w, run, i, sid, h);
    var x, t := WorldAt(w, run, i - 1), WorldAt(w, run, i).sessions[sid];
    OkAt(w, run, i - 1);
    assert sid in x.sessions && Further(x.sessions[sid], t);
    assert h !in x.sessions[sid].classified ==> run[i - 1].Classify? && run[i - 1].sid == sid && run[i - 1].e == t.filed[h];
    hide *;
    if h in x.sessions[sid].classified {
      SessionParts(x, sid);
      FurtherFiled(x.sessions[sid], t, h);
    }
  }

  lemma SessionParts(w: World, sid: nat)
    requires WorldOk(w) && sid in w.sessions
    ensures var s := w.sessions[sid];
      && BookOk(s) && ProgressOk(s) && s.classified <= Claims(s).Keys && (s.status.Reconciling? ==> s.frozen)
      && Claims(s).Keys <= s.filed.Keys
  {
    OpenSession(w, sid);
    hide WorldOk, BookOk, Claims, Payable, ParentsClassified, Forked, Complete, Overdrawn;
    assert Claims(w.sessions[sid]).Keys <= w.sessions[sid].filed.Keys by { ClaimsFiled(w.sessions[sid]); }
  }

  lemma ClaimsFiled(s: Session)
    ensures Claims(s).Keys <= s.filed.Keys
  {
  }

  lemma {:induction false} ClassifiedBefore(w: World, run: seq<Action>, i: nat, sid: nat, h: nat) returns (j: nat)
    requires Initial(w) && CanRun(w, run) && i <= |run| && sid in WorldAt(w, run, i).sessions
    requires h in WorldAt(w, run, i).sessions[sid].classified && h in WorldAt(w, run, i).sessions[sid].filed
    ensures j < i && run[j].Classify? && run[j].sid == sid && run[j].e == WorldAt(w, run, i).sessions[sid].filed[h]
    decreases i
  {
    ClassifiedStep(w, run, i, sid, h);
    hide *;
    if h in WorldAt(w, run, i - 1).sessions[sid].classified {
      j := ClassifiedBefore(w, run, i - 1, sid, h);
    } else {
      j := i - 1;
    }
  }

  lemma {:induction false} AllocatedBefore(w: World, run: seq<Action>, i: nat, sid: nat, h: nat) returns (j: nat)
    requires Initial(w) && CanRun(w, run) && i <= |run| && sid in WorldAt(w, run, i).sessions
    requires h in WorldAt(w, run, i).sessions[sid].scanned
    ensures j < i && run[j].Allocate? && run[j].sid == sid && run[j].h == h
    decreases i
  {
    MarkAt(w, run, i, sid, h);
    var x := WorldAt(w, run, i - 1);
    assert sid in x.sessions && h !in x.sessions[sid].scanned ==> run[i - 1].Allocate? && run[i - 1].sid == sid && run[i - 1].h == h;
    hide *;
    if h in x.sessions[sid].scanned { j := AllocatedBefore(w, run, i - 1, sid, h); } else { j := i - 1; }
  }

  // ----- The order of the steps -----

  /** Finalization of a session begins after the six hours of its claim period, and ends that period. */
  lemma BegunAfterDeadline(w: World, run: seq<Action>, j: nat)
    requires Initial(w) && CanRun(w, run) && j < |run| && run[j].Begin?
    ensures exists i :: 0 <= i < j && run[i].Create? && run[i].sid == run[j].sid
                        && run[i].expiresAt + 21_600 < WorldAt(w, run, j).clock
    ensures forall k :: j < k < |run| && run[k].Submit? ==> run[k].sid != run[j].sid
  {
    var sid, x := run[j].sid, WorldAt(w, run, j);
    StepAt(w, run, j);
    BeginFacts(x, run[j]);
    var i := CreatedBefore(w, run, j, sid);
    assert x.sessions[sid].terms.deadline == run[i].expiresAt + 21_600;
    hide *;
    forall k | j < k < |run| && run[k].Submit? ensures run[k].sid != run[j].sid {
      if run[k].sid == sid {
        FurtherAt(w, run, j + 1, k, sid);
        StaysFrozen(WorldAt(w, run, j + 1).sessions[sid], WorldAt(w, run, k).sessions[sid]);
        OkAt(w, run, k);
        StepAt(w, run, k);
        SubmitUnfrozen(WorldAt(w, run, k), run[k]);
      }
    }
  }

  lemma BeginFacts(x: World, a: Action)
    requires Enabled(x, a) && a.Begin?
    ensures a.sid in x.sessions && x.sessions[a.sid].terms.deadline < x.clock
    ensures a.sid in Next(x, a).sessions && Next(x, a).sessions[a.sid].frozen
  {
    hide FinalStatus, ReleaseSurplus;
  }

  lemma StaysFrozen(s: Session, t: Session)
    requires Further(s, t) && s.frozen
    ensures t.frozen && t.filed == s.filed
  {
  }

  lemma SubmitUnfrozen(x: World, a: Action)
    requires WorldOk(x) && Enabled(x, a) && a.Submit?
    ensures a.sid in x.sessions && !x.sessions[a.sid].frozen
  {
    SubmitKeepsSession(x, a.sid, a.c, a.accounts);
    hide WorldOk, PayloadOk, ParentOk, CountersFit, IsNewEdge;
  }

  lemma ClassifyFacts(x: World, a: Action)
    requires Enabled(x, a) && a.Classify?
    ensures a.sid in x.sessions && x.sessions[a.sid].status.Reconciling?
    ensures var f, e := x.sessions[a.sid].filed, a.e;
      && e in f.Values && e.Payment? && Rep(f, e) !in x.sessions[a.sid].classified
      && a.fork == ForkKey(e.prev, e.sequence)
      && (if e.sequence == 1 then a.parent == SessionKey
          else e.prev in f.Values && e.prev.Payment? && a.parent == EdgeKey(e.prev.prev, e.prev.sequence, e.prev)
               && Rep(f, e.prev) in x.sessions[a.sid].classified)
    ensures a.sid in Next(x, a).sessions && Next(x, a).sessions[a.sid].filed == x.sessions[a.sid].filed
    ensures Rep(x.sessions[a.sid].filed, a.e) in Next(x, a).sessions[a.sid].classified
  {
    hide ClassificationComplete, Rep;
  }

  /** An edge is classified once, after its session was frozen and after its parent's edge, against the
      fork record its own credential names. */
  lemma ClassifiedInOrder(w: World, run: seq<Action>, j: nat)
    requires Initial(w) && CanRun(w, run) && j < |run| && run[j].Classify?
    ensures exists i :: 0 <= i < j && run[i].Begin? && run[i].sid == run[j].sid
    ensures exists i :: 0 <= i < j && run[i].Submit? && run[i].sid == run[j].sid && run[i].c.newState == run[j].e
                        && run[j].fork == ForkKey(run[i].c.previousState, run[i].c.sequence)
    ensures run[j].e.Payment?
    ensures var e := run[j].e;
      if e.sequence == 1 then run[j].parent == SessionKey
      else
        && e.prev.Payment? && run[j].parent == EdgeKey(e.prev.prev, e.prev.sequence, e.prev)
        && exists i :: 0 <= i < j && run[i].Classify? && run[i].sid == run[j].sid && run[i].e == e.prev
    ensures forall i :: 0 <= i < j && run[i].Classify? && run[i].sid == run[j].sid ==> run[i].e != run[j].e
  {
    var sid, x, e := run[j].sid, WorldAt(w, run, j), run[j].e;
    StepAt(w, run, j);
    OkAt(w, run, j);
    hide CanRun, WorldAt, Enabled, Next, WorldOk, Initial;
    ClassifyFacts(x, run[j]);
    SessionParts(x, sid);
    var s := x.sessions[sid];
    hide Rep, BookOk, Claims, ProgressOk;
    var b := FrozenBefore(w, run, j, sid);
    var h :| h in s.filed && s.filed[h] == e;
    var i := FiledBefore(w, run, j, sid, h);
    StepAt(w, run, i);
    SubmitState(WorldAt(w, run, i), run[i]);
    if e.sequence != 1 {
      RepLeads(s.filed, e.prev);
      var k := ClassifiedBefore(w, run, j, sid, Rep(s.filed, e.prev));
    }
    forall k | 0 <= k < j && run[k].Classify? && run[k].sid == sid ensures run[k].e != e {
      ClassifiedOnce(w, run, k, j);
    }
  }

  lemma ClassifiedOnce(w: World, run: seq<Action>, i: nat, j: nat)
    requires Initial(w) && CanRun(w, run) && i < j < |run| && run[i].Classify? && run[j].Classify? && run[i].sid == run[j].sid
    ensures run[i].e != run[j].e
  {
    var sid, x, y := run[i].sid, WorldAt(w, run, i), WorldAt(w, run, i + 1);
    StepAt(w, run, i);
    StepAt(w, run, j);
    OkAt(w, run, i);
    hide CanRun, WorldAt, Enabled, Next, WorldOk, Initial;
    ClassifyFacts(x, run[i]);
    ClassifyFacts(WorldAt(w, run, j), run[j]);
    SessionParts(x, sid);
    FurtherStep(x, run[i], sid);
    StaysFrozen(x.sessions[sid], y.sessions[sid]);
    FurtherAt(w, run, i + 1, j, sid);
    StaysFrozen(y.sessions[sid], WorldAt(w, run, j).sessions[sid]);
    hide Rep, BookOk, Claims, ProgressOk;
  }

  lemma AllocateFacts(x: World, a: Action)
    requires Enabled(x, a) && a.Allocate?
    ensures a.sid in x.sessions
    ensures var s := x.sessions[a.sid];
      && s.frozen && s.classified == Claims(s).Keys && a.h in s.filed && s.filed[a.h] == a.e && a.h !in s.scanned
      && Below(s.filed.Keys, a.h) <= s.scanned
    ensures a.sid in Next(x, a).sessions && a.h in Next(x, a).sessions[a.sid].scanned
  {
    hide FinalStatus, ReleaseSurplus, Claims;
  }

  /** A claim is allocated once, after every claim filed before it has had its edge classified and in
      increasing order of credential hashes. */
  lemma AllocatedInOrder(w: World, run: seq<Action>, j: nat)
    requires Initial(w) && CanRun(w, run) && j < |run| && run[j].Allocate?
    ensures exists i :: 0 <= i < j && run[i].Submit? && run[i].sid == run[j].sid
                        && run[i].c.hash == run[j].h && run[i].c.newState == run[j].e
    ensures forall i :: 0 <= i < j && run[i].Submit? && run[i].sid == run[j].sid ==>
              exists k :: 0 <= k < j && run[k].Classify? && run[k].sid == run[j].sid && run[k].e == run[i].c.newState
    ensures forall i :: 0 <= i < j && run[i].Submit? && run[i].sid == run[j].sid && run[i].c.hash < run[j].h ==>
              exists k :: 0 <= k < j && run[k].Allocate? && run[k].sid == run[j].sid && run[k].h == run[i].c.hash
    ensures forall i :: 0 <= i < j && run[i].Allocate? && run[i].sid == run[j].sid ==> run[i].h < run[j].h
  {
    var sid, x, h := run[j].sid, WorldAt(w, run, j), run[j].h;
    StepAt(w, run, j);
    OkAt(w, run, j);
    AllocateFacts(x, run[j]);
    SessionParts(x, sid);
    var s := x.sessions[sid];
    hide *;
    var i := FiledBefore(w, run, j, sid, h);
    forall i | 0 <= i < j && run[i].Submit? && run[i].sid == sid
      ensures exists k :: 0 <= k < j && run[k].Classify? && run[k].sid == sid && run[k].e == run[i].c.newState
    {
      FiledAfter(w, run, i, j);
      var r := ClaimRep(s, run[i].c.hash);
      var k := ClassifiedBefore(w, run, j, sid, r);
    }
    forall i | 0 <= i < j && run[i].Submit? && run[i].sid == sid && run[i].c.hash < h
      ensures exists k :: 0 <= k < j && run[k].Allocate? && run[k].sid == sid && run[k].h == run[i].c.hash
    {
      FiledAfter(w, run, i, j);
      InBelow(s, run[i].c.hash, h);
      var k := AllocatedBefore(w, run, j, sid, run[i].c.hash);
    }
    forall i | 0 <= i < j && run[i].Allocate? && run[i].sid == sid ensures run[i].h < h {
      ScannedAfter(w, run, i, j);
      ScannedLower(s, run[i].h, h);
    }
  }

  lemma ClaimRep(s: Session, h: nat) returns (r: nat)
    requires h in s.filed && s.classified == Claims(s).Keys
    ensures r in s.classified && r in s.filed && s.filed[r] == s.filed[h] && r <= h
  {
    assert s.filed[h] in s.filed.Values;
    r := Rep(s.filed, s.filed[h]);
    RepLeads(s.filed, s.filed[h]);
    RepLeast(s.filed, s.filed[h]);
  }

  lemma InBelow(s: Session, k: nat, h: nat)
    requires k in s.filed && k < h && Below(s.filed.Keys, h) <= s.scanned
    ensures k in s.scanned
  {
    assert k in Below(s.filed.Keys, h);
  }

  lemma ScannedLower(s: Session, k: nat, h: nat)
    requires ProgressOk(s) && k in s.scanned && h in s.filed && h !in s.scanned
    ensures k < h
  {
    hide Claims, Payable, ParentsClassified;
  }

  lemma ScannedAfter(w: World, run: seq<Action>, i: nat, j: nat)
    requires Initial(w) && CanRun(w, run) && i < j <= |run| && run[i].Allocate?
    ensures run[i].sid in WorldAt(w, run, j).sessions && run[i].h in WorldAt(w, run, j).sessions[run[i].sid].scanned
  {
    StepAt(w, run, i);
    hide CanRun, WorldAt, Enabled, Next, Initial;
    AllocateFacts(WorldAt(w, run, i), run[i]);
    FurtherAt(w, run, i + 1, j, run[i].sid);
  }

  lemma SettleFacts(x: World, a: Action)
    requires Enabled(x, a) && a.Settle?
    ensures a.sid in x.sessions
    ensures var s := x.sessions[a.sid];
      && Complete(s) && a.h in Claims(s) && a.h in s.filed && s.filed[a.h] == a.e && a.e.Payment? && a.to == a.e.merchant
      && a.h !in s.settled
    ensures a.sid in Next(x, a).sessions && a.h in Next(x, a).sessions[a.sid].settled
  {
    SessionAfter(x, a, a.sid);
    SteppedSettle(x, x.sessions[a.sid], a);
    hide Complete, Owed, Stepped, Next;
  }

  lemma SteppedSettle(x: World, s: Session, a: Action)
    requires a.Settle?
    ensures a.h in Stepped(x, s, a).settled
  {
    hide AllSettled;
  }

  lemma CompleteScanned(s: Session)
    requires Complete(s)
    ensures s.scanned == s.filed.Keys
  {
  }

  lemma RepIsLeast(s: Session, h: nat, k: nat)
    requires h in Claims(s) && h in s.filed && k in s.filed && s.filed[k] == s.filed[h]
    ensures h <= k
  {
    EligibleKey(s.filed, h);
    RepLeast(s.filed, s.filed[h]);
  }

  /** Everything submitted is allocated before the session's payments begin. */
  lemma AllAllocated(w: World, run: seq<Action>, j: nat, sid: nat)
    requires Initial(w) && CanRun(w, run) && j <= |run| && sid in WorldAt(w, run, j).sessions
    requires Complete(WorldAt(w, run, j).sessions[sid])
    ensures forall i :: 0 <= i < j && run[i].Submit? && run[i].sid == sid ==>
              exists k :: 0 <= k < j && run[k].Allocate? && run[k].sid == sid && run[k].h == run[i].c.hash
  {
    CompleteScanned(WorldAt(w, run, j).sessions[sid]);
    hide *;
    forall i | 0 <= i < j && run[i].Submit? && run[i].sid == sid
      ensures exists k :: 0 <= k < j && run[k].Allocate? && run[k].sid == sid && run[k].h == run[i].c.hash
    {
      FiledAfter(w, run, i, j);
      var k := AllocatedBefore(w, run, j, sid, run[i].c.hash);
    }
  }

  /** A payment goes to the merchant of a submitted credential, the one with the least hash for its
      edge, once, and after every submitted claim has been allocated. */
  lemma SettledInOrder(w: World, run: seq<Action>, j: nat)
    requires Initial(w) && CanRun(w, run) && j < |run| && run[j].Settle?
    ensures exists i :: 0 <= i < j && run[i].Submit? && run[i].sid == run[j].sid && run[i].c.hash == run[j].h
                        && run[i].c.newState == run[j].e && run[i].c.merchant == run[j].to
    ensures forall i :: 0 <= i < j && run[i].Submit? && run[i].sid == run[j].sid && run[i].c.newState == run[j].e
              ==> run[j].h <= run[i].c.hash
    ensures forall i :: 0 <= i < j && run[i].Submit? && run[i].sid == run[j].sid ==>
              exists k :: 0 <= k < j && run[k].Allocate? && run[k].sid == run[j].sid && run[k].h == run[i].c.hash
    ensures forall i :: 0 <= i < j && run[i].Settle? && run[i].sid == run[j].sid ==> run[i].h != run[j].h
  {
    var sid, x, h := run[j].sid, WorldAt(w, run, j), run[j].h;
    StepAt(w, run, j);
    SettleFacts(x, run[j]);
    var s, e := x.sessions[sid], run[j].e;
    assert e.Payment? && run[j].to == e.merchant && s.filed[h] == e;
    hide *;
    AllAllocated(w, run, j, sid);
    var i := FiledBefore(w, run, j, sid, h);
    StepAt(w, run, i);
    SubmitState(WorldAt(w, run, i), run[i]);
    forall i | 0 <= i < j && run[i].Submit? && run[i].sid == sid && run[i].c.newState == e ensures h <= run[i].c.hash {
      FiledAfter(w, run, i, j);
      RepIsLeast(s, h, run[i].c.hash);
    }
    forall i | 0 <= i < j && run[i].Settle? && run[i].sid == sid ensures run[i].h != h {
      SettledAfter(w, run, i, j);
    }
  }

  lemma SettledAfter(w: World, run: seq<Action>, i: nat, j: nat)
    requires Initial(w) && CanRun(w, run) && i < j <= |run| && run[i].Settle?
    ensures run[i].sid in WorldAt(w, run, j).sessions && run[i].h in WorldAt(w, run, j).sessions[run[i].sid].settled
  {
    StepAt(w, run, i);
    hide CanRun, WorldAt, Enabled, Next, Initial;
    SettleFacts(WorldAt(w, run, i), run[i]);
    FurtherAt(w, run, i + 1, j, run[i].sid);
  }

  lemma CloseFacts(x: World, a: Action)
    requires Enabled(x, a) && a.Close?
    ensures a.sid in x.sessions && Complete(x.sessions[a.sid])
    ensures a.sid in Next(x, a).sessions && Next(x, a).sessions[a.sid].status.Closed?
  {
    hide Complete, AllSettled, Successful;
  }

  lemma StaysClosed(s: Session, t: Session)
    requires Further(s, t) && s.status.Closed?
    ensures t.status.Closed?
  {
  }

  /** A session is closed once, after every submitted claim has been allocated, and nothing but a late
      device authorization is ever done to it afterwards. */
  lemma ClosedInOrder(w: World, run: seq<Action>, j: nat)
    requires Initial(w) && CanRun(w, run) && j < |run| && run[j].Close?
    ensures forall i :: 0 <= i < j && run[i].Submit? && run[i].sid == run[j].sid ==>
              exists k :: 0 <= k < j && run[k].Allocate? && run[k].sid == run[j].sid && run[k].h == run[i].c.hash
    ensures forall k :: j < k < |run| && Touches(run[k], run[j].sid) ==> run[k].Authorize?
  {
    var sid := run[j].sid;
    StepAt(w, run, j);
    CloseFacts(WorldAt(w, run, j), run[j]);
    hide *;
    AllAllocated(w, run, j, sid);
    forall k | j < k < |run| && Touches(run[k], sid) ensures run[k].Authorize? {
      FurtherAt(w, run, j + 1, k, sid);
      StaysClosed(WorldAt(w, run, j + 1).sessions[sid], WorldAt(w, run, k).sessions[sid]);
      OkAt(w, run, k);
      StepAt(w, run, k);
      StepStatus(WorldAt(w, run, k), run[k], sid);
    }
  }
}
