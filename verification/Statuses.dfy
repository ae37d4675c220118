/** What a session's status says of its history, at every point of every run. */
module Statuses {
  import opened Collections
  import opened ProRata
  import opened States
  import opened Protocol
  import opened Invariants
  import opened Runs
  import opened Histories
  import opened Orderings

  /** Some claim of the session was filed after it expired. */
  ghost predicate FiledLate(w: World, run: seq<Action>, i: nat, sid: nat, expiresAt: int)
    requires CanRun(w, run) && i <= |run|
  {
    exists k :: 0 <= k < i && run[k].Submit? && run[k].sid == sid && expiresAt < WorldAt(w, run, k).clock
  }

  /** Finalization was begun a second time. */
  predicate BegunTwice(run: seq<Action>, i: nat, sid: nat)
    requires i <= |run|
  {
    exists j, k :: 0 <= j < k < i && run[j] == Begin(sid) && run[k] == Begin(sid)
  }

  ghost predicate Labelled(s: Session, late: bool)
  {
    !s.frozen && !Forked(s.filed.Values) ==> s.status == if late then ClaimWindow else Active
  }

  // ----- Before finalization -----

  lemma FiledLabel(w: World, a: Action, late: bool)
    requires WorldOk(w) && Enabled(w, a) && a.Submit? && a.sid in w.sessions && Labelled(w.sessions[a.sid], late)
    ensures Labelled(Filed(w, w.sessions[a.sid], a.c), late || w.sessions[a.sid].terms.expiresAt < w.clock)
  {
    SubmitKeepsSession(w, a.sid, a.c, a.accounts);
    hide WorldOk, Enabled, MakesFork, Forked, SessionOk, Arrivals, Outstanding;
  }

  lemma SteppedLabel(w: World, s: Session, a: Action, late: bool)
    requires Labelled(s, late) && (a.Authorize? || a.Begin? || ((a.Classify? || a.Allocate? || a.Settle? || a.Close?) && s.frozen))
    ensures Labelled(Stepped(w, s, a), late)
  {
    hide Forked, Complete, AllSettled, FinalStatus, Rep;
  }

  lemma FrozenByThen(w: World, a: Action)
    requires WorldOk(w) && Enabled(w, a) && (a.Classify? || a.Allocate? || a.Settle? || a.Close?)
    ensures a.sid in w.sessions && w.sessions[a.sid].frozen
  {
    hide WorldOk, Forked, Payable, Claims, Rep, ParentReady, Owed, AllSettled, Successful;
    SessionParts(w, a.sid);
    hide BookOk, ProgressOk;
  }

  lemma LabelStep(w: World, a: Action, sid: nat, late: bool)
    requires WorldOk(w) && Enabled(w, a) && sid in w.sessions && Labelled(w.sessions[sid], late)
    ensures sid in Next(w, a).sessions
    ensures Labelled(Next(w, a).sessions[sid], late || (a.Submit? && a.sid == sid && w.sessions[sid].terms.expiresAt < w.clock))
  {
    SessionAfter(w, a, sid);
    if Touches(a, sid) {
      StepStatus(w, a, sid);
      hide WorldOk, Enabled, Next, Labelled, Stepped;
      if a.Submit? {
        FiledLabel(w, a, late);
        SteppedIsFiled(w, w.sessions[sid], a);
      } else {
        if !a.Authorize? && !a.Begin? { FrozenByThen(w, a); }
        SteppedLabel(w, w.sessions[sid], a, late);
      }
    }
  }

  lemma SteppedIsFiled(w: World, s: Session, a: Action)
    requires a.Submit?
    ensures Stepped(w, s, a) == Filed(w, s, a.c)
  {
  }

  lemma {:induction false} LabelAt(w: World, run: seq<Action>, i: nat, sid: nat)
    requires Initial(w) && CanRun(w, run) && i <= |run| && sid in WorldAt(w, run, i).sessions
    ensures var s := WorldAt(w, run, i).sessions[sid]; Labelled(s, FiledLate(w, run, i, sid, s.terms.expiresAt))
    decreases i
  {
    hide *;
    FirstLabel(w, run, i, sid);
    var x, t := WorldAt(w, run, i - 1), WorldAt(w, run, i).sessions[sid].terms;
    if sid in x.sessions {
      LabelAt(w, run, i - 1, sid);
      TermsStep(x, run[i - 1], sid);
      LabelStep(x, run[i - 1], sid, FiledLate(w, run, i - 1, sid, t.expiresAt));
      LateStep(w, run, i, sid, t.expiresAt);
    } else {
      NoneLate(w, run, i, sid, t.expiresAt);
    }
  }

  lemma FirstLabel(w: World, run: seq<Action>, i: nat, sid: nat)
    requires Initial(w) && CanRun(w, run) && i <= |run| && sid in WorldAt(w, run, i).sessions
    ensures 0 < i
    ensures var x, t := WorldAt(w, run, i - 1), WorldAt(w, run, i).sessions[sid];
      && WorldOk(x) && Enabled(x, run[i - 1]) && WorldAt(w, run, i) == Next(x, run[i - 1])
      && (sid !in x.sessions ==> run[i - 1].Create? && Labelled(t, false))
  {
    Before(w, run, i, sid);
    hide *;
    if sid !in WorldAt(w, run, i - 1).sessions { FreshLabel(WorldAt(w, run, i).sessions[sid]); }
  }

  lemma FreshLabel(s: Session)
    requires s.status.Active?
    ensures Labelled(s, false)
  {
  }

  lemma LateStep(w: World, run: seq<Action>, i: nat, sid: nat, expiresAt: int)
    requires CanRun(w, run) && 0 < i <= |run|
    ensures FiledLate(w, run, i, sid, expiresAt)
       <==> FiledLate(w, run, i - 1, sid, expiresAt)
            || (run[i - 1].Submit? && run[i - 1].sid == sid && expiresAt < WorldAt(w, run, i - 1).clock)
  {
    hide CanRun, WorldAt;
  }

  lemma NoneLate(w: World, run: seq<Action>, i: nat, sid: nat, expiresAt: int)
    requires Initial(w) && CanRun(w, run) && 0 < i <= |run| && sid !in WorldAt(w, run, i - 1).sessions && run[i - 1].Create?
    ensures !FiledLate(w, run, i, sid, expiresAt)
  {
    hide CanRun, WorldAt, Initial;
    if k :| 0 <= k < i && run[k].Submit? && run[k].sid == sid && expiresAt < WorldAt(w, run, k).clock {
      FiledAfter(w, run, k, i - 1);
    }
  }

  // ----- After the allocation -----

  lemma RewoundStep(w: World, a: Action, sid: nat)
    requires Enabled(w, a) && sid in w.sessions && sid in Next(w, a).sessions
    ensures var s, t := w.sessions[sid], Next(w, a).sessions[sid];
      && (t.frozen <==> s.frozen || a == Begin(sid)) && (t.rewound <==> s.rewound || (s.frozen && a == Begin(sid)))
  {
    SessionAfter(w, a, sid);
    hide Enabled, Next;
    SteppedRewound(w, w.sessions[sid], a);
    hide Stepped;
  }

  lemma SteppedRewound(w: World, s: Session, a: Action)
    ensures var t := Stepped(w, s, a);
      (t.frozen <==> s.frozen || a.Begin?) && (t.rewound <==> s.rewound || (s.frozen && a.Begin?))
  {
    hide Complete, AllSettled, FinalStatus, Arrivals, FiledStatus, Rep;
  }

  lemma BegunStep(w: World, run: seq<Action>, i: nat, sid: nat)
    requires Initial(w) && CanRun(w, run) && i <= |run| && sid in WorldAt(w, run, i).sessions
    ensures 0 < i
    ensures var x, t, a := WorldAt(w, run, i - 1), WorldAt(w, run, i).sessions[sid], run[i - 1];
      if sid in x.sessions then
        (t.frozen <==> x.sessions[sid].frozen || a == Begin(sid))
        && (t.rewound <==> x.sessions[sid].rewound || (x.sessions[sid].frozen && a == Begin(sid)))
      else a.Create? && !t.frozen && !t.rewound
  {
    Before(w, run, i, sid);
    hide *;
    if sid in WorldAt(w, run, i - 1).sessions { RewoundStep(WorldAt(w, run, i - 1), run[i - 1], sid); }
  }

  /** A session is frozen once finalization has begun, and rewound once it has begun again. */
  lemma {:induction false} BegunAt(w: World, run: seq<Action>, i: nat, sid: nat)
    requires Initial(w) && CanRun(w, run) && i <= |run| && sid in WorldAt(w, run, i).sessions
    ensures WorldAt(w, run, i).sessions[sid].frozen <==> exists j :: 0 <= j < i && run[j] == Begin(sid)
    ensures WorldAt(w, run, i).sessions[sid].rewound <==> BegunTwice(run, i, sid)
    decreases i
  {
    hide *;
    BegunStep(w, run, i, sid);
    if sid in WorldAt(w, run, i - 1).sessions {
      BegunAt(w, run, i - 1, sid);
      TwiceStep(run, i, sid);
    } else {
      NoneBegun(w, run, i, sid);
    }
  }

  lemma TwiceStep(run: seq<Action>, i: nat, sid: nat)
    requires 0 < i <= |run|
    ensures BegunTwice(run, i, sid) <==>
      BegunTwice(run, i - 1, sid) || (run[i - 1] == Begin(sid) && exists j :: 0 <= j < i - 1 && run[j] == Begin(sid))
    ensures (exists j :: 0 <= j < i && run[j] == Begin(sid)) <==>
      (exists j :: 0 <= j < i - 1 && run[j] == Begin(sid)) || run[i - 1] == Begin(sid)
  {
  }

  lemma NoneBegun(w: World, run: seq<Action>, i: nat, sid: nat)
    requires Initial(w) && CanRun(w, run) && 0 < i <= |run| && sid !in WorldAt(w, run, i - 1).sessions && run[i - 1].Create?
    ensures !(exists j :: 0 <= j < i && run[j] == Begin(sid)) && !BegunTwice(run, i, sid)
  {
    hide CanRun, WorldAt, Initial, Enabled, Next;
    if k :| 0 <= k < i && run[k] == Begin(sid) {
      StepAt(w, run, k);
      BeginFacts(WorldAt(w, run, k), run[k]);
      FurtherAt(w, run, k + 1, i - 1, sid);
    }
  }

  /** The status of a session at any point of a run. While it collects claims: conflicted once a fork is
      filed, and otherwise in its claim window from the first claim filed after it expired. From the first
      begin_finalization until every claim is allocated: reconciling. After that and until it is closed:
      insolvent exactly when its claims exceed its cap, and otherwise conflicted exactly when a fork was
      filed and finalization not begun again; settled only once everything owed is paid. */
  lemma StatusTells(w: World, run: seq<Action>, sid: nat)
    requires Initial(w) && CanRun(w, run) && sid in End(w, run).sessions
    ensures var s, begun := End(w, run).sessions[sid], exists j :: 0 <= j < |run| && run[j] == Begin(sid);
      && (!begun ==>
            s.status == if Forked(s.filed.Values) then Conflicted
                        else if FiledLate(w, run, |run|, sid, s.terms.expiresAt) then ClaimWindow else Active)
      && (begun && !Complete(s) ==> s.status == Reconciling)
      && (Complete(s) && !s.status.Closed? ==>
            && (s.status.Insolvent? <==> s.terms.cap < Exposure(Claims(s)))
            && (s.status.Conflicted? <==> Forked(s.filed.Values) && Exposure(Claims(s)) <= s.terms.cap && !BegunTwice(run, |run|, sid))
            && (s.status.Settled? ==> s.settled == Payable(s))
            && !s.status.Active? && !s.status.ClaimWindow?)
      && (s.status.Closed? ==> Complete(s) && s.settled == Payable(s))
  {
    var s := End(w, run).sessions[sid];
    EndsAt(w, run);
    hide *;
    OkAt(w, run, |run|);
    LabelAt(w, run, |run|, sid);
    BegunAt(w, run, |run|, sid);
    OpenSession(End(w, run), sid);
    StageTells(s, FiledLate(w, run, |run|, sid, s.terms.expiresAt));
  }

  lemma StageTells(s: Session, late: bool)
    requires SessionOk(s) && Labelled(s, late)
    ensures !s.frozen ==>
      s.status == if Forked(s.filed.Values) then Conflicted else if late then ClaimWindow else Active
    ensures s.frozen && !Complete(s) ==> s.status == Reconciling
    ensures Complete(s) ==> s.frozen
    ensures Complete(s) && !s.status.Closed? ==>
      && (s.status.Insolvent? <==> s.terms.cap < Exposure(Claims(s)))
      && (s.status.Conflicted? <==> Forked(s.filed.Values) && Exposure(Claims(s)) <= s.terms.cap && !s.rewound)
      && (s.status.Settled? ==> s.settled == Payable(s))
      && !s.status.Active? && !s.status.ClaimWindow?
    ensures s.status.Closed? ==> Complete(s) && s.settled == Payable(s)
  {
    hide BookOk, ProgressOk, Claims, Payable, Forked;
  }
}
