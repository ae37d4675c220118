/** How much a session can owe: unique exposure is at most the branch limit times the number of
    leaves of the payment tree, so an unforked session is covered in full and insolvency takes a
    confirmed fork and at least four leaves. */
module Leaves {
  import opened Collections
  import opened ProRata
  import opened States
  import opened Protocol
  import opened Invariants
  import opened Runs

  /** States no payment in the tree continues from. */
  function LeavesOf(states: set<StateHash>): set<StateHash>
  {
    set e | e in states && !(exists d :: d in states && d.Payment? && d.prev == e)
  }

  /** Total amount of a set of edges. */
  ghost function Total(states: set<StateHash>): nat
  {
    if states == {} then 0 else var e :| e in states; Amount(e) + Total(states - {e})
  }

  lemma {:induction false} TotalRemove(states: set<StateHash>, e: StateHash)
    requires e in states
    ensures Total(states) == Amount(e) + Total(states - {e})
    decreases |states|
  {
    var d :| d in states && Total(states) == Amount(d) + Total(states - {d});
    if d != e {
      TotalRemove(states - {d}, e);
      TotalRemove(states - {e}, d);
      assert states - {d} - {e} == states - {e} - {d};
    }
  }

  /** Unspent balance left at the leaves. */
  ghost function Unspent(leaves: set<StateHash>): nat
  {
    if leaves == {} then 0
    else var e :| e in leaves; (if e.Payment? then e.newRemaining else 0) + Unspent(leaves - {e})
  }

  lemma {:induction false} UnspentRemove(leaves: set<StateHash>, e: StateHash)
    requires e in leaves && e.Payment?
    ensures Unspent(leaves) == e.newRemaining + Unspent(leaves - {e})
    decreases |leaves|
  {
    var d :| d in leaves && Unspent(leaves) == (if d.Payment? then d.newRemaining else 0) + Unspent(leaves - {d});
    if d != e {
      UnspentRemove(leaves - {d}, e);
      assert (leaves - {e}) - {d} == (leaves - {d}) - {e};
      if d.Payment? {
        UnspentRemove(leaves - {e}, d);
      } else {
        UnspentSkip(leaves - {e}, d);
      }
    }
  }

  lemma {:induction false} UnspentSkip(leaves: set<StateHash>, e: StateHash)
    requires e in leaves && !e.Payment?
    ensures Unspent(leaves) == Unspent(leaves - {e})
    decreases |leaves|
  {
    var d :| d in leaves && Unspent(leaves) == (if d.Payment? then d.newRemaining else 0) + Unspent(leaves - {d});
    if d != e {
      UnspentSkip(leaves - {d}, e);
      assert (leaves - {e}) - {d} == (leaves - {d}) - {e};
      if d.Payment? { UnspentRemove(leaves - {e}, d); } else { UnspentSkip(leaves - {e}, d); }
    }
  }

  /** A tree has an edge of greatest sequence number, and it is a leaf. */
  lemma {:induction false} DeepestEdge(states: set<StateHash>) returns (e: StateHash)
    requires states != {} && forall d :: d in states ==> d.Payment?
    ensures e in states && forall d :: d in states ==> d.sequence <= e.sequence
    decreases |states|
  {
    e :| e in states;
    if states != {e} {
      var f := DeepestEdge(states - {e});
      if e.sequence < f.sequence { e := f; }
    }
  }

  lemma WithoutDeepest(root: StateHash, limit: nat, maxDepth: nat, states: set<StateHash>, e: StateHash)
    requires Tree(root, limit, maxDepth, states) && e in states
    requires forall d :: d in states && d.Payment? ==> d.sequence <= e.sequence
    ensures Tree(root, limit, maxDepth, states - {e})
    ensures e in LeavesOf(states)
  {
    assert Linked(root, limit, maxDepth, states, e);
    forall d | d in states ensures d.Payment? && d.prev != e {
      assert Linked(root, limit, maxDepth, states, d);
    }
    forall d | d in states - {e} ensures Linked(root, limit, maxDepth, states - {e}, d) {
      assert Linked(root, limit, maxDepth, states, d);
      assert d.prev != e;
    }
  }

  /** Removing a deepest edge takes its leaf away; its parent becomes a leaf if it has no other child. */
  lemma LeavesWithout(states: set<StateHash>, e: StateHash)
    requires e in states && e.Payment? && e in LeavesOf(states)
    ensures LeavesOf(states - {e})
         == LeavesOf(states) - {e}
            + (if e.prev in states && e.prev != e && !(exists d :: d in states - {e} && d.Payment? && d.prev == e.prev) then {e.prev} else {})
    ensures e.prev in states ==> e.prev !in LeavesOf(states)
  {
    var less, leaves := states - {e}, LeavesOf(states - {e});
    forall f | f in less && f != e.prev ensures f in leaves <==> f in LeavesOf(states) {
      if d :| d in states && d.Payment? && d.prev == f { assert d in less; }
    }
    if e.prev in states { assert e in states && e.prev == e.prev; }
  }

  /** Exposure plus what the leaves leave unspent is at most the limit for each leaf. */
  lemma {:induction false} LeafBudget(root: StateHash, limit: nat, maxDepth: nat, states: set<StateHash>)
    requires Tree(root, limit, maxDepth, states)
    ensures Total(states) + Unspent(LeavesOf(states)) <= limit * |LeavesOf(states)|
    decreases |states|
  {
    if states == {} {
      assert LeavesOf(states) == {};
    } else {
      forall d | d in states ensures d.Payment? && d.previousRemaining <= limit {
        RemainingWithin(root, limit, maxDepth, states, d);
      }
      var e := DeepestEdge(states);
      WithoutDeepest(root, limit, maxDepth, states, e);
      LeafBudget(root, limit, maxDepth, states - {e});
      assert Linked(root, limit, maxDepth, states, e);
      TotalRemove(states, e);
      LeavesWithout(states, e);
      UnspentRemove(LeavesOf(states), e);
      BudgetStep(states, e, limit);
    }
  }

  lemma BudgetStep(states: set<StateHash>, e: StateHash, limit: nat)
    requires e in LeavesOf(states) && e.Payment? && e.previousRemaining <= limit
    requires e.newRemaining == e.previousRemaining - e.amount && e.amount <= e.previousRemaining
    requires e.prev in states ==> e.prev.Payment? && e.prev.newRemaining == e.previousRemaining
    requires LeavesOf(states - {e}) == LeavesOf(states) - {e} || (e.prev in states && e.prev !in LeavesOf(states)
                                                               && LeavesOf(states - {e}) == LeavesOf(states) - {e} + {e.prev})
    requires Total(states) == e.amount + Total(states - {e})
    requires Unspent(LeavesOf(states)) == e.newRemaining + Unspent(LeavesOf(states) - {e})
    requires Total(states - {e}) + Unspent(LeavesOf(states - {e})) <= limit * |LeavesOf(states - {e})|
    ensures Total(states) + Unspent(LeavesOf(states)) <= limit * |LeavesOf(states)|
  {
    var leaves, less := LeavesOf(states), LeavesOf(states - {e});
    hide *;
    if less == leaves - {e} {
      OneMore(less, leaves, e);
      LimitAdds(limit, |less|, |leaves|);
    } else {
      OneMore(leaves - {e}, leaves, e);
      OneMore(leaves - {e}, less, e.prev);
      UnspentRemove(less, e.prev);
      assert less - {e.prev} == leaves - {e};
    }
  }

  lemma OneMore(less: set<StateHash>, more: set<StateHash>, e: StateHash)
    requires e !in less && more == less + {e}
    ensures |more| == |less| + 1
  {
  }

  lemma LimitAdds(limit: nat, n: nat, m: nat)
    requires m == n + 1
    ensures limit * m == limit * n + limit
  {
  }

  /** No state ever has more than the limit to spend. */
  lemma {:induction false} RemainingWithin(root: StateHash, limit: nat, maxDepth: nat, states: set<StateHash>, e: StateHash)
    requires Tree(root, limit, maxDepth, states) && e in states
    ensures e.Payment? && e.previousRemaining <= limit
    decreases e
  {
    assert Linked(root, limit, maxDepth, states, e);
    if e.sequence != 1 { RemainingWithin(root, limit, maxDepth, states, e.prev); }
  }

  /** Without a fork the tree is a single chain. */
  lemma {:induction false} OneLeaf(root: StateHash, limit: nat, maxDepth: nat, states: set<StateHash>)
    requires Tree(root, limit, maxDepth, states) && !Forked(states)
    ensures |LeavesOf(states)| == if states == {} then 0 else 1
    decreases |states|
  {
    if states == {} {
      assert LeavesOf(states) == {};
    } else {
      forall d | d in states ensures d.Payment? {
        assert Linked(root, limit, maxDepth, states, d);
      }
      var e := DeepestEdge(states);
      WithoutDeepest(root, limit, maxDepth, states, e);
      OneLeaf(root, limit, maxDepth, states - {e});
      LeavesWithout(states, e);
      assert Linked(root, limit, maxDepth, states, e);
      forall d | d in states - {e} ensures d.prev != e.prev && e.prev in states {
        OnlyChild(root, limit, maxDepth, states, d, e);
      }
      if states - {e} == {} {
        assert states == {e};
      }
    }
  }

  /** In an unforked tree another edge shares no parent with e, and e has a parent edge. */
  lemma {:induction false} OnlyChild(root: StateHash, limit: nat, maxDepth: nat, states: set<StateHash>, d: StateHash, e: StateHash)
    requires Tree(root, limit, maxDepth, states) && !Forked(states)
    requires d in states && e in states && d != e
    requires forall f :: f in states && f.Payment? ==> f.sequence <= e.sequence
    ensures d.Payment? && e.Payment? && d.prev != e.prev && e.prev in states
    decreases d
  {
    assert Linked(root, limit, maxDepth, states, d);
    assert Linked(root, limit, maxDepth, states, e);
    assert d.sequence != e.sequence || d.prev != e.prev;
    if d.sequence != 1 && d.prev != e {
      OnlyChild(root, limit, maxDepth, states, d.prev, e);
    }
  }

  lemma TotalAdd(states: set<StateHash>, e: StateHash)
    ensures Total(states + {e}) == Total(states) + if e in states then 0 else Amount(e)
  {
    if e in states {
      assert states + {e} == states;
    } else {
      TotalRemove(states + {e}, e);
      assert states + {e} - {e} == states;
    }
  }

  /** The exposure of a book counts each distinct edge once. */
  lemma {:induction false} ExposureIsTotal(f: Book)
    ensures Sum(Eligible(f)) == Total(f.Values)
    decreases |f|
  {
    hide Eligible, Amount, Sum, Total;
    if f == map[] {
      EmptyTotals(f);
    } else {
      var h :| h in f;
      var g := f - {h};
      assert f == g[h := f[h]];
      ExposureIsTotal(g);
      ExposureAfterFiling(g, h, f[h]);
      ValuesAfter(g, h, f[h]);
      TotalAdd(g.Values, f[h]);
    }
  }

  lemma EmptyTotals(f: Book)
    requires f == map[]
    ensures Sum(Eligible(f)) == Total(f.Values) == 0
  {
    assert f.Values == {};
    assert Eligible(f) == map[];
    SumEmpty();
  }

  // ----- Sessions -----

  /** Unique exposure is bounded by the limit for each leaf. */
  lemma ExposureWithinLeaves(s: Session)
    requires BookOk(s)
    ensures Exposure(Claims(s)) == Total(s.filed.Values) <= s.terms.limit * |LeavesOf(s.filed.Values)|
  {
    ExposureIsTotal(s.filed);
    LeafBudget(Root(s.terms), s.terms.limit, s.terms.maxDepth, s.filed.Values);
    hide BookOk, LeavesOf, Sum, Total, Eligible;
  }

  /** An unforked session is never overdrawn, its exposure is within one limit, and the allocation owes
      every claim its whole amount. */
  lemma UnforkedIsCovered(w: World, run: seq<Action>, sid: nat)
    requires Initial(w) && CanRun(w, run) && sid in End(w, run).sessions
    requires !Forked(End(w, run).sessions[sid].filed.Values)
    ensures var s := End(w, run).sessions[sid];
      && Exposure(Claims(s)) <= s.terms.limit && 3 * s.terms.limit <= s.terms.cap
      && !Overdrawn(s) && !s.status.Insolvent?
      && forall h :: h in Claims(s) ==> Owed(s, h) == Claims(s)[h]
  {
    InitialOk(w);
    RunKeeps(w, run);
    OpenSession(End(w, run), sid);
    var s := End(w, run).sessions[sid];
    hide CanRun, End, WorldOk, SessionIn;
    CoveredStatus(s);
    Covered(s);
  }

  lemma Covered(s: Session)
    requires BookOk(s) && !Forked(s.filed.Values)
    ensures Exposure(Claims(s)) <= s.terms.limit && 3 * s.terms.limit <= s.terms.cap && !Overdrawn(s)
    ensures forall h :: h in Claims(s) ==> Owed(s, h) == Claims(s)[h]
  {
    ExposureWithinLeaves(s);
    OneLeaf(Root(s.terms), s.terms.limit, s.terms.maxDepth, s.filed.Values);
    OneTimes(s.terms.limit, |LeavesOf(s.filed.Values)|);
    assert EconomicsOk(s.terms.cap, s.terms.limit);
    ClaimsPositive(s);
    hide BookOk, LeavesOf, Sum, Total, Forked, Eligible, Positive;
    forall h | h in Claims(s) ensures Owed(s, h) == Claims(s)[h] {
      PayoutBounds(Claims(s), s.terms.cap, h);
    }
  }

  lemma OneTimes(limit: nat, n: nat)
    requires n <= 1
    ensures limit * n <= limit
  {
  }

  lemma CoveredStatus(s: Session)
    requires SessionOk(s)
    ensures s.status.Insolvent? ==> Overdrawn(s)
  {
    hide BookOk, ProgressOk, Forked;
  }

  /** Insolvency takes a confirmed fork and at least four leaves. */
  lemma InsolvencyNeedsFork(w: World, run: seq<Action>, sid: nat)
    requires Initial(w) && CanRun(w, run) && sid in End(w, run).sessions
    requires End(w, run).sessions[sid].status.Insolvent?
    ensures var s := End(w, run).sessions[sid];
      Forked(s.filed.Values) && 4 <= |LeavesOf(s.filed.Values)| && s.terms.cap < Exposure(Claims(s))
  {
    InitialOk(w);
    RunKeeps(w, run);
    OpenSession(End(w, run), sid);
    var s := End(w, run).sessions[sid];
    hide CanRun, End, WorldOk, SessionIn;
    CoveredStatus(s);
    if !Forked(s.filed.Values) { Covered(s); }
    ExposureWithinLeaves(s);
    assert EconomicsOk(s.terms.cap, s.terms.limit);
    hide SessionOk, LeavesOf, Forked, Exposure;
    if |LeavesOf(s.filed.Values)| <= 3 { TimesMonotone(|LeavesOf(s.filed.Values)|, 3, s.terms.limit); }
  }
}
