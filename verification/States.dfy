/** State hashes, the tree of payments they form, and what a book of filed credentials determines:
    the economic representative of each edge, its wrappers, siblings and conflicts. */
module States {
  import opened Collections
  import opened ProRata

  datatype GenesisTerms = GenesisTerms(sessionId: nat, owner: nat, device: nat, limit: nat, maxDepth: nat,
                                       issuedAt: int, expiresAt: int)

  /** A 32-byte state hash, as the preimage it commits to: the genesis state of a session or a
      payment state. Hashes of distinct states are distinct. Any other 32 bytes are Unknown. */
  datatype StateHash =
    | Genesis(terms: GenesisTerms)
    | Payment(prev: StateHash, sequence: nat, merchant: nat, amount: nat, challenge: nat,
              previousRemaining: nat, newRemaining: nat)
    | Unknown(bytes: nat)

  /** Claims submitted for one session: credential hash to the state the credential leads to.
      A credential hash is its 32 bytes read as a big-endian number, which orders the same way. */
  type Book = map<nat, StateHash>

  function Amount(e: StateHash): nat { if e.Payment? then e.amount else 0 }

  /** The credentials wrapping the same state edge. */
  function Wrappers(f: Book, e: StateHash): set<nat> { set h | h in f && f[h] == e }

  lemma WrapperExists(f: Book, e: StateHash)
    requires e in f.Values
    ensures Wrappers(f, e) != {}
  {
    var h :| h in f && f[h] == e;
    assert h in Wrappers(f, e);
  }

  /** The economic representative of an edge: its least wrapper. */
  function Rep(f: Book, e: StateHash): (r: nat)
    requires e in f.Values
    ensures r in f && f[r] == e
  {
    WrapperExists(f, e);
    var r := Min(Wrappers(f, e));
    assert r in Wrappers(f, e);
    r
  }

  lemma RepLeast(f: Book, e: StateHash)
    requires e in f.Values
    ensures forall h :: h in f && f[h] == e ==> Rep(f, e) <= h
  {
    WrapperExists(f, e);
    assert forall h :: h in f && f[h] == e ==> h in Wrappers(f, e);
  }

  predicate IsRep(f: Book, h: nat)
    requires h in f
  {
    forall k :: k in f && f[k] == f[h] ==> h <= k
  }

  lemma RepIsRep(f: Book, h: nat)
    requires h in f
    ensures f[h] in f.Values
    ensures IsRep(f, h) <==> Rep(f, f[h]) == h
  {
    assert f[h] in f.Values;
    RepLeast(f, f[h]);
  }

  /** The claims that count economically: one representative per edge, with the edge's amount. */
  function Eligible(f: Book): (c: map<nat, nat>)
    ensures c.Keys <= f.Keys
  {
    map h | h in f && IsRep(f, h) :: Amount(f[h])
  }

  lemma RepEligible(f: Book, e: StateHash)
    requires e in f.Values
    ensures Rep(f, e) in Eligible(f)
  {
    RepLeast(f, e);
  }

  /** Filing the first wrapper of an edge makes it a representative and changes no other. */
  lemma FileNew(f: Book, h: nat, e: StateHash)
    requires h !in f && e !in f.Values
    ensures Eligible(f[h := e]) == Eligible(f)[h := Amount(e)]
    ensures f[h := e].Values == f.Values + {e}
    ensures Rep(f[h := e], e) == h
    ensures forall d :: d in f.Values ==> Rep(f[h := e], d) == Rep(f, d)
    ensures forall d :: d != e ==> Wrappers(f[h := e], d) == Wrappers(f, d)
    ensures Wrappers(f[h := e], e) == {h}
  {
    var g := f[h := e];
    ValuesAfter(f, h, e);
    assert forall k :: k in f ==> f[k] != e;
    assert forall k :: k in f ==> g[k] == f[k];
    EligibleAfterNew(f, h, e);
    hide Eligible, IsRep;
    forall d | d in f.Values ensures Rep(g, d) == Rep(f, d) {
      RepLeast(f, d);
      RepLeast(g, d);
      assert g[Rep(f, d)] == d;
      assert g[Rep(g, d)] == d && Rep(g, d) != h;
    }
  }

  lemma EligibleAfterNew(f: Book, h: nat, e: StateHash)
    requires h !in f && forall k :: k in f ==> f[k] != e
    ensures Eligible(f[h := e]) == Eligible(f)[h := Amount(e)]
  {
    var g := f[h := e];
    assert forall k :: k in f ==> g[k] == f[k];
    forall k | k in f ensures IsRep(g, k) <==> IsRep(f, k) {
    }
    assert IsRep(g, h);
  }

  lemma ValuesAfter(f: Book, h: nat, e: StateHash)
    requires h !in f
    ensures f[h := e].Values == f.Values + {e}
  {
    var g := f[h := e];
    forall d ensures d in g.Values <==> d in f.Values + {e} {
      if d in f.Values {
        var k :| k in f && f[k] == d;
        assert g[k] == d;
      }
      if d == e { assert g[h] == e; }
    }
  }

  lemma EligibleKey(f: Book, h: nat)
    requires h in f
    ensures f[h] in f.Values
    ensures h in Eligible(f) <==> Rep(f, f[h]) == h
    ensures h in Eligible(f) ==> Eligible(f)[h] == Amount(f[h])
  {
    RepIsRep(f, h);
  }

  /** Filing another wrapper of an edge moves its representative to the lesser hash. */
  lemma RepsAfterWrapper(f: Book, h: nat, e: StateHash)
    requires h !in f && e in f.Values
    ensures f[h := e].Values == f.Values
    ensures Rep(f[h := e], e) == if h < Rep(f, e) then h else Rep(f, e)
    ensures forall d :: d in f.Values && d != e ==> Rep(f[h := e], d) == Rep(f, d)
    ensures forall d :: d != e ==> Wrappers(f[h := e], d) == Wrappers(f, d)
    ensures Wrappers(f[h := e], e) == Wrappers(f, e) + {h}
  {
    var g, r := f[h := e], Rep(f, e);
    ValuesAfter(f, h, e);
    assert f.Values + {e} == f.Values;
    assert forall k :: k in f ==> g[k] == f[k];
    assert g[h] == e && g[r] == e;
    RepLeast(f, e);
    RepLeast(g, e);
    forall d | d in f.Values && d != e ensures Rep(g, d) == Rep(f, d) {
      RepLeast(f, d);
      RepLeast(g, d);
      assert g[Rep(f, d)] == d;
      assert g[Rep(g, d)] == d && Rep(g, d) != h;
    }
  }

  lemma EligibleAfterWrapper(f: Book, h: nat, e: StateHash)
    requires h !in f && e in f.Values
    ensures Rep(f, e) in Eligible(f) && Eligible(f)[Rep(f, e)] == Amount(e)
    ensures h !in Eligible(f)
    ensures Eligible(f[h := e]) == if h < Rep(f, e) then Rekeyed(Eligible(f), Rep(f, e), h) else Eligible(f)
  {
    var g, r := f[h := e], Rep(f, e);
    RepsAfterWrapper(f, h, e);
    EligibleKey(f, r);
    EligibleKey(g, h);
    EligibleUnmoved(f, h, e);
    hide IsRep, Eligible, Rep;
    RekeyedAs(f, Eligible(f), Eligible(g), r, h, h < r);
  }

  lemma RekeyedAs(f: Book, c: map<nat, nat>, d: map<nat, nat>, r: nat, h: nat, moves: bool)
    requires r in c && h !in f && c.Keys <= f.Keys && d.Keys <= f.Keys + {h}
    requires h in d <==> moves
    requires h in d ==> d[h] == c[r]
    requires forall k :: k in f ==> (k in d <==> k in c && !(moves && k == r))
    requires forall k :: k in f && k in d ==> d[k] == c[k]
    ensures d == if moves then Rekeyed(c, r, h) else c
  {
    var wanted := if moves then Rekeyed(c, r, h) else c;
    assert d.Keys == wanted.Keys;
  }

  lemma EligibleUnmoved(f: Book, h: nat, e: StateHash)
    requires h !in f && e in f.Values
    ensures forall k :: k in f ==>
              (k in Eligible(f[h := e]) <==> k in Eligible(f) && !(h < Rep(f, e) && k == Rep(f, e)))
    ensures forall k :: k in f && k in Eligible(f[h := e]) ==> Eligible(f[h := e])[k] == Eligible(f)[k]
  {
    var g, r := f[h := e], Rep(f, e);
    RepsAfterWrapper(f, h, e);
    hide IsRep, Eligible, Rep;
    forall k | k in f
      ensures k in Eligible(g) <==> k in Eligible(f) && !(h < r && k == r)
      ensures k in Eligible(g) ==> Eligible(g)[k] == Eligible(f)[k]
    {
      EligibleKey(f, k);
      EligibleKey(g, k);
    }
  }

  /** The exposure counts each edge once: replacing a representative does not change it. */
  lemma ExposureAfterFiling(f: Book, h: nat, e: StateHash)
    requires h !in f
    ensures Sum(Eligible(f[h := e])) == Sum(Eligible(f)) + if e in f.Values then 0 else Amount(e)
    ensures |Eligible(f[h := e])| == |Eligible(f)| + if e in f.Values then 0 else 1
  {
    var c := Eligible(f);
    if e in f.Values {
      EligibleAfterWrapper(f, h, e);
      RekeyedSum(c, Rep(f, e), h);
    } else {
      FileNew(f, h, e);
      assert h !in c;
      hide *;
      SumAdd(c, h, Amount(e));
    }
  }

  function Rekeyed(c: map<nat, nat>, r: nat, h: nat): map<nat, nat>
    requires r in c
  {
    (c - {r})[h := c[r]]
  }

  lemma RekeyedSum(c: map<nat, nat>, r: nat, h: nat)
    requires r in c && h !in c
    ensures Sum(Rekeyed(c, r, h)) == Sum(c)
    ensures |Rekeyed(c, r, h)| == |c|
  {
    SumRemove(c, r);
    SumAdd(c - {r}, h, c[r]);
    assert Rekeyed(c, r, h).Keys == (c.Keys - {r}) + {h};
    assert |Rekeyed(c, r, h).Keys| == |c.Keys|;
  }

  // ----- The tree of payments -----

  /** A state is a legal payment from the session's root or from a payment in the set. */
  ghost predicate Linked(root: StateHash, limit: nat, maxDepth: nat, states: set<StateHash>, e: StateHash)
  {
    && e.Payment?
    && 0 < e.amount <= e.previousRemaining
    && e.newRemaining == e.previousRemaining - e.amount
    && e.sequence <= maxDepth
    && if e.sequence == 1 then e.prev == root && e.previousRemaining == limit
       else e.prev in states && e.prev.Payment? && e.prev.sequence + 1 == e.sequence
            && e.prev.newRemaining == e.previousRemaining
  }

  ghost predicate Tree(root: StateHash, limit: nat, maxDepth: nat, states: set<StateHash>)
  {
    root.Genesis? && forall e :: e in states ==> Linked(root, limit, maxDepth, states, e)
  }

  /** The edges leaving one parent with one sequence number: the children of a fork record. */
  function Children(states: set<StateHash>, parent: StateHash, sequence: nat): set<StateHash>
  {
    set e | e in states && e.Payment? && e.prev == parent && e.sequence == sequence
  }

  /** Two distinct edges share a parent and sequence. */
  ghost predicate Forked(states: set<StateHash>)
  {
    exists a, b :: a in states && b in states && a != b && a.Payment? && b.Payment?
                   && a.prev == b.prev && a.sequence == b.sequence
  }

  lemma ChildrenAfter(states: set<StateHash>, e: StateHash, parent: StateHash, sequence: nat)
    requires e.Payment? && e !in states
    ensures Children(states + {e}, parent, sequence)
         == Children(states, parent, sequence) + if e.prev == parent && e.sequence == sequence then {e} else {}
  {
  }

  lemma TwoChildren(states: set<StateHash>, parent: StateHash, sequence: nat)
    requires 2 <= |Children(states, parent, sequence)|
    ensures Forked(states)
  {
    var c := Children(states, parent, sequence);
    var a :| a in c;
    assert c - {a} != {} || c == {a};
    var b :| b in c - {a};
    assert b in c;
  }

  lemma ForkSize(states: set<StateHash>, a: StateHash, b: StateHash)
    requires a in states && b in states && a != b && a.Payment? && b.Payment?
    requires a.prev == b.prev && a.sequence == b.sequence
    ensures 2 <= |Children(states, a.prev, a.sequence)|
  {
    assert {a, b} <= Children(states, a.prev, a.sequence);
    SubsetSize({a, b}, Children(states, a.prev, a.sequence));
  }

  /** A new edge forks the tree exactly when it has a sibling; an existing fork stays. */
  lemma ForkedAfter(states: set<StateHash>, e: StateHash)
    requires e.Payment? && e !in states
    ensures Forked(states + {e}) <==> Forked(states) || Children(states, e.prev, e.sequence) != {}
  {
    if d :| d in Children(states, e.prev, e.sequence) {
      assert d in states + {e} && e in states + {e} && d != e;
    }
    if Forked(states + {e}) {
      var a, b :| a in states + {e} && b in states + {e} && a != b && a.Payment? && b.Payment?
                  && a.prev == b.prev && a.sequence == b.sequence;
      if a == e { assert b in Children(states, e.prev, e.sequence); }
      if b == e { assert a in Children(states, e.prev, e.sequence); }
    }
  }

  /** An edge conflicts when it has a sibling or descends from an edge that has one. */
  ghost predicate Tainted(states: set<StateHash>, e: StateHash)
  {
    e.Payment? && (2 <= |Children(states, e.prev, e.sequence)| || Tainted(states, e.prev))
  }
}
