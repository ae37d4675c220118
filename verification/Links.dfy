/** Following the stored links of a session's claim accounts visits every filed claim once, in
    increasing credential-hash order forwards and in decreasing order backwards. */
module Links {
  import opened Collections
  import opened States
  import opened Protocol
  import opened Invariants
  import opened Accounts
  import opened ClaimList
  import opened Runs

  /** The claims met from account k on by following next links, at most n of them. */
  function Forward(claims: map<nat, Claim>, k: Key, n: nat): seq<nat>
    decreases n
  {
    if n == 0 || !k.ClaimKey? || k.hash !in claims then []
    else [k.hash] + Forward(claims, claims[k.hash].nextClaim, n - 1)
  }

  /** The same by previous links, listed in the opposite order. */
  function Backward(claims: map<nat, Claim>, k: Key, n: nat): seq<nat>
    decreases n
  {
    if n == 0 || !k.ClaimKey? || k.hash !in claims then []
    else Backward(claims, claims[k.hash].previousClaim, n - 1) + [k.hash]
  }

  /** The part of the keys from some point on. */
  predicate Suffix(keys: set<nat>, rest: set<nat>)
  {
    rest <= keys && forall j, k :: j in keys && j !in rest && k in rest ==> j < k
  }

  predicate Prefix(keys: set<nat>, rest: set<nat>)
  {
    rest <= keys && forall j, k :: j in keys && j !in rest && k in rest ==> k < j
  }

  lemma FirstOf(keys: set<nat>, rest: set<nat>)
    requires Suffix(keys, rest) && rest != {}
    ensures Min(rest) in keys && NextKey(keys, Min(rest)) == HeadKey(rest - {Min(rest)})
    ensures |rest - {Min(rest)}| == |rest| - 1 && Suffix(keys, rest - {Min(rest)})
  {
    assert Above(keys, Min(rest)) == rest - {Min(rest)};
  }

  lemma {:induction false} ForwardVisits(claims: map<nat, Claim>, keys: set<nat>, rest: set<nat>, n: nat)
    requires Listed(claims, keys) && Suffix(keys, rest) && |rest| <= n
    ensures Forward(claims, HeadKey(rest), n) == Sorted(rest)
    decreases n
  {
    hide *;
    if rest == {} {
      NoneLeft(claims, rest, n);
    } else {
      var m := Min(rest);
      FirstOf(keys, rest);
      ForwardStep(claims, keys, rest, n);
      ForwardVisits(claims, keys, rest - {m}, n - 1);
    }
  }

  lemma NoneLeft(claims: map<nat, Claim>, rest: set<nat>, n: nat)
    requires rest == {}
    ensures Forward(claims, HeadKey(rest), n) == Backward(claims, TailKey(rest), n) == Sorted(rest) == []
  {
  }

  lemma ForwardStep(claims: map<nat, Claim>, keys: set<nat>, rest: set<nat>, n: nat)
    requires Listed(claims, keys) && rest != {} && Min(rest) in keys && 0 < n
    ensures Forward(claims, HeadKey(rest), n) == [Min(rest)] + Forward(claims, NextKey(keys, Min(rest)), n - 1)
    ensures Sorted(rest) == [Min(rest)] + Sorted(rest - {Min(rest)})
  {
    hide NextKey, Min;
  }

  lemma LastOf(keys: set<nat>, rest: set<nat>)
    requires Prefix(keys, rest) && rest != {}
    ensures Max(rest) in keys && PreviousKey(keys, Max(rest)) == TailKey(rest - {Max(rest)})
    ensures |rest - {Max(rest)}| == |rest| - 1 && Prefix(keys, rest - {Max(rest)})
  {
    assert Below(keys, Max(rest)) == rest - {Max(rest)};
  }

  lemma {:induction false} BackwardVisits(claims: map<nat, Claim>, keys: set<nat>, rest: set<nat>, n: nat)
    requires Listed(claims, keys) && Prefix(keys, rest) && |rest| <= n
    ensures Backward(claims, TailKey(rest), n) == Sorted(rest)
    decreases n
  {
    hide *;
    if rest == {} {
      NoneLeft(claims, rest, n);
    } else {
      var m := Max(rest);
      LastOf(keys, rest);
      BackwardStep(claims, keys, rest, n);
      SortedEndsInMax(rest);
      BackwardVisits(claims, keys, rest - {m}, n - 1);
    }
  }

  lemma BackwardStep(claims: map<nat, Claim>, keys: set<nat>, rest: set<nat>, n: nat)
    requires Listed(claims, keys) && rest != {} && Max(rest) in keys && 0 < n
    ensures Backward(claims, TailKey(rest), n) == Backward(claims, PreviousKey(keys, Max(rest)), n - 1) + [Max(rest)]
  {
    hide PreviousKey, Max;
  }

  lemma SortedEndsInMax(s: set<nat>)
    requires s != {}
    ensures Sorted(s) == Sorted(s - {Max(s)}) + [Max(s)]
  {
    var m := Max(s);
    hide Sorted, Max;
    SortedElements(s);
    SortedElements(s - {m});
    AppendedLast(Sorted(s - {m}), m);
    AscendingUnique(Sorted(s), Sorted(s - {m}) + [m]);
  }

  lemma AppendedLast(q: seq<nat>, m: nat)
    requires Ascending(q) && forall k :: k in q ==> k < m
    ensures Ascending(q + [m]) && forall k :: k in q + [m] <==> k in q || k == m
  {
    assert forall i :: 0 <= i < |q| ==> q[i] in q;
  }

  lemma LinksAre(s: Session)
    ensures Listed(View(s).claims, s.filed.Keys)
  {
    hide NextKey, PreviousKey, Claims, Owed, Tainted;
  }

  /** In every reachable world the claim accounts of a session form one doubly linked list: from the
      head the next links, and from the tail the previous links, run through exactly the filed
      claims in hash order, as many as submitted_claim_count says, and then stop. */
  lemma OneList(w: World, run: seq<Action>, sid: nat, n: nat)
    requires Initial(w) && CanRun(w, run) && sid in End(w, run).sessions
    requires View(End(w, run).sessions[sid]).session.submittedClaimCount <= n
    ensures var l := View(End(w, run).sessions[sid]);
      && Forward(l.claims, l.session.claimHead, n) == Backward(l.claims, l.session.claimTail, n) == Sorted(l.claims.Keys)
      && |Sorted(l.claims.Keys)| == l.session.submittedClaimCount
      && Ascending(Sorted(l.claims.Keys))
  {
    var s := End(w, run).sessions[sid];
    hide CanRun, End;
    LinksAre(s);
    ListEnds(s);
    SortedElements(s.filed.Keys);
    hide View, HeadKey, TailKey;
    ForwardVisits(View(s).claims, s.filed.Keys, s.filed.Keys, n);
    BackwardVisits(View(s).claims, s.filed.Keys, s.filed.Keys, n);
  }

  lemma ListEnds(s: Session)
    ensures View(s).session.claimHead == HeadKey(s.filed.Keys) && View(s).session.claimTail == TailKey(s.filed.Keys)
    ensures View(s).session.submittedClaimCount == |s.filed.Keys| && View(s).claims.Keys == s.filed.Keys
  {
    hide ClaimView, Claims, HeadKey, TailKey;
    assert |s.filed.Keys| == |s.filed|;
  }
}
