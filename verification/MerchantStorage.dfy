/** The merchant app's store (apps/merchant-mobile): initialize, update and load run one at a time
    over the crash-consistent store, migrating legacy state on first use. */
module MerchantStorage {
  import opened Collections
  import opened Storage

  datatype MerchantSnapshot = MerchantSnapshot(secret: string, claims: string, outstanding: Option<string>)

  datatype Legacy = Legacy(secret: Option<string>, claims: Option<string>, outstanding: Option<string>)

  /** What update applies to the current snapshot; None when it throws. */
  type Mutation = MerchantSnapshot -> Option<MerchantSnapshot>

  const COMPONENTS: seq<string> := ["claims", "outstanding-challenge", "device-secret"]

  /** Exactly 32 bytes in lower-case hexadecimal. */
  predicate ValidSecret(s: string)
  {
    |s| == 64 && forall i :: 0 <= i < |s| ==> '0' <= s[i] <= '9' || 'a' <= s[i] <= 'f'
  }

  function Encode(s: MerchantSnapshot): (v: Values)
    ensures v.Keys == NameSet(COMPONENTS)
  {
    map["claims" := s.claims,
        "outstanding-challenge" := if s.outstanding.Some? then s.outstanding.value else "null",
        "device-secret" := s.secret]
  }

  function Decode(v: Values): MerchantSnapshot
    requires v.Keys == NameSet(COMPONENTS)
  {
    assert "claims" in COMPONENTS && "outstanding-challenge" in COMPONENTS && "device-secret" in COMPONENTS;
    MerchantSnapshot(v["device-secret"], v["claims"],
                     if v["outstanding-challenge"] == "null" then None else Some(v["outstanding-challenge"]))
  }

  /** The three components determine the snapshot, and a snapshot survives storage unless its pending
      challenge is the text null. */
  lemma SnapshotRoundTrip(s: MerchantSnapshot, v: Values)
    ensures Decode(Encode(s)) == s <==> s.outstanding != Some("null")
    ensures v.Keys == NameSet(COMPONENTS) ==> Encode(Decode(v)) == v
  {
    if v.Keys == NameSet(COMPONENTS) {
      assert COMPONENTS[0] in COMPONENTS && COMPONENTS[1] in COMPONENTS && COMPONENTS[2] in COMPONENTS;
      assert Encode(Decode(v)).Keys == v.Keys;
    }
  }

  /** Stored values after a mutation. */
  function Stepped(mutate: Mutation, v: Values): (r: Values)
    requires v.Keys == NameSet(COMPONENTS)
    ensures r.Keys == NameSet(COMPONENTS)
  {
    var next := mutate(Decode(v));
    if next.None? then v else Encode(next.value)
  }

  /** Applying mutations in order to stored values. */
  function Fold(mutations: seq<Mutation>, origin: Values): (v: Values)
    requires origin.Keys == NameSet(COMPONENTS)
    ensures v.Keys == NameSet(COMPONENTS)
    decreases |mutations|
  {
    if mutations == [] then origin
    else Stepped(mutations[|mutations| - 1], Fold(mutations[..|mutations| - 1], origin))
  }

  function Fresh(secret: string): MerchantSnapshot { MerchantSnapshot(secret, "[]", None) }

  function Migrated(legacy: Legacy): MerchantSnapshot
    requires legacy.secret.Some?
  {
    MerchantSnapshot(legacy.secret.value, if legacy.claims.Some? then legacy.claims.value else "[]", legacy.outstanding)
  }

  /** Legacy state that cannot be migrated: public parts without the secret, or a bad secret. */
  predicate BadLegacy(legacy: Legacy)
  {
    if legacy.secret.Some? then !ValidSecret(legacy.secret.value) else legacy.claims.Some? || legacy.outstanding.Some?
  }

  /** The log once the state is loaded: what was durable, or else the migrated legacy snapshot. */
  function Opened(legacy: Legacy, log: seq<Values>): seq<Values>
  {
    if log == [] && legacy.secret.Some? && !BadLegacy(legacy) then [Encode(Migrated(legacy))] else log
  }

  datatype Loaded = Present(snapshot: MerchantSnapshot) | Absent | Thrown

  /** Stored values the adapter would hand out. */
  predicate Sane(v: Values) { v.Keys == NameSet(COMPONENTS) && ValidSecret(Decode(v).secret) }

  predicate AllSane(log: seq<Values>) { forall i :: 0 <= i < |log| ==> Sane(log[i]) }

  /** Eight proper generation candidates of which the first two differ. */
  predicate Varied(candidates: seq<Option<nat>>)
  {
    |candidates| == 8 && (forall i :: 0 <= i < 8 ==> candidates[i].Some?) && candidates[0] != candidates[1]
  }

  // ----- What one call does -----

  datatype Queued = Load | Initialize(secret: string) | Update(mutate: Mutation)

  /** The log if the call does all it sets out to do. */
  function Effect(legacy: Legacy, call: Queued, before: seq<Values>): (after: seq<Values>)
    requires AllSane(before)
    ensures Opened(legacy, before) <= after
  {
    var base := Opened(legacy, before);
    match call
    case Load => base
    case Initialize(secret) => if base == [] then [Encode(Fresh(secret))] else base
    case Update(mutate) =>
      if base == [] then []
      else
        OpenedSane(legacy, before);
        base + [Stepped(mutate, base[|base| - 1])]
  }

  lemma OpenedSane(legacy: Legacy, log: seq<Values>)
    requires AllSane(log)
    ensures AllSane(Opened(legacy, log))
  {
  }

  /** The call cannot succeed whatever the storage does: the legacy state, the secret or the mutation
      forbids it. */
  predicate Refuses(legacy: Legacy, call: Queued, before: seq<Values>)
    requires AllSane(before)
  {
    var base := Opened(legacy, before);
    || (before == [] && BadLegacy(legacy))
    || match call
       case Load => false
       case Initialize(secret) => base == [] && !ValidSecret(secret)
       case Update(mutate) =>
         base == [] ||
         (OpenedSane(legacy, before);
          var next := mutate(Decode(base[|base| - 1])); next.None? || !ValidSecret(next.value.secret))
  }

  /** A call, what its caller is told, and the durable snapshots before and after it: nothing happens,
      or the legacy state is migrated, or the call takes full effect. An answer means full effect, and
      is the snapshot durable afterwards. */
  ghost predicate Serialized(legacy: Legacy, call: Queued, seen: Loaded, before: seq<Values>, after: seq<Values>)
  {
    && AllSane(before) && AllSane(after)
    && (after == before || after == Opened(legacy, before) || (after == Effect(legacy, call, before) && !Refuses(legacy, call, before)))
    && (seen.Present? ==>
          && after == Effect(legacy, call, before) && !Refuses(legacy, call, before) && after != []
          && Encode(seen.snapshot) == after[|after| - 1]
          && (!call.Update? ==> seen.snapshot == Decode(after[|after| - 1])))
    && (seen.Absent? ==> call.Load? && after == [] && legacy == Legacy(None, None, None))
  }

  class Merchant {
    const device: Device
    const legacy: Legacy

    ghost predicate Valid()
      reads this, device
    {
      legacy.outstanding != Some("null") && device.Valid() && device.names == COMPONENTS && AllSane(device.log)
    }

    /** The process can only die, and the disk does not diverge. */
    ghost predicate Steady()
      reads this, device
    {
      CrashOnly(device.fates) && !Diverges(device.disk)
    }

    constructor (device: Device, legacy: Legacy)
      requires device.Valid() && device.names == COMPONENTS && AllSane(device.log)
      requires legacy.outstanding != Some("null")
      ensures Valid() && this.device == device && this.legacy == legacy
    {
      this.device, this.legacy := device, legacy;
    }

    /** Commits a snapshot. */
    method CommitSnapshot(s: MerchantSnapshot, candidates: seq<Option<nat>>) returns (ok: bool)
      requires Valid() && !device.dead && |candidates| == 8 && ValidSecret(s.secret)
      modifies device
      ensures Valid() && (ok ==> !device.dead && device.log == old(device.log) + [Encode(s)])
      ensures device.log == old(device.log) || device.log == old(device.log) + [Encode(s)]
      ensures device.DeathsLeft() == old(device.DeathsLeft())
      ensures old(Steady()) ==> Steady() && (Varied(candidates) ==> ok || device.dead)
    {
      hide DiskOk, Deaths, ValidSecret;
      EncodeSane(s);
      var r := device.Commit(Encode(s), candidates);
      ok := r.Saved? && !device.dead;
    }

    /** rawLoad: the durable snapshot, or the legacy one after migrating it. */
    method RawLoad(candidates: seq<Option<nat>>) returns (r: Loaded)
      requires Valid() && !device.dead && |candidates| == 8
      modifies device
      ensures Valid() && Serialized(legacy, Load, r, old(device.log), device.log)
      ensures !r.Thrown? ==> !device.dead && device.log == Opened(legacy, old(device.log)) && !BadLegacyNow(old(device.log))
      ensures device.DeathsLeft() == old(device.DeathsLeft())
      ensures old(Steady()) ==>
        Steady() && (Varied(candidates) && r.Thrown? ==> device.dead || Refuses(legacy, Load, old(device.log)))
    {
      hide DiskOk, Deaths, ValidSecret, CrashOnly, Diverges;
      var result, threw := device.Load();
      if result.Corrupt? || result.Rejected? || device.dead { return Thrown; }
      if result.Snapshot? {
        SnapshotRoundTrip(Fresh(""), result.values);
        var snapshot := Decode(result.values);
        if !ValidSecret(snapshot.secret) { return Thrown; }
        return Present(snapshot);
      }
      if legacy.secret.None? {
        if legacy.claims.Some? || legacy.outstanding.Some? { return Thrown; }
        return Absent;
      }
      if !ValidSecret(legacy.secret.value) { return Thrown; }
      var migrated := Migrated(legacy);
      var ok := CommitSnapshot(migrated, candidates);
      SnapshotRoundTrip(migrated, Encode(migrated));
      r := if ok then Present(migrated) else Thrown;
    }

    ghost predicate BadLegacyNow(log: seq<Values>) { log == [] && BadLegacy(legacy) }

    method Initialize(secret: string, candidates: seq<Option<nat>>, more: seq<Option<nat>>) returns (r: Loaded)
      requires Valid() && !device.dead && |candidates| == |more| == 8
      modifies device
      ensures Valid() && Serialized(legacy, Queued.Initialize(secret), r, old(device.log), device.log)
      ensures device.DeathsLeft() == old(device.DeathsLeft())
      ensures old(Steady()) ==>
        && Steady()
        && (Varied(candidates) && Varied(more) && r.Thrown? ==>
              device.dead || Refuses(legacy, Queued.Initialize(secret), old(device.log)))
    {
      hide DiskOk, Deaths, ValidSecret, CrashOnly, Diverges, Encode, Decode;
      r := RawLoad(candidates);
      if !r.Absent? { return; }
      if !ValidSecret(secret) { return Thrown; }
      var initial := Fresh(secret);
      SnapshotRoundTrip(initial, Encode(initial));
      EncodeSane(initial);
      var ok := CommitSnapshot(initial, more);
      r := if ok then Present(initial) else Thrown;
    }

    /** update: durable afterwards is either what was before or all of the mutated snapshot, and a
        mutation that is reported done is durable. */
    method Update(mutate: Mutation, candidates: seq<Option<nat>>, more: seq<Option<nat>>) returns (r: Loaded)
      requires Valid() && !device.dead && |candidates| == |more| == 8
      modifies device
      ensures Valid() && Serialized(legacy, Queued.Update(mutate), r, old(device.log), device.log)
      ensures device.DeathsLeft() == old(device.DeathsLeft())
      ensures old(Steady()) ==>
        && Steady()
        && (Varied(candidates) && Varied(more) && r.Thrown? ==>
              device.dead || Refuses(legacy, Queued.Update(mutate), old(device.log)))
    {
      hide DiskOk, Deaths, ValidSecret, CrashOnly, Diverges, Encode, Decode;
      ghost var before := device.log;
      r := RawLoad(candidates);
      hide Serialized, Refuses, AllSane, Opened;
      UpdateAfterLoad(legacy, mutate, r, before, device.log);
      if r.Absent? { return Thrown; }
      if r.Thrown? { return; }
      var next := mutate(r.snapshot);
      if next.None? || !ValidSecret(next.value.secret) { return Thrown; }
      ghost var loaded, middle := r.snapshot, device.log;
      EncodeSane(next.value);
      var ok := CommitSnapshot(next.value, more);
      UpdateCommitted(legacy, mutate, loaded, before, middle, next.value, device.log, ok);
      r := if ok then Present(next.value) else Thrown;
    }
  }

  /** What an update that stops after loading amounts to. */
  lemma UpdateAfterLoad(legacy: Legacy, mutate: Mutation, r: Loaded, before: seq<Values>, middle: seq<Values>)
    requires Serialized(legacy, Load, r, before, middle)
    ensures AllSane(before) && AllSane(middle) && Serialized(legacy, Queued.Update(mutate), Thrown, before, middle)
    ensures r.Thrown? && Refuses(legacy, Load, before) ==> Refuses(legacy, Queued.Update(mutate), before)
    ensures r.Absent? ==> Refuses(legacy, Queued.Update(mutate), before)
    ensures r.Present? && (mutate(r.snapshot).None? || !ValidSecret(mutate(r.snapshot).value.secret)) ==>
      Refuses(legacy, Queued.Update(mutate), before)
  {
    hide Encode, Decode, ValidSecret, Sane;
  }

  /** What an update that commits, or fails to, amounts to. */
  lemma UpdateCommitted(legacy: Legacy, mutate: Mutation, loaded: MerchantSnapshot, before: seq<Values>, middle: seq<Values>,
                        next: MerchantSnapshot, after: seq<Values>, ok: bool)
    requires Serialized(legacy, Load, Present(loaded), before, middle) && AllSane(after)
    requires mutate(loaded) == Some(next) && ValidSecret(next.secret)
    requires after == middle || after == middle + [Encode(next)]
    requires ok ==> after == middle + [Encode(next)]
    ensures Serialized(legacy, Queued.Update(mutate), if ok then Present(next) else Thrown, before, after)
  {
    hide Encode, Decode, ValidSecret, Sane;
  }

  lemma EncodeSane(s: MerchantSnapshot)
    ensures Encode(s).Keys == NameSet(COMPONENTS) && Decode(Encode(s)).secret == s.secret
    ensures Sane(Encode(s)) <==> ValidSecret(s.secret)
  {
  }

  // ----- Runs of queued calls -----

  /** The update of a call was written: the log grew beyond what loading leaves. */
  predicate Wrote(legacy: Legacy, call: Queued, before: seq<Values>, after: seq<Values>)
  {
    call.Update? && |after| == |Opened(legacy, before)| + 1
  }

  /** The mutations of the updates whose committed pointer was written, in queue order. */
  function Kept(legacy: Legacy, calls: seq<Queued>, logs: seq<seq<Values>>): seq<Mutation>
    requires |logs| == |calls| + 1
    decreases |calls|
  {
    if calls == [] then []
    else
      var n := |calls| - 1;
      Kept(legacy, calls[..n], logs[..n + 1]) + if Wrote(legacy, calls[n], logs[n], logs[n + 1]) then [calls[n].mutate] else []
  }

  /** Each call takes effect, or does not, between the log before it and the log after it. */
  ghost predicate Queue(legacy: Legacy, calls: seq<Queued>, seen: seq<Loaded>, logs: seq<seq<Values>>)
  {
    && |seen| == |calls| && |logs| == |calls| + 1 && AllSane(logs[0])
    && forall i :: 0 <= i < |calls| ==> Serialized(legacy, calls[i], seen[i], logs[i], logs[i + 1])
  }

  /** The log extends an earlier one by the fold of some mutations: they start from the earlier log's
      last entry or, if it was empty, from the first snapshot written since. */
  predicate Extends(first: seq<Values>, kept: seq<Mutation>, log: seq<Values>)
  {
    var start := if first == [] then 0 else |first| - 1;
    && first <= log && AllSane(log) && (log == [] ==> kept == [])
    && (log != [] ==> |log| == start + 1 + |kept| && log[|log| - 1] == Fold(kept, log[start]))
  }

  /** What is durable after a queue of calls is the fold, in queue order, of the mutations whose pointer
      was written, and nothing written is ever lost. */
  lemma {:induction false} DurableIsFold(legacy: Legacy, calls: seq<Queued>, seen: seq<Loaded>, logs: seq<seq<Values>>)
    requires Queue(legacy, calls, seen, logs)
    ensures Extends(logs[0], Kept(legacy, calls, logs), logs[|calls|])
    decreases |calls|
  {
    if calls == [] {
      StartsOut(logs[0]);
    } else {
      var n := |calls| - 1;
      LastCall(legacy, calls, seen, logs);
      DurableIsFold(legacy, calls[..n], seen[..n], logs[..n + 1]);
      hide Serialized, Extends, Wrote;
      CallExtends(legacy, calls[n], seen[n], logs[n], logs[n + 1], Kept(legacy, calls[..n], logs[..n + 1]), logs[0]);
    }
  }

  /** What a caller is told is the fold of the mutations written so far, its own the last of them. */
  lemma AnswersAreFolds(legacy: Legacy, calls: seq<Queued>, seen: seq<Loaded>, logs: seq<seq<Values>>, i: nat)
    requires Queue(legacy, calls, seen, logs) && i < |calls| && seen[i].Present?
    ensures var kept, end := Kept(legacy, calls[..i + 1], logs[..i + 2]), logs[i + 1];
      && Extends(logs[0], kept, end) && end != [] && Encode(seen[i].snapshot) == end[|end| - 1]
      && (calls[i].Update? ==> kept != [] && kept[|kept| - 1] == calls[i].mutate)
  {
    var so, told, until := calls[..i + 1], seen[..i + 1], logs[..i + 2];
    assert Serialized(legacy, calls[i], seen[i], logs[i], logs[i + 1]);
    hide AllSane, Encode, Refuses, Extends, Fold, Stepped, Opened;
    assert Queue(legacy, so, told, until);
    DurableIsFold(legacy, so, told, until);
  }

  lemma LastCall(legacy: Legacy, calls: seq<Queued>, seen: seq<Loaded>, logs: seq<seq<Values>>)
    requires Queue(legacy, calls, seen, logs) && calls != []
    ensures var n := |calls| - 1;
      Queue(legacy, calls[..n], seen[..n], logs[..n + 1]) && Serialized(legacy, calls[n], seen[n], logs[n], logs[n + 1])
  {
    hide Serialized, AllSane;
  }

  lemma StartsOut(first: seq<Values>)
    requires AllSane(first)
    ensures Extends(first, [], first)
  {
    if first != [] {
      assert Sane(first[|first| - 1]);
      FoldNone(first[|first| - 1]);
    }
  }

  lemma CallExtends(legacy: Legacy, call: Queued, seen: Loaded, before: seq<Values>, after: seq<Values>,
                    kept: seq<Mutation>, first: seq<Values>)
    requires Serialized(legacy, call, seen, before, after) && Extends(first, kept, before)
    ensures Extends(first, kept + if Wrote(legacy, call, before, after) then [call.mutate] else [], after)
  {
    hide *;
    Outcomes(legacy, call, seen, before, after);
    EmptyBefore(first, kept, before);
    assert kept + [] == kept;
    if Wrote(legacy, call, before, after) {
      WroteExtends(first, kept, Opened(legacy, before), before, call.mutate, after);
    } else if before == [] && after != [] {
      BeginsWith(first, after[0]);
    }
  }

  lemma WroteExtends(first: seq<Values>, kept: seq<Mutation>, base: seq<Values>, before: seq<Values>, mutate: Mutation, after: seq<Values>)
    requires Extends(first, kept, before) && (before == [] ==> first == [] && kept == [])
    requires base != [] && Sane(base[|base| - 1]) && AllSane(after)
    requires if before == [] then |base| == 1 && base == [base[0]] && Sane(base[0]) else base == before
    requires after == base + [Stepped(mutate, base[|base| - 1])]
    ensures Extends(first, kept + [mutate], after)
  {
    hide *;
    if before == [] { BeginsWith(first, base[0]); }
    StepExtends(first, kept, base, mutate);
  }

  lemma EmptyBefore(first: seq<Values>, kept: seq<Mutation>, before: seq<Values>)
    requires Extends(first, kept, before)
    ensures before == [] ==> first == [] && kept == []
  {
  }

  lemma Outcomes(legacy: Legacy, call: Queued, seen: Loaded, before: seq<Values>, after: seq<Values>)
    requires Serialized(legacy, call, seen, before, after)
    ensures var base := Opened(legacy, before);
      if Wrote(legacy, call, before, after) then
        && call.Update? && base != [] && Sane(base[|base| - 1]) && AllSane(after)
        && after == base + [Stepped(call.mutate, base[|base| - 1])]
        && (if before == [] then |base| == 1 && base == [base[0]] && Sane(base[0]) else base == before)
      else if before == [] && after != [] then after == [after[0]] && Sane(after[0])
      else after == before
  {
    OpenedSane(legacy, before);
    hide Encode, Decode, Sane, BadLegacy, Migrated, Refuses, Stepped;
  }

  /** The first snapshot ever written. */
  lemma BeginsWith(first: seq<Values>, v: Values)
    ensures first == [] && Sane(v) ==> Extends(first, [], [v])
  {
    if Sane(v) { FoldNone(v); }
  }

  lemma StepExtends(first: seq<Values>, kept: seq<Mutation>, log: seq<Values>, mutate: Mutation)
    requires log != [] && Extends(first, kept, log)
    ensures Sane(log[|log| - 1])
    ensures var after := log + [Stepped(mutate, log[|log| - 1])];
      AllSane(after) ==> Extends(first, kept + [mutate], after)
  {
    var start := if first == [] then 0 else |first| - 1;
    assert Sane(log[start]) && Sane(log[|log| - 1]);
    FoldMore(kept, mutate, log[start]);
    hide Sane, Stepped, Fold, AllSane;
  }

  lemma FoldNone(origin: Values)
    requires origin.Keys == NameSet(COMPONENTS)
    ensures Fold([], origin) == origin
  {
  }

  lemma FoldMore(mutations: seq<Mutation>, mutate: Mutation, origin: Values)
    requires origin.Keys == NameSet(COMPONENTS)
    ensures Fold(mutations + [mutate], origin) == Stepped(mutate, Fold(mutations, origin))
  {
    assert (mutations + [mutate])[..|mutations|] == mutations;
  }

  /** Generation candidates for the two commits one call may make. */
  datatype Candidates = Candidates(first: seq<Option<nat>>, second: seq<Option<nat>>)

  predicate Usable(c: Candidates) { |c.first| == |c.second| == 8 }

  predicate Ideal(c: Candidates) { Varied(c.first) && Varied(c.second) }

  /** A call that could have succeeded and did not. */
  predicate Lost(legacy: Legacy, call: Queued, seen: Loaded, before: seq<Values>)
  {
    seen.Thrown? && (AllSane(before) ==> !Refuses(legacy, call, before))
  }

  function LostCalls(legacy: Legacy, calls: seq<Queued>, seen: seq<Loaded>, logs: seq<seq<Values>>): nat
    requires |seen| == |calls| < |logs|
    decreases |calls|
  {
    if calls == [] then 0
    else
      var n := |calls| - 1;
      LostCalls(legacy, calls[..n], seen[..n], logs) + if Lost(legacy, calls[n], seen[n], logs[n]) then 1 else 0
  }

  method Answer(merchant: Merchant, call: Queued, generations: Candidates) returns (r: Loaded)
    requires merchant.Valid() && !merchant.device.dead && Usable(generations)
    modifies merchant.device
    ensures merchant.Valid() && Serialized(merchant.legacy, call, r, old(merchant.device.log), merchant.device.log)
    ensures merchant.device.DeathsLeft() == old(merchant.device.DeathsLeft())
    ensures old(merchant.Steady()) ==>
      && merchant.Steady()
      && (Ideal(generations) && Lost(merchant.legacy, call, r, old(merchant.device.log)) ==> merchant.device.dead)
  {
    hide Encode, Decode, ValidSecret, DiskOk, Deaths, CrashOnly, Diverges, Refuses, Varied, Opened, Effect;
    match call {
      case Load => r := merchant.RawLoad(generations.first);
      case Initialize(secret) => r := merchant.Initialize(secret, generations.first, generations.second);
      case Update(mutate) => r := merchant.Update(mutate, generations.first, generations.second);
    }
  }

  /** One queued call, after a restart if the process has died. */
  method RunQueued(merchant: Merchant, call: Queued, generations: Candidates, reboot: seq<Fate>) returns (r: Loaded)
    requires merchant.Valid() && Usable(generations)
    modifies merchant.device
    ensures merchant.Valid() && Serialized(merchant.legacy, call, r, old(merchant.device.log), merchant.device.log)
    ensures old(merchant.Steady()) && CrashOnly(reboot) && Ideal(generations) ==>
      && merchant.Steady()
      && Deaths(merchant.device.fates) + (if Lost(merchant.legacy, call, r, old(merchant.device.log)) then 1 else 0)
         <= Deaths(old(merchant.device.fates)) + Deaths(reboot)
  {
    hide Serialized, AllSane, Deaths, DiskOk, Diverges, CrashOnly, Ideal, Lost;
    if merchant.device.dead { merchant.device.Reboot(reboot); }
    r := Answer(merchant, call, generations);
  }

  /** No operation of the run fails but by the process dying in it, and no generation is repeated. */
  predicate Calm(reboots: seq<seq<Fate>>, generations: seq<Candidates>)
  {
    && (forall i :: 0 <= i < |reboots| ==> CrashOnly(reboots[i]))
    && (forall i :: 0 <= i < |generations| ==> Ideal(generations[i]))
  }

  /** Calls run one at a time in queue order, with failures and deaths of the process anywhere: each
      takes full effect or none and is answered accordingly, so what is durable at the end is the fold
      of the mutations that were written. If operations fail only by the process dying in them, no call
      is lost except by such a death. */
  method QueueRun(merchant: Merchant, calls: seq<Queued>, generations: seq<Candidates>, reboots: seq<seq<Fate>>)
    returns (seen: seq<Loaded>, ghost logs: seq<seq<Values>>)
    requires merchant.Valid()
    requires |generations| == |reboots| == |calls| && forall i :: 0 <= i < |calls| ==> Usable(generations[i])
    modifies merchant.device
    ensures merchant.Valid() && Queue(merchant.legacy, calls, seen, logs)
    ensures logs[0] == old(merchant.device.log) && logs[|calls|] == merchant.device.log
    ensures Extends(old(merchant.device.log), Kept(merchant.legacy, calls, logs), merchant.device.log)
    ensures old(merchant.Steady()) && Calm(reboots, generations) ==>
      LostCalls(merchant.legacy, calls, seen, logs) <= Deaths(old(merchant.device.fates)) + TotalDeaths(reboots)
  {
    ghost var deaths := Deaths(merchant.device.fates);
    ghost var calm := merchant.Steady() && Calm(reboots, generations);
    seen, logs := [], [merchant.device.log];
    NothingLost(merchant.legacy, calls, reboots, logs);
    hide *;
    var i := 0;
    while i < |calls|
      invariant 0 <= i <= |calls| && merchant.Valid() && |seen| == i && |logs| == i + 1
      invariant Queue(merchant.legacy, calls[..i], seen, logs)
      invariant logs[0] == old(merchant.device.log) && logs[i] == merchant.device.log
      invariant calm ==>
        && merchant.Steady()
        && LostCalls(merchant.legacy, calls[..i], seen, logs) + Deaths(merchant.device.fates) <= deaths + TotalDeaths(reboots[..i])
    {
      if calm { CalmAt(reboots, generations, i); }
      var r := RunQueued(merchant, calls[i], generations[i], reboots[i]);
      OneMoreAnswer(merchant.legacy, calls, seen, logs, i, r, merchant.device.log, reboots);
      seen, logs := seen + [r], logs + [merchant.device.log];
      i := i + 1;
    }
    assert calls[..i] == calls;
    DurableIsFold(merchant.legacy, calls, seen, logs);
  }

  lemma CalmAt(reboots: seq<seq<Fate>>, generations: seq<Candidates>, i: nat)
    requires Calm(reboots, generations) && i < |reboots| == |generations|
    ensures CrashOnly(reboots[i]) && Ideal(generations[i])
  {
  }

  lemma NothingLost(legacy: Legacy, calls: seq<Queued>, reboots: seq<seq<Fate>>, logs: seq<seq<Values>>)
    requires |logs| == 1 && AllSane(logs[0])
    ensures calls[..0] == [] && reboots[..|reboots|] == reboots && Queue(legacy, calls[..0], [], logs)
    ensures LostCalls(legacy, [], [], logs) == 0 && TotalDeaths(reboots[..0]) == 0
  {
  }

  lemma OneMoreAnswer(legacy: Legacy, calls: seq<Queued>, seen: seq<Loaded>, logs: seq<seq<Values>>, i: nat, r: Loaded,
                      after: seq<Values>, reboots: seq<seq<Fate>>)
    requires i < |calls| == |reboots| && |seen| == i && |logs| == i + 1
    requires Queue(legacy, calls[..i], seen, logs) && Serialized(legacy, calls[i], r, logs[i], after)
    ensures Queue(legacy, calls[..i + 1], seen + [r], logs + [after])
    ensures LostCalls(legacy, calls[..i + 1], seen + [r], logs + [after])
         == LostCalls(legacy, calls[..i], seen, logs) + if Lost(legacy, calls[i], r, logs[i]) then 1 else 0
    ensures TotalDeaths(reboots[..i + 1]) == TotalDeaths(reboots[..i]) + Deaths(reboots[i])
  {
    hide Serialized, Lost, AllSane;
    assert calls[..i + 1][..i] == calls[..i] && (seen + [r])[..i] == seen && reboots[..i + 1][..i] == reboots[..i];
    SameLost(legacy, calls[..i], seen, logs, logs + [after]);
  }

  lemma {:induction false} SameLost(legacy: Legacy, calls: seq<Queued>, seen: seq<Loaded>, logs: seq<seq<Values>>, more: seq<seq<Values>>)
    requires |seen| == |calls| < |logs| && logs <= more
    ensures LostCalls(legacy, calls, seen, logs) == LostCalls(legacy, calls, seen, more)
    decreases |calls|
  {
    hide Lost;
    if calls != [] { SameLost(legacy, calls[..|calls| - 1], seen[..|calls| - 1], logs, more); }
  }

  // ----- The claim and its challenge -----

  /** What the merchant app queues: a new pending challenge, a received claim, which clears the
      challenge it answers, and changes to the stored claims. */
  function Request(challenge: string): Mutation { (s: MerchantSnapshot) => Some(s.(outstanding := Some(challenge))) }

  function Receive(store: string -> string): Mutation
  {
    (s: MerchantSnapshot) => if s.outstanding.None? then None else Some(s.(claims := store(s.claims), outstanding := None))
  }

  function Revise(change: string -> string): Mutation { (s: MerchantSnapshot) => Some(s.(claims := change(s.claims))) }

  /** A request sets the challenge, a receipt the claims and clears the challenge if there is one, and a
      revision the claims. */
  lemma MovesSet(s: MerchantSnapshot, challenge: string, f: string -> string)
    ensures Request(challenge)(s) == Some(MerchantSnapshot(s.secret, s.claims, Some(challenge)))
    ensures Receive(f)(s) == if s.outstanding.Some? then Some(MerchantSnapshot(s.secret, f(s.claims), None)) else None
    ensures Revise(f)(s) == Some(MerchantSnapshot(s.secret, f(s.claims), s.outstanding))
  {
  }

  /** No stored claim answers the challenge that is still pending. */
  predicate Together(answers: (string, string) -> bool, s: MerchantSnapshot)
  {
    s.outstanding.Some? ==> !answers(s.claims, s.outstanding.value)
  }

  /** The mutation, applied to this snapshot, keeps claim and challenge together. */
  predicate KeepsTogether(answers: (string, string) -> bool, mutate: Mutation, s: MerchantSnapshot)
  {
    Together(answers, s) && mutate(s).Some? ==> Together(answers, Decode(Encode(mutate(s).value)))
  }

  /** So does the call, at the snapshot that is durable when it runs. */
  predicate KeepsAt(answers: (string, string) -> bool, legacy: Legacy, call: Queued, before: seq<Values>)
    requires AllSane(before)
  {
    var base := Opened(legacy, before);
    OpenedSane(legacy, before);
    call.Update? && base != [] ==> KeepsTogether(answers, call.mutate, Decode(base[|base| - 1]))
  }

  ghost predicate KeepsAll(answers: (string, string) -> bool, legacy: Legacy, calls: seq<Queued>, logs: seq<seq<Values>>)
    requires |logs| == |calls| + 1
  {
    forall i :: 0 <= i < |calls| ==> AllSane(logs[i]) && KeepsAt(answers, legacy, calls[i], logs[i])
  }

  predicate AllTogether(answers: (string, string) -> bool, log: seq<Values>)
  {
    forall i :: 0 <= i < |log| ==> Sane(log[i]) && Together(answers, Decode(log[i]))
  }

  /** What each of the app's mutations takes at the snapshot it is applied to: a new challenge must not
      be answered by the claims stored at that moment, receiving a claim takes nothing, and a change of
      claims must not answer the challenge that is pending. */
  lemma AppKeepsTogether(answers: (string, string) -> bool, challenge: string, store: string -> string, change: string -> string,
                         s: MerchantSnapshot)
    requires Together(answers, s) && challenge != "null" && s.outstanding != Some("null")
    ensures KeepsTogether(answers, Request(challenge), s) <==> !answers(s.claims, challenge)
    ensures KeepsTogether(answers, Receive(store), s)
    ensures KeepsTogether(answers, Revise(change), s)
       <==> (s.outstanding.Some? ==> !answers(change(s.claims), s.outstanding.value))
  {
    var request, revise := Request(challenge)(s).value, Revise(change)(s).value;
    SnapshotRoundTrip(request, Encode(request));
    SnapshotRoundTrip(revise, Encode(revise));
    if s.outstanding.Some? {
      var receive := Receive(store)(s).value;
      SnapshotRoundTrip(receive, Encode(receive));
    }
    hide Encode, Decode;
  }

  /** An update the app queues, and the snapshot it meets. */
  ghost predicate AppUpdate(answers: (string, string) -> bool, mutate: Mutation, s: MerchantSnapshot)
  {
    || (exists challenge :: mutate == Request(challenge) && challenge != "null" && !answers(s.claims, challenge))
    || (exists store :: mutate == Receive(store))
    || (exists change :: mutate == Revise(change) && (s.outstanding.Some? ==> !answers(change(s.claims), s.outstanding.value)))
  }

  /** An update is one of the app's, and a challenge it pends is one no claim stored by then answers. */
  ghost predicate AppAt(answers: (string, string) -> bool, legacy: Legacy, call: Queued, before: seq<Values>)
    requires AllSane(before)
  {
    var base := Opened(legacy, before);
    OpenedSane(legacy, before);
    call.Update? && base != [] ==> AppUpdate(answers, call.mutate, Decode(base[|base| - 1]))
  }

  ghost predicate AppQueue(answers: (string, string) -> bool, legacy: Legacy, calls: seq<Queued>, logs: seq<seq<Values>>)
    requires |logs| == |calls| + 1
  {
    forall i :: 0 <= i < |calls| ==> AllSane(logs[i]) && AppAt(answers, legacy, calls[i], logs[i])
  }

  lemma AppKeepsAll(answers: (string, string) -> bool, legacy: Legacy, calls: seq<Queued>, logs: seq<seq<Values>>)
    requires |logs| == |calls| + 1 && AppQueue(answers, legacy, calls, logs)
    ensures KeepsAll(answers, legacy, calls, logs)
  {
    hide AllSane, AppAt, KeepsAt;
    forall i | 0 <= i < |calls| ensures AllSane(logs[i]) && KeepsAt(answers, legacy, calls[i], logs[i]) {
      AppKeepsAt(answers, legacy, calls[i], logs[i]);
    }
  }

  lemma AppKeepsAt(answers: (string, string) -> bool, legacy: Legacy, call: Queued, before: seq<Values>)
    requires AllSane(before) && AppAt(answers, legacy, call, before)
    ensures KeepsAt(answers, legacy, call, before)
  {
    var base := Opened(legacy, before);
    OpenedSane(legacy, before);
    hide Opened, AppUpdate, KeepsTogether, Decode;
    if call.Update? && base != [] {
      assert Sane(base[|base| - 1]);
      UpdateKeeps(answers, call.mutate, base[|base| - 1]);
    }
  }

  lemma UpdateKeeps(answers: (string, string) -> bool, mutate: Mutation, v: Values)
    requires Sane(v) && AppUpdate(answers, mutate, Decode(v))
    ensures KeepsTogether(answers, mutate, Decode(v))
  {
    var s := Decode(v);
    if Together(answers, s) {
      if store :| mutate == Receive(store) {
        AppKeepsTogether(answers, "", store, store, s);
      } else if challenge :| mutate == Request(challenge) && challenge != "null" && !answers(s.claims, challenge) {
        AppKeepsTogether(answers, challenge, c => c, c => c, s);
      } else {
        var change :| mutate == Revise(change) && (s.outstanding.Some? ==> !answers(change(s.claims), s.outstanding.value));
        AppKeepsTogether(answers, "", change, change, s);
      }
    }
  }

  /** Whatever the calls, failures and deaths: no snapshot that was ever durable, and so none that
      is ever loaded, has a claim stored while the challenge it answers is still pending. */
  lemma {:induction false} NeverSeparated(answers: (string, string) -> bool, legacy: Legacy, calls: seq<Queued>, seen: seq<Loaded>,
                                          logs: seq<seq<Values>>)
    requires Queue(legacy, calls, seen, logs) && AllTogether(answers, logs[0]) && KeepsAll(answers, legacy, calls, logs)
    requires legacy.secret.Some? ==> Together(answers, Decode(Encode(Migrated(legacy))))
    ensures forall i :: 0 <= i <= |calls| ==> AllTogether(answers, logs[i])
    ensures forall i :: 0 <= i < |calls| && seen[i].Present? && !calls[i].Update? ==> Together(answers, seen[i].snapshot)
    decreases |calls|
  {
    if calls != [] {
      var n := |calls| - 1;
      LastCall(legacy, calls, seen, logs);
      NeverSeparated(answers, legacy, calls[..n], seen[..n], logs[..n + 1]);
      assert logs[..n + 1][n] == logs[n];
      CallKeepsTogether(answers, legacy, calls[n], seen[n], logs[n], logs[n + 1]);
      hide *;
      forall i | 0 <= i <= |calls| ensures AllTogether(answers, logs[i]) {
        if i <= n { assert logs[..n + 1][i] == logs[i]; }
      }
      forall i | 0 <= i < |calls| && seen[i].Present? && !calls[i].Update? ensures Together(answers, seen[i].snapshot) {
        if i < n { assert seen[..n][i] == seen[i] && calls[..n][i] == calls[i]; }
      }
    }
  }

  lemma CallKeepsTogether(answers: (string, string) -> bool, legacy: Legacy, call: Queued, seen: Loaded,
                          before: seq<Values>, after: seq<Values>)
    requires Serialized(legacy, call, seen, before, after) && AllTogether(answers, before)
    requires AllSane(before) && KeepsAt(answers, legacy, call, before)
    requires legacy.secret.Some? ==> Together(answers, Decode(Encode(Migrated(legacy))))
    ensures AllTogether(answers, after)
    ensures seen.Present? && !call.Update? ==> Together(answers, seen.snapshot)
  {
    hide *;
    Outcomes(legacy, call, seen, before, after);
    FirstTogether(answers, legacy, call, seen, before, after);
    if seen.Present? && !call.Update? { Told(legacy, call, seen, before, after); }
    OpenedTogether(answers, legacy, before);
    UpdateTogether(answers, legacy, call, before);
    if Wrote(legacy, call, before, after) {
      var base := Opened(legacy, before);
      SteppedSane(after, |base|);
      SaneKeys(base[|base| - 1]);
      AppendTogether(answers, base, Stepped(call.mutate, base[|base| - 1]), after);
    } else if before == [] && after != [] {
      AppendTogether(answers, before, after[0], after);
    }
    if seen.Present? && !call.Update? { LastTogether(answers, after); }
  }

  lemma SaneKeys(v: Values)
    requires Sane(v)
    ensures v.Keys == NameSet(COMPONENTS)
  {
  }

  lemma AppendTogether(answers: (string, string) -> bool, log: seq<Values>, v: Values, after: seq<Values>)
    requires AllTogether(answers, log) && after == log + [v] && Sane(after[|log|]) && Together(answers, Decode(v))
    ensures AllTogether(answers, after)
  {
    hide Sane, Together, Decode;
  }

  lemma LastTogether(answers: (string, string) -> bool, log: seq<Values>)
    requires AllTogether(answers, log) && log != []
    ensures Sane(log[|log| - 1]) && Together(answers, Decode(log[|log| - 1]))
  {
  }

  lemma UpdateTogether(answers: (string, string) -> bool, legacy: Legacy, call: Queued, before: seq<Values>)
    requires AllSane(before) && KeepsAt(answers, legacy, call, before) && AllTogether(answers, Opened(legacy, before))
    ensures var base := Opened(legacy, before);
      call.Update? && base != [] ==>
        Sane(base[|base| - 1]) && Together(answers, Decode(Stepped(call.mutate, base[|base| - 1])))
  {
    var base := Opened(legacy, before);
    hide Opened, KeepsTogether, Together, Decode, Stepped;
    if call.Update? && base != [] {
      LastTogether(answers, base);
      SteppedTogether(answers, call.mutate, base[|base| - 1]);
    }
  }

  lemma Told(legacy: Legacy, call: Queued, seen: Loaded, before: seq<Values>, after: seq<Values>)
    requires Serialized(legacy, call, seen, before, after) && seen.Present? && !call.Update?
    ensures after != [] && Sane(after[|after| - 1]) && seen.snapshot == Decode(after[|after| - 1])
  {
    hide Encode, Decode, Refuses;
  }

  lemma OpenedTogether(answers: (string, string) -> bool, legacy: Legacy, before: seq<Values>)
    requires AllTogether(answers, before)
    requires legacy.secret.Some? ==> Together(answers, Decode(Encode(Migrated(legacy))))
    ensures AllTogether(answers, Opened(legacy, before))
  {
    assert AllSane(before);
    OpenedSane(legacy, before);
    hide Together, Encode, Decode, Migrated, Sane;
  }

  lemma SteppedTogether(answers: (string, string) -> bool, mutate: Mutation, v: Values)
    requires Sane(v) && Together(answers, Decode(v)) && KeepsTogether(answers, mutate, Decode(v))
    ensures Together(answers, Decode(Stepped(mutate, v)))
  {
    hide Together, Encode, Decode;
  }

  /** The first snapshot ever written is the migrated one or has no challenge. */
  lemma FirstTogether(answers: (string, string) -> bool, legacy: Legacy, call: Queued, seen: Loaded,
                      before: seq<Values>, after: seq<Values>)
    requires Serialized(legacy, call, seen, before, after)
    requires legacy.secret.Some? ==> Together(answers, Decode(Encode(Migrated(legacy))))
    ensures before == [] && |after| == 1 ==> Together(answers, Decode(after[0]))
  {
    if call.Initialize? { assert Together(answers, Decode(Encode(Fresh(call.secret)))); }
    hide Encode, Decode, Migrated, Refuses, Stepped, Together;
  }

  // ----- A cleared challenge leaves its claim -----

  /** An update the app queues: a receipt stores an answer to the challenge it finds pending. */
  ghost predicate AppMove(answers: (string, string) -> bool, mutate: Mutation, s: MerchantSnapshot)
  {
    || (exists challenge :: mutate == Request(challenge) && challenge != "null")
    || (exists store :: mutate == Receive(store) && (s.outstanding.Some? ==> answers(store(s.claims), s.outstanding.value)))
    || (exists change :: mutate == Revise(change))
  }

  ghost predicate MovesAt(answers: (string, string) -> bool, legacy: Legacy, call: Queued, before: seq<Values>)
    requires AllSane(before)
  {
    var base := Opened(legacy, before);
    OpenedSane(legacy, before);
    call.Update? && base != [] ==> AppMove(answers, call.mutate, Decode(base[|base| - 1]))
  }

  ghost predicate AppMoves(answers: (string, string) -> bool, legacy: Legacy, calls: seq<Queued>, logs: seq<seq<Values>>)
    requires |logs| == |calls| + 1
  {
    forall i :: 0 <= i < |calls| ==> AllSane(logs[i]) && MovesAt(answers, legacy, calls[i], logs[i])
  }

  /** One durable snapshot and the next: the secret stays; a challenge that is gone left a claim that
      answers it; and a new challenge leaves the claims alone. */
  predicate Succeeds(answers: (string, string) -> bool, s: MerchantSnapshot, t: MerchantSnapshot)
  {
    && t.secret == s.secret
    && (s.outstanding.Some? && t.outstanding.None? ==> answers(t.claims, s.outstanding.value))
    && (t.outstanding.Some? && t.outstanding != s.outstanding ==> t.claims == s.claims)
  }

  lemma MoveSucceeds(answers: (string, string) -> bool, mutate: Mutation, v: Values)
    requires Sane(v) && AppMove(answers, mutate, Decode(v))
    ensures Succeeds(answers, Decode(v), Decode(Stepped(mutate, v)))
  {
    var s := Decode(v);
    assert s.outstanding != Some("null");
    if challenge :| mutate == Request(challenge) && challenge != "null" {
      SnapshotRoundTrip(s.(outstanding := Some(challenge)), v);
    } else if store :| mutate == Receive(store) && (s.outstanding.Some? ==> answers(store(s.claims), s.outstanding.value)) {
      SnapshotRoundTrip(s.(claims := store(s.claims), outstanding := None), v);
    } else {
      var change :| mutate == Revise(change);
      SnapshotRoundTrip(s.(claims := change(s.claims)), v);
    }
    hide Encode, Decode;
  }

  lemma NewEntry(answers: (string, string) -> bool, legacy: Legacy, call: Queued, seen: Loaded, before: seq<Values>,
                 after: seq<Values>, j: nat)
    requires Serialized(legacy, call, seen, before, after) && MovesAt(answers, legacy, call, before)
    requires |before| <= j + 1 < |after|
    ensures Sane(after[j]) && Sane(after[j + 1]) && Succeeds(answers, Decode(after[j]), Decode(after[j + 1]))
  {
    var base := Opened(legacy, before);
    Outcomes(legacy, call, seen, before, after);
    MoveAt(answers, legacy, call, before);
    hide *;
    assert call.Update? && after == base + [Stepped(call.mutate, base[|base| - 1])] && |base| == j + 1 by {
      WrittenAt(legacy, call, before, after, j);
    }
    MoveSucceeds(answers, call.mutate, base[|base| - 1]);
    SteppedSane(after, j + 1);
  }

  lemma MoveAt(answers: (string, string) -> bool, legacy: Legacy, call: Queued, before: seq<Values>)
    requires AllSane(before) && MovesAt(answers, legacy, call, before)
    ensures var base := Opened(legacy, before);
      call.Update? && base != [] ==> Sane(base[|base| - 1]) && AppMove(answers, call.mutate, Decode(base[|base| - 1]))
  {
    OpenedSane(legacy, before);
    hide Opened, AppMove, Decode, Sane;
  }

  lemma WrittenAt(legacy: Legacy, call: Queued, before: seq<Values>, after: seq<Values>, j: nat)
    requires |before| <= j + 1 < |after|
    requires if Wrote(legacy, call, before, after) then
               call.Update? && |after| == |Opened(legacy, before)| + 1 && |Opened(legacy, before)| <= |before| + (if before == [] then 1 else 0)
             else after == before || |after| == 1
    ensures Wrote(legacy, call, before, after) && |Opened(legacy, before)| == j + 1
  {
    hide Opened;
  }

  lemma SteppedSane(log: seq<Values>, k: nat)
    requires AllSane(log) && k < |log|
    ensures Sane(log[k])
  {
    hide Sane;
  }

  lemma LogGrows(legacy: Legacy, call: Queued, seen: Loaded, before: seq<Values>, after: seq<Values>)
    requires Serialized(legacy, call, seen, before, after)
    ensures before <= after
  {
    Outcomes(legacy, call, seen, before, after);
    hide Serialized, Stepped, Sane, Encode, Refuses;
  }

  /** Whatever the calls, failures and deaths: between two durable snapshots that follow one another the
      device secret stays, no challenge is cleared without a stored claim that answers it, and no new
      challenge touches the claims. */
  lemma {:induction false} ClearedMeansStored(answers: (string, string) -> bool, legacy: Legacy, calls: seq<Queued>, seen: seq<Loaded>,
                                              logs: seq<seq<Values>>, j: nat)
    requires Queue(legacy, calls, seen, logs) && AppMoves(answers, legacy, calls, logs)
    requires |logs[0]| <= j + 1 < |logs[|calls|]|
    ensures Sane(logs[|calls|][j]) && Sane(logs[|calls|][j + 1])
    ensures var s, t := Decode(logs[|calls|][j]), Decode(logs[|calls|][j + 1]);
      && t.secret == s.secret
      && (s.outstanding.Some? && t.outstanding.None? ==> answers(t.claims, s.outstanding.value))
      && (t.outstanding.Some? && t.outstanding != s.outstanding ==> t.claims == s.claims)
    decreases |calls|
  {
    var n := |calls| - 1;
    assert calls != [];
    LastCall(legacy, calls, seen, logs);
    LogGrows(legacy, calls[n], seen[n], logs[n], logs[n + 1]);
    assert AllSane(logs[n]) && MovesAt(answers, legacy, calls[n], logs[n]);
    assert AppMoves(answers, legacy, calls[..n], logs[..n + 1]) by { hide MovesAt, AllSane, Serialized; }
    hide Queue, AppMoves, MovesAt, Serialized, Sane, Decode, AllSane;
    if j + 1 < |logs[n]| {
      ClearedMeansStored(answers, legacy, calls[..n], seen[..n], logs[..n + 1], j);
    } else {
      NewEntry(answers, legacy, calls[n], seen[n], logs[n], logs[n + 1], j);
    }
  }

  // ----- The first snapshot -----

  lemma FirstEntry(legacy: Legacy, call: Queued, seen: Loaded, after: seq<Values>)
    requires Serialized(legacy, call, seen, [], after) && after != [] && legacy.outstanding != Some("null")
    ensures Sane(after[0])
    ensures var t := Decode(after[0]);
      if legacy.secret.Some? then
        && t.secret == legacy.secret.value && t.outstanding == legacy.outstanding
        && t.claims == if legacy.claims.Some? then legacy.claims.value else "[]"
      else call.Initialize? && t == MerchantSnapshot(call.secret, "[]", None)
  {
    if legacy.secret.Some? { SnapshotRoundTrip(Migrated(legacy), after[0]); }
    if call.Initialize? { SnapshotRoundTrip(Fresh(call.secret), after[0]); }
    hide Encode, Decode, ValidSecret;
  }

  /** The first snapshot a store ever holds is the legacy state, part by part, where there is one, and
      otherwise an empty one with the secret that initialize was given. */
  lemma {:induction false} FirstSnapshot(legacy: Legacy, calls: seq<Queued>, seen: seq<Loaded>, logs: seq<seq<Values>>)
    requires Queue(legacy, calls, seen, logs) && logs[0] == [] && logs[|calls|] != [] && legacy.outstanding != Some("null")
    ensures Sane(logs[|calls|][0])
    ensures var t := Decode(logs[|calls|][0]);
      if legacy.secret.Some? then
        && t.secret == legacy.secret.value && t.outstanding == legacy.outstanding
        && t.claims == if legacy.claims.Some? then legacy.claims.value else "[]"
      else exists i :: 0 <= i < |calls| && calls[i].Initialize? && t == MerchantSnapshot(calls[i].secret, "[]", None)
    decreases |calls|
  {
    var n := |calls| - 1;
    assert calls != [];
    LastCall(legacy, calls, seen, logs);
    LogGrows(legacy, calls[n], seen[n], logs[n], logs[n + 1]);
    hide Queue, Serialized, Sane, Decode;
    if logs[n] == [] {
      FirstEntry(legacy, calls[n], seen[n], logs[n + 1]);
    } else {
      FirstSnapshot(legacy, calls[..n], seen[..n], logs[..n + 1]);
      assert forall i :: 0 <= i < n ==> calls[..n][i] == calls[i];
    }
  }
}
