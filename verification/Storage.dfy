/** The crash-consistent store of the mobile apps (packages/mobile-storage): a write-ahead protocol
    over single-key storage operations, each of which may complete, fail with or without having taken
    effect, or be the last thing the process does. */
module Storage {
  import opened Collections

  type Values = map<string, string>

  datatype Phase = Prepared | Committed

  /** Components are described by their SHA-256 digests; a digest is represented by the payload it
      commits to, so equal digests mean equal payloads. */
  datatype Manifest = Manifest(generation: nat, phase: Phase, digests: Values)

  datatype Journal = Journal(current: Option<nat>, pending: Option<nat>)

  /** What a key holds: a well-formed record or text that does not parse. */
  datatype Stored<+T> = Record(value: T) | Garbled

  datatype File = File(generation: nat, name: string)

  datatype Envelope = Envelope(generation: nat, name: string, payload: string)

  datatype Disk = Disk(committed: Option<Stored<Manifest>>, prepared: Option<Stored<Manifest>>,
                       journal: Option<Stored<Journal>>, files: map<File, Envelope>)

  /** A write or removal under one key. */
  datatype Operation =
    | SetPrepared(manifest: Manifest) | SetCommitted(manifest: Manifest) | SetJournal(journal: Journal)
    | SetFile(envelope: Envelope) | RemovePrepared | RemoveJournal

  function Apply(d: Disk, op: Operation): Disk
  {
    match op
    case SetPrepared(m) => d.(prepared := Some(Record(m)))
    case SetCommitted(m) => d.(committed := Some(Record(m)))
    case SetJournal(j) => d.(journal := Some(Record(j)))
    case SetFile(e) => d.(files := d.files[File(e.generation, e.name) := e])
    case RemovePrepared => d.(prepared := None)
    case RemoveJournal => d.(journal := None)
  }

  /** What becomes of a storage operation. */
  datatype Fate = Done | Throws(applied: bool) | Dies(applied: bool)

  /** The process can only die: no operation fails and lets it carry on. */
  predicate CrashOnly(fates: seq<Fate>) { forall i :: 0 <= i < |fates| ==> !fates[i].Throws? }

  /** How many of the operations to come are the last thing a process does. */
  function Deaths(fates: seq<Fate>): nat
  {
    if fates == [] then 0 else (if fates[0].Dies? then 1 else 0) + Deaths(fates[1..])
  }

  datatype Recovery = Clean | RolledBackPrepared | CompletedCommit | DiscardedInvalidPrepared

  datatype LoadResult =
    | Empty(recovery: Recovery, cleanupPending: bool)
    | Snapshot(generation: nat, values: Values, recovery: Recovery, cleanupPending: bool)
    | Corrupt
    | Rejected

  datatype CommitResult = Saved(generation: nat, cleanupPending: bool) | Failed

  // ----- The process and its operations -----

  /** The disk, the fates of the operations still to come, and whether the process has died. */
  datatype Machine = Machine(disk: Disk, fates: seq<Fate>, dead: bool)

  function NextFate(fates: seq<Fate>): Fate { if fates == [] then Done else fates[0] }

  function LaterFates(fates: seq<Fate>): seq<Fate> { if fates == [] then [] else fates[1..] }

  function Act(m: Machine, op: Operation): Machine
  {
    var fate := NextFate(m.fates);
    Machine(if fate.Done? || fate.applied then Apply(m.disk, op) else m.disk, LaterFates(m.fates), fate.Dies?)
  }

  function ActRead(m: Machine): Machine { m.(fates := LaterFates(m.fates), dead := NextFate(m.fates).Dies?) }

  /** Operations whose failures are swallowed. */
  function BestEffort(m: Machine, ops: seq<Operation>): Machine
    decreases |ops|
  {
    if ops == [] || m.dead then m else BestEffort(Act(m, ops[0]), ops[1..])
  }

  /** Operations of which the first failure ends the sequence. */
  function Strict(m: Machine, ops: seq<Operation>): Machine
    decreases |ops|
  {
    if ops == [] then m
    else if NextFate(m.fates).Done? then Strict(Act(m, ops[0]), ops[1..])
    else Act(m, ops[0])
  }

  /** While the operations succeed, what is left to do shrinks from the front. */
  lemma StrictStep(m: Machine, ops: seq<Operation>, k: nat)
    requires k < |ops|
    ensures NextFate(m.fates).Done? ==> Strict(m, ops[k..]) == Strict(Act(m, ops[k]), ops[k + 1..])
    ensures !NextFate(m.fates).Done? ==> Strict(m, ops[k..]) == Act(m, ops[k])
    ensures AllDone(m.fates, |ops| - k) <==> NextFate(m.fates).Done? && AllDone(LaterFates(m.fates), |ops| - k - 1)
    ensures k + 1 == |ops| ==> Strict(Act(m, ops[k]), ops[k + 1..]) == Act(m, ops[k]) && AllDone(LaterFates(m.fates), 0)
  {
    assert ops[k..][1..] == ops[k + 1..];
    if NextFate(m.fates).Done? && AllDone(LaterFates(m.fates), |ops| - k - 1) {
      forall i | 0 <= i < |ops| - k && i < |m.fates| ensures m.fates[i].Done? {
        assert 0 < i ==> m.fates[i] == LaterFates(m.fates)[i - 1];
      }
    }
  }

  predicate AllDone(fates: seq<Fate>, n: nat) { forall i :: 0 <= i < n && i < |fates| ==> fates[i].Done? }

  /** What rolls back an interrupted first commit. */
  function RollbackOps(d: Disk): seq<Operation>
  {
    (if d.journal.Some? then [RemoveJournal] else []) + (if d.prepared.Some? then [RemovePrepared] else [])
  }

  /** The writes of a commit up to its committed pointer. */
  function CommitOps(names: seq<string>, values: Values, g: nat, current: Option<nat>): seq<Operation>
    requires NameSet(names) == values.Keys
  {
    [SetPrepared(Manifest(g, Prepared, values)), SetJournal(Journal(current, Some(g)))]
    + FileOps(names, values, g) + [SetCommitted(Manifest(g, Committed, values))]
  }

  function FileOps(names: seq<string>, values: Values, g: nat): seq<Operation>
    requires NameSet(names) <= values.Keys
  {
    seq(|names|, i requires 0 <= i < |names| => assert names[i] in NameSet(names); SetFile(Envelope(g, names[i], values[names[i]])))
  }

  /** load before the first commit. */
  function LoadFirst(m: Machine): Machine
  {
    if !NextFate(m.fates).Done? || Diverges(m.disk) then ActRead(m) else BestEffort(ActRead(m), RollbackOps(m.disk))
  }

  /** The first commit, under generation g. */
  function CommitFirst(names: seq<string>, m: Machine, values: Values, g: nat): Machine
    requires NameSet(names) == values.Keys
  {
    var n := LoadFirst(m);
    if n.dead || !NextFate(m.fates).Done? || Diverges(m.disk) then n
    else
      var ops := CommitOps(names, values, g, None);
      var s := Strict(n, ops);
      if AllDone(n.fates, |ops|) then BestEffort(s, [SetJournal(Journal(Some(g), None)), RemovePrepared]) else s
  }

  // ----- What the disk must hold -----

  function NameSet(names: seq<string>): set<string> { set n | n in names }

  predicate ManifestOk(names: seq<string>, raw: Stored<Manifest>, phase: Phase)
  {
    raw.Record? && raw.value.phase == phase && raw.value.digests.Keys == NameSet(names)
  }

  function PendingOf(d: Disk): Option<nat>
  {
    if d.journal.Some? && d.journal.value.Record? then d.journal.value.value.pending else None
  }

  function CurrentOf(d: Disk): Option<nat>
  {
    if d.journal.Some? && d.journal.value.Record? then d.journal.value.value.current else None
  }

  predicate JournalOk(d: Disk)
  {
    d.journal.Some? ==> d.journal.value.Record? && (CurrentOf(d).Some? ==> CurrentOf(d) != PendingOf(d))
  }

  /** Every component of a manifest is on disk, from its own generation. */
  predicate Complete(names: seq<string>, files: map<File, Envelope>, m: Manifest)
  {
    && m.digests.Keys == NameSet(names)
    && forall n :: n in names ==>
         File(m.generation, n) in files && files[File(m.generation, n)] == Envelope(m.generation, n, m.digests[n])
  }

  /** What every state on disk satisfies whatever the operations did. */
  predicate DiskOk(names: seq<string>, d: Disk)
  {
    && JournalOk(d) && (d.prepared.Some? ==> ManifestOk(names, d.prepared.value, Prepared))
    && (d.committed.None? ==> CurrentOf(d).None?)
    && (d.committed.Some? ==>
          && ManifestOk(names, d.committed.value, Committed) && Complete(names, d.files, d.committed.value.value)
          && d.journal.Some?
          && (CurrentOf(d) == Some(d.committed.value.value.generation) || PendingOf(d) == Some(d.committed.value.value.generation)))
  }

  /** Before the first commit: a prepared manifest of another generation than the journal's. */
  predicate Diverges(d: Disk)
  {
    && d.committed.None? && d.prepared.Some? && d.prepared.value.Record? && PendingOf(d).Some?
    && d.prepared.value.value.generation != PendingOf(d).value
  }

  /** Nothing left over from an interrupted commit. */
  predicate Tidy(d: Disk)
  {
    && d.prepared.None? && PendingOf(d).None? && (d.committed.None? ==> d.journal.None?)
  }

  /** What is left over belongs to the committed generation: its commit was cut off after the pointer. */
  predicate Finishes(d: Disk, g: nat)
  {
    PendingOf(d) == Some(g)
    || (PendingOf(d).None? && d.prepared.Some? && d.prepared.value.Record? && d.prepared.value.value.generation == g)
  }

  /** The last committed values, read off the committed manifest. */
  function Durable(d: Disk): Option<Values>
  {
    if d.committed.Some? && d.committed.value.Record? then Some(d.committed.value.value.digests) else None
  }

  // ----- What each write of a commit keeps -----

  /** A commit under way: the generation is not the committed one, and the journal may name it. */
  predicate Underway(names: seq<string>, d: Disk, values: Values, g: nat, current: Option<nat>)
  {
    && DiskOk(names, d) && values.Keys == NameSet(names) && current != Some(g)
    && if d.committed.Some? then d.committed.value.Record? && current == Some(d.committed.value.value.generation)
       else current.None?
  }

  predicate Announced(d: Disk, values: Values, g: nat, current: Option<nat>)
  {
    PendingOf(d) == Some(g) && CurrentOf(d) == current && d.prepared == Some(Record(Manifest(g, Prepared, values)))
  }

  predicate FilesWritten(names: seq<string>, files: map<File, Envelope>, values: Values, g: nat, n: nat)
    requires n <= |names| && NameSet(names) <= values.Keys
  {
    forall j :: 0 <= j < n ==>
      names[j] in NameSet(names) && File(g, names[j]) in files && files[File(g, names[j])] == Envelope(g, names[j], values[names[j]])
  }

  lemma AnnounceKeeps(names: seq<string>, d: Disk, values: Values, g: nat, current: Option<nat>)
    requires Underway(names, d, values, g, current)
    ensures var x := Apply(d, SetPrepared(Manifest(g, Prepared, values)));
      && Underway(names, x, values, g, current) && x.files == d.files && x.committed == d.committed && x.journal == d.journal
      && (var y := Apply(x, SetJournal(Journal(current, Some(g))));
          Underway(names, y, values, g, current) && Announced(y, values, g, current) && y.files == d.files
          && y.committed == d.committed)
  {
    hide Complete;
  }

  lemma FileKeeps(names: seq<string>, d: Disk, values: Values, g: nat, current: Option<nat>, i: nat)
    requires Underway(names, d, values, g, current) && Announced(d, values, g, current) && i < |names|
    requires FilesWritten(names, d.files, values, g, i)
    ensures names[i] in values
    ensures var x := Apply(d, SetFile(Envelope(g, names[i], values[names[i]])));
      && Underway(names, x, values, g, current) && Announced(x, values, g, current) && x.committed == d.committed
      && FilesWritten(names, x.files, values, g, i + 1)
  {
    assert names[i] in NameSet(names);
  }

  /** The committed pointer and the components it names are untouched. */
  predicate Untouched(names: seq<string>, before: Disk, now: Disk)
  {
    && now.committed == before.committed
    && (before.committed.Some? && before.committed.value.Record? ==> Complete(names, now.files, before.committed.value.value))
  }

  /** A generation's files never overlap another generation's. */
  lemma OtherGeneration(names: seq<string>, before: Disk, d: Disk, values: Values, g: nat, current: Option<nat>, e: Envelope)
    requires Untouched(names, before, d) && Underway(names, d, values, g, current) && e.generation == g
    ensures Untouched(names, before, Apply(d, SetFile(e)))
  {
  }

  lemma CommitKeeps(names: seq<string>, d: Disk, values: Values, g: nat, current: Option<nat>)
    requires Underway(names, d, values, g, current) && Announced(d, values, g, current)
    requires FilesWritten(names, d.files, values, g, |names|)
    ensures DiskOk(names, Apply(d, SetCommitted(Manifest(g, Committed, values))))
  {
    forall n | n in names ensures File(g, n) in d.files && d.files[File(g, n)] == Envelope(g, n, values[n]) {
      var i :| 0 <= i < |names| && names[i] == n;
    }
  }

  /** Nothing an interrupted commit has written, or refused to write, disturbs what is durable. */
  lemma UnderwayKeeps(names: seq<string>, before: Disk, d: Disk, values: Values, g: nat, current: Option<nat>)
    requires Underway(names, d, values, g, current) && Untouched(names, before, d)
    ensures DiskOk(names, d) && Durable(d) == Durable(before)
    ensures Announced(d, values, g, current) ==> !Diverges(d)
  {
    hide Complete;
  }

  lemma UnderwayFacts(names: seq<string>, d: Disk, values: Values, g: nat, current: Option<nat>)
    requires Underway(names, d, values, g, current)
    ensures values.Keys == NameSet(names) && Untouched(names, d, d) && FilesWritten(names, d.files, values, g, 0)
  {
  }

  lemma OpAt(names: seq<string>, values: Values, g: nat, current: Option<nat>)
    requires NameSet(names) == values.Keys
    ensures var ops := CommitOps(names, values, g, current);
      && |ops| == |names| + 3 && ops[0] == SetPrepared(Manifest(g, Prepared, values))
      && ops[1] == SetJournal(Journal(current, Some(g))) && ops[|names| + 2] == SetCommitted(Manifest(g, Committed, values))
      && forall i :: 0 <= i < |names| ==> names[i] in NameSet(names) && ops[i + 2] == SetFile(Envelope(g, names[i], values[names[i]]))
  {
  }

  ghost function LastOf(log: seq<Values>): Option<Values>
  {
    if log == [] then None else Some(log[|log| - 1])
  }

  class Device {
    const names: seq<string>
    var disk: Disk
    var fates: seq<Fate>
    var dead: bool
    /** Every snapshot whose committed pointer has been written, oldest first. */
    ghost var log: seq<Values>

    ghost predicate Valid()
      reads this
    {
      && DiskOk(names, disk)
      && Durable(disk) == LastOf(log)
    }

    constructor (names: seq<string>, fates: seq<Fate>)
      ensures Valid() && !dead && log == [] && this.names == names && this.fates == fates
      ensures disk == Disk(None, None, None, map[])
    {
      this.names, this.fates, dead := names, fates, false;
      disk := Disk(None, None, None, map[]);
      log := [];
    }

    ghost function State(): Machine
      reads this
    {
      Machine(disk, fates, dead)
    }

    /** The deaths still to come, counting the one the process has just died. No operation changes it. */
    ghost function DeathsLeft(): nat
      reads this
    {
      Deaths(fates) + if dead then 1 else 0
    }

    /** One storage operation and its fate. */
    method Perform(op: Operation) returns (ok: bool, ghost applied: bool)
      requires !dead
      modifies this
      ensures State() == Act(old(State()), op) && ok == NextFate(old(fates)).Done? && fates == LaterFates(old(fates))
      ensures disk == if applied then Apply(old(disk), op) else old(disk)
      ensures log == if applied && op.SetCommitted? then old(log) + [op.manifest.digests] else old(log)
      ensures ok ==> applied && !dead
      ensures CrashOnly(old(fates)) ==> CrashOnly(fates) && (ok || dead)
      ensures DeathsLeft() == old(DeathsLeft())
    {
      var fate := NextFate(fates);
      fates := LaterFates(fates);
      applied := fate.Done? || fate.applied;
      ok := fate.Done?;
      if fate.Done? || fate.applied {
        disk := Apply(disk, op);
        if op.SetCommitted? { log := log + [op.manifest.digests]; }
      }
      dead := fate.Dies?;
    }

    /** One storage read. */
    method Read() returns (ok: bool)
      requires !dead
      modifies this`fates, this`dead
      ensures State() == ActRead(old(State())) && ok == NextFate(old(fates)).Done?
      ensures ok ==> !dead
      ensures CrashOnly(old(fates)) ==> CrashOnly(fates) && (ok || dead)
      ensures DeathsLeft() == old(DeathsLeft())
    {
      var fate := NextFate(fates);
      fates := LaterFates(fates);
      ok, dead := fate.Done?, fate.Dies?;
    }

    /** Reads the components of the committed generation. */
    method ReadComponents(m: Manifest) returns (ok: bool, values: Values, ghost threw: bool)
      requires !dead && Complete(names, disk.files, m)
      modifies this`fates, this`dead
      ensures ok ==> !dead && values == m.digests
      ensures !ok && !dead ==> threw
      ensures CrashOnly(old(fates)) ==> CrashOnly(fates) && (ok || dead)
      ensures DeathsLeft() == old(DeathsLeft())
    {
      values, threw := map[], false;
      var i := 0;
      while i < |names|
        invariant 0 <= i <= |names| && !dead && DeathsLeft() == old(DeathsLeft())
        invariant values.Keys == NameSet(names[..i]) && forall n :: n in values ==> n in m.digests && values[n] == m.digests[n]
        invariant CrashOnly(old(fates)) ==> CrashOnly(fates)
      {
        var name := names[i];
        ok := Read();
        threw := !ok && !dead;
        if !ok { return; }
        var key := File(m.generation, name);
        if key !in disk.files { return false, values, false; }
        var envelope := disk.files[key];
        if envelope.generation != m.generation || envelope.name != name || envelope.payload != m.digests[name] {
          return false, values, false;
        }
        values := values[name := envelope.payload];
        assert names[..i + 1] == names[..i] + [name];
        i := i + 1;
      }
      assert names[..i] == names;
      ok := true;
    }

    /** load without a committed pointer: whatever was prepared is rolled back. */
    method LoadEmpty() returns (r: LoadResult)
      requires Valid() && !dead && disk.committed.None?
      modifies this
      ensures Valid() && log == old(log) && disk.committed == old(disk).committed && disk.files == old(disk).files
      ensures State() == if Diverges(old(disk)) then old(State()) else BestEffort(old(State()), RollbackOps(old(disk)))
      ensures !dead ==> (r.Corrupt? <==> Diverges(old(disk))) && (r.Corrupt? || r.Empty?)
      ensures dead ==> r.Rejected?
      ensures r.Empty? && !r.cleanupPending ==> Tidy(disk)
      ensures Tidy(old(disk)) ==> disk == old(disk) && r == Empty(Clean, false)
      ensures r.Empty? ==> r.recovery == if Tidy(old(disk)) then Clean else RolledBackPrepared
      ensures r.Corrupt? ==> disk == old(disk)
      ensures CrashOnly(old(fates)) ==> CrashOnly(fates) && (!Diverges(old(disk)) ==> !Diverges(disk))
      ensures CrashOnly(old(fates)) && r.Empty? ==> disk.prepared.None? && disk.journal.None?
      ensures DeathsLeft() == old(DeathsLeft())
    {
      var preparedRaw, journalRaw := disk.prepared, disk.journal;
      if CurrentOf(disk).Some? { return Corrupt; }
      if preparedRaw.None? && journalRaw.None? { return Empty(Clean, false); }
      var recovery := RolledBackPrepared;
      if preparedRaw.Some? {
        if !ManifestOk(names, preparedRaw.value, Prepared) {
          recovery := DiscardedInvalidPrepared;
        } else if PendingOf(disk).Some? && preparedRaw.value.value.generation != PendingOf(disk).value {
          return Corrupt;
        }
      }
      var cleanup := false;
      ghost var ops := RollbackOps(disk);
      assert journalRaw.Some? ==> ops[0] == RemoveJournal && ops[1..] == if preparedRaw.Some? then [RemovePrepared] else [];
      assert journalRaw.None? ==> ops == [RemovePrepared] && ops[1..] == [];
      assert [RemovePrepared][1..] == [];
      if journalRaw.Some? {
        var ok, applied := Perform(RemoveJournal);
        if dead { return Rejected; }
        cleanup := !ok || cleanup;
      }
      if preparedRaw.Some? {
        var ok, applied := Perform(RemovePrepared);
        if dead { return Rejected; }
        cleanup := !ok || cleanup;
      }
      r := Empty(recovery, cleanup);
    }

    /** load behind a committed pointer: the snapshot is read, and an interrupted commit finished or
        rolled back. */
    method LoadCommitted() returns (r: LoadResult, ghost threw: bool)
      requires Valid() && !dead && disk.committed.Some?
      modifies this
      ensures Valid() && log == old(log) && disk.committed == old(disk).committed && disk.files == old(disk).files
      ensures r.Snapshot? ==> !dead && r.values == log[|log| - 1] && r.generation == disk.committed.value.value.generation
      ensures (r.Snapshot? || r.Corrupt? || r.Rejected?) && (r.Corrupt? ==> threw)
      ensures r.Snapshot? && !r.cleanupPending ==> Tidy(disk)
      ensures Tidy(old(disk)) ==> disk == old(disk) && (r.Snapshot? ==> r.recovery == Clean && !r.cleanupPending)
      ensures r.Snapshot? ==>
        && (r.recovery.Clean? <==> Tidy(old(disk))) && !r.recovery.DiscardedInvalidPrepared?
        && (r.recovery.CompletedCommit? <==> Finishes(old(disk), r.generation))
      ensures dead <==> r.Rejected?
      ensures CrashOnly(old(fates)) ==> CrashOnly(fates) && (r.Snapshot? || r.Rejected?)
      ensures DeathsLeft() == old(DeathsLeft())
    {
      threw := false;
      if disk.journal.None? || !ManifestOk(names, disk.committed.value, Committed) { return Corrupt, threw; }
      var committed := disk.committed.value.value;
      var isCurrent, isPendingCommit := CurrentOf(disk) == Some(committed.generation), PendingOf(disk) == Some(committed.generation);
      if !isCurrent && !isPendingCommit { return Corrupt, threw; }
      var ok, values;
      ok, values, threw := ReadComponents(committed);
      if dead { return Rejected, threw; }
      if !ok { return Corrupt, threw; }
      var recovery, cleanup := Recover(committed);
      r := if dead then Rejected else Snapshot(committed.generation, values, recovery, cleanup);
    }

    /** Finishes or rolls back an interrupted commit behind the committed pointer. */
    method Recover(committed: Manifest) returns (recovery: Recovery, cleanup: bool)
      requires Valid() && !dead && disk.committed == Some(Record(committed))
      modifies this
      ensures Valid() && log == old(log) && disk.committed == old(disk).committed && disk.files == old(disk).files
      ensures !dead && !cleanup ==> Tidy(disk)
      ensures Tidy(old(disk)) ==> disk == old(disk) && !cleanup && !dead
      ensures !dead ==>
        && (recovery.Clean? <==> Tidy(old(disk))) && !recovery.DiscardedInvalidPrepared?
        && (recovery.CompletedCommit? <==> Finishes(old(disk), committed.generation))
      ensures CrashOnly(old(fates)) ==> CrashOnly(fates)
      ensures DeathsLeft() == old(DeathsLeft())
    {
      var preparedRaw, pending := disk.prepared, PendingOf(disk);
      recovery, cleanup := Clean, false;
      hide Complete, CrashOnly, Deaths;
      if pending == Some(committed.generation) {
        recovery := CompletedCommit;
        var ok, applied := Perform(SetJournal(Journal(Some(committed.generation), None)));
        if dead { return; }
        cleanup := !ok || cleanup;
      } else if pending.Some? {
        recovery := RolledBackPrepared;
        var ok, applied := Perform(SetJournal(Journal(Some(committed.generation), None)));
        if dead { return; }
        cleanup := !ok || cleanup;
      }
      if preparedRaw.Some? {
        if !ManifestOk(names, preparedRaw.value, Prepared) {
          recovery := DiscardedInvalidPrepared;
        } else if recovery == Clean {
          recovery := if preparedRaw.value.value.generation == committed.generation then CompletedCommit else RolledBackPrepared;
        }
        var ok, applied := Perform(RemovePrepared);
        if dead { return; }
        cleanup := !ok || cleanup;
      }
    }

    /** load. It reports a corrupt store exactly when a prepared manifest diverges from the journal
        before the first commit, or when reading a committed component throws; with nothing worse
        than dying it never does. A snapshot it returns is the last one whose pointer was written. */
    method Load() returns (r: LoadResult, ghost threw: bool)
      requires Valid() && !dead
      modifies this
      ensures Valid() && log == old(log) && disk.committed == old(disk).committed && disk.files == old(disk).files
      ensures (r.Corrupt? ==> Diverges(old(disk)) || threw) && (threw ==> old(disk).committed.Some?)
      ensures Diverges(old(disk)) && NextFate(old(fates)).Done? ==> r.Corrupt?
      ensures r.Snapshot? ==> log != [] && r.values == log[|log| - 1] && disk.committed.Some?
                              && r.generation == disk.committed.value.value.generation
      ensures r.Empty? ==> log == []
      ensures r.Rejected? || !dead
      ensures !r.Rejected? && !r.Corrupt? && !r.cleanupPending ==> Tidy(disk)
      ensures Tidy(old(disk)) ==> disk == old(disk)
      ensures Tidy(old(disk)) && !r.Rejected? && !r.Corrupt? ==> r.recovery == Clean && !r.cleanupPending
      ensures CrashOnly(old(fates)) ==> CrashOnly(fates) && (!Diverges(old(disk)) ==> !Diverges(disk) && !r.Corrupt?)
      ensures CrashOnly(old(fates)) && r.Empty? ==> disk.prepared.None? && disk.journal.None?
      ensures old(disk).committed.None? ==> State() == LoadFirst(old(State()))
      ensures (r.Rejected? && !dead ==> !NextFate(old(fates)).Done?) && (!r.Rejected? ==> NextFate(old(fates)).Done?)
      ensures CrashOnly(old(fates)) && r.Rejected? ==> dead
      ensures DeathsLeft() == old(DeathsLeft())
    {
      threw := false;
      var ok := Read();
      if !ok { return Rejected, threw; }
      if disk.committed.None? {
        r := LoadEmpty();
      } else {
        r, threw := LoadCommitted();
      }
    }

    /** Progress of a commit: so many files written, and what the remaining operations will do. */
    ghost predicate Writing(values: Values, g: nat, current: Option<nat>, before: Disk, start: Machine, i: nat)
      reads this
    {
      && i <= |names| && Underway(names, disk, values, g, current) && Announced(disk, values, g, current)
      && Untouched(names, before, disk) && FilesWritten(names, disk.files, values, g, i)
      && (var ops := CommitOps(names, values, g, current);
          && Strict(start, ops) == Strict(State(), ops[i + 2..])
          && (AllDone(start.fates, |ops|) <==> AllDone(fates, |ops| - (i + 2))))
    }

    /** One component file of a new generation. */
    method WriteFile(values: Values, g: nat, current: Option<nat>, ghost before: Disk, ghost start: Machine, i: nat)
      returns (ok: bool)
      requires !dead && i < |names| && Writing(values, g, current, before, start, i)
      modifies this
      ensures log == old(log) && (ok ==> !dead) && (CrashOnly(old(fates)) ==> CrashOnly(fates) && (ok || dead))
      ensures ok ==> Writing(values, g, current, before, start, i + 1)
      ensures !ok ==> && Underway(names, disk, values, g, current) && Announced(disk, values, g, current)
                      && Untouched(names, before, disk)
                      && Strict(start, CommitOps(names, values, g, current)) == State()
                      && !AllDone(start.fates, |CommitOps(names, values, g, current)|)
      ensures DeathsLeft() == old(DeathsLeft())
    {
      ghost var ops := CommitOps(names, values, g, current);
      OpAt(names, values, g, current);
      FileKeeps(names, disk, values, g, current, i);
      hide DiskOk, Complete, CommitOps, Strict, AllDone, Act, NextFate, LaterFates, Underway, Announced, FilesWritten,
           Untouched, CrashOnly, Apply;
      StrictStep(State(), ops, i + 2);
      var envelope := Envelope(g, names[i], values[names[i]]);
      OtherGeneration(names, before, disk, values, g, current, envelope);
      ghost var applied;
      ok, applied := Perform(SetFile(envelope));
    }

    /** The component files of a new generation. */
    method WriteFiles(values: Values, g: nat, current: Option<nat>, ghost before: Disk, ghost start: Machine)
      returns (ok: bool)
      requires !dead && Writing(values, g, current, before, start, 0)
      modifies this
      ensures log == old(log) && (ok ==> !dead) && (CrashOnly(old(fates)) ==> CrashOnly(fates) && (ok || dead))
      ensures ok ==> Writing(values, g, current, before, start, |names|)
      ensures !ok ==> && Underway(names, disk, values, g, current) && Announced(disk, values, g, current)
                      && Untouched(names, before, disk)
                      && Strict(start, CommitOps(names, values, g, current)) == State()
                      && !AllDone(start.fates, |CommitOps(names, values, g, current)|)
      ensures DeathsLeft() == old(DeathsLeft())
    {
      ghost var f, deaths := fates, DeathsLeft();
      hide *;
      ok := true;
      var i := 0;
      while i < |names|
        invariant 0 <= i <= |names| && !dead && ok && log == old(log)
        invariant Writing(values, g, current, before, start, i)
        invariant (CrashOnly(f) ==> CrashOnly(fates)) && DeathsLeft() == deaths
      {
        ok := WriteFile(values, g, current, before, start, i);
        if !ok { return; }
        i := i + 1;
      }
    }

    /** The prepared manifest and the journal entry of a new generation. */
    method Announce(values: Values, g: nat, current: Option<nat>) returns (ok: bool)
      requires !dead && Underway(names, disk, values, g, current)
      modifies this
      ensures log == old(log) && (ok ==> !dead) && (CrashOnly(old(fates)) ==> CrashOnly(fates) && (ok || dead))
      ensures ok ==> Writing(values, g, current, old(disk), old(State()), 0)
      ensures !ok ==> && Underway(names, disk, values, g, current) && Untouched(names, old(disk), disk)
                      && Strict(old(State()), CommitOps(names, values, g, current)) == State()
                      && !AllDone(old(fates), |CommitOps(names, values, g, current)|)
      ensures old(disk).journal.None? && old(disk).prepared.None? ==> !Diverges(disk)
      ensures DeathsLeft() == old(DeathsLeft())
    {
      ghost var ops, start := CommitOps(names, values, g, current), State();
      ghost var applied;
      OpAt(names, values, g, current);
      AnnounceKeeps(names, disk, values, g, current);
      UnderwayFacts(names, disk, values, g, current);
      hide DiskOk, Complete, CommitOps, Strict, AllDone, FilesWritten, NextFate, LaterFates;
      assert ops[0..] == ops;
      StrictStep(start, ops, 0);
      ok, applied := Perform(SetPrepared(Manifest(g, Prepared, values)));
      if !ok { return; }
      StrictStep(State(), ops, 1);
      ok, applied := Perform(SetJournal(Journal(current, Some(g))));
    }

    /** The committed pointer of a fully written generation. */
    method Point(values: Values, g: nat, current: Option<nat>, ghost before: Disk, ghost start: Machine) returns (ok: bool)
      requires !dead && Writing(values, g, current, before, start, |names|) && Durable(disk) == LastOf(log)
      modifies this
      ensures Valid() && (ok ==> !dead) && (CrashOnly(old(fates)) ==> CrashOnly(fates) && (ok || dead))
      ensures State() == Strict(start, CommitOps(names, values, g, current))
      ensures ok <==> AllDone(start.fates, |CommitOps(names, values, g, current)|)
      ensures log == old(log) || log == old(log) + [values]
      ensures ok ==> log == old(log) + [values] && disk.committed == Some(Record(Manifest(g, Committed, values)))
                     && PendingOf(disk) == Some(g)
      ensures disk.files == old(disk).files && !Diverges(disk)
      ensures DeathsLeft() == old(DeathsLeft())
    {
      ghost var ops := CommitOps(names, values, g, current);
      OpAt(names, values, g, current);
      CommitKeeps(names, disk, values, g, current);
      UnderwayKeeps(names, before, disk, values, g, current);
      StrictStep(State(), ops, |names| + 2);
      hide CommitOps, Strict, AllDone, FilesWritten, Underway, CrashOnly, Complete, DiskOk, NextFate, LaterFates;
      ghost var applied;
      ok, applied := Perform(SetCommitted(Manifest(g, Committed, values)));
    }

    /** The writes of a commit, the committed pointer last. Until that is written the old snapshot is
        intact, and it becomes the new one in that single operation. */
    method Write(values: Values, g: nat, current: Option<nat>) returns (ok: bool)
      requires Valid() && !dead && Underway(names, disk, values, g, current)
      modifies this
      ensures Valid() && (ok ==> !dead)
      ensures State() == Strict(old(State()), CommitOps(names, values, g, current))
      ensures ok <==> AllDone(old(fates), |CommitOps(names, values, g, current)|)
      ensures log == old(log) || log == old(log) + [values]
      ensures ok ==> log == old(log) + [values] && disk.committed == Some(Record(Manifest(g, Committed, values)))
                     && PendingOf(disk) == Some(g)
      ensures old(disk).committed.Some? && old(disk).committed.value.Record?
              ==> Complete(names, disk.files, old(disk).committed.value.value)
      ensures CrashOnly(old(fates)) ==> CrashOnly(fates) && (ok || dead)
      ensures old(disk).prepared.None? && old(disk).journal.None? ==> !Diverges(disk)
      ensures DeathsLeft() == old(DeathsLeft())
    {
      ghost var before, start, ops := disk, State(), CommitOps(names, values, g, current);
      OpAt(names, values, g, current);
      hide CommitOps, Strict, AllDone, FilesWritten, Underway, Announced, CrashOnly, Complete, DiskOk, Act, NextFate, LaterFates;
      ok := Announce(values, g, current);
      if !ok { UnderwayKeeps(names, before, disk, values, g, current); return; }
      ok := WriteFiles(values, g, current, before, start);
      UnderwayKeeps(names, before, disk, values, g, current);
      if !ok { return; }
      ok := Point(values, g, current, before, start);
    }

    /** The new generation: the first of eight candidates that differs from the current one. None
        stands for a malformed candidate, or for no candidate that differs. */
    static method Choose(candidates: seq<Option<nat>>, current: Option<nat>) returns (g: Option<nat>)
      requires |candidates| == 8
      ensures g.Some? ==> g != current && exists i :: 0 <= i < 8 && candidates[i] == g && forall j :: 0 <= j < i ==> candidates[j] == current
      ensures current.None? ==> g == candidates[0]
      ensures g.None? ==> (exists i :: 0 <= i < 8 && candidates[i].None?) || (forall i :: 0 <= i < 8 ==> candidates[i] == current)
    {
      var attempt := 0;
      while attempt < 8
        invariant 0 <= attempt <= 8 && (current.None? ==> attempt == 0)
        invariant forall i :: 0 <= i < attempt ==> candidates[i] == current
      {
        if candidates[attempt].None? { return None; }
        if candidates[attempt] != current { return candidates[attempt]; }
        attempt := attempt + 1;
      }
      g := None;
    }

    /** commit. However it ends, what is durable afterwards is either the previous snapshot or all of
        the new one, and the components of the previous snapshot are still in place. */
    method Commit(values: Values, candidates: seq<Option<nat>>) returns (r: CommitResult)
      requires Valid() && !dead && |candidates| == 8
      modifies this
      ensures Valid() && (log == old(log) || log == old(log) + [values])
      ensures r.Saved? ==> log == old(log) + [values] && disk.committed == Some(Record(Manifest(r.generation, Committed, values)))
      ensures r.Saved? ==> Some(r.generation) in candidates
                           && (old(disk).committed.Some? ==> r.generation != old(disk).committed.value.value.generation)
      ensures log != old(log) ==> values.Keys == NameSet(names)
      ensures r.Saved? && !r.cleanupPending ==> Tidy(disk)
      ensures old(disk).committed.Some? ==> old(disk).committed.value.Record?
                                            && Complete(names, disk.files, old(disk).committed.value.value)
      ensures CrashOnly(old(fates)) ==> CrashOnly(fates) && (!Diverges(old(disk)) ==> !Diverges(disk))
      ensures CrashOnly(old(fates)) && !Diverges(old(disk)) && values.Keys == NameSet(names)
              && (forall i :: 0 <= i < 8 ==> candidates[i].Some?) && candidates[0] != candidates[1]
              ==> r.Saved? || dead
      ensures Diverges(old(disk)) ==> r.Failed? && disk == old(disk) && log == old(log)
      ensures old(disk).committed.None? && values.Keys == NameSet(names) && candidates[0].Some? ==>
        State() == CommitFirst(names, old(State()), values, candidates[0].value)
      ensures DeathsLeft() == old(DeathsLeft())
    {
      if values.Keys != NameSet(names) { return Failed; }
      var previous, threw := Load();
      if dead || previous.Rejected? || previous.Corrupt? { return Failed; }
      var current := if previous.Snapshot? then Some(previous.generation) else None;
      var g := Choose(candidates, current);
      if g.None? { return Failed; }
      assert Underway(names, disk, values, g.value, current);
      var ok := Write(values, g.value, current);
      if !ok { return Failed; }
      r := Finish(g.value, values);
    }

    /** Marks the new generation current and drops the prepared manifest; failures leave that to the
        next load. */
    method Finish(g: nat, values: Values) returns (r: CommitResult)
      requires Valid() && !dead && disk.committed == Some(Record(Manifest(g, Committed, values)))
      modifies this
      ensures Valid() && log == old(log) && disk.committed == old(disk).committed && disk.files == old(disk).files
      ensures if dead then r.Failed? else r.Saved? && r.generation == g && (!r.cleanupPending ==> Tidy(disk))
      ensures r.Saved? && AllDone(old(fates), 2) ==> !r.cleanupPending
      ensures State() == BestEffort(old(State()), [SetJournal(Journal(Some(g), None)), RemovePrepared])
      ensures CrashOnly(old(fates)) ==> CrashOnly(fates)
      ensures DeathsLeft() == old(DeathsLeft())
    {
      ghost var ops := [SetJournal(Journal(Some(g), None)), RemovePrepared];
      assert ops[1..] == [RemovePrepared] && [RemovePrepared][1..] == [];
      var ok, applied := Perform(SetJournal(Journal(Some(g), None)));
      if dead { return Failed; }
      var cleanup := !ok;
      ok, applied := Perform(RemovePrepared);
      if dead { return Failed; }
      r := Saved(g, !ok || cleanup);
    }

    /** The process starts again after dying; more operations lie ahead. */
    method Reboot(later: seq<Fate>)
      requires Valid()
      modifies this`dead, this`fates
      ensures Valid() && !dead && fates == later
    {
      dead, fates := false, later;
    }
  }

  // ----- Whole runs -----

  datatype Call = LoadCall | CommitCall(values: Values, candidates: seq<Option<nat>>)

  /** What a caller sees of one call. */
  datatype Seen = SeenLoad(result: LoadResult) | SeenCommit(outcome: CommitResult)

  /** A call, and the snapshots pointed to before and after it: a load returns the last of them, or
      nothing if there is none, and is never corrupt; a commit appends its values or nothing. */
  ghost predicate Faithful(call: Call, seen: Seen, before: seq<Values>, after: seq<Values>)
  {
    Truthful(call, seen, before, after) && (seen.SeenLoad? ==> !seen.result.Corrupt?)
  }

  ghost predicate Truthful(call: Call, seen: Seen, before: seq<Values>, after: seq<Values>)
  {
    match call
    case LoadCall =>
      && seen.SeenLoad? && after == before
      && (seen.result.Snapshot? ==> before != [] && seen.result.values == before[|before| - 1])
      && (seen.result.Empty? ==> before == [])
    case CommitCall(values, _) =>
      && seen.SeenCommit? && (after == before || after == before + [values])
      && (seen.outcome.Saved? ==> after == before + [values])
  }

  /** A commit the store must accept: every component is given, and the generator of generations does
      not repeat itself at once. */
  predicate Acceptable(names: seq<string>, call: Call)
    requires call.CommitCall? ==> |call.candidates| == 8
  {
    call.CommitCall? ==>
      && call.values.Keys == NameSet(names) && (forall i :: 0 <= i < 8 ==> call.candidates[i].Some?)
      && call.candidates[0] != call.candidates[1]
  }

  /** The number of calls that brought no answer. */
  function Unanswered(seen: seq<Seen>): nat
  {
    if seen == [] then 0
    else Unanswered(seen[..|seen| - 1]) + if IsAnswered(seen[|seen| - 1]) then 0 else 1
  }

  predicate IsAnswered(seen: Seen) { if seen.SeenLoad? then !seen.result.Rejected? else seen.outcome.Saved? }

  function TotalDeaths(crashes: seq<seq<Fate>>): nat
  {
    if crashes == [] then 0 else TotalDeaths(crashes[..|crashes| - 1]) + Deaths(crashes[|crashes| - 1])
  }

  /** Any sequence of loads and commits, the process dying at any point of any of them, also while
      recovering, and being restarted: every call is faithful to the pointers written so far, and when
      all commits are acceptable no call fails except by the process dying in it. */
  method CrashRun(device: Device, calls: seq<Call>, crashes: seq<seq<Fate>>) returns (seen: seq<Seen>, ghost logs: seq<seq<Values>>)
    requires device.Valid() && !device.dead && CrashOnly(device.fates) && !Diverges(device.disk)
    requires |crashes| == |calls| && forall i :: 0 <= i < |crashes| ==> CrashOnly(crashes[i])
    requires forall i :: 0 <= i < |calls| && calls[i].CommitCall? ==> |calls[i].candidates| == 8
    modifies device
    ensures device.Valid() && |seen| == |calls| && |logs| == |calls| + 1
    ensures logs[0] == old(device.log) && logs[|calls|] == device.log
    ensures forall i :: 0 <= i < |calls| ==> Faithful(calls[i], seen[i], logs[i], logs[i + 1])
    ensures (forall i :: 0 <= i < |calls| ==> Acceptable(device.names, calls[i])) ==>
      Unanswered(seen) <= Deaths(old(device.fates)) + TotalDeaths(crashes)
  {
    seen, logs := [], [device.log];
    ghost var allowed, fine := Deaths(device.fates), forall i :: 0 <= i < |calls| ==> Acceptable(device.names, calls[i]);
    NoCallYet(crashes);
    hide Deaths, Acceptable, Faithful, CrashOnly, Diverges, DiskOk, IsAnswered, Unanswered, TotalDeaths, Durable, LastOf;
    var i := 0;
    while i < |calls|
      invariant 0 <= i <= |calls| && |seen| == i && |logs| == i + 1
      invariant device.Valid() && CrashOnly(device.fates) && !Diverges(device.disk)
      invariant logs[0] == old(device.log) && logs[i] == device.log
      invariant forall k :: 0 <= k < i ==> Faithful(calls[k], seen[k], logs[k], logs[k + 1])
      invariant fine ==> Unanswered(seen) + Deaths(device.fates) <= allowed + TotalDeaths(crashes[..i])
    {
      if device.dead { device.Reboot(crashes[i]); }
      var one := RunCall(device, calls[i]);
      OneMoreCall(seen, one, crashes, i);
      seen, logs := seen + [one], logs + [device.log];
      i := i + 1;
    }
  }

  lemma NoCallYet(crashes: seq<seq<Fate>>)
    ensures Unanswered([]) == 0 && TotalDeaths(crashes[..0]) == 0 && crashes[..|crashes|] == crashes
  {
  }

  lemma OneMoreCall(seen: seq<Seen>, one: Seen, crashes: seq<seq<Fate>>, i: nat)
    requires i < |crashes|
    ensures Unanswered(seen + [one]) == Unanswered(seen) + if IsAnswered(one) then 0 else 1
    ensures TotalDeaths(crashes[..i + 1]) == TotalDeaths(crashes[..i]) + Deaths(crashes[i])
  {
    assert (seen + [one])[..|seen|] == seen && crashes[..i + 1][..i] == crashes[..i];
  }

  method RunCall(device: Device, call: Call) returns (seen: Seen)
    requires device.Valid() && !device.dead && CrashOnly(device.fates) && !Diverges(device.disk)
    requires call.CommitCall? ==> |call.candidates| == 8
    modifies device
    ensures device.Valid() && CrashOnly(device.fates) && !Diverges(device.disk)
    ensures Faithful(call, seen, old(device.log), device.log)
    ensures Acceptable(device.names, call) ==> IsAnswered(seen) || device.dead
    ensures device.DeathsLeft() == old(device.DeathsLeft())
  {
    match call {
      case LoadCall =>
        var r, threw := device.Load();
        seen := SeenLoad(r);
      case CommitCall(values, candidates) =>
        var r := device.Commit(values, candidates);
        seen := SeenCommit(r);
    }
  }

  /** Once a commit exists the same holds when operations may also fail and let the process carry on:
      a load is then reported corrupt only if reading a component threw. */
  method FailureRun(device: Device, calls: seq<Call>, failures: seq<seq<Fate>>)
    returns (seen: seq<Seen>, ghost logs: seq<seq<Values>>, ghost threw: seq<bool>)
    requires device.Valid() && device.log != []
    requires |failures| == |calls| && forall i :: 0 <= i < |calls| && calls[i].CommitCall? ==> |calls[i].candidates| == 8
    modifies device
    ensures device.Valid() && |seen| == |threw| == |calls| && |logs| == |calls| + 1
    ensures logs[0] == old(device.log) && logs[|calls|] == device.log
    ensures forall i :: 0 <= i < |calls| ==>
      Truthful(calls[i], seen[i], logs[i], logs[i + 1]) && (seen[i].SeenLoad? && seen[i].result.Corrupt? ==> threw[i])
  {
    seen, logs, threw := [], [device.log], [];
    var i := 0;
    while i < |calls|
      invariant 0 <= i <= |calls| && |seen| == |threw| == i && |logs| == i + 1
      invariant device.Valid() && device.log != [] && logs[0] == old(device.log) && logs[i] == device.log
      invariant forall k :: 0 <= k < i ==>
        Truthful(calls[k], seen[k], logs[k], logs[k + 1]) && (seen[k].SeenLoad? && seen[k].result.Corrupt? ==> threw[k])
    {
      if device.dead { device.Reboot(failures[i]); }
      var one;
      ghost var failed;
      one, failed := RunFailing(device, calls[i]);
      seen, logs, threw := seen + [one], logs + [device.log], threw + [failed];
      i := i + 1;
    }
  }

  method RunFailing(device: Device, call: Call) returns (seen: Seen, ghost threw: bool)
    requires device.Valid() && !device.dead && device.log != [] && (call.CommitCall? ==> |call.candidates| == 8)
    modifies device
    ensures device.Valid() && device.log != [] && Truthful(call, seen, old(device.log), device.log)
    ensures seen.SeenLoad? && seen.result.Corrupt? ==> threw
  {
    threw := false;
    match call {
      case LoadCall =>
        var r;
        r, threw := device.Load();
        seen := SeenLoad(r);
      case CommitCall(values, candidates) =>
        var r := device.Commit(values, candidates);
        seen := SeenCommit(r);
    }
  }

  /** load is idempotent: after one that leaves nothing to clean up, another returns the same snapshot,
      finds nothing to recover and leaves the disk alone. */
  method LoadTwice(device: Device) returns (first: LoadResult, second: LoadResult, ghost between: Disk)
    requires device.Valid() && !device.dead
    modifies device
    ensures device.Valid() && device.log == old(device.log)
    ensures first == Rejected || first == Corrupt || first.cleanupPending || Tidy(between)
    ensures (first.Snapshot? || first.Empty?) && !first.cleanupPending ==>
      && device.disk == between
      && (!second.Rejected? && !second.Corrupt? ==>
            second == (if first.Snapshot? then first.(recovery := Clean) else Empty(Clean, false)))
  {
    ghost var threw;
    first, threw := device.Load();
    between := device.disk;
    if device.dead { return first, Rejected, between; }
    second, threw := device.Load();
  }

  /** Divergence is permanent: from such a disk no call ever changes anything, every load that can read
      the disk is corrupt, and every commit fails. */
  method DivergedRun(device: Device, calls: seq<Call>, failures: seq<seq<Fate>>) returns (seen: seq<Seen>)
    requires device.Valid() && Diverges(device.disk)
    requires |failures| == |calls| && forall i :: 0 <= i < |calls| && calls[i].CommitCall? ==> |calls[i].candidates| == 8
    modifies device
    ensures device.Valid() && device.disk == old(device.disk) && device.log == [] && |seen| == |calls|
    ensures forall i :: 0 <= i < |calls| ==> Hopeless(calls[i], seen[i])
  {
    seen := [];
    var i := 0;
    while i < |calls|
      invariant 0 <= i <= |calls| && |seen| == i && device.Valid() && device.disk == old(device.disk)
      invariant forall k :: 0 <= k < i ==> Hopeless(calls[k], seen[k])
    {
      if device.dead { device.Reboot(failures[i]); }
      var one := CallDiverged(device, calls[i]);
      seen := seen + [one];
      i := i + 1;
    }
  }

  predicate Hopeless(call: Call, seen: Seen)
  {
    match call
    case LoadCall => seen.SeenLoad? && (seen.result.Corrupt? || seen.result.Rejected?)
    case CommitCall(_, _) => seen.SeenCommit? && seen.outcome.Failed?
  }

  method CallDiverged(device: Device, call: Call) returns (seen: Seen)
    requires device.Valid() && !device.dead && Diverges(device.disk) && (call.CommitCall? ==> |call.candidates| == 8)
    modifies device
    ensures device.Valid() && device.disk == old(device.disk) && Hopeless(call, seen)
    ensures NextFate(old(device.fates)).Done? && seen.SeenLoad? ==> seen.result.Corrupt?
  {
    match call {
      case LoadCall =>
        var r, threw := device.Load();
        seen := SeenLoad(r);
      case CommitCall(values, candidates) =>
        var r := device.Commit(values, candidates);
        seen := SeenCommit(r);
    }
  }

  /** Operations that fail and let the process carry on can lose a store before its first commit. Both
      commits below fail part-way, and removing the first one's journal failed in between; the
      manifest of the second and the journal of the first then disagree. */
  method FailuresCanDiverge() returns (r: LoadResult)
    ensures r.Corrupt?
  {
    var device := new Device(["a"], [
      Done, Done, Done, Throws(false),
      Done, Throws(false), Done, Done, Throws(false),
      Done]);
    var values: Values := map["a" := "x"];
    assert NameSet(["a"]) == values.Keys;
    DivergingRun(device.State(), values);
    var one := device.Commit(values, seq(8, i => Some(1)));
    var two := device.Commit(values, seq(8, i => Some(2)));
    ghost var threw;
    r, threw := device.Load();
  }

  lemma DivergingRun(m: Machine, values: Values)
    requires values == map["a" := "x"] && NameSet(["a"]) == values.Keys
    requires m == Machine(Disk(None, None, None, map[]),
                          [Done, Done, Done, Throws(false), Done, Throws(false), Done, Done, Throws(false), Done], false)
    ensures var n := CommitFirst(["a"], m, values, 1);
      && !n.dead && n.disk.committed.None?
      && var k := CommitFirst(["a"], n, values, 2);
      && !k.dead && k.disk.committed.None? && Diverges(k.disk) && k.fates == [Done]
  {
    FirstStops(m, values);
    hide CommitFirst;
    SecondDiverges(CommitFirst(["a"], m, values, 1), values);
  }

  lemma FirstStops(m: Machine, values: Values)
    requires values == map["a" := "x"] && NameSet(["a"]) == values.Keys
    requires m == Machine(Disk(None, None, None, map[]),
                          [Done, Done, Done, Throws(false), Done, Throws(false), Done, Done, Throws(false), Done], false)
    ensures CommitFirst(["a"], m, values, 1)
         == Machine(Disk(None, Some(Record(Manifest(1, Prepared, values))), Some(Record(Journal(None, Some(1)))), map[]),
                    [Done, Throws(false), Done, Done, Throws(false), Done], false)
  {
    var ops := CommitOps(["a"], values, 1, None);
    assert ops[0] == SetPrepared(Manifest(1, Prepared, values)) && ops[1] == SetJournal(Journal(None, Some(1)))
           && ops[2].SetFile? && |ops| == 4;
    assert RollbackOps(m.disk) == [];
    var a := LoadFirst(m);
    assert a == Machine(m.disk, [Done, Done, Throws(false), Done, Throws(false), Done, Done, Throws(false), Done], false);
    assert CommitFirst(["a"], m, values, 1) == Strict(a, ops) by { assert !a.fates[2].Done? && !AllDone(a.fates, |ops|); }
    hide CommitOps, CommitFirst, LoadFirst, RollbackOps, NameSet, Strict, AllDone, Diverges;
    assert ops[0..] == ops;
    StrictStep(a, ops, 0);
    StrictStep(Act(a, ops[0]), ops, 1);
    StrictStep(Act(Act(a, ops[0]), ops[1]), ops, 2);
  }

  lemma SecondDiverges(n: Machine, values: Values)
    requires values == map["a" := "x"] && NameSet(["a"]) == values.Keys && !n.dead
    requires n.disk == Disk(None, Some(Record(Manifest(1, Prepared, values))), Some(Record(Journal(None, Some(1)))), map[])
    requires n.fates == [Done, Throws(false), Done, Done, Throws(false), Done]
    ensures var k := CommitFirst(["a"], n, values, 2);
      !k.dead && k.disk.committed.None? && Diverges(k.disk) && k.fates == [Done]
  {
    assert RollbackOps(n.disk) == [RemoveJournal, RemovePrepared];
    assert [RemoveJournal, RemovePrepared][1..] == [RemovePrepared] && [RemovePrepared][1..] == [];
    var a := LoadFirst(n);
    assert a == Act(Act(ActRead(n), RemoveJournal), RemovePrepared);
    assert a.disk == n.disk.(prepared := None) && a.fates == [Done, Throws(false), Done];
    var ops := CommitOps(["a"], values, 2, None);
    assert ops[0] == SetPrepared(Manifest(2, Prepared, values)) && ops[1] == SetJournal(Journal(None, Some(2))) && |ops| == 4;
    assert ops[0..] == ops;
    StrictStep(a, ops, 0);
    StrictStep(Act(a, ops[0]), ops, 1);
    assert CommitFirst(["a"], n, values, 2) == Act(Act(a, ops[0]), ops[1]);
  }
}
