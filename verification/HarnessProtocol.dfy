/**
  Several processes on one harness file (prime-agent-runtime/src/rlm/harness.py): each reads the
  file's stamp and digest, loads it if either differs, changes its memory, and replaces the file
  under a lock if the digest is still the loaded one. Their steps interleave in any order.
*/
module HarnessProtocol {
  import opened Basics
  import opened HarnessStore

  /** The next step of a process. */
  datatype Stage =
    | Idle
    | CheckMtime | CheckDigest                        // _sync_from_disk
    | CheckExists | ReadMtime | ReadContent(mtime: nat) // load
    | Decide                                          // the operation on memory
    | TakeLock | CompareDigest | Replace | ReleaseLock | RecordMtime // save

  /** An operation that has changed memory, at a time. */
  datatype Write = Write(op: Op, now: string)

  /** `unsaved` are the writes in memory whose save failed for another reason than a changed digest. */
  datatype Process = Process(
    stage: Stage, op: Op, now: string, store: Store, loadedMtime: nat, loadedDigest: Option<FileContent>,
    loadedAt: string, unsaved: seq<Write>)

  /** A process that has constructed its store and is about to load it. */
  const NEW_PROCESS := Process(CheckExists, Look, "", EMPTY_STORE, 0, None, "", [])

  /** A successful save: its own write, those left unsaved before it, and what the file held before and after it. */
  datatype Commit = Commit(op: Op, now: string, loadedAt: string, unsaved: seq<Write>, before: Option<FileContent>,
      after: FileContent)

  /** What the processes share. The stamp is zero while the file does not exist. */
  datatype Shared = Shared(content: Option<FileContent>, mtime: nat, lock: Option<nat>, commits: seq<Commit>)

  datatype World = World(shared: Shared, processes: map<nat, Process>)

  /**
    An operation begins; the process takes its next step at some time; or its save fails before the file is
    replaced.
  */
  datatype Action = Begin(op: Op) | Advance(now: string, stamp: nat) | Fail

  predicate HoldsLock(p: Process) {
    p.stage.CompareDigest? || p.stage.Replace? || p.stage.ReleaseLock?
  }

  /** One step of a process. A step that cannot be taken leaves everything as it is. */
  function Step(setting: Setting, pid: nat, p: Process, s: Shared, action: Action): (Process, Shared) {
    match action
    case Begin(op) => if p.stage.Idle? then (p.(stage := CheckMtime, op := op), s) else (p, s)
    case Fail =>
      if p.stage.TakeLock? then (p.(stage := Idle, unsaved := p.unsaved + [Write(p.op, p.now)]), s)
      else if p.stage.CompareDigest? || p.stage.Replace?
        then (p.(stage := Idle, unsaved := p.unsaved + [Write(p.op, p.now)]), s.(lock := None))
      else (p, s)
    case Advance(now, stamp) =>
      match p.stage
      case Idle => (p, s)
      case CheckMtime => (p.(stage := if s.mtime != p.loadedMtime then CheckExists else CheckDigest), s)
      case CheckDigest => (p.(stage := if s.content != p.loadedDigest then CheckExists else Decide), s)
      case CheckExists =>
        if s.content.None?
          then (p.(stage := Decide, store := EMPTY_STORE, loadedMtime := 0, loadedDigest := None, loadedAt := now,
            unsaved := []), s)
        else (p.(stage := ReadMtime), s)
      case ReadMtime => (p.(stage := ReadContent(s.mtime)), s)
      case ReadContent(mtime) =>
        (p.(stage := Decide, store := Loaded(setting, s.content, now), loadedMtime := mtime, loadedDigest := s.content,
          loadedAt := now, unsaved := []), s)
      case Decide =>
        var outcome := Applied(setting, p.store, p.op, now);
        (if outcome.Changed? then p.(stage := TakeLock, store := outcome.store, now := now) else p.(stage := Idle), s)
      case TakeLock => if s.lock.None? then (p.(stage := CompareDigest), s.(lock := Some(pid))) else (p, s)
      case CompareDigest => if s.content != p.loadedDigest then (p.(stage := Idle), s.(lock := None))
        else (p.(stage := Replace), s)
      case Replace =>
        if stamp <= s.mtime then (p, s)
        else
          (p.(stage := ReleaseLock),
           s.(content := Some(Serialized(p.store)), mtime := stamp,
              commits := s.commits + [Commit(p.op, p.now, p.loadedAt, p.unsaved, s.content, Serialized(p.store))]))
      case ReleaseLock => (p.(stage := RecordMtime), s.(lock := None))
      case RecordMtime => (p.(stage := Idle, loadedDigest := Some(Serialized(p.store)), loadedMtime := s.mtime,
        loadedAt := now, unsaved := []), s)
  }

  function Next(setting: Setting, w: World, pid: nat, action: Action): World {
    if pid !in w.processes then w
    else
      var (p, s) := Step(setting, pid, w.processes[pid], w.shared, action);
      World(s, w.processes[pid := p])
  }

  function Run(setting: Setting, w: World, steps: seq<(nat, Action)>): World {
    if steps == [] then w
    else Next(setting, Run(setting, w, steps[..|steps| - 1]), steps[|steps| - 1].0, steps[|steps| - 1].1)
  }

  ghost predicate IsInitial(w: World) {
    && (w.shared.content.None? <==> w.shared.mtime == 0) && w.shared.lock.None? && w.shared.commits == []
    && forall pid :: pid in w.processes ==> w.processes[pid] == NEW_PROCESS
  }

  // What every step keeps

  /** A store after some writes, each of which changes it. */
  function AppliedAll(setting: Setting, store: Store, writes: seq<Write>): Option<Store> {
    if writes == [] then Some(store)
    else
      var before, last := AppliedAll(setting, store, writes[..|writes| - 1]), writes[|writes| - 1];
      if before.None? then None
      else match Applied(setting, before.value, last.op, last.now) case Changed(after) => Some(after) case _ => None
  }

  lemma AppliedAllAdd(setting: Setting, store: Store, writes: seq<Write>, write: Write)
    requires AppliedAll(setting, store, writes).Some?
    ensures var outcome := Applied(setting, AppliedAll(setting, store, writes).value, write.op, write.now);
            AppliedAll(setting, store, writes + [write]) == if outcome.Changed? then Some(outcome.store) else None
  {
    assert (writes + [write])[..|writes|] == writes;
    hide Applied;
  }

  /** Memory is what was loaded, with the unsaved writes. */
  ghost predicate Clean(setting: Setting, p: Process) {
    AppliedAll(setting, Loaded(setting, p.loadedDigest, p.loadedAt), p.unsaved) == Some(p.store)
  }

  /** Memory is what was loaded, with the unsaved writes and then the operation's own. */
  ghost predicate Derived(setting: Setting, p: Process) {
    AppliedAll(setting, Loaded(setting, p.loadedDigest, p.loadedAt), p.unsaved + [Write(p.op, p.now)]) == Some(p.store)
  }

  /** While the loaded stamp is the file's, the loaded digest is too. */
  ghost predicate Current(p: Process, s: Shared) {
    p.loadedMtime == s.mtime ==> p.loadedDigest == s.content
  }

  ghost predicate AtStage(setting: Setting, p: Process, s: Shared) {
    match p.stage
    case Idle => Clean(setting, p) || p.loadedMtime < s.mtime
    case CheckMtime => Clean(setting, p) || p.loadedMtime < s.mtime
    case CheckDigest => Clean(setting, p)
    case ReadContent(mtime) => mtime <= s.mtime
    case Decide => Current(p, s) && Clean(setting, p)
    case TakeLock => Current(p, s) && Derived(setting, p)
    case CompareDigest => Current(p, s) && Derived(setting, p)
    case Replace => p.loadedDigest == s.content && Derived(setting, p)
    case _ => true
  }

  ghost predicate Healthy(setting: Setting, pid: nat, p: Process, s: Shared) {
    && Filed(p.store) && p.loadedMtime <= s.mtime && AtStage(setting, p, s)
    && (HoldsLock(p) <==> s.lock == Some(pid))
  }

  function WritesOf(c: Commit): seq<Write> {
    c.unsaved + [Write(c.op, c.now)]
  }

  /** The new content is the writes left unsaved, and then the save's own, applied to the content it replaced. */
  ghost predicate Publishes(setting: Setting, c: Commit) {
    var outcome := AppliedAll(setting, Loaded(setting, c.before, c.loadedAt), WritesOf(c));
    outcome.Some? && c.after == Serialized(outcome.value)
  }

  /** The new content is the save's own write applied to the content it replaced. */
  ghost predicate IsLink(setting: Setting, c: Commit) {
    var outcome := Applied(setting, Loaded(setting, c.before, c.loadedAt), c.op, c.now);
    outcome.Changed? && c.after == Serialized(outcome.store)
  }

  /** Each save replaced exactly what the one before it had left, and published its writes on just that. */
  ghost predicate Chain(setting: Setting, initial: Option<FileContent>, commits: seq<Commit>,
      last: Option<FileContent>)
  {
    if commits == [] then last == initial
    else
      var c := commits[|commits| - 1];
      && last == Some(c.after) && Publishes(setting, c)
      && Chain(setting, initial, commits[..|commits| - 1], c.before)
  }

  ghost predicate SharedOk(setting: Setting, initial: Option<FileContent>, s: Shared) {
    (s.content.None? <==> s.mtime == 0) && Chain(setting, initial, s.commits, s.content)
  }

  ghost predicate Invariant(setting: Setting, initial: Option<FileContent>, w: World) {
    && SharedOk(setting, initial, w.shared)
    && forall pid :: pid in w.processes ==> Healthy(setting, pid, w.processes[pid], w.shared)
  }

  lemma ChainAdd(setting: Setting, initial: Option<FileContent>, commits: seq<Commit>, c: Commit)
    requires Chain(setting, initial, commits, c.before) && Publishes(setting, c)
    ensures Chain(setting, initial, commits + [c], Some(c.after))
  {
    hide Publishes;
    assert (commits + [c])[..|commits|] == commits;
  }

  lemma ReplacePublishes(setting: Setting, p: Process)
    requires Derived(setting, p)
    ensures Publishes(setting, Commit(p.op, p.now, p.loadedAt, p.unsaved, p.loadedDigest, Serialized(p.store)))
  {
    hide Loaded;
    hide AppliedAll;
    hide Serialized;
  }

  lemma StepKeepsShared(setting: Setting, initial: Option<FileContent>, pid: nat, p: Process, s: Shared, action: Action)
    requires SharedOk(setting, initial, s) && Healthy(setting, pid, p, s)
    ensures SharedOk(setting, initial, Step(setting, pid, p, s, action).1)
  {
    hide Chain;
    hide Derived;
    hide Publishes;
    hide Clean;
    if action.Advance? && p.stage.Replace? {
      ReplacePublishes(setting, p);
      ChainAdd(setting, initial, s.commits, Commit(p.op, p.now, p.loadedAt, p.unsaved, s.content, Serialized(p.store)));
    }
    hide Loaded;
    hide Applied;
    hide Serialized;
  }

  lemma NothingApplied(setting: Setting, store: Store)
    ensures AppliedAll(setting, store, []) == Some(store)
  {
  }

  lemma LoadedFromNothing(setting: Setting, now: string)
    ensures Loaded(setting, None, now) == EMPTY_STORE && Filed(EMPTY_STORE)
  {
    LoadedIsFiled(setting, None, now);
  }

  lemma StepLoads(setting: Setting, initial: Option<FileContent>, pid: nat, p: Process, s: Shared, action: Action)
    requires SharedOk(setting, initial, s) && Healthy(setting, pid, p, s)
    requires action.Advance? && (p.stage.CheckExists? || p.stage.ReadContent?)
    ensures var (q, t) := Step(setting, pid, p, s, action); Healthy(setting, pid, q, t)
  {
    hide AppliedAll;
    hide Derived;
    hide Chain;
    hide Loaded;
    hide Applied;
    hide Serialized;
    hide Filed;
    LoadedFromNothing(setting, action.now);
    LoadedIsFiled(setting, s.content, action.now);
    NothingApplied(setting, Loaded(setting, s.content, action.now));
    NothingApplied(setting, EMPTY_STORE);
  }

  lemma DecidedIsDerived(setting: Setting, p: Process, now: string)
    requires Clean(setting, p) && Applied(setting, p.store, p.op, now).Changed?
    ensures Derived(setting, p.(stage := TakeLock, store := Applied(setting, p.store, p.op, now).store, now := now))
  {
    AppliedAllAdd(setting, Loaded(setting, p.loadedDigest, p.loadedAt), p.unsaved, Write(p.op, now));
    hide AppliedAll;
    hide Applied;
    hide Loaded;
  }

  /** Being clean does not depend on the stage or the operation. */
  lemma CleanAtIdle(setting: Setting, p: Process, q: Process)
    requires (q.store, q.loadedDigest, q.loadedAt, q.unsaved) == (p.store, p.loadedDigest, p.loadedAt, p.unsaved)
    ensures Clean(setting, p) <==> Clean(setting, q)
  {
    hide AppliedAll;
    hide Loaded;
  }

  lemma StepDecides(setting: Setting, initial: Option<FileContent>, pid: nat, p: Process, s: Shared, action: Action)
    requires SharedOk(setting, initial, s) && Healthy(setting, pid, p, s)
    requires action.Advance? && p.stage.Decide?
    ensures var (q, t) := Step(setting, pid, p, s, action); Healthy(setting, pid, q, t)
  {
    hide AppliedAll;
    hide Clean;
    hide Derived;
    if Applied(setting, p.store, p.op, action.now).Changed? {
      AppliedKeepsFiled(setting, p.store, p.op, action.now);
      DecidedIsDerived(setting, p, action.now);
    }
    CleanAtIdle(setting, p, p.(stage := Idle));
    hide Chain;
    hide Loaded;
    hide Applied;
    hide Serialized;
    hide Filed;
  }

  lemma StepRecords(setting: Setting, initial: Option<FileContent>, pid: nat, p: Process, s: Shared, action: Action)
    requires SharedOk(setting, initial, s) && Healthy(setting, pid, p, s)
    requires action.Advance? && p.stage.RecordMtime?
    ensures var (q, t) := Step(setting, pid, p, s, action); Healthy(setting, pid, q, t)
  {
    hide AppliedAll;
    hide Derived;
    hide Chain;
    hide Loaded;
    hide Applied;
    hide Serialized;
    hide Filed;
    RoundTrip(setting, p.store, action.now);
    NothingApplied(setting, p.store);
  }

  lemma StepKeepsRest(setting: Setting, initial: Option<FileContent>, pid: nat, p: Process, s: Shared, action: Action)
    requires SharedOk(setting, initial, s) && Healthy(setting, pid, p, s)
    requires action.Advance? ==>
             !p.stage.CheckExists? && !p.stage.ReadContent? && !p.stage.Decide? && !p.stage.RecordMtime?
    ensures var (q, t) := Step(setting, pid, p, s, action); Healthy(setting, pid, q, t)
  {
    hide Chain;
    hide Loaded;
    hide Applied;
    hide Serialized;
    hide Filed;
  }

  lemma StepKeepsProcess(setting: Setting, initial: Option<FileContent>, pid: nat, p: Process, s: Shared,
      action: Action)
    requires SharedOk(setting, initial, s) && Healthy(setting, pid, p, s)
    ensures var (q, t) := Step(setting, pid, p, s, action); Healthy(setting, pid, q, t)
  {
    hide SharedOk;
    hide Healthy;
    hide Step;
    if !action.Advance? {
      StepKeepsRest(setting, initial, pid, p, s, action);
    } else {
      match p.stage {
        case CheckExists => StepLoads(setting, initial, pid, p, s, action);
        case ReadContent(_) => StepLoads(setting, initial, pid, p, s, action);
        case Decide => StepDecides(setting, initial, pid, p, s, action);
        case RecordMtime => StepRecords(setting, initial, pid, p, s, action);
        case _ => StepKeepsRest(setting, initial, pid, p, s, action);
      }
    }
  }

  lemma StepKeepsOther(setting: Setting, initial: Option<FileContent>, pid: nat, p: Process, s: Shared, action: Action,
      other: nat, o: Process)
    requires Healthy(setting, pid, p, s) && Healthy(setting, other, o, s) && pid != other
    ensures Healthy(setting, other, o, Step(setting, pid, p, s, action).1)
  {
    hide Loaded;
    hide Applied;
    hide Serialized;
    hide Filed;
  }

  lemma NextKeeps(setting: Setting, initial: Option<FileContent>, w: World, pid: nat, action: Action)
    requires Invariant(setting, initial, w)
    ensures Invariant(setting, initial, Next(setting, w, pid, action))
  {
    if pid in w.processes {
      var p := w.processes[pid];
      StepKeepsShared(setting, initial, pid, p, w.shared, action);
      StepKeepsProcess(setting, initial, pid, p, w.shared, action);
      hide SharedOk;
      hide Healthy;
      hide Step;
      forall other | other in w.processes && other != pid
        ensures Healthy(setting, other, w.processes[other], Step(setting, pid, p, w.shared, action).1)
      {
        StepKeepsOther(setting, initial, pid, p, w.shared, action, other, w.processes[other]);
      }
    }
  }

  lemma InitialIsFine(setting: Setting, w: World)
    requires IsInitial(w)
    ensures Invariant(setting, w.shared.content, w)
  {
    assert Filed(EMPTY_STORE);
    hide Loaded;
  }

  /** The invariant of every run, whatever the interleaving. */
  lemma {:induction false} RunKeeps(setting: Setting, w: World, steps: seq<(nat, Action)>)
    requires IsInitial(w)
    ensures Invariant(setting, w.shared.content, Run(setting, w, steps))
    decreases |steps|
  {
    if steps == [] {
      InitialIsFine(setting, w);
    } else {
      hide Invariant;
      hide IsInitial;
      hide Next;
      RunKeeps(setting, w, steps[..|steps| - 1]);
      NextKeeps(setting, w.shared.content, Run(setting, w, steps[..|steps| - 1]), steps[|steps| - 1].0,
        steps[|steps| - 1].1);
    }
  }

  // No lost update

  ghost predicate NothingUnsaved(w: World) {
    && (forall pid :: pid in w.processes ==> w.processes[pid].unsaved == [])
    && (forall k :: 0 <= k < |w.shared.commits| ==> w.shared.commits[k].unsaved == [])
  }

  lemma {:induction false} NothingUnsavedWithoutFailure(setting: Setting, w: World, steps: seq<(nat, Action)>)
    requires IsInitial(w) && forall k :: 0 <= k < |steps| ==> !steps[k].1.Fail?
    ensures NothingUnsaved(Run(setting, w, steps))
    decreases |steps|
  {
    hide Loaded;
    hide Applied;
    hide Serialized;
    if steps != [] {
      NothingUnsavedWithoutFailure(setting, w, steps[..|steps| - 1]);
    }
  }

  /**
    In every run the successful saves form one chain from the first content to the one on disk: each
    replaced exactly what the save before it had left, with its process's unsaved writes and then its own
    applied to just that. When saves fail only by a changed digest, no write is left unsaved.
  */
  lemma NoLostUpdate(setting: Setting, w: World, steps: seq<(nat, Action)>)
    requires IsInitial(w)
    ensures var after := Run(setting, w, steps).shared; Chain(setting, w.shared.content, after.commits, after.content)
    ensures (forall k :: 0 <= k < |steps| ==> !steps[k].1.Fail?) ==>
              forall k ::
                0 <= k < |Run(setting, w, steps).shared.commits| ==>
                  IsLink(setting, Run(setting, w, steps).shared.commits[k])
  {
    RunKeeps(setting, w, steps);
    var after := Run(setting, w, steps);
    hide IsInitial;
    hide IsLink;
    hide Run;
    hide Healthy;
    if forall k :: 0 <= k < |steps| ==> !steps[k].1.Fail? {
      NothingUnsavedWithoutFailure(setting, w, steps);
      forall k | 0 <= k < |after.shared.commits|
        ensures IsLink(setting, after.shared.commits[k])
      {
        ChainLinks(setting, w.shared.content, after.shared.commits, after.shared.content, k);
        OwnWriteLinks(setting, after.shared.commits[k]);
      }
    }
  }

  lemma {:induction false} ChainLinks(setting: Setting, initial: Option<FileContent>, commits: seq<Commit>,
      last: Option<FileContent>, k: nat)
    requires Chain(setting, initial, commits, last) && k < |commits|
    ensures Publishes(setting, commits[k])
    ensures commits[k].before == if k == 0 then initial else Some(commits[k - 1].after)
    decreases |commits|
  {
    hide Publishes;
    var n := |commits| - 1;
    if k < n {
      ChainLinks(setting, initial, commits[..n], commits[n].before, k);
    }
  }

  /** A save with nothing unsaved before it publishes its own write alone. */
  lemma OwnWriteLinks(setting: Setting, c: Commit)
    requires Publishes(setting, c) && c.unsaved == []
    ensures IsLink(setting, c)
  {
    AppliedAllAdd(setting, Loaded(setting, c.before, c.loadedAt), [], Write(c.op, c.now));
    hide Loaded;
    hide Applied;
    hide Serialized;
  }

  /** A create that was saved found its id free in the content it replaced, and left everything else in it as it was. */
  lemma CreateNeverOverwrites(setting: Setting, c: Commit)
    requires IsLink(setting, c) && c.op.Create?
    ensures KindNamed(c.op.kind).Some?
    ensures var kind, id := KindNamed(c.op.kind).value, Target(setting, c.op);
            var before, after := Loaded(setting, c.before, c.loadedAt), Loaded(setting, Some(c.after), c.now);
            && id !in EntriesOf(before, kind) && id in EntriesOf(after, kind) && EntriesOf(after, kind)[id].version == 1
            && after.refinements == before.refinements
            && forall k: Kind, other ::
               k != kind || other != id ==> SameEntry(EntriesOf(before, k), EntriesOf(after, k), other)
  {
    var before := Loaded(setting, c.before, c.loadedAt);
    var after := Applied(setting, before, c.op, c.now).store;
    LoadedIsFiled(setting, c.before, c.loadedAt);
    AppliedKeepsFiled(setting, before, c.op, c.now);
    RoundTrip(setting, after, c.now);
    CreateIsFresh(setting, before, c.op, c.now);
    AppliedChanges(setting, before, c.op, c.now);
    var kind := KindNamed(c.op.kind).value;
    hide Loaded;
    hide Applied;
    hide Serialized;
    hide EntriesOf;
    EffectOnEntry(setting, before, c.op, c.now, kind, Target(setting, c.op));
    forall k: Kind, other | k != kind || other != Target(setting, c.op)
      ensures SameEntry(EntriesOf(before, k), EntriesOf(after, k), other)
    {
      EffectOnEntry(setting, before, c.op, c.now, k, other);
    }
  }

  predicate SameEntry(had: Entries, has: Entries, id: string) {
    (id in has <==> id in had) && (id in had ==> has[id] == had[id])
  }

  // Versions

  function VersionOfEntry(entries: Entries, id: string): Option<int> {
    if id in entries then Some(entries[id].version) else None
  }

  function VersionIn(setting: Setting, content: Option<FileContent>, kind: Kind, id: string): Option<int> {
    VersionOfEntry(EntriesOf(Loaded(setting, content, ""), kind), id)
  }

  lemma VersionIsTimeless(setting: Setting, content: Option<FileContent>, now: string, kind: Kind, id: string)
    ensures VersionIn(setting, content, kind, id) == VersionOfEntry(EntriesOf(Loaded(setting, content, now), kind), id)
  {
    hide LoadedRefinements;
    hide Field;
    hide VersionOfEntry;
    forall raw: Json
      ensures VersionOfEntry(LoadedEntries(kind, raw, setting.scope, now), id)
              == VersionOfEntry(LoadedEntries(kind, raw, setting.scope, ""), id)
    {
      EntriesTimeless(kind, raw, setting.scope, now, id);
    }
    hide LoadedEntries;
  }

  lemma EntriesTimeless(kind: Kind, raw: Json, scope: Scope, now: string, id: string)
    ensures VersionOfEntry(LoadedEntries(kind, raw, scope, now), id)
            == VersionOfEntry(LoadedEntries(kind, raw, scope, ""), id)
  {
    hide VersionOf;
    hide ScopeOf;
    hide StrOr;
    hide DictOf;
    hide DateOr;
    hide Field;
  }

  /** What one write does to an entry's version: nothing, the first or the next version, or its end. */
  function VersionAfter(setting: Setting, version: Option<int>, op: Op, kind: Kind, id: string): Option<int> {
    if !Hits(setting, op, kind, id) then version
    else if op.Delete? then None
    else Some(if version.None? then 1 else version.value + 1)
  }

  function VersionAfterAll(setting: Setting, version: Option<int>, writes: seq<Write>, kind: Kind,
      id: string): Option<int>
  {
    if writes == [] then version
    else VersionAfter(setting, VersionAfterAll(setting, version, writes[..|writes| - 1], kind, id),
      writes[|writes| - 1].op, kind, id)
  }

  lemma {:induction false} VersionAfterMore(setting: Setting, version: Option<int>, a: seq<Write>, b: seq<Write>,
      kind: Kind, id: string)
    ensures VersionAfterAll(setting, version, a + b, kind, id)
            == VersionAfterAll(setting, VersionAfterAll(setting, version, a, kind, id), b, kind, id)
    decreases |b|
  {
    hide VersionAfter;
    if b == [] {
      assert a + b == a;
    } else {
      assert (a + b)[..|a + b| - 1] == a + b[..|b| - 1];
      VersionAfterMore(setting, version, a, b[..|b| - 1], kind, id);
    }
  }

  /** Every write that the saves have published, in order. */
  function Published(commits: seq<Commit>): seq<Write> {
    if commits == [] then [] else Published(commits[..|commits| - 1]) + WritesOf(commits[|commits| - 1])
  }

  lemma OutcomeVersion(setting: Setting, store: Store, op: Op, now: string, kind: Kind, id: string)
    requires Applied(setting, store, op, now).Changed?
    ensures VersionOfEntry(EntriesOf(Applied(setting, store, op, now).store, kind), id)
            == VersionAfter(setting, VersionOfEntry(EntriesOf(store, kind), id), op, kind, id)
  {
    EffectOnEntry(setting, store, op, now, kind, id);
    hide Applied;
    hide Hits;
    hide EntriesOf;
    hide IsProtected;
  }

  lemma {:induction false} WritesVersion(setting: Setting, store: Store, writes: seq<Write>, kind: Kind, id: string)
    requires Filed(store) && AppliedAll(setting, store, writes).Some?
    ensures var after := AppliedAll(setting, store, writes).value;
            && Filed(after)
            && VersionOfEntry(EntriesOf(after, kind), id)
               == VersionAfterAll(setting, VersionOfEntry(EntriesOf(store, kind), id), writes, kind, id)
    decreases |writes|
  {
    hide Filed;
    hide Applied;
    hide EntriesOf;
    hide VersionOfEntry;
    hide VersionAfter;
    if writes != [] {
      var init, last := writes[..|writes| - 1], writes[|writes| - 1];
      WritesVersion(setting, store, init, kind, id);
      var before := AppliedAll(setting, store, init).value;
      AppliedKeepsFiled(setting, before, last.op, last.now);
      OutcomeVersion(setting, before, last.op, last.now, kind, id);
    }
  }

  lemma SaveVersion(setting: Setting, c: Commit, kind: Kind, id: string)
    requires Publishes(setting, c)
    ensures VersionIn(setting, Some(c.after), kind, id)
            == VersionAfterAll(setting, VersionIn(setting, c.before, kind, id), WritesOf(c), kind, id)
  {
    hide Loaded;
    hide AppliedAll;
    hide Serialized;
    hide EntriesOf;
    hide VersionOfEntry;
    hide VersionAfterAll;
    hide Filed;
    var before := Loaded(setting, c.before, c.loadedAt);
    LoadedIsFiled(setting, c.before, c.loadedAt);
    WritesVersion(setting, before, WritesOf(c), kind, id);
    RoundTrip(setting, AppliedAll(setting, before, WritesOf(c)).value, "");
    VersionIsTimeless(setting, c.before, c.loadedAt, kind, id);
  }

  /** Along the chain the version in the file counts the published writes of an entry since it was made. */
  lemma {:induction false} VersionsCountWrites(setting: Setting, initial: Option<FileContent>, commits: seq<Commit>,
      last: Option<FileContent>,
                                               kind: Kind, id: string)
    requires Chain(setting, initial, commits, last)
    ensures VersionIn(setting, last, kind, id)
            == VersionAfterAll(setting, VersionIn(setting, initial, kind, id), Published(commits), kind, id)
    decreases |commits|
  {
    hide VersionIn;
    hide VersionAfter;
    hide Publishes;
    if commits != [] {
      var init, c := commits[..|commits| - 1], commits[|commits| - 1];
      VersionsCountWrites(setting, initial, init, c.before, kind, id);
      SaveVersion(setting, c, kind, id);
      VersionAfterMore(setting, VersionIn(setting, initial, kind, id), Published(init), WritesOf(c), kind, id);
    }
  }

  /** In every run the file's version of an entry is what the writes published by its saves make of the first one. */
  lemma FileVersion(setting: Setting, w: World, steps: seq<(nat, Action)>, kind: Kind, id: string)
    requires IsInitial(w)
    ensures var after := Run(setting, w, steps).shared;
            VersionIn(setting, after.content, kind, id)
            == VersionAfterAll(setting, VersionIn(setting, w.shared.content, kind, id), Published(after.commits), kind,
              id)
  {
    var after := Run(setting, w, steps).shared;
    NoLostUpdate(setting, w, steps);
    hide Run;
    hide VersionIn;
    hide Chain;
    VersionsCountWrites(setting, w.shared.content, after.commits, after.content, kind, id);
  }

  function WritesTo(setting: Setting, writes: seq<Write>, kind: Kind, id: string): nat {
    if writes == [] then 0
    else WritesTo(setting, writes[..|writes| - 1], kind, id) + if Hits(setting, writes[|writes| - 1].op, kind, id)
      then 1 else 0
  }

  /** Without a delete the version has grown by the number of writes. */
  lemma {:induction false} VersionsAdd(setting: Setting, version: Option<int>, writes: seq<Write>, kind: Kind,
      id: string)
    requires forall k :: 0 <= k < |writes| ==> !(writes[k].op.Delete? && Hits(setting, writes[k].op, kind, id))
    ensures var count := WritesTo(setting, writes, kind, id);
            VersionAfterAll(setting, version, writes, kind, id)
            == if version.None? && count == 0 then None else Some(Or(version, 0) + count)
  {
    hide Hits;
    if writes != [] {
      VersionsAdd(setting, version, writes[..|writes| - 1], kind, id);
    }
  }

  // A save that fails otherwise

  const ALONE := World(Shared(None, 0, None, []), map[0 := NEW_PROCESS])

  const NOTE := Request("note", "text", None, None, None, None, "agent")

  /** One process steps alone. */
  lemma StepAlone(setting: Setting, steps: seq<(nat, Action)>, action: Action, p: Process, s: Shared)
    requires Run(setting, ALONE, steps) == World(s, map[0 := p])
    ensures Run(setting, ALONE, steps + [(0, action)])
            == World(Step(setting, 0, p, s, action).1, map[0 := Step(setting, 0, p, s, action).0])
  {
    assert (steps + [(0, action)])[..|steps|] == steps;
    hide Step;
  }

  /** From idle and in step with the disk to just before the lock, with the operation applied to memory. */
  lemma UpToLock(setting: Setting, steps: seq<(nat, Action)>, p: Process, s: Shared, op: Op, store: Store)
      returns (more: seq<(nat, Action)>)
    requires Run(setting, ALONE, steps) == World(s, map[0 := p]) && p.stage.Idle?
    requires s.mtime == p.loadedMtime && s.content == p.loadedDigest
             && Applied(setting, p.store, op, "now") == Changed(store)
    ensures Run(setting, ALONE, more)
            == World(s, map[0 := p.(stage := TakeLock, op := op, store := store, now := "now")])
  {
    hide Run;
    hide Applied;
    var p1 := p.(stage := CheckMtime, op := op);
    StepAlone(setting, steps, Begin(op), p, s);
    more := steps + [(0, Begin(op))];
    StepAlone(setting, more, Advance("now", 1), p1, s);
    more := more + [(0, Advance("now", 1))];
    StepAlone(setting, more, Advance("now", 1), p1.(stage := CheckDigest), s);
    more := more + [(0, Advance("now", 1))];
    StepAlone(setting, more, Advance("now", 1), p1.(stage := Decide), s);
    more := more + [(0, Advance("now", 1))];
  }

  const DECIDING := NEW_PROCESS.(stage := Decide, loadedAt := "now")

  const IDLING := NEW_PROCESS.(stage := Idle, loadedAt := "now")

  lemma FirstSteps(setting: Setting)
    ensures Step(setting, 0, NEW_PROCESS, ALONE.shared, Advance("now", 1)) == (DECIDING, ALONE.shared)
    ensures Step(setting, 0, DECIDING, ALONE.shared, Advance("now", 1)) == (IDLING, ALONE.shared)
  {
    assert Applied(setting, EMPTY_STORE, Look, "now") == Unchanged;
    hide Applied;
  }

  /** A process finds no file and idles. */
  lemma StartAlone(setting: Setting) returns (steps: seq<(nat, Action)>)
    ensures Run(setting, ALONE, steps) == World(ALONE.shared, map[0 := IDLING])
  {
    assert Run(setting, ALONE, []) == ALONE;
    hide Run;
    FirstSteps(setting);
    hide Step;
    StepAlone(setting, [], Advance("now", 1), NEW_PROCESS, ALONE.shared);
    steps := [] + [(0, Advance("now", 1))];
    StepAlone(setting, steps, Advance("now", 1), DECIDING, ALONE.shared);
    steps := steps + [(0, Advance("now", 1))];
  }

  /** From before the lock to the file replaced. */
  lemma SaveAlone(setting: Setting, before: seq<(nat, Action)>, p: Process) returns (steps: seq<(nat, Action)>)
    requires Run(setting, ALONE, before) == World(ALONE.shared, map[0 := p]) && p.stage.TakeLock?
             && p.loadedDigest.None?
    ensures Run(setting, ALONE, steps).shared.commits
            == [Commit(p.op, p.now, p.loadedAt, p.unsaved, None, Serialized(p.store))]
  {
    hide Run;
    hide Serialized;
    var s := ALONE.shared;
    StepAlone(setting, before, Advance("now", 1), p, s);
    steps := before + [(0, Advance("now", 1))];
    StepAlone(setting, steps, Advance("now", 1), p.(stage := CompareDigest), s.(lock := Some(0)));
    steps := steps + [(0, Advance("now", 1))];
    StepAlone(setting, steps, Advance("now", 1), p.(stage := Replace), s.(lock := Some(0)));
    steps := steps + [(0, Advance("now", 1))];
  }

  function Prompts(entries: Entries): Store { EMPTY_STORE.(prompt := entries) }

  lemma CreatePrompt(setting: Setting, entries: Entries, id: string)
    requires id != "" && id !in entries
    ensures Applied(setting, Prompts(entries), Op.Create("prompt", Some(id), NOTE), "now")
            == Changed(Prompts(entries[id := NewEntry(setting, Prompt, id, NOTE, "now")]))
  {
    hide NewEntry;
  }

  lemma SavedDiffers(setting: Setting, a: Store, b: Store)
    requires Filed(a) && Filed(b) && a != b
    ensures Serialized(a) != Serialized(b)
  {
    RoundTrip(setting, a, "");
    RoundTrip(setting, b, "");
    hide Loaded;
    hide Serialized;
  }

  function PromptEntry(setting: Setting, id: string): Entry { NewEntry(setting, Prompt, id, NOTE, "now") }

  function CreateOf(id: string): Op { Op.Create("prompt", Some(id), NOTE) }

  /** Both entries in the file, though only the second was created on what had been loaded. */
  lemma LeakIsNoLink(setting: Setting)
    ensures var both := map["a" := PromptEntry(setting, "a")]["b" := PromptEntry(setting, "b")];
            !IsLink(setting,
              Commit(CreateOf("b"), "now", "now", [Write(CreateOf("a"), "now")], None, Serialized(Prompts(both))))
  {
    CreatePrompt(setting, map[], "b");
    BothDiffers(setting, PromptEntry(setting, "a"), PromptEntry(setting, "b"));
    assert Prompts(map[]) == EMPTY_STORE == Loaded(setting, None, "now");
    hide Applied;
    hide Loaded;
    hide Serialized;
    hide NewEntry;
  }

  function AfterFailure(setting: Setting): Process {
    IDLING.(op := CreateOf("a"), now := "now", store := Prompts(map["a" := PromptEntry(setting, "a")]),
            unsaved := [Write(CreateOf("a"), "now")])
  }

  /** One save has failed, and memory keeps its change. */
  lemma FirstFails(setting: Setting) returns (steps: seq<(nat, Action)>)
    ensures Run(setting, ALONE, steps) == World(ALONE.shared, map[0 := AfterFailure(setting)])
  {
    var alone := Prompts(map["a" := PromptEntry(setting, "a")]);
    CreatePrompt(setting, map[], "a");
    assert Prompts(map[]) == EMPTY_STORE && Applied(setting, EMPTY_STORE, CreateOf("a"), "now") == Changed(alone);
    hide Applied;
    hide Run;
    hide Prompts;
    hide PromptEntry;
    hide CreateOf;
    steps := StartAlone(setting);
    steps := UpToLock(setting, steps, IDLING, ALONE.shared, CreateOf("a"), alone);
    assert IDLING.unsaved + [Write(CreateOf("a"), "now")] == [Write(CreateOf("a"), "now")];
    steps := FailAlone(setting, steps, IDLING.(stage := TakeLock, op := CreateOf("a"), store := alone, now := "now"));
  }

  /**
    When a save fails for another reason than a changed digest, a lock that stays busy say, memory
    keeps the change and nothing reloads it: the process's next successful save publishes it too.
  */
  lemma FailedSaveLeaks(setting: Setting) returns (steps: seq<(nat, Action)>)
    ensures IsInitial(ALONE)
    ensures var commits := Run(setting, ALONE, steps).shared.commits;
            |commits| == 1 && commits[0].unsaved == [Write(CreateOf("a"), "now")] && !IsLink(setting, commits[0])
  {
    assert IsInitial(ALONE);
    LeakIsNoLink(setting);
    var withA := map["a" := PromptEntry(setting, "a")];
    CreatePrompt(setting, withA, "b");
    var both := Prompts(withA["b" := PromptEntry(setting, "b")]);
    assert Applied(setting, Prompts(withA), CreateOf("b"), "now") == Changed(both);
    hide Applied;
    hide Run;
    hide Serialized;
    hide Prompts;
    hide PromptEntry;
    hide CreateOf;
    hide IsLink;
    steps := FirstFails(setting);
    steps := UpToLock(setting, steps, AfterFailure(setting), ALONE.shared, CreateOf("b"), both);
    steps := SaveAlone(setting, steps, AfterFailure(setting).(stage := TakeLock, op := CreateOf("b"), store := both));
  }

  lemma FailAlone(setting: Setting, before: seq<(nat, Action)>, p: Process) returns (steps: seq<(nat, Action)>)
    requires Run(setting, ALONE, before) == World(ALONE.shared, map[0 := p]) && p.stage.TakeLock?
    ensures Run(setting, ALONE, steps)
            == World(ALONE.shared, map[0 := p.(stage := Idle, unsaved := p.unsaved + [Write(p.op, p.now)])])
  {
    StepAlone(setting, before, Fail, p, ALONE.shared);
    steps := before + [(0, Fail)];
    hide Run;
  }

  lemma BothDiffers(setting: Setting, a: Entry, b: Entry)
    requires a.id == "a" && a.kind == Prompt && b.id == "b" && b.kind == Prompt
    ensures Serialized(Prompts(map["a" := a]["b" := b])) != Serialized(Prompts(map[]["b" := b]))
  {
    var both, one: Entries := map["a" := a]["b" := b], map[]["b" := b];
    assert "a" in both && "a" !in one;
    SavedDiffers(setting, Prompts(both), Prompts(one));
  }
}
