/**
  The harness state store (prime-agent-runtime/src/rlm/harness.py): its JSON document, the
  operations on its entries, and the class that keeps them in memory and in a file.
*/
module HarnessStore {
  import opened Basics
  import opened StyleTracker

  // The document

  datatype Json =
    | Null
    | Bool(flag: bool)
    | Int(number: int)
    | Float(literal: string)
    | Str(text: string)
    | List(items: seq<Json>)
    | Object(fields: map<string, Json>)

  type Dict = map<string, Json>

  /** The bytes of a file: a JSON document, or something that is none. */
  datatype FileContent = Corrupt(bytes: string) | Document(value: Json)

  // The store

  datatype Kind = Prompt | Memory | Skill | Subagent

  datatype Scope = Local | Global

  datatype Dates = Dates(createdAt: Json, updatedAt: Json)

  datatype Details = Details(reference: Dict, arguments: Dict, metadata: Dict)

  datatype Entry = Entry(
    id: string, kind: Kind, title: string, content: string, path: string, scope: Scope,
    details: Details, source: string, dates: Dates, version: int)

  datatype Refinement = Refinement(id: string, trigger: string, changes: seq<string>, evidence: Json, outcome: Json,
      createdAt: Json)

  type Entries = map<string, Entry>

  datatype Store = Store(prompt: Entries, memory: Entries, skill: Entries, subagent: Entries,
      refinements: seq<Refinement>)

  const EMPTY_STORE := Store(map[], map[], map[], map[], [])

  function EntriesOf(store: Store, kind: Kind): Entries {
    match kind
    case Prompt => store.prompt
    case Memory => store.memory
    case Skill => store.skill
    case Subagent => store.subagent
  }

  function WithEntries(store: Store, kind: Kind, entries: Entries): Store {
    match kind
    case Prompt => store.(prompt := entries)
    case Memory => store.(memory := entries)
    case Skill => store.(skill := entries)
    case Subagent => store.(subagent := entries)
  }

  function KindName(kind: Kind): string {
    match kind
    case Prompt => "prompt"
    case Memory => "memory"
    case Skill => "skill"
    case Subagent => "subagent"
  }

  function KindNamed(name: string): Option<Kind> {
    if name == "prompt" then Some(Prompt)
    else if name == "memory" then Some(Memory)
    else if name == "skill" then Some(Skill)
    else if name == "subagent" then Some(Subagent)
    else None
  }

  /** What the store does not decide: its scope, the slug of a title, and how Python prints a value. */
  datatype Setting = Setting(scope: Scope, slug: (string, Kind) -> string, show: Json -> string)

  /** Every entry is filed under its own id and kind. */
  ghost predicate Filed(store: Store) {
    forall kind: Kind, id: string :: id in EntriesOf(store, kind) ==>
      EntriesOf(store, kind)[id].id == id && EntriesOf(store, kind)[id].kind == kind
  }

  // Saving

  function ScopeName(scope: Scope): string {
    if scope.Local? then "local" else "global"
  }

  function EntryJson(entry: Entry): Json {
    Object(map[
      "id" := Str(entry.id), "kind" := Str(KindName(entry.kind)), "title" := Str(entry.title), "content" :=
        Str(entry.content),
      "path" := Str(entry.path), "scope" := Str(ScopeName(entry.scope)), "reference" := Object(entry.details.reference),
      "arguments" := Object(entry.details.arguments), "metadata" := Object(entry.details.metadata), "source" :=
        Str(entry.source),
      "created_at" := entry.dates.createdAt, "updated_at" := entry.dates.updatedAt, "version" := Int(entry.version)])
  }

  function EntriesJson(entries: Entries): Json {
    Object(map id | id in entries :: EntryJson(entries[id]))
  }

  function Strings(texts: seq<string>): seq<Json> {
    seq(|texts|, i requires 0 <= i < |texts| => Str(texts[i]))
  }

  function RefinementJson(event: Refinement): Json {
    Object(map["id" := Str(event.id), "trigger" := Str(event.trigger), "changes" := List(Strings(event.changes)),
               "evidence" := event.evidence, "outcome" := event.outcome, "created_at" := event.createdAt])
  }

  function RefinementsJson(events: seq<Refinement>): seq<Json> {
    if events == [] then [] else RefinementsJson(events[..|events| - 1]) + [RefinementJson(events[|events| - 1])]
  }

  /** The document that `save` writes. */
  function Serialized(store: Store): FileContent {
    Document(Object(map[
      "schema" := Int(1),
      "entries" := Object(map["prompt" := EntriesJson(store.prompt), "memory" := EntriesJson(store.memory),
                              "skill" := EntriesJson(store.skill), "subagent" := EntriesJson(store.subagent)]),
      "refinements" := List(RefinementsJson(store.refinements))]))
  }

  // Loading

  function Field(fields: Dict, key: string): Json {
    if key in fields then fields[key] else Null
  }

  function StrOr(value: Json, default: string): string {
    if value.Str? then value.text else default
  }

  function DictOf(value: Json): Dict {
    if value.Object? then value.fields else map[]
  }

  function IsBlankChar(c: char): bool {
    c == ' ' || '\t' <= c <= '\r'
  }

  function Trimmed(s: string): string
    decreases |s|
  {
    if s != "" && IsBlankChar(s[0]) then Trimmed(s[1..])
    else if s != "" && IsBlankChar(s[|s| - 1]) then Trimmed(s[..|s| - 1])
    else s
  }

  /** Python's `int(text)`: an optional sign and digits, with single underscores between digits. */
  function IntOf(text: string): Option<int> {
    var s := Trimmed(text);
    var negative := s != "" && s[0] == '-';
    var digits := if s != "" && (s[0] == '-' || s[0] == '+') then s[1..] else s;
    var parts := Split(digits, '_');
    if exists part :: part in parts && (part == "" || !AllDigits(part)) then None
    else Some(if negative then -(DigitsValue(Joined(parts)) as int) else DigitsValue(Joined(parts)))
  }

  function Joined(parts: seq<string>): (s: string)
    requires forall part :: part in parts ==> AllDigits(part)
    ensures AllDigits(s)
  {
    if parts == [] then ""
    else
      assert AllDigits(parts[0]) && forall part :: part in parts[1..] ==> part in parts;
      parts[0] + Joined(parts[1..])
  }

  function VersionOf(value: Json): int {
    match value
    case Int(number) => number
    case Bool(flag) => if flag then 1 else 0
    case Str(text) => (var number := IntOf(text); if number.Some? then number.value else 1)
    case _ => 1
  }

  function ScopeOf(value: Json, default: Scope): Scope {
    if value == Str("local") then Local else if value == Str("global") then Global else default
  }

  function DateOr(fields: Dict, key: string, now: string): Json {
    if key in fields then fields[key] else Str(now)
  }

  /** One entry of the document; entries without a title or content text are skipped. */
  function LoadedEntry(kind: Kind, id: string, raw: Json, scope: Scope, now: string): Option<Entry> {
    if !raw.Object? || !Field(raw.fields, "title").Str? || !Field(raw.fields, "content").Str? then None
    else
      var f := raw.fields;
      Some(Entry(
        id, kind, Field(f, "title").text, Field(f, "content").text, StrOr(Field(f, "path"), "general"),
        ScopeOf(Field(f, "scope"), scope),
        Details(DictOf(Field(f, "reference")), DictOf(Field(f, "arguments")), DictOf(Field(f, "metadata"))),
        StrOr(Field(f, "source"), "agent"), Dates(DateOr(f, "created_at", now), DateOr(f, "updated_at", now)),
        if "version" in f then VersionOf(f["version"]) else 1))
  }

  function LoadedEntries(kind: Kind, raw: Json, scope: Scope, now: string): Entries {
    if !raw.Object? then map[]
    else map id | id in raw.fields && LoadedEntry(kind, id, raw.fields[id], scope, now).Some?
           :: LoadedEntry(kind, id, raw.fields[id], scope, now).value
  }

  function Shown(show: Json -> string, value: Json): string {
    if value.Str? then value.text else show(value)
  }

  function LoadedRefinement(raw: Json, show: Json -> string, now: string): Option<Refinement> {
    if !raw.Object? || !Field(raw.fields, "id").Str? || !Field(raw.fields, "trigger").Str? then None
    else
      var f := raw.fields;
      var changes := Field(f, "changes");
      if !changes.Str? && !changes.List? then None
      else
        Some(Refinement(
          f["id"].text, f["trigger"].text,
          if changes.Str? then [changes.text]
            else seq(|changes.items|, i requires 0 <= i < |changes.items| => Shown(show, changes.items[i])),
          if "evidence" in f then f["evidence"] else Str(""), if "outcome" in f then f["outcome"] else Str(""),
          DateOr(f, "created_at", now)))
  }

  function LoadedRefinements(raw: seq<Json>, show: Json -> string, now: string): seq<Refinement> {
    if raw == [] then []
    else
      var last := LoadedRefinement(raw[|raw| - 1], show, now);
      LoadedRefinements(raw[..|raw| - 1], show, now) + if last.Some? then [last.value] else []
  }

  /** The store that `load` makes of a file's content; no file gives the empty store. */
  function Loaded(setting: Setting, content: Option<FileContent>, now: string): Store {
    if content.None? || content.value.Corrupt? then EMPTY_STORE
    else
      var data := DictOf(content.value.value);
      var raw := DictOf(Field(data, "entries"));
      var events := Field(data, "refinements");
      Store(
        LoadedEntries(Prompt, Field(raw, "prompt"), setting.scope, now),
        LoadedEntries(Memory, Field(raw, "memory"), setting.scope, now),
        LoadedEntries(Skill, Field(raw, "skill"), setting.scope, now),
        LoadedEntries(Subagent, Field(raw, "subagent"), setting.scope, now),
        if events.List? then LoadedRefinements(events.items, setting.show, now) else [])
  }

  // Loading what was saved

  lemma EntryRoundTrip(entry: Entry, scope: Scope, now: string)
    ensures LoadedEntry(entry.kind, entry.id, EntryJson(entry), scope, now) == Some(entry)
  {
  }

  lemma EntriesRoundTrip(kind: Kind, entries: Entries, scope: Scope, now: string)
    requires forall id :: id in entries ==> entries[id].id == id && entries[id].kind == kind
    ensures LoadedEntries(kind, EntriesJson(entries), scope, now) == entries
  {
    var loaded, saved := LoadedEntries(kind, EntriesJson(entries), scope, now), EntriesJson(entries);
    hide EntryJson;
    hide LoadedEntry;
    forall id | id in entries
      ensures saved.fields[id] == EntryJson(entries[id])
              && LoadedEntry(kind, id, saved.fields[id], scope, now) == Some(entries[id])
    {
      EntryRoundTrip(entries[id], scope, now);
    }
    assert loaded.Keys == entries.Keys;
  }

  lemma RefinementRoundTrip(event: Refinement, show: Json -> string, now: string)
    ensures LoadedRefinement(RefinementJson(event), show, now) == Some(event)
  {
    var raw := RefinementJson(event);
    assert raw.fields["changes"].items == Strings(event.changes);
    var loaded := LoadedRefinement(raw, show, now);
    assert |loaded.value.changes| == |event.changes|;
    assert forall i ::
           0 <= i < |event.changes| ==>
             loaded.value.changes[i] == Shown(show, Strings(event.changes)[i]) == event.changes[i];
    assert loaded.value.changes == event.changes;
  }

  lemma {:induction false} RefinementsRoundTrip(events: seq<Refinement>, show: Json -> string, now: string)
    ensures LoadedRefinements(RefinementsJson(events), show, now) == events
  {
    if events != [] {
      var init, last := events[..|events| - 1], events[|events| - 1];
      RefinementsRoundTrip(init, show, now);
      RefinementRoundTrip(last, show, now);
      hide RefinementJson;
      hide LoadedRefinement;
      var raw := RefinementsJson(events);
      assert raw[..|raw| - 1] == RefinementsJson(init) && raw[|raw| - 1] == RefinementJson(last);
    }
  }

  /** Loading a saved store gives it back, whenever and in whatever scope it is loaded. */
  lemma RoundTrip(setting: Setting, store: Store, now: string)
    requires Filed(store)
    ensures Loaded(setting, Some(Serialized(store)), now) == store
  {
    hide EntriesJson;
    hide LoadedEntries;
    hide RefinementsJson;
    hide LoadedRefinements;
    forall kind: Kind
      ensures LoadedEntries(kind, EntriesJson(EntriesOf(store, kind)), setting.scope, now) == EntriesOf(store, kind)
    {
      EntriesRoundTrip(kind, EntriesOf(store, kind), setting.scope, now);
    }
    assert EntriesOf(store, Prompt) == store.prompt && EntriesOf(store, Memory) == store.memory;
    assert EntriesOf(store, Skill) == store.skill && EntriesOf(store, Subagent) == store.subagent;
    RefinementsRoundTrip(store.refinements, setting.show, now);
  }

  lemma LoadedEntryIsFiled(kind: Kind, id: string, raw: Json, scope: Scope, now: string)
    ensures var entry := LoadedEntry(kind, id, raw, scope, now);
            entry.Some? ==> entry.value.id == id && entry.value.kind == kind
  {
  }

  lemma LoadedEntriesFiled(kind: Kind, raw: Json, scope: Scope, now: string)
    ensures var entries := LoadedEntries(kind, raw, scope, now);
            forall id :: id in entries ==> entries[id].id == id && entries[id].kind == kind
  {
    hide LoadedEntry;
    forall id | id in LoadedEntries(kind, raw, scope, now)
      ensures LoadedEntries(kind, raw, scope, now)[id].id == id && LoadedEntries(kind, raw, scope, now)[id].kind == kind
    {
      LoadedEntryIsFiled(kind, id, raw.fields[id], scope, now);
    }
  }

  lemma LoadedIsFiled(setting: Setting, content: Option<FileContent>, now: string)
    ensures Filed(Loaded(setting, content, now))
  {
    hide LoadedEntries;
    hide LoadedRefinements;
    hide Field;
    forall kind: Kind, raw: Json
      ensures forall id :: id in LoadedEntries(kind, raw, setting.scope, now) ==>
                LoadedEntries(kind, raw, setting.scope, now)[id].id == id
                  && LoadedEntries(kind, raw, setting.scope, now)[id].kind == kind
    {
      LoadedEntriesFiled(kind, raw, setting.scope, now);
    }
  }

  // Operations

  /** The arguments of a write; what the caller omits is `None`. */
  datatype Request = Request(
    title: string, content: string, path: Option<string>, reference: Option<Dict>, arguments: Option<Dict>,
    metadata: Option<Dict>, source: string)

  datatype Op =
    | Create(kind: string, name: Option<string>, request: Request)
    | Update(kind: string, id: string, request: Request)
    | Upsert(kind: string, name: Option<string>, request: Request)
    | Delete(kind: string, id: string)
    | Look

  datatype Error = UnknownKind | AlreadyExists | DoesNotExist | ActiveEvolution

  /** A changed store to be saved, nothing to do, or an error. */
  datatype Outcome = Changed(store: Store) | Unchanged | Failed(error: Error)

  function Or<T>(value: Option<T>, default: T): T {
    if value.Some? then value.value else default
  }

  /** An id that is missing or empty is made from the title. */
  function EntryId(setting: Setting, kind: Kind, title: string, id: Option<string>): string {
    if id.None? || id.value == "" then setting.slug(title, kind) else id.value
  }

  function NewEntry(setting: Setting, kind: Kind, id: string, r: Request, now: string): Entry {
    Entry(id, kind, r.title, r.content, Or(r.path, "general"), setting.scope,
          Details(Or(r.reference, map[]), Or(r.arguments, map[]), Or(r.metadata, map[])), r.source,
          Dates(Str(now), Str(now)), 1)
  }

  function UpdatedEntry(entry: Entry, r: Request, now: string): Entry {
    entry.(title := r.title, content := r.content, path := Or(r.path, entry.path),
           details :=
             Details(Or(r.reference, entry.details.reference), Or(r.arguments, entry.details.arguments),
               Or(r.metadata, entry.details.metadata)),
           source := r.source, dates := entry.dates.(updatedAt := Str(now)), version := entry.version + 1)
  }

  /** The given value, or else the one there was. */
  predicate IsGiven<T(==)>(value: Option<T>, had: T, has: T) {
    (value.Some? ==> has == value.value) && (value.None? ==> has == had)
  }

  /** A written entry has the request's values, and where the request omits one the value it had. */
  predicate CarriesUpdate(had: Entry, has: Entry, r: Request, now: string) {
    && has.title == r.title && has.content == r.content && has.source == r.source
    && IsGiven(r.path, had.path, has.path) && IsGiven(r.reference, had.details.reference, has.details.reference)
    && IsGiven(r.arguments, had.details.arguments, has.details.arguments)
    && IsGiven(r.metadata, had.details.metadata, has.details.metadata)
    && has.id == had.id && has.kind == had.kind && has.scope == had.scope && has.version == had.version + 1
    && has.dates.createdAt == had.dates.createdAt && has.dates.updatedAt == Str(now)
  }

  /** A new entry has the request's values, defaults where it omits one, and is of now. */
  predicate CarriesNew(setting: Setting, kind: Kind, id: string, has: Entry, r: Request, now: string) {
    && has.title == r.title && has.content == r.content && has.source == r.source
    && IsGiven(r.path, "general", has.path) && IsGiven(r.reference, map[], has.details.reference)
    && IsGiven(r.arguments, map[], has.details.arguments) && IsGiven(r.metadata, map[], has.details.metadata)
    && has.id == id && has.kind == kind && has.scope == setting.scope && has.version == 1
    && has.dates.createdAt == has.dates.updatedAt == Str(now)
  }

  /** The id an operation names: the one given, unless that is missing or empty, and then the title's slug. */
  predicate Names(setting: Setting, op: Op, kind: Kind, id: string) {
    match op
    case Create(_, name, r) => if name.Some? && name.value != "" then id == name.value
      else id == setting.slug(r.title, kind)
    case Upsert(_, name, r) => if name.Some? && name.value != "" then id == name.value
      else id == setting.slug(r.title, kind)
    case Update(_, named, r) => if named != "" then id == named else id == setting.slug(r.title, kind)
    case Delete(_, named) => id == named
    case Look => false
  }

  /** `_upsert` before its save. */
  function Upserted(setting: Setting, store: Store, kind: Kind, id: Option<string>, r: Request, now: string): Store {
    var entries, entryId := EntriesOf(store, kind), EntryId(setting, kind, r.title, id);
    var entry :=
        if entryId in entries then UpdatedEntry(entries[entryId], r, now) else NewEntry(setting, kind, entryId, r, now);
    WithEntries(store, kind, entries[entryId := entry])
  }

  /** Memory that an active evolution candidate has put in place. */
  predicate IsProtected(kind: Kind, entry: Entry) {
    kind.Memory? && "evolution_candidate_id" in entry.details.metadata
      && Field(entry.details.metadata, "evolution_status") == Str("active")
  }

  function Applied(setting: Setting, store: Store, op: Op, now: string): Outcome {
    if op.Look? then Unchanged
    else
      var kind := KindNamed(op.kind);
      if kind.None? then Failed(UnknownKind)
      else
        var entries := EntriesOf(store, kind.value);
        match op
        case Create(_, name, r) =>
          var entryId := EntryId(setting, kind.value, r.title, name);
          if entryId in entries then Failed(AlreadyExists)
            else Changed(Upserted(setting, store, kind.value, Some(entryId), r, now))
        case Update(_, id, r) =>
          if id !in entries then Failed(DoesNotExist)
            else Changed(Upserted(setting, store, kind.value, Some(id), r, now))
        case Upsert(_, name, r) => Changed(Upserted(setting, store, kind.value, name, r, now))
        case Delete(_, id) =>
          if id !in entries then Unchanged
          else if IsProtected(kind.value, entries[id]) then Failed(ActiveEvolution)
          else Changed(WithEntries(store, kind.value, entries - {id}))
  }

  /** The entry an operation writes or removes. */
  function Target(setting: Setting, op: Op): string
    requires !op.Look? && KindNamed(op.kind).Some?
  {
    var kind := KindNamed(op.kind).value;
    match op
    case Create(_, name, r) => EntryId(setting, kind, r.title, Some(EntryId(setting, kind, r.title, name)))
    case Update(_, id, r) => EntryId(setting, kind, r.title, Some(id))
    case Upsert(_, name, r) => EntryId(setting, kind, r.title, name)
    case Delete(_, id) => id
  }

  predicate Hits(setting: Setting, op: Op, kind: Kind, id: string) {
    !op.Look? && KindNamed(op.kind) == Some(kind) && Target(setting, op) == id
  }

  lemma WithEntriesElsewhere(store: Store, kind: Kind, entries: Entries, other: Kind)
    ensures EntriesOf(WithEntries(store, kind, entries), other) == if other == kind then entries
            else EntriesOf(store, other)
    ensures WithEntries(store, kind, entries).refinements == store.refinements
  {
  }

  lemma AppliedChanges(setting: Setting, store: Store, op: Op, now: string)
    requires Applied(setting, store, op, now).Changed?
    ensures !op.Look? && KindNamed(op.kind).Some?
    ensures var kind, target := KindNamed(op.kind).value, Target(setting, op);
            var entries := EntriesOf(store, kind);
            && (op.Delete? ==>
               target in entries && !IsProtected(kind, entries[target])
                 && Applied(setting, store, op, now).store == WithEntries(store, kind, entries - {target}))
            && (!op.Delete? ==>
                  var entry :=
                      if target in entries then UpdatedEntry(entries[target], op.request, now)
                        else NewEntry(setting, kind, target, op.request, now);
                  Applied(setting, store, op, now).store == WithEntries(store, kind, entries[target := entry]))
  {
    hide WithEntries;
    hide EntriesOf;
    hide KindNamed;
    hide UpdatedEntry;
    hide NewEntry;
    hide IsProtected;
  }

  lemma EntryCarries(setting: Setting, kind: Kind, id: string, r: Request, now: string)
    ensures CarriesNew(setting, kind, id, NewEntry(setting, kind, id, r, now), r, now)
    ensures forall had: Entry :: CarriesUpdate(had, UpdatedEntry(had, r, now), r, now)
  {
  }

  lemma TargetIsNamed(setting: Setting, op: Op)
    requires !op.Look? && KindNamed(op.kind).Some?
    ensures Names(setting, op, KindNamed(op.kind).value, Target(setting, op))
  {
  }

  /**
    What an operation that changes the store does to each entry: only the one it names is touched, and
    a write leaves the request's values in it.
  */
  lemma EffectOnEntry(setting: Setting, store: Store, op: Op, now: string, kind: Kind, id: string)
    requires Applied(setting, store, op, now).Changed?
    ensures var after := Applied(setting, store, op, now).store;
            var had, has := EntriesOf(store, kind), EntriesOf(after, kind);
            && after.refinements == store.refinements
            && (!Hits(setting, op, kind, id) ==> (id in has <==> id in had) && (id in had ==> has[id] == had[id]))
            && (Hits(setting, op, kind, id) && !op.Delete? ==>
                  id in has && has[id] == if id in had then UpdatedEntry(had[id], op.request, now)
                    else NewEntry(setting, kind, id, op.request, now))
            && (Hits(setting, op, kind, id) && !op.Delete? && id in had ==>
               CarriesUpdate(had[id], has[id], op.request, now))
            && (Hits(setting, op, kind, id) && !op.Delete? && id !in had ==>
                  CarriesNew(setting, kind, id, has[id], op.request, now))
            && (Hits(setting, op, kind, id) ==> Names(setting, op, kind, id))
            && (Hits(setting, op, kind, id) && op.Delete? ==> id in had && id !in has && !IsProtected(kind, had[id]))
  {
    hide Applied;
    hide Target;
    hide WithEntries;
    hide EntriesOf;
    hide KindNamed;
    hide UpdatedEntry;
    hide NewEntry;
    hide IsProtected;
    AppliedChanges(setting, store, op, now);
    var k, target := KindNamed(op.kind).value, Target(setting, op);
    var entries := EntriesOf(store, k);
    TargetIsNamed(setting, op);
    if !op.Delete? {
      EntryCarries(setting, k, target, op.request, now);
    }
    hide CarriesUpdate;
    hide CarriesNew;
    hide Names;
    if op.Delete? {
      WithEntriesElsewhere(store, k, entries - {target}, kind);
    } else {
      var entry :=
          if target in entries then UpdatedEntry(entries[target], op.request, now)
            else NewEntry(setting, k, target, op.request, now);
      WithEntriesElsewhere(store, k, entries[target := entry], kind);
    }
  }

  /** When an operation changes the store, by the entry it names. */
  lemma AppliedWhen(setting: Setting, store: Store, op: Op, now: string, kind: Kind, id: string)
    requires !op.Look? && KindNamed(op.kind) == Some(kind) && Names(setting, op, kind, id)
    ensures Applied(setting, store, op, now).Changed?
            <==> match op
                 case Create(_, _, _) => id !in EntriesOf(store, kind)
                 case Update(_, named, _) => named in EntriesOf(store, kind)
                 case Upsert(_, _, _) => true
                 case Delete(_, _) => id in EntriesOf(store, kind) && !IsProtected(kind, EntriesOf(store, kind)[id])
  {
    hide EntriesOf;
    hide IsProtected;
    hide WithEntries;
    hide UpdatedEntry;
    hide NewEntry;
  }

  lemma AppliedKeepsFiled(setting: Setting, store: Store, op: Op, now: string)
    requires Filed(store) && Applied(setting, store, op, now).Changed?
    ensures Filed(Applied(setting, store, op, now).store)
  {
    hide Applied;
    hide Hits;
    hide EntriesOf;
    hide IsProtected;
    var after := Applied(setting, store, op, now).store;
    forall kind: Kind, id: string | id in EntriesOf(after, kind)
      ensures EntriesOf(after, kind)[id].id == id && EntriesOf(after, kind)[id].kind == kind
    {
      EffectOnEntry(setting, store, op, now, kind, id);
    }
  }

  /** A create that succeeds found no entry under its id, and makes the first version of one. */
  lemma CreateIsFresh(setting: Setting, store: Store, op: Op, now: string)
    requires op.Create? && Applied(setting, store, op, now).Changed?
    ensures var kind, id := KindNamed(op.kind).value, Target(setting, op);
            var entries := EntriesOf(Applied(setting, store, op, now).store, kind);
            && Names(setting, op, kind, id) && id !in EntriesOf(store, kind) && id in entries
            && CarriesNew(setting, kind, id, entries[id], op.request, now)
  {
    hide EntriesOf;
    hide KindNamed;
    hide WithEntries;
    EffectOnEntry(setting, store, op, now, KindNamed(op.kind).value, Target(setting, op));
  }

  /**
    An update that succeeds writes the next version of the entry it names, exactly when that name is
    not empty: the empty one passes the check and is then replaced by the title's slug.
  */
  lemma UpdateWritesItsEntry(setting: Setting, store: Store, op: Op, now: string)
    requires op.Update? && Applied(setting, store, op, now).Changed?
    ensures var kind := KindNamed(op.kind).value;
            var had, has := EntriesOf(store, kind), EntriesOf(Applied(setting, store, op, now).store, kind);
            && op.id in had && op.id in has
            && ((op.id != "" || setting.slug(op.request.title, kind) == "")
               <==> has[op.id].version == had[op.id].version + 1)
            && (op.id == "" && setting.slug(op.request.title, kind) != "" ==> has[op.id] == had[op.id])
            && (op.id != "" ==> CarriesUpdate(had[op.id], has[op.id], op.request, now))
  {
    hide EntriesOf;
    hide KindNamed;
    hide WithEntries;
    hide NewEntry;
    EffectOnEntry(setting, store, op, now, KindNamed(op.kind).value, op.id);
  }

  /** The entry an operation has written, read back from the file. */
  ghost predicate FileCarries(setting: Setting, op: Op, before: Store, content: Option<FileContent>, now: string)
    requires !op.Look? && !op.Delete? && KindNamed(op.kind).Some?
  {
    var kind, id := KindNamed(op.kind).value, Target(setting, op);
    var had, has := EntriesOf(before, kind), EntriesOf(Loaded(setting, content, now), kind);
    && Names(setting, op, kind, id) && id in has
    && if id in had then CarriesUpdate(had[id], has[id], op.request, now)
       else CarriesNew(setting, kind, id, has[id], op.request, now)
  }

  lemma SavedCarries(setting: Setting, store: Store, op: Op, now: string)
    requires Filed(store) && Applied(setting, store, op, now).Changed? && !op.Delete?
    ensures !op.Look? && KindNamed(op.kind).Some?
    ensures FileCarries(setting, op, store, Some(Serialized(Applied(setting, store, op, now).store)), now)
  {
    AppliedChanges(setting, store, op, now);
    hide Applied;
    hide Target;
    hide EntriesOf;
    hide KindNamed;
    hide Loaded;
    hide Serialized;
    hide Filed;
    hide CarriesUpdate;
    hide CarriesNew;
    hide Names;
    var kind := KindNamed(op.kind).value;
    EffectOnEntry(setting, store, op, now, kind, Target(setting, op));
    AppliedKeepsFiled(setting, store, op, now);
    RoundTrip(setting, Applied(setting, store, op, now).store, now);
  }

  /** A file may hold an entry under the empty id. Updating that one makes a new entry under the title's slug. */
  lemma EmptyIdUpdatesElsewhere(setting: Setting, entry: Entry, request: Request, now: string)
    requires setting.slug(request.title, Prompt) == "note"
    ensures var before, after :=
            EMPTY_STORE.(prompt := map["" := entry]), NewEntry(setting, Prompt, "note", request, now);
            Applied(setting, before, Op.Update("prompt", "", request), now)
              == Changed(before.(prompt := map["" := entry, "note" := after]))
  {
    assert map["" := entry]["note" := NewEntry(setting, Prompt, "note", request, now)]
        == map["" := entry, "note" := NewEntry(setting, Prompt, "note", request, now)];
  }

  // The store in memory and in its file

  /** The file on disk: no content while it does not exist, and a fresh stamp for every write. */
  class StateFile {
    var content: Option<FileContent>
    var mtime: nat

    constructor ()
      ensures content.None? && mtime == 0
    {
      content, mtime := None, 0;
    }

    ghost predicate Stamped()
      reads this
    {
      content.None? <==> mtime == 0
    }
  }

  class HarnessState {
    const setting: Setting
    const file: StateFile
    var store: Store
    var loadedMtime: nat
    var loadedDigest: Option<FileContent>
    ghost var loadedAt: string

    constructor (setting: Setting, file: StateFile, now: string)
      requires file.Stamped()
      ensures this.file == file && this.setting == setting && Valid()
      ensures store == Loaded(setting, file.content, now)
    {
      this.setting, this.file := setting, file;
      store, loadedMtime, loadedDigest, loadedAt := EMPTY_STORE, 0, None, now;
      new;
      Load(now);
    }

    /** Memory is what was loaded, or the file has been written since. Writes by other processes keep this. */
    ghost predicate Valid()
      reads this, file
    {
      && file.Stamped() && loadedMtime <= file.mtime && Filed(store)
      && (store == Loaded(setting, loadedDigest, loadedAt) || loadedMtime < file.mtime)
    }

    method Load(now: string)
      requires file.Stamped()
      modifies this
      ensures Valid() && store == Loaded(setting, file.content, now) && loadedAt == now
      ensures loadedMtime == file.mtime && loadedDigest == file.content
    {
      LoadedIsFiled(setting, file.content, now);
      hide Loaded;
      store := Loaded(setting, file.content, now);
      loadedMtime, loadedDigest, loadedAt := file.mtime, file.content, now;
    }

    /** `_sync_from_disk`. */
    method SyncFromDisk(now: string)
      requires Valid()
      modifies this
      ensures Valid() && loadedDigest == file.content && store == Loaded(setting, file.content, loadedAt)
    {
      hide Loaded;
      if file.mtime != loadedMtime || file.content != loadedDigest {
        Load(now);
      }
    }

    /** `save`: replaces the file only if it still holds what was loaded. */
    method Save(now: string) returns (saved: bool)
      requires file.Stamped() && loadedMtime <= file.mtime && Filed(store)
      modifies this`loadedMtime, this`loadedDigest, this`loadedAt, file
      ensures saved <==> old(file.content) == old(loadedDigest)
      ensures saved ==> Valid() && file.content == Some(Serialized(store)) == loadedDigest && loadedMtime == file.mtime
      ensures !saved ==> file.content == old(file.content) && file.mtime == old(file.mtime)
                         && loadedMtime == old(loadedMtime) && loadedDigest == old(loadedDigest)
                         && loadedAt == old(loadedAt)
    {
      if file.content != loadedDigest {
        return false;
      }
      RoundTrip(setting, store, now);
      hide Loaded;
      hide Serialized;
      file.content, file.mtime := Some(Serialized(store)), file.mtime + 1;
      loadedDigest, loadedMtime, loadedAt := Some(Serialized(store)), file.mtime, now;
      saved := true;
    }

    /** What a write leaves in memory and in the file, given the outcome of its operation on the loaded store. */
    ghost predicate Written(outcome: Outcome, before: Store, contentBefore: Option<FileContent>)
      reads this, file
    {
      && store == (if outcome.Changed? then outcome.store else before)
      && file.content == if outcome.Changed? then Some(Serialized(outcome.store)) else contentBefore
    }

    /** The entry with the request's values; what the caller omitted stays. */
    static method Rewritten(existing: Entry, r: Request, now: string) returns (entry: Entry)
      ensures entry == UpdatedEntry(existing, r, now)
    {
      var details := existing.details;
      if r.reference.Some? {
        details := details.(reference := r.reference.value);
      }
      if r.arguments.Some? {
        details := details.(arguments := r.arguments.value);
      }
      if r.metadata.Some? {
        details := details.(metadata := r.metadata.value);
      }
      entry := existing.(title := r.title, content := r.content, details := details, source := r.source);
      if r.path.Some? {
        entry := entry.(path := r.path.value);
      }
      entry := entry.(dates := entry.dates.(updatedAt := Str(now)), version := entry.version + 1);
    }

    /** `_upsert`, after the sync: writes the entry and saves. */
    method UpsertEntry(kind: Kind, id: Option<string>, r: Request, now: string) returns (outcome: Outcome)
      requires Valid() && loadedDigest == file.content
      requires Filed(Upserted(setting, store, kind, id, r, now))
      modifies this, file
      ensures Valid()
      ensures outcome == Changed(Upserted(setting, old(store), kind, id, r, now))
      ensures Written(outcome, old(store), old(file.content))
    {
      var entryId := EntryId(setting, kind, r.title, id);
      var entries := EntriesOf(store, kind);
      var entry: Entry;
      if entryId in entries {
        entry := Rewritten(entries[entryId], r, now);
      } else {
        entry := NewEntry(setting, kind, entryId, r, now);
      }
      store := WithEntries(store, kind, entries[entryId := entry]);
      assert store == Upserted(setting, old(store), kind, id, r, now);
      outcome := Changed(store);
      hide *;
      var saved := Save(now);
    }

    /** `create`: fails when the id is taken. */
    method Create(kind: string, name: Option<string>, request: Request, now: string)
        returns (outcome: Outcome, ghost at: string)
      requires Valid()
      modifies this, file
      ensures Valid() && outcome
              == Applied(setting, Loaded(setting, old(file.content), at), Op.Create(kind, name, request), now)
      ensures outcome.Changed? ==>
                && KindNamed(kind).Some?
                && FileCarries(setting, Op.Create(kind, name, request), Loaded(setting, old(file.content), at),
                               file.content, now)
      ensures Written(outcome, Loaded(setting, old(file.content), at), old(file.content))
    {
      SyncFromDisk(now);
      at := loadedAt;
      ghost var op := Op.Create(kind, name, request);
      if Applied(setting, store, op, now).Changed? {
        AppliedKeepsFiled(setting, store, op, now);
        SavedCarries(setting, store, op, now);
      }
      hide FileCarries;
      hide Loaded;
      hide Filed;
      hide Upserted;
      hide Serialized;
      hide KindNamed;
      hide EntriesOf;
      var known := KindNamed(kind);
      if known.None? {
        return Failed(UnknownKind), at;
      }
      var entryId := EntryId(setting, known.value, request.title, name);
      if entryId in EntriesOf(store, known.value) {
        return Failed(AlreadyExists), at;
      }
      outcome := UpsertEntry(known.value, Some(entryId), request, now);
    }

    /** `update`: fails when the entry does not exist. */
    method Update(kind: string, id: string, request: Request, now: string) returns (outcome: Outcome, ghost at: string)
      requires Valid()
      modifies this, file
      ensures Valid() && outcome
              == Applied(setting, Loaded(setting, old(file.content), at), Op.Update(kind, id, request), now)
      ensures outcome.Changed? ==>
                && KindNamed(kind).Some?
                && FileCarries(setting, Op.Update(kind, id, request), Loaded(setting, old(file.content), at),
                               file.content, now)
      ensures Written(outcome, Loaded(setting, old(file.content), at), old(file.content))
    {
      SyncFromDisk(now);
      at := loadedAt;
      ghost var op := Op.Update(kind, id, request);
      if Applied(setting, store, op, now).Changed? {
        AppliedKeepsFiled(setting, store, op, now);
        SavedCarries(setting, store, op, now);
      }
      hide FileCarries;
      hide Loaded;
      hide Filed;
      hide Upserted;
      hide Serialized;
      hide KindNamed;
      hide EntriesOf;
      var known := KindNamed(kind);
      if known.None? {
        return Failed(UnknownKind), at;
      }
      if id !in EntriesOf(store, known.value) {
        return Failed(DoesNotExist), at;
      }
      outcome := UpsertEntry(known.value, Some(id), request, now);
    }

    /** `upsert`. */
    method Upsert(kind: string, name: Option<string>, request: Request, now: string)
        returns (outcome: Outcome, ghost at: string)
      requires Valid()
      modifies this, file
      ensures Valid() && outcome
              == Applied(setting, Loaded(setting, old(file.content), at), Op.Upsert(kind, name, request), now)
      ensures outcome.Changed? ==>
                && KindNamed(kind).Some?
                && FileCarries(setting, Op.Upsert(kind, name, request), Loaded(setting, old(file.content), at),
                               file.content, now)
      ensures Written(outcome, Loaded(setting, old(file.content), at), old(file.content))
    {
      SyncFromDisk(now);
      at := loadedAt;
      ghost var op := Op.Upsert(kind, name, request);
      if Applied(setting, store, op, now).Changed? {
        AppliedKeepsFiled(setting, store, op, now);
        SavedCarries(setting, store, op, now);
      }
      hide FileCarries;
      hide Loaded;
      hide Filed;
      hide Upserted;
      hide Serialized;
      hide KindNamed;
      hide EntriesOf;
      var known := KindNamed(kind);
      if known.None? {
        return Failed(UnknownKind), at;
      }
      outcome := UpsertEntry(known.value, name, request, now);
    }

    /** `delete`: refuses memory that an active evolution candidate has put in place. */
    method Delete(kind: string, id: string, now: string) returns (outcome: Outcome, ghost at: string)
      requires Valid()
      modifies this, file
      ensures Valid() && outcome == Applied(setting, Loaded(setting, old(file.content), at), Op.Delete(kind, id), now)
      ensures Written(outcome, Loaded(setting, old(file.content), at), old(file.content))
    {
      SyncFromDisk(now);
      at := loadedAt;
      ghost var op := Op.Delete(kind, id);
      if Applied(setting, store, op, now).Changed? {
        AppliedKeepsFiled(setting, store, op, now);
      }
      hide Loaded;
      hide Filed;
      hide Upserted;
      hide Serialized;
      hide KindNamed;
      hide EntriesOf;
      var known := KindNamed(kind);
      if known.None? {
        return Failed(UnknownKind), at;
      }
      var entries := EntriesOf(store, known.value);
      if id !in entries {
        return Unchanged, at;
      }
      if IsProtected(known.value, entries[id]) {
        return Failed(ActiveEvolution), at;
      }
      store := WithEntries(store, known.value, entries - {id});
      outcome := Changed(store);
      var saved := Save(now);
    }
  }
}
