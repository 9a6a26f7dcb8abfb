/** The tables, their constraints and the repository writes
    (sqlalchemy_models.py, repositories.py). Rows name their subject by its unique reference. */
module Database {
  import opened Domain
  import opened Memory
  import opened Records

  /** One row of memory_revisions. */
  datatype Revision = Revision(
    snapshot: MemoryRecord, actor: string, reason: string, transition: Option<TransitionType>, createdAt: Time)

  datatype Binding = Binding(memory: Id, evidence: Id)
  datatype RevisionKey = RevisionKey(memory: Id, revision: int)
  datatype StateLink = StateLink(state: StateKey, evidence: Id)
  datatype SnapshotKey = SnapshotKey(subject: SubjectRef, version: int)

  datatype Tables = Tables(
    subjects: map<SubjectRef, Option<Time>>,      // deleted_at
    entities: map<EntityRef, Entity>,
    events: map<Id, Event>,
    evidence: map<Id, Evidence>,
    memories: map<Id, MemoryRecord>,
    bindings: set<Binding>,                       // memory_evidence
    revisions: map<RevisionKey, Revision>,
    observations: map<Id, Observation>,
    states: map<StateKey, FeatureState>,
    stateEvidence: set<StateLink>,
    snapshots: map<SnapshotKey, Snapshot>,
    runs: map<Id, Run>,
    audit: map<Id, SubjectRef>)

  const EMPTY := Tables(map[], map[], map[], map[], map[], {}, map[], map[], map[], {}, map[], map[], map[])

  datatype Write =
    | AddSubject(ref: SubjectRef)
    | DeleteSubject(ref: SubjectRef, at: Time)
    | PutEntity(entity: Entity)
    | AddEvent(event: Event)
    | AddEvidence(evidence: Evidence)
    | AddMemory(memory: MemoryRecord)
    | UpdateMemory(after: MemoryRecord, expected: int)
    | BindEvidence(subject: SubjectRef, memoryId: Id, evidenceId: Id)
    | AddRevision(revision: Revision)
    | AddObservation(observation: Observation)
    | UpsertState(state: FeatureState)
    | AddSnapshot(snapshot: Snapshot)
    | PutRun(run: Run)

  predicate Live(db: Tables, ref: SubjectRef) { ref in db.subjects && db.subjects[ref].None? }

  function Bound(bindings: set<Binding>, memory: Id): (r: set<Id>)
    ensures forall e :: e in r <==> Binding(memory, e) in bindings
  {
    set b | b in bindings && b.memory == memory :: b.evidence
  }

  function BoundTo(db: Tables, memoryId: Id): set<Id> {
    Bound(db.bindings, memoryId)
  }

  /** The partial unique index uq_memories_active_slot admits this row. */
  predicate SlotFree(t: map<Id, MemoryRecord>, m: MemoryRecord) {
    m.state == Active ==> forall id | id in t && id != m.id && t[id].state == Active :: !SameIndexKey(t[id], m)
  }

  predicate ValueChecks(m: MemoryRecord) { 0.0 <= m.confidence <= 1.0 && m.revision >= 1 }

  function Check(condition: bool, rest: Option<Error>): Option<Error> {
    if condition then rest else Some(InvalidArgument)
  }

  /** The repository's checks, then the constraints hit when the row is flushed. The conditional UPDATE of a
      memory meets its constraints outside of any flush, and an invalid state cannot even be constructed. */
  function Refusal(db: Tables, w: Write): Option<Error> {
    match w
    case AddSubject(ref) => Check(ref !in db.subjects, None)
    case DeleteSubject(ref, at) => Check(ref in db.subjects, None)
    case PutEntity(e) => Check(Live(db, e.ref.subject), None)
    case AddEvent(e) =>
      if e.content.entity.Some? && e.content.entity.value.subject != e.subject then Some(TenantScopeViolation) else
        Check(Live(db, e.subject) && (e.content.entity.Some? ==> e.content.entity.value in db.entities),
              Check(e.id !in db.events && EventKeyFree(db.events, e.subject, e.source, e.idempotencyKey), None))
    case AddEvidence(e) =>
      Check(Live(db, e.subject) && (e.eventId.Some? ==> OwnsEvent(db, e.subject, e.eventId.value)),
            Check(e.id !in db.evidence && SourceFree(db.evidence, e.subject, e.sourceType, e.sourceRef), None))
    case AddMemory(m) =>
      Check(Live(db, m.subject), Check(m.id !in db.memories && SlotFree(db.memories, m) && ValueChecks(m), None))
    case UpdateMemory(m, expected) =>
      if !(Live(db, m.subject) && OwnsMemory(db, m.subject, m.id)) then Some(InvalidArgument) else
        if db.memories[m.id].revision != expected then Some(RevisionConflict(expected, db.memories[m.id].revision)) else
          Check(m.revision == expected + 1,
                if SlotFree(db.memories, m) && ValueChecks(m) then None else Some(ConstraintViolation))
    case BindEvidence(subject, memoryId, evidenceId) =>
      Check(Live(db, subject) && OwnsMemory(db, subject, memoryId) && OwnsEvidence(db, subject, evidenceId), None)
    case AddRevision(r) =>
      Check(Live(db, r.snapshot.subject) && OwnsMemory(db, r.snapshot.subject, r.snapshot.id)
            && RevisionKey(r.snapshot.id, r.snapshot.revision) !in db.revisions, None)
    case AddObservation(o) =>
      Check(Live(db, o.subject) && OwnsEvent(db, o.subject, o.eventId) && OwnsEvidence(db, o.subject, o.evidenceId),
            Check(o.id !in db.observations && IdentityFree(db.observations, o), None))
    case UpsertState(s) =>
      if !StateValid(s.draft) then Some(Validation) else
        Check(Live(db, s.subject) && forall e | e in s.draft.evidenceIds :: OwnsEvidence(db, s.subject, e), None)
    case AddSnapshot(p) =>
      Check(Live(db, p.subject) && forall k | k in db.snapshots && k.subject == p.subject :: k.version < p.version,
            None)
    case PutRun(r) =>
      Check(Live(db, r.subject) && (r.id in db.runs ==> db.runs[r.id].subject == r.subject), None)
  }

  function Effect(db: Tables, w: Write): Tables {
    match w
    case AddSubject(ref) => db.(subjects := db.subjects[ref := None])
    case DeleteSubject(ref, at) => db.(subjects := db.subjects[ref := Some(at)])
    case PutEntity(e) => db.(entities := db.entities[e.ref := e])
    case AddEvent(e) => db.(events := db.events[e.id := e])
    case AddEvidence(e) => db.(evidence := db.evidence[e.id := e])
    case AddMemory(m) => db.(memories := db.memories[m.id := m])
    case UpdateMemory(m, _) => db.(memories := db.memories[m.id := m])
    case BindEvidence(_, memoryId, evidenceId) => db.(bindings := db.bindings + {Binding(memoryId, evidenceId)})
    case AddRevision(r) => db.(revisions := db.revisions[RevisionKey(r.snapshot.id, r.snapshot.revision) := r])
    case AddObservation(o) => db.(observations := db.observations[o.id := o])
    case UpsertState(s) =>
      db.(states := db.states[s.Key() := s], stateEvidence := Relinked(db.stateEvidence, s.Key(), s.draft.evidenceIds))
    case AddSnapshot(p) => db.(snapshots := db.snapshots[SnapshotKey(p.subject, p.version) := p])
    case PutRun(r) => db.(runs := db.runs[r.id := r])
  }

  /** The old evidence links of one state are deleted and the new ones added. */
  function Relinked(links: set<StateLink>, key: StateKey, ids: seq<Id>): (r: set<StateLink>)
    ensures forall l :: l in r <==> if l.state == key then l.evidence in ids else l in links
  {
    (set l | l in links && l.state != key) + (set e | e in ids :: StateLink(key, e))
  }

  /** One repository call. */
  function Apply(db: Tables, w: Write): Result<Tables> {
    var refusal := Refusal(db, w);
    if refusal.Some? then Err(refusal.value) else Ok(Effect(db, w))
  }

  /** ensure_in_uow */
  function EnsuredSubject(db: Tables, ref: SubjectRef): Result<Tables> {
    if ref !in db.subjects then Apply(db, AddSubject(ref)) else if Live(db, ref) then Ok(db) else Err(SubjectDeleted)
  }

  lemma EnsuredParts(db: Tables, ref: SubjectRef)
    requires EnsuredSubject(db, ref).Ok?
    ensures var d := EnsuredSubject(db, ref).value;
            d == db.(subjects := d.subjects) && Live(d, ref) && (ref in db.subjects ==> d == db)
  {
  }

  predicate OwnsEvent(db: Tables, ref: SubjectRef, id: Id) { id in db.events && db.events[id].subject == ref }
  predicate OwnsEvidence(db: Tables, ref: SubjectRef, id: Id) { id in db.evidence && db.evidence[id].subject == ref }
  predicate OwnsMemory(db: Tables, ref: SubjectRef, id: Id) { id in db.memories && db.memories[id].subject == ref }

  predicate EventKeyFree(t: map<Id, Event>, ref: SubjectRef, source: string, key: string) {
    forall id | id in t :: !HasEventKey(t[id], ref, source, key)
  }
  predicate HasEventKey(e: Event, ref: SubjectRef, source: string, key: string) {
    e.subject == ref && e.source == source && e.idempotencyKey == key
  }
  predicate SourceFree(t: map<Id, Evidence>, ref: SubjectRef, sourceType: SourceType, sourceRef: string) {
    forall id | id in t :: !HasSource(t[id], ref, sourceType, sourceRef)
  }
  predicate HasSource(e: Evidence, ref: SubjectRef, sourceType: SourceType, sourceRef: string) {
    e.subject == ref && e.sourceType == sourceType && e.sourceRef == sourceRef
  }
  predicate IdentityFree(t: map<Id, Observation>, o: Observation) {
    forall id | id in t :: t[id].Identity() != o.Identity()
  }

  /** A transaction's statements in order; the first failure ends it. */
  function ApplyAll(db: Tables, ws: seq<Write>): Result<Tables>
    decreases |ws|
  {
    if ws == [] then Ok(db) else
      var next :- Apply(db, ws[0]);
      ApplyAll(next, ws[1..])
  }

  lemma {:induction false} ApplyAllConcat(db: Tables, a: seq<Write>, b: seq<Write>)
    ensures ApplyAll(db, a).Ok? ==> ApplyAll(db, a + b) == ApplyAll(ApplyAll(db, a).value, b)
    ensures ApplyAll(db, a).Err? ==> ApplyAll(db, a + b) == ApplyAll(db, a)
    decreases |a|
  {
    if a == [] {
      assert a + b == b;
    } else {
      assert (a + b)[0] == a[0] && (a + b)[1..] == a[1..] + b;
      if Apply(db, a[0]).Ok? {
        ApplyAllConcat(Apply(db, a[0]).value, a[1..], b);
      }
    }
  }

  /* ---- what the schema alone guarantees ---- */

  /** Rows are stored under their own key. */
  ghost predicate Keyed(db: Tables) { FactsKeyed(db) && DerivedKeyed(db) }
  ghost predicate FactsKeyed(db: Tables) {
    && (forall r | r in db.entities :: db.entities[r].ref == r)
    && EventsKeyed(db.events) && EvidenceKeyed(db.evidence)
    && MemoriesKeyed(db.memories) && RevisionsKeyed(db.revisions)
  }
  ghost predicate DerivedKeyed(db: Tables) {
    && StatesKeyed(db.states) && SnapshotsKeyed(db.snapshots)
    && (forall id | id in db.observations :: db.observations[id].id == id)
    && (forall id | id in db.runs :: db.runs[id].id == id)
  }
  ghost predicate EventsKeyed(t: map<Id, Event>) { forall id | id in t :: t[id].id == id }
  ghost predicate EvidenceKeyed(t: map<Id, Evidence>) { forall id | id in t :: t[id].id == id }
  ghost predicate MemoriesKeyed(t: map<Id, MemoryRecord>) { forall id | id in t :: t[id].id == id }
  ghost predicate RevisionsKeyed(t: map<RevisionKey, Revision>) {
    forall k | k in t :: t[k].snapshot.id == k.memory && t[k].snapshot.revision == k.revision
  }
  ghost predicate StatesKeyed(t: map<StateKey, FeatureState>) { forall k | k in t :: t[k].Key() == k }
  ghost predicate SnapshotsKeyed(t: map<SnapshotKey, Snapshot>) {
    forall k | k in t :: t[k].subject == k.subject && t[k].version == k.version
  }

  /** Every foreign key names a row, and both ends belong to one subject. */
  ghost predicate References(db: Tables) {
    FactReferences(db) && MemoryReferences(db) && FeatureReferences(db) && OwnerReferences(db)
  }
  ghost predicate FactReferences(db: Tables) {
    && EntitiesOwned(db.entities, db.subjects)
    && EventsRefer(db.events, db.subjects, db.entities)
    && EvidenceRefers(db.evidence, db.subjects, db.events)
  }
  ghost predicate MemoryReferences(db: Tables) {
    && MemoriesOwned(db.memories, db.subjects)
    && BindingsRefer(db.bindings, db.memories, db.evidence)
    && RevisionsRefer(db.revisions, db.memories)
  }
  ghost predicate FeatureReferences(db: Tables) {
    && ObservationsRefer(db.observations, db.subjects, db.events, db.evidence)
    && StateEvidenceRefers(db.stateEvidence, db.states, db.evidence)
  }
  ghost predicate OwnerReferences(db: Tables) {
    && StatesOwned(db.states, db.subjects) && SnapshotsOwned(db.snapshots, db.subjects)
    && RunsOwned(db.runs, db.subjects) && AuditOwned(db.audit, db.subjects)
  }
  ghost predicate StatesOwned(t: map<StateKey, FeatureState>, subjects: map<SubjectRef, Option<Time>>) {
    forall k | k in t :: k.subject in subjects
  }
  ghost predicate SnapshotsOwned(t: map<SnapshotKey, Snapshot>, subjects: map<SubjectRef, Option<Time>>) {
    forall k | k in t :: k.subject in subjects
  }
  ghost predicate RunsOwned(t: map<Id, Run>, subjects: map<SubjectRef, Option<Time>>) {
    forall id | id in t :: t[id].subject in subjects
  }
  ghost predicate AuditOwned(t: map<Id, SubjectRef>, subjects: map<SubjectRef, Option<Time>>) {
    forall id | id in t :: t[id] in subjects
  }
  ghost predicate EntitiesOwned(t: map<EntityRef, Entity>, subjects: map<SubjectRef, Option<Time>>) {
    forall r | r in t :: r.subject in subjects
  }
  ghost predicate MemoriesOwned(t: map<Id, MemoryRecord>, subjects: map<SubjectRef, Option<Time>>) {
    forall id | id in t :: t[id].subject in subjects
  }
  ghost predicate EventsRefer(t: map<Id, Event>, subjects: map<SubjectRef, Option<Time>>,
                              entities: map<EntityRef, Entity>)
  {
    forall id | id in t :: t[id].subject in subjects && EntityRefers(t[id], entities)
  }
  predicate EntityRefers(e: Event, entities: map<EntityRef, Entity>) {
    e.content.entity.Some? ==> e.content.entity.value in entities && e.content.entity.value.subject == e.subject
  }
  ghost predicate EvidenceRefers(t: map<Id, Evidence>, subjects: map<SubjectRef, Option<Time>>,
                                 events: map<Id, Event>)
  {
    forall id | id in t :: t[id].subject in subjects && EventRefers(t[id], events)
  }
  predicate EventRefers(e: Evidence, events: map<Id, Event>) {
    e.eventId.Some? ==> e.eventId.value in events && events[e.eventId.value].subject == e.subject
  }
  ghost predicate BindingsRefer(t: set<Binding>, memories: map<Id, MemoryRecord>, evidence: map<Id, Evidence>) {
    forall b | b in t ::
      b.memory in memories && b.evidence in evidence && memories[b.memory].subject == evidence[b.evidence].subject
  }
  ghost predicate RevisionsRefer(t: map<RevisionKey, Revision>, memories: map<Id, MemoryRecord>) {
    forall k | k in t :: k.memory in memories && memories[k.memory].subject == t[k].snapshot.subject
  }
  ghost predicate ObservationsRefer(t: map<Id, Observation>, subjects: map<SubjectRef, Option<Time>>,
                                    events: map<Id, Event>, evidence: map<Id, Evidence>) {
    forall id | id in t ::
      && t[id].subject in subjects
      && t[id].eventId in events && events[t[id].eventId].subject == t[id].subject
      && t[id].evidenceId in evidence && evidence[t[id].evidenceId].subject == t[id].subject
  }
  ghost predicate StateEvidenceRefers(t: set<StateLink>, states: map<StateKey, FeatureState>,
                                      evidence: map<Id, Evidence>)
  {
    forall l | l in t :: l.state in states && l.evidence in evidence && evidence[l.evidence].subject == l.state.subject
  }

  /** The unique constraints. */
  ghost predicate UniqueKeys(db: Tables) {
    EventKeysUnique(db.events) && SourcesUnique(db.evidence) && SlotsUnique(db.memories)
      && IdentitiesUnique(db.observations)
  }
  ghost predicate EventKeysUnique(t: map<Id, Event>) {
    forall i, j | i in t && j in t && i != j :: !HasEventKey(t[i], t[j].subject, t[j].source, t[j].idempotencyKey)
  }
  ghost predicate SourcesUnique(t: map<Id, Evidence>) {
    forall i, j | i in t && j in t && i != j :: !HasSource(t[i], t[j].subject, t[j].sourceType, t[j].sourceRef)
  }
  ghost predicate SlotsUnique(t: map<Id, MemoryRecord>) {
    forall i, j | i in t && j in t && i != j && t[i].state == Active && t[j].state == Active ::
        !SameIndexKey(t[i], t[j])
  }
  ghost predicate IdentitiesUnique(t: map<Id, Observation>) {
    forall i, j | i in t && j in t && i != j :: t[i].Identity() != t[j].Identity()
  }

  /** The validators of the stored states. */
  ghost predicate StatesValid(t: map<StateKey, FeatureState>) { forall k | k in t :: StateValid(t[k].draft) }

  ghost predicate Consistent(db: Tables) { Keyed(db) && References(db) && UniqueKeys(db) && StatesValid(db.states) }

  lemma Applied(db: Tables, w: Write)
    requires Apply(db, w).Ok?
    ensures Refusal(db, w) == None && Apply(db, w).value == Effect(db, w)
  {
    hide Refusal, Effect;
  }

  /* what a call that is not refused has checked */

  lemma EventChecked(db: Tables, e: Event)
    requires Refusal(db, AddEvent(e)) == None
    ensures e.subject in db.subjects && EntityRefers(e, db.entities) && e.id !in db.events
  {
    hide EventKeyFree;
  }

  lemma EvidenceChecked(db: Tables, e: Evidence)
    requires Refusal(db, AddEvidence(e)) == None
    ensures e.subject in db.subjects && EventRefers(e, db.events) && e.id !in db.evidence
  {
    hide SourceFree;
  }

  lemma MemoryChecked(db: Tables, m: MemoryRecord, expected: int)
    ensures Refusal(db, AddMemory(m)) == None ==> m.subject in db.subjects && m.id !in db.memories
    ensures Refusal(db, UpdateMemory(m, expected)) == None ==>
              m.subject in db.subjects && OwnsMemory(db, m.subject, m.id)
  {
    hide SlotFree, ValueChecks;
  }

  lemma ObservationChecked(db: Tables, o: Observation)
    requires Refusal(db, AddObservation(o)) == None
    ensures o.subject in db.subjects && OwnsEvent(db, o.subject, o.eventId) && OwnsEvidence(db, o.subject, o.evidenceId)
  {
    hide IdentityFree;
  }

  lemma StateChecked(db: Tables, s: FeatureState)
    requires Refusal(db, UpsertState(s)) == None
    ensures StateValid(s.draft) && s.subject in db.subjects && forall e | e in s.draft.evidenceIds ::
              OwnsEvidence(db, s.subject, e)
  {
    hide StateValid;
  }

  /* rows under their own keys */

  lemma PutKeyed(db: Tables, w: Write)
    ensures EventsKeyed(db.events) && w.AddEvent? ==> EventsKeyed(db.events[w.event.id := w.event])
    ensures EvidenceKeyed(db.evidence) && w.AddEvidence? ==> EvidenceKeyed(db.evidence[w.evidence.id := w.evidence])
    ensures MemoriesKeyed(db.memories) && w.AddMemory? ==> MemoriesKeyed(db.memories[w.memory.id := w.memory])
    ensures MemoriesKeyed(db.memories) && w.UpdateMemory? ==> MemoriesKeyed(db.memories[w.after.id := w.after])
    ensures RevisionsKeyed(db.revisions) && w.AddRevision? ==>
              RevisionsKeyed(db.revisions[RevisionKey(w.revision.snapshot.id, w.revision.snapshot.revision) :=
                  w.revision])
  {
  }

  lemma ApplyKeepsFactsKeyed(db: Tables, w: Write)
    requires FactsKeyed(db) && Apply(db, w).Ok?
    ensures FactsKeyed(Apply(db, w).value)
  {
    hide Apply, Refusal, EventsKeyed, EvidenceKeyed, MemoriesKeyed, RevisionsKeyed, Relinked;
    Applied(db, w);
    PutKeyed(db, w);
    match w
    case _ =>
  }

  lemma ApplyKeepsDerivedKeyed(db: Tables, w: Write)
    requires DerivedKeyed(db) && Apply(db, w).Ok?
    ensures DerivedKeyed(Apply(db, w).value)
  {
    hide Apply, Refusal, Relinked, StatesKeyed, SnapshotsKeyed;
    Applied(db, w);
    match w
    case UpsertState(s) => StateKeyed(db.states, s);
    case AddSnapshot(p) => SnapshotKeyed(db.snapshots, p);
    case _ =>
  }

  lemma StateKeyed(t: map<StateKey, FeatureState>, s: FeatureState)
    requires StatesKeyed(t)
    ensures StatesKeyed(t[s.Key() := s])
  {
  }

  lemma SnapshotKeyed(t: map<SnapshotKey, Snapshot>, p: Snapshot)
    requires SnapshotsKeyed(t)
    ensures SnapshotsKeyed(t[SnapshotKey(p.subject, p.version) := p])
  {
  }

  /* references */

  lemma SubjectsGrow(db: Tables, subjects: map<SubjectRef, Option<Time>>)
    requires db.subjects.Keys <= subjects.Keys
    ensures FactReferences(db) ==> FactReferences(db.(subjects := subjects))
    ensures MemoryReferences(db) ==> MemoryReferences(db.(subjects := subjects))
  {
  }

  lemma SubjectsGrowFurther(db: Tables, subjects: map<SubjectRef, Option<Time>>)
    requires db.subjects.Keys <= subjects.Keys
    ensures FeatureReferences(db) ==> FeatureReferences(db.(subjects := subjects))
    ensures OwnerReferences(db) ==> OwnerReferences(db.(subjects := subjects))
  {
  }

  lemma EntitiesGrow(db: Tables, e: Entity)
    requires FactReferences(db) && e.ref.subject in db.subjects
    ensures FactReferences(db.(entities := db.entities[e.ref := e]))
  {
  }

  lemma EventsGrow(db: Tables, e: Event)
    requires FactReferences(db) && e.subject in db.subjects && EntityRefers(e, db.entities) && e.id !in db.events
    ensures FactReferences(db.(events := db.events[e.id := e]))
  {
    hide EntityRefers;
  }

  lemma EvidenceGrows(db: Tables, e: Evidence)
    requires FactReferences(db) && e.subject in db.subjects && EventRefers(e, db.events)
    ensures FactReferences(db.(evidence := db.evidence[e.id := e]))
  {
    hide EventRefers, EventsRefer;
  }

  lemma ApplyKeepsFactReferences(db: Tables, w: Write)
    requires FactReferences(db) && Apply(db, w).Ok?
    ensures FactReferences(Apply(db, w).value)
  {
    hide Apply, Refusal, EntitiesOwned, EventsRefer, EvidenceRefers, EntityRefers, EventRefers, Relinked;
    Applied(db, w);
    match w
    case AddSubject(ref) => SubjectsGrow(db, db.subjects[ref := None]);
    case DeleteSubject(ref, at) => SubjectsGrow(db, db.subjects[ref := Some(at)]);
    case PutEntity(e) =>
      EntityChecked(db, e);
      EntitiesGrow(db, e);
    case AddEvent(e) =>
      EventChecked(db, e);
      EventsGrow(db, e);
    case AddEvidence(e) =>
      EvidenceChecked(db, e);
      EvidenceGrows(db, e);
    case _ =>
  }

  lemma EntityChecked(db: Tables, e: Entity)
    requires Refusal(db, PutEntity(e)) == None
    ensures e.ref.subject in db.subjects
  {
  }

  lemma PutMemoryKeepsReferences(db: Tables, m: MemoryRecord)
    requires MemoryReferences(db) && m.subject in db.subjects
    requires m.id in db.memories ==> db.memories[m.id].subject == m.subject
    ensures MemoryReferences(db.(memories := db.memories[m.id := m]))
  {
  }

  lemma EvidenceAppears(db: Tables, e: Evidence)
    requires e.id !in db.evidence
    ensures MemoryReferences(db) ==> MemoryReferences(db.(evidence := db.evidence[e.id := e]))
    ensures FeatureReferences(db) ==> FeatureReferences(db.(evidence := db.evidence[e.id := e]))
  {
    hide MemoriesOwned, RevisionsRefer;
  }

  lemma BindingChecked(db: Tables, subject: SubjectRef, m: Id, e: Id)
    requires Refusal(db, BindEvidence(subject, m, e)) == None && MemoryReferences(db)
    ensures MemoryReferences(Effect(db, BindEvidence(subject, m, e)))
  {
    hide MemoriesOwned, RevisionsRefer;
  }

  lemma RevisionChecked(db: Tables, r: Revision)
    requires Refusal(db, AddRevision(r)) == None && MemoryReferences(db)
    ensures MemoryReferences(Effect(db, AddRevision(r)))
  {
    hide MemoriesOwned, BindingsRefer;
  }

  lemma ApplyKeepsMemoryReferences(db: Tables, w: Write)
    requires MemoryReferences(db) && Apply(db, w).Ok?
    ensures MemoryReferences(Apply(db, w).value)
  {
    hide Apply, Refusal, MemoriesOwned, BindingsRefer, RevisionsRefer, EventRefers, Relinked;
    Applied(db, w);
    match w
    case AddSubject(ref) => SubjectsGrow(db, db.subjects[ref := None]);
    case DeleteSubject(ref, at) => SubjectsGrow(db, db.subjects[ref := Some(at)]);
    case AddEvidence(e) =>
      EvidenceChecked(db, e);
      EvidenceAppears(db, e);
    case AddMemory(m) =>
      MemoryChecked(db, m, 0);
      PutMemoryKeepsReferences(db, m);
    case UpdateMemory(m, expected) =>
      MemoryChecked(db, m, expected);
      PutMemoryKeepsReferences(db, m);
    case BindEvidence(subject, m, e) => BindingChecked(db, subject, m, e);
    case AddRevision(r) => RevisionChecked(db, r);
    case _ =>
  }

  lemma EventAppears(db: Tables, e: Event)
    requires FeatureReferences(db) && e.id !in db.events
    ensures FeatureReferences(db.(events := db.events[e.id := e]))
  {
    hide StateEvidenceRefers;
  }

  lemma ObservationsGrow(db: Tables, o: Observation)
    requires FeatureReferences(db)
    requires o.subject in db.subjects && OwnsEvent(db, o.subject, o.eventId)
             && OwnsEvidence(db, o.subject, o.evidenceId)
    ensures FeatureReferences(db.(observations := db.observations[o.id := o]))
  {
    hide StateEvidenceRefers;
  }

  lemma StatesGrow(db: Tables, s: FeatureState)
    requires FeatureReferences(db) && forall e | e in s.draft.evidenceIds :: OwnsEvidence(db, s.subject, e)
    ensures FeatureReferences(Effect(db, UpsertState(s)))
  {
    hide ObservationsRefer;
  }

  lemma ApplyKeepsFeatureReferences(db: Tables, w: Write)
    requires FeatureReferences(db) && Apply(db, w).Ok?
    ensures FeatureReferences(Apply(db, w).value)
  {
    hide Apply, Refusal, ObservationsRefer, StateEvidenceRefers, EntityRefers, EventRefers, Relinked, OwnsEvent,
         OwnsEvidence, StateValid;
    Applied(db, w);
    match w
    case AddSubject(ref) => SubjectsGrowFurther(db, db.subjects[ref := None]);
    case DeleteSubject(ref, at) => SubjectsGrowFurther(db, db.subjects[ref := Some(at)]);
    case AddEvent(e) =>
      EventChecked(db, e);
      EventAppears(db, e);
    case AddEvidence(e) =>
      EvidenceChecked(db, e);
      EvidenceAppears(db, e);
    case AddObservation(o) =>
      ObservationChecked(db, o);
      ObservationsGrow(db, o);
    case UpsertState(s) =>
      StateChecked(db, s);
      StatesGrow(db, s);
    case _ =>
  }

  lemma OwnedPut(db: Tables, w: Write)
    requires OwnerReferences(db) && Refusal(db, w) == None && (w.UpsertState? || w.AddSnapshot? || w.PutRun?)
    ensures OwnerReferences(Effect(db, w))
  {
    hide StateValid, Relinked, AuditOwned;
  }

  lemma ApplyKeepsOwnerReferences(db: Tables, w: Write)
    requires OwnerReferences(db) && Apply(db, w).Ok?
    ensures OwnerReferences(Apply(db, w).value)
  {
    hide Apply, Refusal, StatesOwned, SnapshotsOwned, RunsOwned, AuditOwned, Relinked;
    Applied(db, w);
    match w
    case AddSubject(ref) => SubjectsGrowFurther(db, db.subjects[ref := None]);
    case DeleteSubject(ref, at) => SubjectsGrowFurther(db, db.subjects[ref := Some(at)]);
    case UpsertState(_) => OwnedPut(db, w);
    case AddSnapshot(_) => OwnedPut(db, w);
    case PutRun(_) => OwnedPut(db, w);
    case _ =>
  }

  /* unique keys */

  lemma EventKeysGrow(t: map<Id, Event>, e: Event)
    requires EventKeysUnique(t) && EventKeyFree(t, e.subject, e.source, e.idempotencyKey)
    ensures EventKeysUnique(t[e.id := e])
  {
  }

  lemma SourcesGrow(t: map<Id, Evidence>, e: Evidence)
    requires SourcesUnique(t) && SourceFree(t, e.subject, e.sourceType, e.sourceRef)
    ensures SourcesUnique(t[e.id := e])
  {
  }

  lemma SlotsGrow(t: map<Id, MemoryRecord>, m: MemoryRecord)
    requires SlotsUnique(t) && SlotFree(t, m)
    ensures SlotsUnique(t[m.id := m])
  {
  }

  lemma IdentitiesGrow(t: map<Id, Observation>, o: Observation)
    requires IdentitiesUnique(t) && IdentityFree(t, o)
    ensures IdentitiesUnique(t[o.id := o])
  {
  }

  lemma ApplyKeepsUnique(db: Tables, w: Write)
    requires UniqueKeys(db) && Apply(db, w).Ok?
    ensures UniqueKeys(Apply(db, w).value)
  {
    hide EventKeysUnique, SourcesUnique, SlotsUnique, IdentitiesUnique, EventKeyFree, SourceFree, SlotFree,
         IdentityFree;
    match w
    case AddEvent(e) => EventKeysGrow(db.events, e);
    case AddEvidence(e) => SourcesGrow(db.evidence, e);
    case AddMemory(m) => SlotsGrow(db.memories, m);
    case UpdateMemory(m, _) => SlotsGrow(db.memories, m);
    case AddObservation(o) => IdentitiesGrow(db.observations, o);
    case _ =>
  }

  lemma ApplyKeepsStatesValid(db: Tables, w: Write)
    requires StatesValid(db.states) && Apply(db, w).Ok?
    ensures StatesValid(Apply(db, w).value.states)
  {
    hide Apply, Refusal, StateValid, Relinked;
    Applied(db, w);
    if w.UpsertState? { StateChecked(db, w.state); }
  }

  /** After any sequence of repository calls references stay inside one subject and keys unique. */
  lemma {:induction false} WritesKeepConsistency(db: Tables, ws: seq<Write>)
    requires Consistent(db) && ApplyAll(db, ws).Ok?
    ensures Consistent(ApplyAll(db, ws).value)
    decreases |ws|
  {
    if ws != [] {
      ApplyKeepsFactsKeyed(db, ws[0]);
      ApplyKeepsDerivedKeyed(db, ws[0]);
      ApplyKeepsFactReferences(db, ws[0]);
      ApplyKeepsMemoryReferences(db, ws[0]);
      ApplyKeepsFeatureReferences(db, ws[0]);
      ApplyKeepsOwnerReferences(db, ws[0]);
      ApplyKeepsUnique(db, ws[0]);
      ApplyKeepsStatesValid(db, ws[0]);
      WritesKeepConsistency(Apply(db, ws[0]).value, ws[1..]);
    }
  }
}
