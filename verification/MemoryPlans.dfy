/** What each MemoryService operation writes, as a function of the data its transaction reads
    (application/memory_service.py). */
module MemoryPlans {
  import opened Domain
  import opened Sorting
  import opened Memory
  import opened Database

  const PAGE: nat := 200

  datatype Note = Note(actor: string, reason: string, at: Time)

  /** The units the service writes in: a transition with its audit row, a new record with its first row. */
  datatype Step =
    | EnsureSubject(ref: SubjectRef)
    | NewEvidence(evidence: Evidence)
    | Create(memory: MemoryRecord, bind: Option<Id>, note: Note)
    | Revise(before: MemoryRecord, after: MemoryRecord, change: Change, bind: Option<Id>, note: Note)

  function BindWrites(m: MemoryRecord, bind: Option<Id>): seq<Write> {
    if bind.None? then [] else [BindEvidence(m.subject, m.id, bind.value)]
  }

  function Audit(m: MemoryRecord, transition: Option<TransitionType>, note: Note): Revision {
    Revision(m, note.actor, note.reason, transition, note.at)
  }

  function Writes(step: Step): seq<Write> {
    match step
    case EnsureSubject(ref) => [AddSubject(ref)]
    case NewEvidence(e) => [AddEvidence(e)]
    case Create(m, bind, note) => [AddMemory(m)] + BindWrites(m, bind) + [AddRevision(Audit(m, None, note))]
    case Revise(b, a, c, bind, note) =>
      BindWrites(b, bind) + [UpdateMemory(a, b.revision)] + [AddRevision(Audit(a, TransitionOf(c), note))]
  }

  /** A transaction in progress: its working copy and what it has written. */
  datatype Session = Session(db: Tables, steps: seq<Step>)

  function Do(s: Session, step: Step): Result<Session> {
    var next :- ApplyAll(s.db, Writes(step));
    Ok(Session(next, s.steps + [step]))
  }

  /** The statements of a finished transaction, executed on some state of the tables. */
  function Run(db: Tables, steps: seq<Step>): Result<Tables>
    decreases |steps|
  {
    if steps == [] then Ok(db) else
      var next :- ApplyAll(db, Writes(steps[0]));
      Run(next, steps[1..])
  }

  /* ---- reads ---- */

  datatype MemoryFilter = MemoryFilter(
    states: Option<set<State>>, key: Option<string>, scope: Option<Scope>, scopeValue: Option<string>)

  /** A filter field that is None does not restrict, so scope_value=None admits every scope value. */
  predicate Matches(m: MemoryRecord, ref: SubjectRef, f: MemoryFilter) {
    && m.subject == ref
    && (f.states.Some? ==> m.state in f.states.value)
    && (f.key.Some? ==> m.key == f.key.value)
    && (f.scope.Some? ==> m.scope == f.scope.value)
    && (f.scopeValue.Some? ==> m.scopeValue == f.scopeValue)
  }

  /** ORDER BY updated_at DESC, id DESC */
  function NewestFirst(): (MemoryRecord, MemoryRecord) -> bool {
    (a: MemoryRecord, b: MemoryRecord) => a.updatedAt > b.updatedAt || (a.updatedAt == b.updatedAt && a.id >= b.id)
  }

  function Page<T>(rows: seq<T>, limit: nat, offset: nat): (r: seq<T>)
    ensures |r| == Max(0, Min(limit, |rows| - offset))
    ensures forall i | 0 <= i < |r| :: offset + i < |rows| && r[i] == rows[offset + i]
  {
    if |rows| <= offset then [] else if |rows| <= offset + limit then rows[offset..] else rows[offset..offset + limit]
  }

  function ListMemories(db: Tables, ref: SubjectRef, f: MemoryFilter, limit: nat, offset: nat): seq<MemoryRecord> {
    if !Live(db, ref) then [] else
      Page(Sort(Filter(Rows(db.memories), (m: MemoryRecord) => Matches(m, ref, f)), NewestFirst()), limit, offset)
  }

  function SlotFilter(key: string, scope: Scope, value: Option<string>, states: set<State>): MemoryFilter {
    MemoryFilter(Some(states), Some(key), Some(scope), value)
  }

  function FindExactSlot(db: Tables, ref: SubjectRef, key: string, scope: Scope, value: Option<string>,
                         states: set<State>): Option<MemoryRecord>
  {
    var values := ListMemories(db, ref, SlotFilter(key, scope, value, states), PAGE, 0);
    var active := Filter(values, (m: MemoryRecord) => m.state == Active);
    if active != [] then Some(active[0]) else if values != [] then Some(values[0]) else None
  }

  function RequireSubject(db: Tables, ref: SubjectRef): Result<()> {
    if ref !in db.subjects then Err(SubjectNotFound) else Require(Live(db, ref), SubjectDeleted)
  }

  function GetMemory(db: Tables, ref: SubjectRef, id: Id): Result<MemoryRecord> {
    if Live(db, ref) && OwnsMemory(db, ref, id) then Ok(db.memories[id]) else Err(MemoryNotFound)
  }

  function EnsureSubjectIn(s: Session, ref: SubjectRef): Result<Session> {
    if ref !in s.db.subjects then Do(s, EnsureSubject(ref))
    else if Live(s.db, ref) then Ok(s) else Err(SubjectDeleted)
  }

  /* ---- evidence ---- */

  datatype EvidenceInput = EvidenceInput(
    sourceType: SourceType, sourceRef: string, eventId: Option<Id>, excerpt: Option<string>, metadata: string,
    occurredAt: Time)

  function BuildEvidence(ref: SubjectRef, i: EvidenceInput, id: Id, now: Time): Evidence {
    Evidence(id, ref, i.sourceType, i.sourceRef, i.eventId, i.excerpt, i.metadata, i.occurredAt, now)
  }

  function FindSource(db: Tables, ref: SubjectRef, i: EvidenceInput): Option<Evidence> {
    FindRow(db.evidence, (e: Evidence) => HasSource(e, ref, i.sourceType, i.sourceRef))
  }

  function GetOrCreateEvidence(s: Session, ref: SubjectRef, i: EvidenceInput, id: Id,
                               now: Time): Result<(Session, Evidence)>
  {
    var existing := FindSource(s.db, ref, i);
    if existing.Some? then Ok((s, existing.value)) else
      var e := BuildEvidence(ref, i, id, now);
      var s' :- Do(s, NewEvidence(e));
      Ok((s', e))
  }

  function GetOrCreateOptional(s: Session, ref: SubjectRef, i: Option<EvidenceInput>, id: Id,
                               now: Time): Result<(Session, Option<Evidence>)>
  {
    if i.None? then Ok((s, None)) else
      var (s', e) :- GetOrCreateEvidence(s, ref, i.value, id, now);
      Ok((s', Some(e)))
  }

  function BindAndCount(s: Session, m: MemoryRecord, evidence: Option<Evidence>,
                        note: Note): Result<(Session, MemoryRecord)>
  {
    if evidence.None? || evidence.value.id in BoundTo(s.db, m.id) then Ok((s, m)) else
      var a :- Validated(m.(evidenceCount := m.evidenceCount + 1, revision := m.revision + 1, updatedAt := note.at));
      var s' :- Do(s, Revise(m, a, Evidencing, Some(evidence.value.id), note));
      Ok((s', a))
  }

  /* ---- add_memory ---- */

  datatype CreateInput = CreateInput(
    key: string, kind: Kind, content: string, structured: Option<string>, target: Option<Target>, polarity: Polarity,
    scope: Scope, scopeValue: Option<string>, confidence: real, validFrom: Option<Time>, validUntil: Option<Time>,
    evidence: Option<EvidenceInput>)

  function ExplicitMemory(ref: SubjectRef, i: CreateInput, id: Id, evidenceCount: nat, now: Time): MemoryRecord {
    MemoryRecord(id, ref, i.key, i.kind, i.content, i.structured, i.target,
                 Explicit, i.polarity, i.scope, i.scopeValue, i.confidence, Active,
                 i.validFrom, i.validUntil, evidenceCount, 1, now, now, None)
  }

  function EvidenceId(e: Option<Evidence>): Option<Id> { if e.None? then None else Some(e.value.id) }

  function AddPlan(s: Session, ref: SubjectRef, i: CreateInput, memoryId: Id, evidenceId: Id,
                   note: Note): Result<(Session, MemoryRecord)>
  {
    var s1 :- EnsureSubjectIn(s, ref);
    var (s2, evidence) :- GetOrCreateOptional(s1, ref, i.evidence, evidenceId, note.at);
    var existing := FindExactSlot(s2.db, ref, i.key, i.scope, i.scopeValue, {Active});
    if existing.Some? && existing.value.content == i.content then
      BindAndCount(s2, existing.value, evidence, note)
    else
      var m :- Validated(ExplicitMemory(ref, i, memoryId, if evidence.Some? then 1 else 0, note.at));
      var s3 :- Displace(s2, existing, m, note);
      var s4 :- Do(s3, Create(m, EvidenceId(evidence), note));
      Ok((s4, m))
  }

  function Displace(s: Session, existing: Option<MemoryRecord>, m: MemoryRecord, note: Note): Result<Session> {
    if existing.None? then Ok(s) else
      var a :- SupersedeMemory(existing.value, m, existing.value.revision, note.at);
      Do(s, Revise(existing.value, a, Superseding, None, note))
  }

  /* ---- patch_memory ---- */

  /** A field of a patch: left out, or set, possibly to null. */
  datatype Field<+T> = Unset | Set(to: Option<T>)

  datatype Patch = Patch(
    content: Field<string>, structured: Field<string>, target: Field<Target>, polarity: Field<Polarity>,
    scope: Field<Scope>, scopeValue: Field<string>, confidence: Field<real>,
    validFrom: Field<Time>, validUntil: Field<Time>)

  function Nullable<T>(f: Field<T>, kept: Option<T>): Option<T> { if f.Unset? then kept else f.to }

  predicate NullSet<T>(f: Field<T>) { f.Set? && f.to.None? }

  function Required<T>(f: Field<T>, kept: T): T { if f.Set? && f.to.Some? then f.to.value else kept }

  predicate EmptyPatch(p: Patch) {
    && p.content.Unset? && p.structured.Unset? && p.target.Unset? && p.polarity.Unset? && p.scope.Unset?
    && p.scopeValue.Unset? && p.confidence.Unset? && p.validFrom.Unset? && p.validUntil.Unset?
  }

  function Patched(m: MemoryRecord, p: Patch, now: Time): Result<MemoryRecord> {
    var _ :- Require(!NullSet(p.content) && !NullSet(p.polarity) && !NullSet(p.scope) && !NullSet(p.confidence),
                     Validation);
    Validated(m.(content := Required(p.content, m.content), structured := Nullable(p.structured, m.structured),
              target := Nullable(p.target, m.target), polarity := Required(p.polarity, m.polarity),
              scope := Required(p.scope, m.scope), scopeValue := Nullable(p.scopeValue, m.scopeValue),
              confidence := Required(p.confidence, m.confidence),
              validFrom := Nullable(p.validFrom, m.validFrom), validUntil := Nullable(p.validUntil, m.validUntil),
              revision := m.revision + 1, updatedAt := now))
  }

  function PatchPlan(s: Session, ref: SubjectRef, id: Id, p: Patch, expected: int,
                     note: Note): Result<(Session, MemoryRecord)>
  {
    var _ :- RequireSubject(s.db, ref);
    var m :- GetMemory(s.db, ref, id);
    var _ :- CheckRevision(m, expected);
    if EmptyPatch(p) then Ok((s, m)) else
      var a :- Patched(m, p, note.at);
      var s' :- Do(s, Revise(m, a, Patching, None, note));
      Ok((s', a))
  }

  /* ---- confirm, delete, restore ---- */

  function ConfirmPlan(s: Session, ref: SubjectRef, id: Id, expected: int, canConfirm: bool,
                       note: Note): Result<(Session, MemoryRecord)>
  {
    var _ :- RequireSubject(s.db, ref);
    var m :- GetMemory(s.db, ref, id);
    var _ :- Require(canConfirm, MemoryProtection);
    var a :- ConfirmMemory(m, expected, note.at);
    var s' :- Do(s, Revise(m, a, Confirming, None, note));
    Ok((s', a))
  }

  function DeletePlan(s: Session, ref: SubjectRef, id: Id, expected: int, note: Note): Result<(Session, MemoryRecord)> {
    var _ :- RequireSubject(s.db, ref);
    var m :- GetMemory(s.db, ref, id);
    var a :- SoftDeleteMemory(m, expected, note.at);
    var s' :- Do(s, Revise(m, a, Deleting, None, note));
    Ok((s', a))
  }

  function RestorePlan(s: Session, ref: SubjectRef, id: Id, expected: int,
                       note: Note): Result<(Session, MemoryRecord)>
  {
    var _ :- RequireSubject(s.db, ref);
    var m :- GetMemory(s.db, ref, id);
    var _ :- Require(RevisionKey(id, m.revision - 1) in s.db.revisions, MemoryTransition);
    var previous := s.db.revisions[RevisionKey(id, m.revision - 1)].snapshot;
    var _ :- Require(previous.subject == ref, TenantScopeViolation);
    var a :- RestoreMemory(m, previous.state, expected, note.at);
    var s' :- Do(s, Revise(m, a, Restoring, None, note));
    Ok((s', a))
  }

  /* ---- extract_memories, the writing phase ---- */

  /** One validated extraction, with the merge strategy's answer and the ids to use. */
  datatype Extraction = Extraction(
    candidate: MemoryCandidate, evidence: EvidenceInput, suggestion: Option<MemoryRecord>, memoryId: Id, evidenceId: Id)

  function MergeTarget(s: Session, ref: SubjectRef, x: Extraction): Result<Option<MemoryRecord>> {
    var exact := FindExactSlot(s.db, ref, x.candidate.key, x.candidate.scope, x.candidate.scopeValue,
                               {Active, Candidate});
    if exact.Some? || x.suggestion.None? then Ok(exact) else
      var _ :- Require(x.suggestion.value.subject == ref, TenantScopeViolation);
      var _ :- Require(Live(s.db, ref) && OwnsMemory(s.db, ref, x.suggestion.value.id), ProviderInvalidResponse);
      Ok(Some(s.db.memories[x.suggestion.value.id]))
  }

  function Merge(s: Session, m: MemoryRecord, confidence: real, evidence: Evidence,
                 note: Note): Result<(Session, MemoryRecord)>
  {
    var isNew := evidence.id !in BoundTo(s.db, m.id);
    var raises := m.authority == Inferred && m.state == Candidate && confidence > m.confidence;
    if !isNew && !raises then Ok((s, m)) else
      var a :- Validated(m.(confidence := if raises then confidence else m.confidence,
                         evidenceCount := m.evidenceCount + if isNew then 1 else 0,
                         revision := m.revision + 1, updatedAt := note.at));
      var s' :- Do(s, Revise(m, a, Evidencing, Some(evidence.id), note));
      Ok((s', a))
  }

  function ExtractOne(s: Session, ref: SubjectRef, x: Extraction, note: Note): Result<(Session, MemoryRecord)> {
    var existing :- MergeTarget(s, ref, x);
    var (s1, evidence) :- GetOrCreateEvidence(s, ref, x.evidence, x.evidenceId, note.at);
    if existing.Some? then Merge(s1, existing.value, x.candidate.confidence, evidence, note) else
      var m :- Validated(CreateInferred(ref, x.candidate, x.memoryId, 1, note.at));
      var s2 :- Do(s1, Create(m, Some(evidence.id), note));
      Ok((s2, m))
  }

  function ExtractAll(s: Session, ref: SubjectRef, xs: seq<Extraction>,
                      note: Note): Result<(Session, seq<MemoryRecord>)>
    decreases |xs|
  {
    if xs == [] then Ok((s, [])) else
      var init := xs[..|xs| - 1];
      var (s1, done) :- ExtractAll(s, ref, init, note);
      var (s2, m) :- ExtractOne(s1, ref, xs[|xs| - 1], note);
      Ok((s2, done + [m]))
  }

  function ExtractPlan(s: Session, ref: SubjectRef, xs: seq<Extraction>,
                       note: Note): Result<(Session, seq<MemoryRecord>)>
  {
    var _ :- RequireSubject(s.db, ref);
    ExtractAll(s, ref, xs, note)
  }
}
