/** The memory service over a unit of work: each call works on its own copy of the tables and
    publishes it at commit (memory_service.py, sqlalchemy_uow.py). */
module MemoryService {
  import opened Domain
  import opened Memory
  import opened Database
  import opened MemoryPlans
  import opened MemoryInvariants
  import opened MemoryTransactions

  class Store {
    var tables: Tables
    constructor ()
      ensures tables == EMPTY
    {
      tables := EMPTY;
    }
  }

  class UnitOfWork {
    const store: Store
    var work: Tables
    ghost var steps: seq<Step>

    ghost function View(): Session
      reads this
    {
      Session(work, steps)
    }

    constructor (store: Store)
      ensures this.store == store && work == store.tables && steps == []
    {
      this.store := store;
      work := store.tables;
      steps := [];
    }

    /** One repository call; after a failure the transaction is only good for rollback. */
    method Execute(w: Write) returns (r: Result<()>)
      modifies this`work
      ensures r == match Apply(old(work), w) case Ok(_) => Ok(()) case Err(e) => Err(e)
      ensures work == if r.Ok? then Apply(old(work), w).value else old(work)
    {
      var refusal := Refusal(work, w);
      if refusal.Some? { return Err(refusal.value); }
      work := Effect(work, w);
      r := Ok(());
    }

    method Commit()
      modifies store
      ensures store.tables == work
    {
      store.tables := work;
    }

    /** bind_evidence, update and the audit row of one revision. */
    method SaveRevision(b: MemoryRecord, a: MemoryRecord, c: Change, bind: Option<Id>, note: Note)
      returns (r: Result<()>)
      modifies this
      ensures Took(old(View()), Revise(b, a, c, bind, note), View(), r)
    {
      ghost var start := work;
      ghost var step := Revise(b, a, c, bind, note);
      ghost var update, audit := UpdateMemory(a, b.revision), AddRevision(Audit(a, TransitionOf(c), note));
      ApplyThen(start, BindWrites(b, bind) + [update], audit);
      ApplyThen(start, BindWrites(b, bind), update);
      if bind.Some? {
        ApplyOne(start, BindEvidence(b.subject, b.id, bind.value));
        var _ :- Execute(BindEvidence(b.subject, b.id, bind.value));
      }
      var _ :- Execute(UpdateMemory(a, b.revision));
      var _ :- Execute(AddRevision(Audit(a, TransitionOf(c), note)));
      steps := steps + [step];
      r := Ok(());
    }

    /** add, bind_evidence and the first audit row of a new record. */
    method SaveNew(m: MemoryRecord, bind: Option<Id>, note: Note) returns (r: Result<()>)
      modifies this
      ensures Took(old(View()), Create(m, bind, note), View(), r)
    {
      ghost var start := work;
      ghost var step := Create(m, bind, note);
      ApplyThen(start, [AddMemory(m)] + BindWrites(m, bind), AddRevision(Audit(m, None, note)));
      ApplyOne(start, AddMemory(m));
      var _ :- Execute(AddMemory(m));
      if bind.Some? {
        ApplyThen(start, [AddMemory(m)], BindEvidence(m.subject, m.id, bind.value));
        var _ :- Execute(BindEvidence(m.subject, m.id, bind.value));
      } else {
        assert [AddMemory(m)] + BindWrites(m, bind) == [AddMemory(m)];
      }
      var _ :- Execute(AddRevision(Audit(m, None, note)));
      steps := steps + [step];
      r := Ok(());
    }

    method Ensure(ref: SubjectRef) returns (r: Result<()>)
      modifies this
      ensures Ended(EnsureSubjectIn(old(View()), ref), View(), r)
    {
      if ref in work.subjects {
        return Require(Live(work, ref), SubjectDeleted);
      }
      ApplyOne(work, AddSubject(ref));
      var _ :- Execute(AddSubject(ref));
      steps := steps + [EnsureSubject(ref)];
      r := Ok(());
    }

    method GetOrCreate(ref: SubjectRef, i: EvidenceInput, id: Id, now: Time) returns (r: Result<Evidence>)
      modifies this
      ensures Returned(GetOrCreateEvidence(old(View()), ref, i, id, now), View(), r)
    {
      var existing := FindSource(work, ref, i);
      if existing.Some? { return Ok(existing.value); }
      var e := BuildEvidence(ref, i, id, now);
      ApplyOne(work, AddEvidence(e));
      var _ :- Execute(AddEvidence(e));
      steps := steps + [NewEvidence(e)];
      r := Ok(e);
    }

    method BindAndCount(m: MemoryRecord, evidence: Option<Evidence>, note: Note) returns (r: Result<MemoryRecord>)
      modifies this
      ensures Returned(MemoryPlans.BindAndCount(old(View()), m, evidence, note), View(), r)
    {
      if evidence.None? || evidence.value.id in BoundTo(work, m.id) { return Ok(m); }
      var a :- Validated(m.(evidenceCount := m.evidenceCount + 1, revision := m.revision + 1, updatedAt := note.at));
      var _ :- SaveRevision(m, a, Evidencing, Some(evidence.value.id), note);
      r := Ok(a);
    }

    method MergeExisting(m: MemoryRecord, confidence: real, evidence: Evidence, note: Note)
      returns (r: Result<MemoryRecord>)
      modifies this
      ensures Returned(Merge(old(View()), m, confidence, evidence, note), View(), r)
    {
      var isNew := evidence.id !in BoundTo(work, m.id);
      var raises := m.authority == Inferred && m.state == Candidate && confidence > m.confidence;
      if !isNew && !raises { return Ok(m); }
      var a := m.(evidenceCount := m.evidenceCount + if isNew then 1 else 0, revision := m.revision + 1,
                  updatedAt := note.at);
      if raises { a := a.(confidence := confidence); }
      var valid :- Validated(a);
      var _ :- SaveRevision(m, valid, Evidencing, Some(evidence.id), note);
      r := Ok(valid);
    }

    method ExtractItem(ref: SubjectRef, x: Extraction, note: Note) returns (r: Result<MemoryRecord>)
      modifies this
      ensures Returned(ExtractOne(old(View()), ref, x, note), View(), r)
    {
      hide FindExactSlot, GetOrCreateEvidence, Merge, Do, RecordValid;
      var existing := FindExactSlot(work, ref, x.candidate.key, x.candidate.scope, x.candidate.scopeValue,
                                    {Active, Candidate});
      if existing.None? && x.suggestion.Some? {
        if x.suggestion.value.subject != ref { return Err(TenantScopeViolation); }
        if !(Live(work, ref) && OwnsMemory(work, ref, x.suggestion.value.id)) { return Err(ProviderInvalidResponse); }
        existing := Some(work.memories[x.suggestion.value.id]);
      }
      var evidence :- GetOrCreate(ref, x.evidence, x.evidenceId, note.at);
      if existing.None? {
        var m :- Validated(CreateInferred(ref, x.candidate, x.memoryId, 1, note.at));
        var _ :- SaveNew(m, Some(evidence.id), note);
        return Ok(m);
      }
      r := MergeExisting(existing.value, x.candidate.confidence, evidence, note);
    }
  }

  /** A step was taken on the working copy, or refused with its error. */
  ghost predicate Took(before: Session, step: Step, after: Session, r: Result<()>) {
    Ended(Do(before, step), after, r)
  }

  ghost predicate Ended(expected: Result<Session>, after: Session, r: Result<()>) {
    match expected case Ok(s) => r.Ok? && after == s case Err(e) => r == Err(e)
  }

  ghost predicate Returned<T>(expected: Result<(Session, T)>, after: Session, r: Result<T>) {
    match expected case Ok(p) => r == Ok(p.1) && after == p.0 case Err(e) => r == Err(e)
  }

  /** The call published exactly what its plan says, or raised and left the store alone. */
  ghost predicate Performed<T>(expected: Result<(Session, T)>, before: Tables, after: Tables, r: Result<T>) {
    match expected case Ok(p) => r == Ok(p.1) && after == p.0.db case Err(e) => r == Err(e) && after == before
  }

  /** The store invariant, with no record from the future. */
  ghost predicate GoodAt(db: Tables, now: Time) { StoreOk(db, {}) && ClockOk(db, now) }

  lemma GoodStart(db: Tables, now: Time)
    ensures GoodAt(db, now) ==> SessionOk(db, Session(db, []), {}, now)
  {
  }

  lemma GoodEnd(base: Tables, s: Session, now: Time)
    requires SessionOk(base, s, {}, now)
    ensures GoodAt(s.db, now)
  {
  }

  lemma AddKeepsStore(db: Tables, ref: SubjectRef, i: CreateInput, memoryId: Id, evidenceId: Id, note: Note)
    ensures var plan := AddPlan(Session(db, []), ref, i, memoryId, evidenceId, note);
            plan.Ok? && GoodAt(db, note.at) ==> GoodAt(plan.value.0.db, note.at)
  {
    hide *;
    GoodStart(db, note.at);
    var plan := AddPlan(Session(db, []), ref, i, memoryId, evidenceId, note);
    if plan.Ok? && GoodAt(db, note.at) {
      AddOk(db, Session(db, []), ref, i, memoryId, evidenceId, note);
      GoodEnd(db, plan.value.0, note.at);
    }
  }

  lemma PatchKeepsStore(db: Tables, ref: SubjectRef, id: Id, p: Patch, expected: int, note: Note)
    ensures var plan := PatchPlan(Session(db, []), ref, id, p, expected, note);
            plan.Ok? && GoodAt(db, note.at) ==> GoodAt(plan.value.0.db, note.at)
  {
    hide *;
    GoodStart(db, note.at);
    var plan := PatchPlan(Session(db, []), ref, id, p, expected, note);
    if plan.Ok? && GoodAt(db, note.at) {
      PatchOk(db, Session(db, []), ref, id, p, expected, note);
      GoodEnd(db, plan.value.0, note.at);
    }
  }

  lemma ConfirmKeepsStore(db: Tables, ref: SubjectRef, id: Id, expected: int, accepts: bool, note: Note)
    ensures var plan := ConfirmPlan(Session(db, []), ref, id, expected, accepts, note);
            plan.Ok? && GoodAt(db, note.at) ==> GoodAt(plan.value.0.db, note.at)
  {
    hide *;
    GoodStart(db, note.at);
    var plan := ConfirmPlan(Session(db, []), ref, id, expected, accepts, note);
    if plan.Ok? && GoodAt(db, note.at) {
      ConfirmOk(db, Session(db, []), ref, id, expected, accepts, note);
      GoodEnd(db, plan.value.0, note.at);
    }
  }

  lemma DeleteKeepsStore(db: Tables, ref: SubjectRef, id: Id, expected: int, note: Note)
    ensures var plan := DeletePlan(Session(db, []), ref, id, expected, note);
            plan.Ok? && GoodAt(db, note.at) ==> GoodAt(plan.value.0.db, note.at)
  {
    hide *;
    GoodStart(db, note.at);
    var plan := DeletePlan(Session(db, []), ref, id, expected, note);
    if plan.Ok? && GoodAt(db, note.at) {
      DeleteOk(db, Session(db, []), ref, id, expected, note);
      GoodEnd(db, plan.value.0, note.at);
    }
  }

  lemma RestoreKeepsStore(db: Tables, ref: SubjectRef, id: Id, expected: int, note: Note)
    ensures var plan := RestorePlan(Session(db, []), ref, id, expected, note);
            plan.Ok? && GoodAt(db, note.at) ==> GoodAt(plan.value.0.db, note.at)
  {
    hide *;
    GoodStart(db, note.at);
    var plan := RestorePlan(Session(db, []), ref, id, expected, note);
    if plan.Ok? && GoodAt(db, note.at) {
      RestoreOk(db, Session(db, []), ref, id, expected, note);
      GoodEnd(db, plan.value.0, note.at);
    }
  }

  lemma ExtractKeepsStore(db: Tables, ref: SubjectRef, xs: seq<Extraction>, note: Note)
    ensures var plan := ExtractPlan(Session(db, []), ref, xs, note);
            plan.Ok? && GoodAt(db, note.at) ==> GoodAt(plan.value.0.db, note.at)
  {
    hide ExtractAll, SessionOk, GoodAt, Live;
    GoodStart(db, note.at);
    var plan := ExtractPlan(Session(db, []), ref, xs, note);
    if plan.Ok? && GoodAt(db, note.at) {
      ExtractAllOk(db, Session(db, []), ref, xs, note);
      GoodEnd(db, plan.value.0, note.at);
    }
  }

  class Service {
    const store: Store

    constructor (store: Store)
      ensures this.store == store
    {
      this.store := store;
    }

    method AddMemory(ref: SubjectRef, i: CreateInput, memoryId: Id, evidenceId: Id, note: Note)
      returns (r: Result<MemoryRecord>)
      modifies store
      ensures Performed(AddPlan(Session(old(store.tables), []), ref, i, memoryId, evidenceId, note), old(store.tables),
                        store.tables, r)
      ensures GoodAt(old(store.tables), note.at) ==> GoodAt(store.tables, note.at)
    {
      hide FindExactSlot, GetOrCreateEvidence, EnsureSubjectIn, MemoryPlans.BindAndCount, Do, SupersedeMemory,
           RecordValid, GoodAt;
      AddKeepsStore(store.tables, ref, i, memoryId, evidenceId, note);
      var uow := new UnitOfWork(store);
      var _ :- uow.Ensure(ref);
      var evidence: Option<Evidence> := None;
      if i.evidence.Some? {
        var e :- uow.GetOrCreate(ref, i.evidence.value, evidenceId, note.at);
        evidence := Some(e);
      }
      var existing := FindExactSlot(uow.work, ref, i.key, i.scope, i.scopeValue, {Active});
      if existing.Some? && existing.value.content == i.content {
        var bound :- uow.BindAndCount(existing.value, evidence, note);
        uow.Commit();
        return Ok(bound);
      }
      var m :- Validated(ExplicitMemory(ref, i, memoryId, if evidence.Some? then 1 else 0, note.at));
      if existing.Some? {
        var a :- SupersedeMemory(existing.value, m, existing.value.revision, note.at);
        var _ :- uow.SaveRevision(existing.value, a, Superseding, None, note);
      }
      var _ :- uow.SaveNew(m, EvidenceId(evidence), note);
      uow.Commit();
      r := Ok(m);
    }

    method PatchMemory(ref: SubjectRef, id: Id, p: Patch, expected: int, note: Note) returns (r: Result<MemoryRecord>)
      modifies store
      ensures Performed(PatchPlan(Session(old(store.tables), []), ref, id, p, expected, note), old(store.tables),
                        store.tables, r)
      ensures GoodAt(old(store.tables), note.at) ==> GoodAt(store.tables, note.at)
    {
      hide GoodAt;
      PatchKeepsStore(store.tables, ref, id, p, expected, note);
      var uow := new UnitOfWork(store);
      var _ :- RequireSubject(uow.work, ref);
      var m :- GetMemory(uow.work, ref, id);
      var _ :- CheckRevision(m, expected);
      if EmptyPatch(p) { return Ok(m); }
      var a :- Patched(m, p, note.at);
      var _ :- uow.SaveRevision(m, a, Patching, None, note);
      uow.Commit();
      r := Ok(a);
    }

    method ConfirmMemory(ref: SubjectRef, id: Id, expected: int, policy: MemoryRecord -> bool, note: Note)
      returns (r: Result<MemoryRecord>)
      modifies store
      ensures Performed(ConfirmPlan(Session(old(store.tables), []), ref, id, expected,
                                    id in old(store.tables).memories && policy(old(store.tables).memories[id]), note),
                        old(store.tables), store.tables, r)
      ensures GoodAt(old(store.tables), note.at) ==> GoodAt(store.tables, note.at)
    {
      hide GoodAt;
      ConfirmKeepsStore(store.tables, ref, id, expected,
                        id in store.tables.memories && policy(store.tables.memories[id]), note);
      var uow := new UnitOfWork(store);
      var _ :- RequireSubject(uow.work, ref);
      var m :- GetMemory(uow.work, ref, id);
      if !policy(m) { return Err(MemoryProtection); }
      var a :- Memory.ConfirmMemory(m, expected, note.at);
      var _ :- uow.SaveRevision(m, a, Confirming, None, note);
      uow.Commit();
      r := Ok(a);
    }

    method DeleteMemory(ref: SubjectRef, id: Id, expected: int, note: Note) returns (r: Result<MemoryRecord>)
      modifies store
      ensures Performed(DeletePlan(Session(old(store.tables), []), ref, id, expected, note), old(store.tables),
                        store.tables, r)
      ensures GoodAt(old(store.tables), note.at) ==> GoodAt(store.tables, note.at)
    {
      hide GoodAt;
      DeleteKeepsStore(store.tables, ref, id, expected, note);
      var uow := new UnitOfWork(store);
      var _ :- RequireSubject(uow.work, ref);
      var m :- GetMemory(uow.work, ref, id);
      var a :- SoftDeleteMemory(m, expected, note.at);
      var _ :- uow.SaveRevision(m, a, Deleting, None, note);
      uow.Commit();
      r := Ok(a);
    }

    method RestoreMemory(ref: SubjectRef, id: Id, expected: int, note: Note) returns (r: Result<MemoryRecord>)
      modifies store
      ensures Performed(RestorePlan(Session(old(store.tables), []), ref, id, expected, note), old(store.tables),
                        store.tables, r)
      ensures GoodAt(old(store.tables), note.at) ==> GoodAt(store.tables, note.at)
    {
      hide GoodAt;
      RestoreKeepsStore(store.tables, ref, id, expected, note);
      var uow := new UnitOfWork(store);
      var _ :- RequireSubject(uow.work, ref);
      var m :- GetMemory(uow.work, ref, id);
      var key := RevisionKey(id, m.revision - 1);
      if key !in uow.work.revisions { return Err(MemoryTransition); }
      var previous := uow.work.revisions[key].snapshot;
      if previous.subject != ref { return Err(TenantScopeViolation); }
      var a :- Memory.RestoreMemory(m, previous.state, expected, note.at);
      var _ :- uow.SaveRevision(m, a, Restoring, None, note);
      uow.Commit();
      r := Ok(a);
    }

    method ExtractMemories(ref: SubjectRef, xs: seq<Extraction>, note: Note) returns (r: Result<seq<MemoryRecord>>)
      modifies store
      ensures Performed(ExtractPlan(Session(old(store.tables), []), ref, xs, note), old(store.tables), store.tables, r)
      ensures GoodAt(old(store.tables), note.at) ==> GoodAt(store.tables, note.at)
    {
      hide GoodAt;
      ExtractKeepsStore(store.tables, ref, xs, note);
      var uow := new UnitOfWork(store);
      var _ :- RequireSubject(uow.work, ref);
      var items := [];
      ghost var start := uow.View();
      for n := 0 to |xs|
        invariant uow.store == store && store.tables == old(store.tables)
        invariant ExtractAll(start, ref, xs[..n], note) == Ok((uow.View(), items))
      {
        ghost var before := uow.View();
        assert xs[..n + 1][..n] == xs[..n];
        var m := uow.ExtractItem(ref, xs[n], note);
        if m.Err? {
          ExtractionStops(start, ref, xs, n + 1, note);
          return Err(m.error);
        }
        items := items + [m.value];
      }
      assert xs[..|xs|] == xs;
      uow.Commit();
      r := Ok(items);
    }
  }

  /** A failing item ends the whole extraction with its error. */
  lemma {:induction false} ExtractionStops(s: Session, ref: SubjectRef, xs: seq<Extraction>, n: nat, note: Note)
    requires n <= |xs| && ExtractAll(s, ref, xs[..n], note).Err?
    ensures ExtractAll(s, ref, xs, note) == ExtractAll(s, ref, xs[..n], note)
    decreases |xs| - n
  {
    hide ExtractOne;
    if n == |xs| {
      assert xs[..n] == xs;
    } else {
      assert xs[..n + 1][..n] == xs[..n];
      ExtractionStops(s, ref, xs, n + 1, note);
    }
  }
}
