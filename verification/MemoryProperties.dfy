/** What the store invariant means for callers of the memory service. */
module MemoryProperties {
  import opened Domain
  import opened Sorting
  import opened Memory
  import opened Database
  import opened MemoryPlans
  import opened MemoryInvariants
  import opened MemoryTransactions
  import opened MemoryProtocol

  /* ---- one holder per slot ---- */

  predicate Holds(m: MemoryRecord, ref: SubjectRef, key: string, scope: Scope, value: Option<string>) {
    m.state == Active && m.subject == ref && m.key == key && m.scope == scope && m.scopeValue == value
  }

  lemma OneHolder(db: Tables, a: Id, b: Id, ref: SubjectRef, key: string, scope: Scope, value: Option<string>)
    requires a in db.memories && b in db.memories
    requires Holds(db.memories[a], ref, key, scope, value) && Holds(db.memories[b], ref, key, scope, value)
    requires StoreOk(db, {})
    ensures a == b
  {
    hide References, MemoryOk, EvidenceHeld, Keyed;
    assert SlotsUnique(db.memories);
  }

  /** For a well-formed scope the paged lookup of active rows is exact: it returns the holder of the slot. */
  lemma ActiveLookup(db: Tables, ref: SubjectRef, key: string, scope: Scope, value: Option<string>, m: MemoryRecord)
    requires ScopeValid(scope, value) && Live(db, ref)
    requires StoreOk(db, {})
    ensures FindExactSlot(db, ref, key, scope, value, {Active}) == Some(m)
            <==> m.id in db.memories && db.memories[m.id] == m && Holds(m, ref, key, scope, value)
  {
    hide StoreOk, FindExactSlot, Matches, Holds;
    StoreParts(db, {});
    SlotFound(db, ref, key, scope, value, {Active});
    var found := FindExactSlot(db, ref, key, scope, value, {Active});
    if found.Some? { HolderOf(db, found.value, ref, key, scope, value); }
    if m.id in db.memories && db.memories[m.id] == m && Holds(m, ref, key, scope, value) {
      HolderMatches(m, ref, key, scope, value);
      OneHolder(db, m.id, found.value.id, ref, key, scope, value);
    }
  }

  lemma HolderMatches(m: MemoryRecord, ref: SubjectRef, key: string, scope: Scope, value: Option<string>)
    requires Holds(m, ref, key, scope, value)
    ensures Matches(m, ref, SlotFilter(key, scope, value, {Active}))
  {
  }

  lemma HolderOf(db: Tables, m: MemoryRecord, ref: SubjectRef, key: string, scope: Scope, value: Option<string>)
    requires StoredMatch(db, ref, SlotFilter(key, scope, value, {Active}), m) && ScopeValid(scope, value)
    requires StoreOk(db, {})
    ensures Holds(m, ref, key, scope, value)
  {
    hide StoreOk;
    StoredRecord(db, {}, m.id);
  }

  /* ---- add_memory ---- */

  lemma DoCreateStores(s: Session, m: MemoryRecord, bind: Option<Id>, note: Note)
    requires Do(s, Create(m, bind, note)).Ok?
    ensures m.id in Do(s, Create(m, bind, note)).value.db.memories
    ensures Do(s, Create(m, bind, note)).value.db.memories[m.id] == m
  {
    CreateEffect(s.db, m, bind, note);
  }

  lemma BindStores(s: Session, m: MemoryRecord, e: Option<Evidence>, note: Note)
    requires BindAndCount(s, m, e, note).Ok? && m.id in s.db.memories && s.db.memories[m.id] == m
    ensures var (t, a) := BindAndCount(s, m, e, note).value;
            && a.id in t.db.memories && t.db.memories[a.id] == a
            && a == m.(evidenceCount := a.evidenceCount, revision := a.revision, updatedAt := a.updatedAt)
  {
    if e.Some? && e.value.id !in BoundTo(s.db, m.id) {
      var a := m.(evidenceCount := m.evidenceCount + 1, revision := m.revision + 1, updatedAt := note.at);
      ReviseEffect(s.db, m, a, Evidencing, Some(e.value.id), note);
    }
  }

  /** With a well-formed scope a successful add leaves its content as the one active holder of the slot. */
  lemma AddTakesSlot(db: Tables, ref: SubjectRef, i: CreateInput, memoryId: Id, evidenceId: Id, note: Note)
    requires ScopeValid(i.scope, i.scopeValue)
    requires AddPlan(Session(db, []), ref, i, memoryId, evidenceId, note).Ok?
    requires StoreOk(db, {}) && ClockOk(db, note.at)
    ensures var (t, m) := AddPlan(Session(db, []), ref, i, memoryId, evidenceId, note).value;
            && m.id in t.db.memories && t.db.memories[m.id] == m
            && Holds(m, ref, i.key, i.scope, i.scopeValue) && m.content == i.content
            && forall x | x in t.db.memories && Holds(t.db.memories[x], ref, i.key, i.scope, i.scopeValue) :: x == m.id
  {
    hide StoreOk, ClockOk, GetOrCreateOptional, EnsureSubjectIn, FindExactSlot, Displace, BindAndCount, SessionOk, Do,
         ScopeValid, RecordValid;
    var s := Session(db, []);
    EmptySessionOk(db, note.at);
    AddOk(db, s, ref, i, memoryId, evidenceId, note);
    var (t, m) := AddPlan(s, ref, i, memoryId, evidenceId, note).value;
    SessionParts(db, t, {}, note.at);
    var s1 := EnsureSubjectIn(s, ref).value;
    EnsureSubjectOk(db, s, ref, note.at);
    var (s2, evidence) := GetOrCreateOptional(s1, ref, i.evidence, evidenceId, note.at).value;
    var pending := OptionalEvidenceOk(db, s1, ref, i.evidence, evidenceId, note.at);
    SessionParts(db, s2, pending, note.at);
    var existing := FindExactSlot(s2.db, ref, i.key, i.scope, i.scopeValue, {Active});
    SlotFound(s2.db, ref, i.key, i.scope, i.scopeValue, {Active});
    if existing.Some? && existing.value.content == i.content {
      BindStores(s2, existing.value, evidence, note);
      StoredRecord(t.db, {}, m.id);
      MatchedHolds(existing.value, m, ref, i);
    } else {
      DoCreateStores(Displace(s2, existing, m, note).value, m, EvidenceId(evidence), note);
    }
    forall x | x in t.db.memories && Holds(t.db.memories[x], ref, i.key, i.scope, i.scopeValue) ensures x == m.id {
      OneHolder(t.db, x, m.id, ref, i.key, i.scope, i.scopeValue);
    }
  }

  /** Evidence of an input that names no event; in an empty store there is none to name. */
  predicate NamesNoEvent(i: CreateInput) { i.evidence.Some? ==> i.evidence.value.eventId.None? }

  function FirstMemory(ref: SubjectRef, i: CreateInput, id: Id, now: Time): MemoryRecord {
    ExplicitMemory(ref, i, id, if i.evidence.Some? then 1 else 0, now)
  }

  /** Into the empty store exactly the valid records can be added, with their evidence unless that names an
      event, so stores that hold memories are reachable. */
  lemma FirstAddSucceeds(ref: SubjectRef, i: CreateInput, memoryId: Id, evidenceId: Id, note: Note)
    ensures var r := AddPlan(Session(EMPTY, []), ref, i, memoryId, evidenceId, note);
            if !NamesNoEvent(i) then r == Err(InvalidArgument)
            else if !RecordValid(FirstMemory(ref, i, memoryId, note.at)) then r == Err(Validation)
            else && r.Ok? && r.value.1 == FirstMemory(ref, i, memoryId, note.at) && StoreOk(r.value.0.db, {})
                 && r.value.0.db.memories == map[memoryId := FirstMemory(ref, i, memoryId, note.at)]
  {
    hide StoreOk, RecordValid, SessionOk, Writes, Apply, ApplyAll, GetOrCreateEvidence;
    var m := FirstMemory(ref, i, memoryId, note.at);
    FirstSubject(ref);
    var s := Do(Session(EMPTY, []), EnsureSubject(ref)).value;
    if i.evidence.Some? { FirstEvidence(s, ref, i.evidence.value, evidenceId, note.at); }
    if NamesNoEvent(i) {
      var (t, e) := GetOrCreateOptional(s, ref, i.evidence, evidenceId, note.at).value;
      NothingListed(t.db, ref, SlotFilter(i.key, i.scope, i.scopeValue, {Active}));
      if RecordValid(m) {
        FirstRecord(t, m, EvidenceId(e), note);
        EmptyStoreOk();
        EmptySessionOk(EMPTY, note.at);
        AddOk(EMPTY, Session(EMPTY, []), ref, i, memoryId, evidenceId, note);
        SessionParts(EMPTY, AddPlan(Session(EMPTY, []), ref, i, memoryId, evidenceId, note).value.0, {}, note.at);
      }
    }
  }

  lemma FirstSubject(ref: SubjectRef)
    ensures Do(Session(EMPTY, []), EnsureSubject(ref)).Ok?
    ensures Do(Session(EMPTY, []), EnsureSubject(ref)).value.db == EMPTY.(subjects := map[ref := None])
  {
    ApplyOne(EMPTY, AddSubject(ref));
  }

  lemma FirstEvidence(s: Session, ref: SubjectRef, i: EvidenceInput, id: Id, now: Time)
    requires s.db == EMPTY.(subjects := map[ref := None])
    ensures var r := GetOrCreateEvidence(s, ref, i, id, now);
            if i.eventId.Some? then r == Err(InvalidArgument)
            else r.Ok? && r.value.1 == BuildEvidence(ref, i, id, now)
                 && r.value.0.db == s.db.(evidence := map[id := r.value.1])
  {
    assert FindSource(s.db, ref, i) == None by { assert Rows(s.db.evidence) == []; }
    ApplyOne(s.db, AddEvidence(BuildEvidence(ref, i, id, now)));
  }

  lemma NothingListed(db: Tables, ref: SubjectRef, f: MemoryFilter)
    requires db.memories == map[]
    ensures ListMemories(db, ref, f, PAGE, 0) == []
  {
    assert Rows(db.memories) == [];
  }

  lemma FirstRecord(s: Session, m: MemoryRecord, bind: Option<Id>, note: Note)
    requires s.db == EMPTY.(subjects := map[m.subject := None], evidence := s.db.evidence) && RecordValid(m)
    requires bind.Some? ==> OwnsEvidence(s.db, m.subject, bind.value)
    ensures Do(s, Create(m, bind, note)).Ok? && Do(s, Create(m, bind, note)).value.db.memories == map[m.id := m]
  {
    var add, audit := AddMemory(m), AddRevision(Audit(m, None, note));
    ApplyThen(s.db, [add] + BindWrites(m, bind), audit);
    ApplyOne(s.db, add);
    if bind.Some? {
      ApplyThen(s.db, [add], BindEvidence(m.subject, m.id, bind.value));
    } else {
      assert [add] + BindWrites(m, bind) == [add];
    }
    CreateEffect(s.db, m, bind, note);
  }

  lemma MatchedHolds(m: MemoryRecord, a: MemoryRecord, ref: SubjectRef, i: CreateInput)
    requires Matches(m, ref, SlotFilter(i.key, i.scope, i.scopeValue, {Active})) && RecordOk(a)
    requires a == m.(evidenceCount := a.evidenceCount, revision := a.revision, updatedAt := a.updatedAt)
    requires ScopeValid(i.scope, i.scopeValue)
    ensures Holds(a, ref, i.key, i.scope, i.scopeValue)
  {
  }

  /** A scope that needs a value but has none can still succeed, and then hands back a memory of another slot. */
  lemma MalformedAddLandsElsewhere(db: Tables, ref: SubjectRef, i: CreateInput, memoryId: Id, evidenceId: Id,
                                   note: Note)
    requires !ScopeValid(i.scope, i.scopeValue)
    requires AddPlan(Session(db, []), ref, i, memoryId, evidenceId, note).Ok?
    requires StoreOk(db, {}) && ClockOk(db, note.at)
    ensures var m := AddPlan(Session(db, []), ref, i, memoryId, evidenceId, note).value.1;
            && i.scope != Global && i.scopeValue == None && m.state == Active && m.content == i.content
            && m.key == i.key && m.scope == i.scope && m.scopeValue != i.scopeValue
  {
    hide StoreOk, ClockOk, GetOrCreateOptional, EnsureSubjectIn, FindExactSlot, Displace, BindAndCount, SessionOk, Do,
         Lawful;
    var s := Session(db, []);
    EmptySessionOk(db, note.at);
    AddOk(db, s, ref, i, memoryId, evidenceId, note);
    var (t, m) := AddPlan(s, ref, i, memoryId, evidenceId, note).value;
    SessionParts(db, t, {}, note.at);
    var s1 := EnsureSubjectIn(s, ref).value;
    EnsureSubjectOk(db, s, ref, note.at);
    var (s2, evidence) := GetOrCreateOptional(s1, ref, i.evidence, evidenceId, note.at).value;
    var pending := OptionalEvidenceOk(db, s1, ref, i.evidence, evidenceId, note.at);
    SessionParts(db, s2, pending, note.at);
    SlotFound(s2.db, ref, i.key, i.scope, i.scopeValue, {Active});
    var existing := FindExactSlot(s2.db, ref, i.key, i.scope, i.scopeValue, {Active});
    BindStores(s2, existing.value, evidence, note);
    StoredRecord(t.db, {}, m.id);
  }

  /** It does so for every active memory that is alone with its key in a scope other than Global and has the
      content given: the call then only binds the evidence, if there is any, to that memory. */
  lemma MalformedAddCanSucceed(db: Tables, ref: SubjectRef, i: CreateInput, id: Id, memoryId: Id, evidenceId: Id,
                               note: Note)
    requires i.scope != Global && i.scopeValue == None && Live(db, ref)
    requires GetOrCreateOptional(Session(db, []), ref, i.evidence, evidenceId, note.at).Ok?
    requires id in db.memories && db.memories[id].state == Active && db.memories[id].content == i.content
    requires forall x | x in db.memories ::
               x == id <==> Matches(db.memories[x], ref, SlotFilter(i.key, i.scope, i.scopeValue, {Active}))
    requires StoreOk(db, {}) && ClockOk(db, note.at)
    ensures var (s, evidence) := GetOrCreateOptional(Session(db, []), ref, i.evidence, evidenceId, note.at).value;
            AddPlan(Session(db, []), ref, i, memoryId, evidenceId, note) ==
              BindAndCount(s, db.memories[id], evidence, note)
    ensures db.memories[id].scopeValue != i.scopeValue
  {
    hide StoreOk, ClockOk, FindExactSlot, Matches, GetOrCreateOptional, BindAndCount, SessionOk, SlotFilter, RecordOk,
         AddPlan;
    var s := Session(db, []);
    EmptySessionOk(db, note.at);
    var pending := OptionalEvidenceOk(db, s, ref, i.evidence, evidenceId, note.at);
    var t := GetOrCreateOptional(s, ref, i.evidence, evidenceId, note.at).value.0;
    StoreParts(db, {});
    LoneMatchFound(t.db, ref, i, id);
    AddBinds(s, ref, i, db.memories[id], memoryId, evidenceId, note);
    StoredRecord(db, {}, id);
    MatchedScope(db.memories[id], ref, i);
    ScopedHasValue(db.memories[id]);
  }

  lemma AddBinds(s: Session, ref: SubjectRef, i: CreateInput, m: MemoryRecord, memoryId: Id, evidenceId: Id, note: Note)
    requires Live(s.db, ref) && GetOrCreateOptional(s, ref, i.evidence, evidenceId, note.at).Ok?
    requires var t := GetOrCreateOptional(s, ref, i.evidence, evidenceId, note.at).value.0;
             FindExactSlot(t.db, ref, i.key, i.scope, i.scopeValue, {Active}) == Some(m) && m.content == i.content
    ensures var (t, evidence) := GetOrCreateOptional(s, ref, i.evidence, evidenceId, note.at).value;
            AddPlan(s, ref, i, memoryId, evidenceId, note) == BindAndCount(t, m, evidence, note)
  {
    hide FindExactSlot, GetOrCreateOptional, BindAndCount, Displace, ExplicitMemory, Validated, Do;
  }

  lemma ScopedHasValue(m: MemoryRecord)
    requires RecordOk(m) && m.scope != Global
    ensures m.scopeValue.Some?
  {
  }

  lemma LoneMatchFound(db: Tables, ref: SubjectRef, i: CreateInput, id: Id)
    requires MemoriesKeyed(db.memories) && Live(db, ref) && id in db.memories
    requires forall x | x in db.memories ::
               x == id <==> Matches(db.memories[x], ref, SlotFilter(i.key, i.scope, i.scopeValue, {Active}))
    ensures FindExactSlot(db, ref, i.key, i.scope, i.scopeValue, {Active}) == Some(db.memories[id])
  {
    hide FindExactSlot, Matches;
    SlotFound(db, ref, i.key, i.scope, i.scopeValue, {Active});
  }

  lemma MatchedScope(m: MemoryRecord, ref: SubjectRef, i: CreateInput)
    requires Matches(m, ref, SlotFilter(i.key, i.scope, i.scopeValue, {Active}))
    ensures m.scope == i.scope && m.subject == ref
  {
  }

  /* ---- restore ---- */

  lemma ReviseSucceeds(db: Tables, m: MemoryRecord, a: MemoryRecord, c: Change, note: Note)
    requires m.id in db.memories && db.memories[m.id] == m && Live(db, m.subject)
    requires a.id == m.id && a.subject == m.subject && a.revision == m.revision + 1 && ValueChecks(a)
    requires RevisionKey(a.id, a.revision) !in db.revisions
    ensures Do(Session(db, []), Revise(m, a, c, None, note)) ==
            if SlotFree(db.memories, a)
              then Ok(Session(Stored(db, a, TransitionOf(c), None, note), [Revise(m, a, c, None, note)]))
            else Err(ConstraintViolation)
  {
    var step := Revise(m, a, c, None, note);
    var update, audit := UpdateMemory(a, m.revision), AddRevision(Audit(a, TransitionOf(c), note));
    assert Writes(step) == [update] + [audit];
    ApplyThen(db, [update], audit);
    ApplyOne(db, update);
    if SlotFree(db.memories, a) { StepEffect(db, step); }
    assert [] + [step] == [step];
  }

  lemma NextRevisionFree(db: Tables, id: Id)
    requires id in db.memories
    requires StoreOk(db, {})
    ensures RevisionKey(id, db.memories[id].revision + 1) !in db.revisions
  {
    hide Consistent, RecordsOk, CountsOk, EvidenceHeld, LogOk;
  }

  /** The tables and the record a call leaves. */
  function Outcome(r: Result<(Session, MemoryRecord)>): Result<(Tables, MemoryRecord)> {
    var (s, m) :- r;
    Ok((s.db, m))
  }

  /** A slot that another active memory holds makes the UPDATE violate the unique index. */
  function Saved(db: Tables, a: MemoryRecord, t: Option<TransitionType>, note: Note): Result<(Tables, MemoryRecord)> {
    if SlotFree(db.memories, a) then Ok((Stored(db, a, t, None, note), a)) else Err(ConstraintViolation)
  }

  /** _require_subject and _get_memory */
  function Located(db: Tables, ref: SubjectRef, id: Id): Result<MemoryRecord> {
    if ref !in db.subjects then Err(SubjectNotFound)
    else if !Live(db, ref) then Err(SubjectDeleted)
    else if !OwnsMemory(db, ref, id) then Err(MemoryNotFound)
    else Ok(db.memories[id])
  }

  function ConfirmedRecord(m: MemoryRecord, now: Time): MemoryRecord {
    m.(authority := Confirmed, state := Active, revision := m.revision + 1, updatedAt := now)
  }

  function DeletedRecord(m: MemoryRecord, now: Time): MemoryRecord {
    m.(state := Deleted, revision := m.revision + 1, updatedAt := now, deletedAt := Some(now))
  }

  function ConfirmOutcome(db: Tables, found: Result<MemoryRecord>, expected: int, accepts: bool,
                          note: Note): Result<(Tables, MemoryRecord)>
  {
    var m :- found;
    if !accepts then Err(MemoryProtection)
    else if expected != m.revision then Err(RevisionConflict(expected, m.revision))
    else if m.state != Candidate then Err(MemoryTransition)
    else Saved(db, ConfirmedRecord(m, note.at), Some(TransitionType.Confirm), note)
  }

  /** Confirming succeeds exactly for a candidate of the expected revision that the policy accepts and
      whose slot no active memory holds; it then only activates the record and logs it. */
  lemma ConfirmIsExact(db: Tables, ref: SubjectRef, id: Id, expected: int, accepts: bool, note: Note)
    requires StoreOk(db, {})
    ensures Outcome(ConfirmPlan(Session(db, []), ref, id, expected, accepts, note))
            == ConfirmOutcome(db, Located(db, ref, id), expected, accepts, note)
  {
    hide StoreOk, LogOk, SlotFree, Do, Stored;
    if Located(db, ref, id).Ok? {
      var m := db.memories[id];
      StoredRecord(db, {}, id);
      NextRevisionFree(db, id);
      if accepts && expected == m.revision && m.state == Candidate {
        ReviseSucceeds(db, m, ConfirmedRecord(m, note.at), Confirming, note);
      }
    }
  }

  function DeleteOutcome(db: Tables, found: Result<MemoryRecord>, expected: int,
                         note: Note): Result<(Tables, MemoryRecord)>
  {
    var m :- found;
    if expected != m.revision then Err(RevisionConflict(expected, m.revision))
    else if m.state == Deleted then Err(MemoryTransition)
    else Ok((Stored(db, DeletedRecord(m, note.at), Some(TransitionType.Delete), None, note), DeletedRecord(m, note.at)))
  }

  /** Deleting succeeds exactly for a record of the expected revision that is not deleted yet. */
  lemma DeleteIsExact(db: Tables, ref: SubjectRef, id: Id, expected: int, note: Note)
    requires StoreOk(db, {})
    ensures Outcome(DeletePlan(Session(db, []), ref, id, expected, note)) ==
              DeleteOutcome(db, Located(db, ref, id), expected, note)
  {
    hide StoreOk, LogOk, SlotFree, Do, Stored;
    if Located(db, ref, id).Ok? {
      var m := db.memories[id];
      StoredRecord(db, {}, id);
      NextRevisionFree(db, id);
      if expected == m.revision && m.state != Deleted {
        DeletedSlotFree(db.memories, DeletedRecord(m, note.at));
        ReviseSucceeds(db, m, DeletedRecord(m, note.at), Deleting, note);
      }
    }
  }

  function PatchOutcome(db: Tables, found: Result<MemoryRecord>, p: Patch, expected: int,
                        note: Note): Result<(Tables, MemoryRecord)>
  {
    var m :- found;
    if expected != m.revision then Err(RevisionConflict(expected, m.revision))
    else if EmptyPatch(p) then Ok((db, m))
    else if Patched(m, p, note.at).Err? then Err(Validation)
    else Saved(db, Patched(m, p, note.at).value, None, note)
  }

  /** A patch that changes something succeeds exactly for the expected revision if the patched record is
      valid and does not take another active memory's slot; an empty one changes nothing. */
  lemma PatchIsExact(db: Tables, ref: SubjectRef, id: Id, p: Patch, expected: int, note: Note)
    requires StoreOk(db, {})
    ensures Outcome(PatchPlan(Session(db, []), ref, id, p, expected, note)) ==
              PatchOutcome(db, Located(db, ref, id), p, expected, note)
  {
    hide StoreOk, LogOk, SlotFree, Do, Stored;
    if Located(db, ref, id).Ok? {
      var m := db.memories[id];
      StoredRecord(db, {}, id);
      NextRevisionFree(db, id);
      var a := Patched(m, p, note.at);
      if expected == m.revision && !EmptyPatch(p) && a.Ok? {
        ReviseSucceeds(db, m, a.value, Patching, note);
      }
    }
  }

  /** The revision before the stored one. */
  function Previous(db: Tables, id: Id): Result<MemoryRecord> {
    if id in db.memories && RevisionKey(id, db.memories[id].revision - 1) in db.revisions
    then Ok(db.revisions[RevisionKey(id, db.memories[id].revision - 1)].snapshot)
    else Err(MemoryTransition)
  }

  function RestoredRecord(p: MemoryRecord, now: Time): MemoryRecord { p.(revision := p.revision + 2, updatedAt := now) }

  function RestoreOutcome(db: Tables, found: Result<MemoryRecord>, previous: Result<MemoryRecord>, expected: int,
                          note: Note)
    : Result<(Tables, MemoryRecord)>
  {
    var m :- found;
    var p :- previous;
    if expected != m.revision then Err(RevisionConflict(expected, m.revision))
    else if m.state != Deleted || p.state == Deleted then Err(MemoryTransition)
    else Saved(db, RestoredRecord(p, note.at), Some(TransitionType.Restore), note)
  }

  /** Restoring succeeds exactly for a deleted memory of the expected revision whose revision before was
      not itself deleted and, if it was active, has its slot free; it then stores and logs that revision
      with only revision and updated_at changed. A protection error never occurs. */
  lemma RestoreIsExact(db: Tables, ref: SubjectRef, id: Id, expected: int, note: Note)
    requires StoreOk(db, {})
    ensures Outcome(RestorePlan(Session(db, []), ref, id, expected, note))
            == RestoreOutcome(db, Located(db, ref, id), Previous(db, id), expected, note)
  {
    hide StoreOk, LogOk, SlotFree, Do, Stored, DeletionFollows;
    if Located(db, ref, id).Ok? {
      var m := db.memories[id];
      StoredRecord(db, {}, id);
      if Previous(db, id).Ok? {
        SameOwner(db, id);
        var p := Previous(db, id).value;
        if expected == m.revision && m.state == Deleted {
          BeforeDeletion(db, {}, id);
          if p.state != Deleted {
            UndoesDeletion(db, id);
            NextRevisionFree(db, id);
            ReviseSucceeds(db, m, RestoredRecord(p, note.at), Restoring, note);
          }
        }
      }
    }
  }

  lemma SameOwner(db: Tables, id: Id)
    requires id in db.memories && Previous(db, id).Ok?
    requires StoreOk(db, {})
    ensures Previous(db, id).value.subject == db.memories[id].subject
  {
    hide FactReferences, FeatureReferences, OwnerReferences, UniqueKeys, MemoryOk, EvidenceHeld, Keyed;
  }

  /** A deleted record is the one before with the deletion's changes alone. */
  lemma UndoesDeletion(db: Tables, id: Id)
    requires id in db.memories && DeletionFollows(db.revisions, db.memories[id]) && Previous(db, id).Ok?
    requires db.memories[id].id == id && RecordOk(db.memories[id]) && Previous(db, id).value.state != Deleted
    ensures var p, m := Previous(db, id).value, db.memories[id];
            RecordOk(p) && m == DeletedRecord(p, m.updatedAt)
  {
  }

  lemma SlotFreeIgnoresRevision(t: map<Id, MemoryRecord>, p: MemoryRecord, a: MemoryRecord)
    requires a == p.(revision := a.revision, updatedAt := a.updatedAt)
    ensures SlotFree(t, p) <==> SlotFree(t, a)
  {
  }

  /** Deleting and at once restoring always succeeds and undoes the deletion. */
  lemma DeleteThenRestore(db: Tables, ref: SubjectRef, id: Id, deletion: Note, note: Note)
    requires Live(db, ref) && OwnsMemory(db, ref, id) && db.memories[id].state != Deleted
    requires db.memories[id].createdAt <= deletion.at
    requires StoreOk(db, {})
    ensures var deleted := DeletePlan(Session(db, []), ref, id, db.memories[id].revision, deletion);
            deleted.Ok? &&
            var restored := RestorePlan(Session(deleted.value.0.db, []), ref, id, db.memories[id].revision + 1, note);
            restored.Ok? && restored.value.1 == RestoredRecord(db.memories[id], note.at)
  {
    hide StoreOk, LogOk, SlotFree, Do, EvidenceHeld, Sound, DeletePlan, RestorePlan;
    var m := db.memories[id];
    StoredRecord(db, {}, id);
    var a := DeletedRecord(m, deletion.at);
    NextRevisionFree(db, id);
    DeletedSlotFree(db.memories, a);
    ReviseSucceeds(db, m, a, Deleting, deletion);
    DeleteIsExact(db, ref, id, m.revision, deletion);
    var after := Stored(db, a, Some(TransitionType.Delete), None, deletion);
    DeletionKeeps(db, m, a, deletion);
    RestoreIsExact(after, ref, id, m.revision + 1, note);
    OwnSlotFree(db, after, m);
    SlotFreeIgnoresRevision(after.memories, m, RestoredRecord(m, note.at));
  }

  lemma DeletedSlotFree(t: map<Id, MemoryRecord>, a: MemoryRecord)
    requires a.state != Active
    ensures SlotFree(t, a)
  {
  }

  lemma DeletionKeeps(db: Tables, m: MemoryRecord, a: MemoryRecord, note: Note)
    requires m.id in db.memories && db.memories[m.id] == m && Changes(Deleting, m, a) && RecordOk(a)
    requires Do(Session(db, []), Revise(m, a, Deleting, None, note)).Ok?
    requires StoreOk(db, {})
    ensures StoreOk(Stored(db, a, Some(TransitionType.Delete), None, note), {})
    ensures RevisionKey(m.id, m.revision) in db.revisions && db.revisions[RevisionKey(m.id, m.revision)].snapshot == m
  {
    hide StoreOk, RecordOk, LogOk;
    EvolvesReflexive(db);
    var step := Revise(m, a, Deleting, None, note);
    StepKeeps(db, db, {}, step);
    StepEffect(db, step);
    StoredRecord(db, {}, m.id);
    LastRow(db.revisions, m);
  }

  lemma LastRow(log: map<RevisionKey, Revision>, m: MemoryRecord)
    requires LogOk(log, m)
    ensures RevisionKey(m.id, m.revision) in log && log[RevisionKey(m.id, m.revision)].snapshot == m
  {
  }

  lemma OwnSlotFree(db: Tables, after: Tables, m: MemoryRecord)
    requires m.id in db.memories && db.memories[m.id] == m
    requires forall id | id in after.memories && id != m.id ::
               id in db.memories && after.memories[id] == db.memories[id]
    requires StoreOk(db, {})
    ensures SlotFree(after.memories, m)
  {
    hide References, MemoryOk, EvidenceHeld;
  }

  /* ---- extraction ---- */

  /** Nothing of a memory changes but its evidence; its confidence may rise while it is an inferred candidate. */
  predicate Kept(b: MemoryRecord, a: MemoryRecord) {
    && a == b.(confidence := a.confidence, evidenceCount := a.evidenceCount, revision := a.revision,
               updatedAt := a.updatedAt)
    && b.confidence <= a.confidence && b.evidenceCount <= a.evidenceCount && b.revision <= a.revision
    && (a.confidence != b.confidence ==> b.authority == Inferred && b.state == Candidate)
  }

  predicate Gentle(step: Step) {
    match step
    case EnsureSubject(_) => false
    case NewEvidence(_) => true
    case Create(m, _, _) => m.authority == Inferred && m.state == Candidate
    case Revise(_, _, c, _, _) => c == Evidencing
  }

  predicate AllGentle(steps: seq<Step>) { forall i | 0 <= i < |steps| :: Gentle(steps[i]) }

  lemma {:induction false} ExtractionIsGentle(s: Session, ref: SubjectRef, xs: seq<Extraction>, note: Note)
    requires ExtractAll(s, ref, xs, note).Ok? && AllGentle(s.steps)
    ensures AllGentle(ExtractAll(s, ref, xs, note).value.0.steps)
    decreases |xs|
  {
    hide ExtractOne, Gentle;
    if xs != [] {
      ExtractionIsGentle(s, ref, xs[..|xs| - 1], note);
      ExtractOneIsGentle(ExtractAll(s, ref, xs[..|xs| - 1], note).value.0, ref, xs[|xs| - 1], note);
    }
  }

  lemma ExtractOneIsGentle(s: Session, ref: SubjectRef, x: Extraction, note: Note)
    requires ExtractOne(s, ref, x, note).Ok? && AllGentle(s.steps)
    ensures AllGentle(ExtractOne(s, ref, x, note).value.0.steps)
  {
    hide Do, GetOrCreateEvidence, Merge, MergeTarget, AllGentle, RecordValid;
    EvidenceIsGentle(s, ref, x.evidence, x.evidenceId, note.at);
    var (s1, evidence) := GetOrCreateEvidence(s, ref, x.evidence, x.evidenceId, note.at).value;
    var existing := MergeTarget(s, ref, x).value;
    if existing.Some? {
      MergeIsGentle(s1, existing.value, x.candidate.confidence, evidence, note);
    } else {
      var m := Validated(CreateInferred(ref, x.candidate, x.memoryId, 1, note.at)).value;
      DoGentle(s1, Create(m, Some(evidence.id), note));
    }
  }

  lemma DoGentle(s: Session, step: Step)
    requires AllGentle(s.steps) && Gentle(step) && Do(s, step).Ok?
    ensures AllGentle(Do(s, step).value.steps)
  {
    hide ApplyAll, Writes, Gentle;
  }

  lemma EvidenceIsGentle(s: Session, ref: SubjectRef, i: EvidenceInput, id: Id, now: Time)
    requires GetOrCreateEvidence(s, ref, i, id, now).Ok? && AllGentle(s.steps)
    ensures AllGentle(GetOrCreateEvidence(s, ref, i, id, now).value.0.steps)
  {
    hide Do, FindSource, AllGentle, BuildEvidence;
    if FindSource(s.db, ref, i).None? { DoGentle(s, NewEvidence(BuildEvidence(ref, i, id, now))); }
  }

  lemma MergeIsGentle(s: Session, m: MemoryRecord, confidence: real, evidence: Evidence, note: Note)
    requires Merge(s, m, confidence, evidence, note).Ok? && AllGentle(s.steps)
    ensures AllGentle(Merge(s, m, confidence, evidence, note).value.0.steps)
  {
    hide Do, AllGentle, Validated;
    var (s', a) := Merge(s, m, confidence, evidence, note).value;
    if s' != s { DoGentle(s, Revise(m, a, Evidencing, Some(evidence.id), note)); }
  }

  lemma GentleStepKeeps(w: Tables, r: Tables, step: Step, id: Id)
    requires Gentle(step) && id in r.memories && ApplyAll(r, Writes(step)).Ok?
    requires Sound(w, step) && Trails(w, r)
    ensures id in ApplyAll(r, Writes(step)).value.memories
    ensures Kept(r.memories[id], ApplyAll(r, Writes(step)).value.memories[id])
  {
    hide RecordOk, Born;
    match step
    case NewEvidence(e) => StepEffect(r, step);
    case Create(m, bind, note) => CreateEffect(r, m, bind, note);
    case Revise(b, a, c, bind, note) =>
      ReviseFinds(w, r, b, a, c, bind, note);
      ReviseEffect(r, b, a, c, bind, note);
  }

  lemma {:induction false} GentlePlanKeeps(w: Tables, wPending: set<Id>, r: Tables, pending: set<Id>, steps: seq<Step>,
                                           id: Id)
    requires AllGentle(steps) && id in r.memories && Run(r, steps).Ok?
    requires StoreOk(w, wPending) && StoreOk(r, pending) && Trails(w, r) && PlanOk(w, steps)
    ensures id in Run(r, steps).value.memories && Kept(r.memories[id], Run(r, steps).value.memories[id])
    decreases |steps|
  {
    hide StoreOk, Evolves, Trails, Sound, Gentle;
    if steps != [] {
      var step := steps[0];
      var w', r' := ApplyAll(w, Writes(step)).value, ApplyAll(r, Writes(step)).value;
      StepBoth(w, wPending, r, pending, step);
      GentleStepKeeps(w, r, step, id);
      GentlePlanKeeps(w', PendingAfter(wPending, step), r', PendingAfter(pending, step), steps[1..], id);
    }
  }

  /** An extraction planned on one state and committed on another never alters what a memory says or is. */
  lemma ExtractionOnlyAddsEvidence(w: Tables, r: Tables, call: Call, now: Time, id: Id)
    requires call.request.Extract? && Plan(w, call, now).Ok? && Run(r, Plan(w, call, now).value).Ok?
    requires id in r.memories && ClockOk(w, now)
    requires StoreOk(w, {}) && StoreOk(r, {}) && Trails(w, r)
    ensures var after := Run(r, Plan(w, call, now).value).value;
            id in after.memories && Kept(r.memories[id], after.memories[id])
  {
    hide StoreOk, Evolves, Trails, ClockOk, PlanOk, Kept, Run, ExtractAll;
    PlanIsSound(w, call, now);
    ExtractionIsGentle(Session(w, []), call.ref, call.request.extractions, Note(call.actor, call.reason, now));
    GentlePlanKeeps(w, {}, r, {}, Plan(w, call, now).value, id);
  }

  /* ---- reachable states ---- */

  /** Nothing a model inferred is in force unless a user confirmed it. */
  lemma InferredIsNeverActive(run: seq<System>, n: nat, id: Id)
    requires IsRun(run) && n < |run| && id in run[n].db.memories
    ensures run[n].db.memories[id].state == Active ==> run[n].db.memories[id].authority != Inferred
    ensures run[n].db.memories[id].state != Expired
  {
    hide StoreOk, ClockOk, ClientOk, HistoryOk, AllFaithful;
    RunsAreSafe(run, n);
    StoredRecord(run[n].db, {}, id);
  }

  /** Every revision of a memory is in its log, each the lawful successor of the one before. */
  lemma LogIsComplete(run: seq<System>, n: nat, id: Id, r: int)
    requires IsRun(run) && n < |run| && id in run[n].db.memories
    ensures RevisionKey(id, r) in run[n].db.revisions <==> 1 <= r <= run[n].db.memories[id].revision
    ensures 1 < r <= run[n].db.memories[id].revision ==>
              RevisionKey(id, r - 1) in run[n].db.revisions && RevisionKey(id, r) in run[n].db.revisions
              && Follows(run[n].db.revisions[RevisionKey(id, r - 1)], run[n].db.revisions[RevisionKey(id, r)])
    ensures RevisionKey(id, run[n].db.memories[id].revision) in run[n].db.revisions
    ensures run[n].db.revisions[RevisionKey(id, run[n].db.memories[id].revision)].snapshot == run[n].db.memories[id]
  {
    hide StoreOk, ClockOk, ClientOk, HistoryOk, AllFaithful, Follows, RecordOk;
    RunsAreSafe(run, n);
    StoredRecord(run[n].db, {}, id);
    if RevisionKey(id, r) in run[n].db.revisions { LogKeys(run[n].db, id, r); }
    var m := run[n].db.memories[id];
    if 1 <= r <= m.revision { assert RowOk(run[n].db.revisions, m.id, r); }
  }

  lemma LogKeys(db: Tables, id: Id, r: int)
    requires id in db.memories && RevisionKey(id, r) in db.revisions
    requires StoreOk(db, {})
    ensures 1 <= r <= db.memories[id].revision
  {
    hide Consistent, RecordsOk, CountsOk, EvidenceHeld, LogOk;
  }

  /** The cached count of a memory is the number of evidence rows bound to it. */
  lemma CountIsCardinality(run: seq<System>, n: nat, id: Id)
    requires IsRun(run) && n < |run| && id in run[n].db.memories
    ensures run[n].db.memories[id].evidenceCount == |BoundTo(run[n].db, id)|
  {
    hide ClockOk, ClientOk, HistoryOk, AllFaithful, Consistent, RecordsOk, LogsOk, EvidenceHeld;
    RunsAreSafe(run, n);
  }
}
