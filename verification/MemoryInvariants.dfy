/** What every memory transaction keeps, whichever state of the tables it read. */
module MemoryInvariants {
  import opened Domain
  import opened Memory
  import opened Database
  import opened MemoryPlans

  /* ---- the store invariant ---- */

  ghost predicate RecordsOk(t: map<Id, MemoryRecord>) {
    forall id | id in t :: RecordOk(t[id])
  }
  predicate RecordOk(m: MemoryRecord) { RecordValid(m) && Lawful(m) }

  predicate Born(m: MemoryRecord) { m.revision == 1 && m.state in {Active, Candidate} && m.authority != Confirmed }

  /** One audit row after another: some change of the record, recorded under its own name. */
  ghost predicate Follows(b: Revision, a: Revision) {
    exists c: Change :: Changes(c, b.snapshot, a.snapshot) && a.transition == TransitionOf(c)
  }

  /** Row r of a memory's log: the first is a birth, any other follows the one before. */
  ghost predicate RowOk(log: map<RevisionKey, Revision>, id: Id, r: int) {
    && RevisionKey(id, r) in log && RecordOk(log[RevisionKey(id, r)].snapshot)
    && (r == 1 ==> Born(log[RevisionKey(id, r)].snapshot) && log[RevisionKey(id, r)].transition == None)
    && (r > 1 ==> RevisionKey(id, r - 1) in log && Follows(log[RevisionKey(id, r - 1)], log[RevisionKey(id, r)]))
  }

  /** The log of a memory is exactly revisions 1..current, and the last row is the stored record. */
  ghost predicate LogOk(log: map<RevisionKey, Revision>, m: MemoryRecord) {
    && m.revision >= 1
    && (forall r | 1 <= r <= m.revision :: RowOk(log, m.id, r))
    && RevisionKey(m.id, m.revision) in log && log[RevisionKey(m.id, m.revision)].snapshot == m
  }

  ghost predicate LogsOk(t: map<Id, MemoryRecord>, log: map<RevisionKey, Revision>) {
    && (forall id | id in t :: LogOk(log, t[id]))
    && (forall k | k in log :: k.memory in t && 1 <= k.revision <= t[k.memory].revision)
  }

  ghost predicate CountsOk(t: map<Id, MemoryRecord>, bindings: set<Binding>) {
    forall id | id in t :: t[id].evidenceCount == |Bound(bindings, id)|
  }

  /** Every evidence row, except those a running transaction has yet to bind, is held by an event or a memory. */
  ghost predicate EvidenceHeld(evidence: map<Id, Evidence>, bindings: set<Binding>, pending: set<Id>) {
    forall e | e in evidence && e !in pending :: evidence[e].eventId.Some? || exists m :: Binding(m, e) in bindings
  }

  ghost predicate MemoryOk(db: Tables) {
    RecordsOk(db.memories) && LogsOk(db.memories, db.revisions) && CountsOk(db.memories, db.bindings)
  }

  ghost predicate StoreOk(db: Tables, pending: set<Id>) {
    Consistent(db) && MemoryOk(db) && EvidenceHeld(db.evidence, db.bindings, pending)
  }

  lemma EmptyStoreOk()
    ensures StoreOk(EMPTY, {})
  {
  }

  /* ---- evolution: what a reader of `a` may still rely on in `b` ---- */

  ghost predicate SameOrLater(a: Tables, b: Tables, id: Id)
    requires id in a.memories
  {
    && id in b.memories
    && (|| a.memories[id].revision < b.memories[id].revision
        || (a.memories[id] == b.memories[id] && Bound(a.bindings, id) == Bound(b.bindings, id)))
  }

  ghost predicate MemoriesEvolve(a: Tables, b: Tables) { forall id | id in a.memories :: SameOrLater(a, b, id) }

  ghost predicate Evolves(a: Tables, b: Tables) {
    MemoriesEvolve(a, b) && Extends(a.evidence, b.evidence) && Extends(a.revisions, b.revisions)
  }

  /** As far as the memories of `a` are still there, they are as in `a` or later: some may have been purged. */
  ghost predicate Trails(a: Tables, b: Tables) {
    forall id | id in a.memories && id in b.memories :: SameOrLater(a, b, id)
  }

  lemma EvolvesTrails(a: Tables, b: Tables)
    requires Evolves(a, b)
    ensures Trails(a, b)
  {
  }

  lemma TrailsChain(a: Tables, b: Tables, c: Tables)
    requires Trails(a, b) && Trails(b, c) && forall id | id in a.memories && id in c.memories :: id in b.memories
    ensures Trails(a, c)
  {
    forall id | id in a.memories && id in c.memories ensures SameOrLater(a, c, id) {
      assert SameOrLater(a, b, id) && SameOrLater(b, c, id);
    }
  }

  lemma EvolvesTransitive(a: Tables, b: Tables, c: Tables)
    requires Evolves(a, b) && Evolves(b, c)
    ensures Evolves(a, c)
  {
    forall id | id in a.memories ensures SameOrLater(a, c, id) {
      assert SameOrLater(a, b, id) && SameOrLater(b, c, id);
    }
  }

  /* ---- the effect of one step ---- */

  function Linked(bindings: set<Binding>, id: Id, bind: Option<Id>): set<Binding> {
    if bind.None? then bindings else bindings + {Binding(id, bind.value)}
  }

  /** A record stored, its evidence bound, its audit row added. */
  function Stored(db: Tables, m: MemoryRecord, transition: Option<TransitionType>, bind: Option<Id>,
                  note: Note): Tables
  {
    db.(bindings := Linked(db.bindings, m.id, bind), memories := db.memories[m.id := m],
    revisions := db.revisions[RevisionKey(m.id, m.revision) := Audit(m, transition, note)])
  }

  function After(db: Tables, step: Step): Tables {
    match step
    case EnsureSubject(ref) => Effect(db, AddSubject(ref))
    case NewEvidence(e) => Effect(db, AddEvidence(e))
    case Create(m, bind, note) => Stored(db, m, None, bind, note)
    case Revise(_, a, c, bind, note) => Stored(db, a, TransitionOf(c), bind, note)
  }

  lemma ApplyOne(db: Tables, w: Write)
    ensures ApplyAll(db, [w]) == Apply(db, w)
  {
    assert [w][1..] == [];
    if Apply(db, w).Ok? { assert ApplyAll(Apply(db, w).value, []) == Apply(db, w); }
  }

  lemma ApplyThen(db: Tables, ws: seq<Write>, w: Write)
    ensures ApplyAll(db, ws + [w]) == if ApplyAll(db, ws).Err? then ApplyAll(db, ws)
            else Apply(ApplyAll(db, ws).value, w)
  {
    ApplyAllConcat(db, ws, [w]);
    if ApplyAll(db, ws).Ok? { ApplyOne(ApplyAll(db, ws).value, w); }
  }

  lemma BindingEffect(db: Tables, m: MemoryRecord, bind: Option<Id>)
    requires ApplyAll(db, BindWrites(m, bind)).Ok?
    ensures ApplyAll(db, BindWrites(m, bind)).value == db.(bindings := Linked(db.bindings, m.id, bind))
    ensures bind.Some? ==> bind.value in db.evidence && OwnsMemory(db, m.subject, m.id)
  {
    if bind.Some? { ApplyOne(db, BindEvidence(m.subject, m.id, bind.value)); }
  }

  lemma ReviseEffect(db: Tables, b: MemoryRecord, a: MemoryRecord, c: Change, bind: Option<Id>, note: Note)
    requires a.id == b.id && ApplyAll(db, Writes(Revise(b, a, c, bind, note))).Ok?
    ensures ApplyAll(db, Writes(Revise(b, a, c, bind, note))).value == After(db, Revise(b, a, c, bind, note))
    ensures a.id in db.memories && db.memories[a.id].revision == b.revision
    ensures bind.Some? ==> bind.value in db.evidence
    ensures RevisionKey(a.id, a.revision) !in db.revisions
  {
    hide Apply;
    var ws := BindWrites(b, bind);
    ApplyThen(db, ws + [UpdateMemory(a, b.revision)], AddRevision(Audit(a, TransitionOf(c), note)));
    ApplyThen(db, ws, UpdateMemory(a, b.revision));
    var bound := ApplyAll(db, ws).value;
    BindingEffect(db, b, bind);
    UpdateEffect(bound, a, b.revision);
    RevisionEffect(Apply(bound, UpdateMemory(a, b.revision)).value, Audit(a, TransitionOf(c), note));
  }

  lemma UpdateEffect(db: Tables, m: MemoryRecord, expected: int)
    requires Apply(db, UpdateMemory(m, expected)).Ok?
    ensures Apply(db, UpdateMemory(m, expected)).value == db.(memories := db.memories[m.id := m])
    ensures m.id in db.memories && db.memories[m.id].revision == expected
  {
    hide SlotFree;
  }

  lemma RevisionEffect(db: Tables, r: Revision)
    requires Apply(db, AddRevision(r)).Ok?
    ensures var key := RevisionKey(r.snapshot.id, r.snapshot.revision);
            Apply(db, AddRevision(r)).value == db.(revisions := db.revisions[key := r]) && key !in db.revisions
  {
  }

  lemma CreateEffect(db: Tables, m: MemoryRecord, bind: Option<Id>, note: Note)
    requires ApplyAll(db, Writes(Create(m, bind, note))).Ok?
    ensures ApplyAll(db, Writes(Create(m, bind, note))).value == After(db, Create(m, bind, note))
    ensures m.id !in db.memories
    ensures bind.Some? ==> bind.value in db.evidence
    ensures RevisionKey(m.id, m.revision) !in db.revisions
  {
    hide SlotFree;
    var add := AddMemory(m);
    ApplyThen(db, [add] + BindWrites(m, bind), AddRevision(Audit(m, None, note)));
    ApplyAllConcat(db, [add], BindWrites(m, bind));
    ApplyOne(db, add);
    BindingEffect(Effect(db, add), m, bind);
  }

  lemma StepEffect(db: Tables, step: Step)
    requires ApplyAll(db, Writes(step)).Ok? && (step.Revise? ==> step.after.id == step.before.id)
    ensures ApplyAll(db, Writes(step)).value == After(db, step)
  {
    match step
    case EnsureSubject(ref) => ApplyOne(db, AddSubject(ref));
    case NewEvidence(e) => ApplyOne(db, AddEvidence(e));
    case Create(m, bind, note) => CreateEffect(db, m, bind, note);
    case Revise(b, a, c, bind, note) => ReviseEffect(db, b, a, c, bind, note);
  }

  /* ---- sound steps keep the invariant ---- */

  /** The step is one the service takes on a working copy w. */
  ghost predicate Sound(w: Tables, step: Step) {
    match step
    case EnsureSubject(_) => true
    case NewEvidence(_) => true
    case Create(m, bind, note) =>
      RecordOk(m) && Born(m) && m.evidenceCount == (if bind.Some? then 1 else 0)
    case Revise(b, a, c, bind, note) =>
      && b.id in w.memories && w.memories[b.id] == b
      && Changes(c, b, a) && RecordOk(a)
      && a.evidenceCount == b.evidenceCount + (if bind.Some? && bind.value !in Bound(w.bindings, b.id) then 1 else 0)
  }

  lemma SoundKeepsId(w: Tables, step: Step)
    requires Sound(w, step) && step.Revise?
    ensures step.after.id == step.before.id && step.after.subject == step.before.subject
    ensures step.after.revision == step.before.revision + 1
  {
  }

  function PendingAfter(pending: set<Id>, step: Step): set<Id> {
    match step
    case EnsureSubject(_) => pending
    case NewEvidence(e) => if e.eventId.Some? then pending else pending + {e.id}
    case Create(_, bind, _) => if bind.Some? then pending - {bind.value} else pending
    case Revise(_, _, _, bind, _) => if bind.Some? then pending - {bind.value} else pending
  }

  lemma LinkedBound(bindings: set<Binding>, id: Id, bind: Option<Id>, other: Id)
    ensures Bound(Linked(bindings, id, bind), other) ==
            Bound(bindings, other) + if other == id && bind.Some? then {bind.value} else {}
  {
  }

  lemma CountFollows(bindings: set<Binding>, id: Id, bind: Option<Id>)
    ensures |Bound(Linked(bindings, id, bind), id)| ==
            |Bound(bindings, id)| + if bind.Some? && bind.value !in Bound(bindings, id) then 1 else 0
  {
    LinkedBound(bindings, id, bind, id);
    if bind.Some? && bind.value in Bound(bindings, id) {
      assert Bound(bindings, id) + {bind.value} == Bound(bindings, id);
    }
  }

  lemma CountsFollow(t: map<Id, MemoryRecord>, bindings: set<Binding>, a: MemoryRecord, bind: Option<Id>)
    requires CountsOk(t, bindings)
    requires a.evidenceCount ==
               |Bound(bindings, a.id)| + (if bind.Some? && bind.value !in Bound(bindings, a.id) then 1 else 0)
    ensures CountsOk(t[a.id := a], Linked(bindings, a.id, bind))
  {
    hide Linked;
    CountFollows(bindings, a.id, bind);
    forall id | id in t && id != a.id ensures t[id].evidenceCount == |Bound(Linked(bindings, a.id, bind), id)| {
      LinkedBound(bindings, a.id, bind, id);
      assert Bound(Linked(bindings, a.id, bind), id) == Bound(bindings, id);
    }
  }

  lemma RowKept(log: map<RevisionKey, Revision>, key: RevisionKey, row: Revision, id: Id, r: int)
    requires RowOk(log, id, r) && key !in log
    ensures RowOk(log[key := row], id, r)
  {
  }

  lemma LogKept(log: map<RevisionKey, Revision>, key: RevisionKey, row: Revision, m: MemoryRecord)
    requires LogOk(log, m) && key !in log
    ensures LogOk(log[key := row], m)
  {
    var log' := log[key := row];
    forall r | 1 <= r <= m.revision ensures RowOk(log', m.id, r) {
      RowKept(log, key, row, m.id, r);
    }
  }

  /** A log extended by one row that starts it or follows its last row. */
  lemma LogGrows(log: map<RevisionKey, Revision>, row: Revision)
    requires RevisionKey(row.snapshot.id, row.snapshot.revision) !in log && row.snapshot.revision >= 1
    requires forall r | 1 <= r < row.snapshot.revision :: RowOk(log, row.snapshot.id, r)
    requires RowOk(log[RevisionKey(row.snapshot.id, row.snapshot.revision) := row], row.snapshot.id,
                   row.snapshot.revision)
    ensures LogOk(log[RevisionKey(row.snapshot.id, row.snapshot.revision) := row], row.snapshot)
  {
    var key := RevisionKey(row.snapshot.id, row.snapshot.revision);
    var log' := log[key := row];
    forall r | 1 <= r <= row.snapshot.revision ensures RowOk(log', row.snapshot.id, r) {
      if r < row.snapshot.revision { RowKept(log, key, row, row.snapshot.id, r); }
    }
  }

  lemma LogsGrow(t: map<Id, MemoryRecord>, log: map<RevisionKey, Revision>, row: Revision)
    requires LogsOk(t, log) && MemoriesKeyed(t)
    requires RevisionKey(row.snapshot.id, row.snapshot.revision) !in log
    requires LogOk(log[RevisionKey(row.snapshot.id, row.snapshot.revision) := row], row.snapshot)
    requires row.snapshot.id in t ==> t[row.snapshot.id].revision <= row.snapshot.revision
    ensures LogsOk(t[row.snapshot.id := row.snapshot], log[RevisionKey(row.snapshot.id, row.snapshot.revision) := row])
  {
    var key := RevisionKey(row.snapshot.id, row.snapshot.revision);
    forall id | id in t ensures LogOk(log[key := row], t[id]) {
      LogKept(log, key, row, t[id]);
    }
  }

  lemma LogsRevise(t: map<Id, MemoryRecord>, log: map<RevisionKey, Revision>, b: MemoryRecord, row: Revision, c: Change)
    requires LogsOk(t, log) && MemoriesKeyed(t) && b.id in t && t[b.id] == b
    requires Changes(c, b, row.snapshot) && row.transition == TransitionOf(c) && RecordOk(row.snapshot)
    ensures LogsOk(t[b.id := row.snapshot], log[RevisionKey(b.id, b.revision + 1) := row])
  {
    assert LogOk(log, b);
    assert Follows(log[RevisionKey(b.id, b.revision)], row);
    LogGrows(log, row);
    LogsGrow(t, log, row);
  }

  lemma LogsBegin(t: map<Id, MemoryRecord>, log: map<RevisionKey, Revision>, row: Revision)
    requires LogsOk(t, log) && MemoriesKeyed(t) && row.snapshot.id !in t && Born(row.snapshot) && RecordOk(row.snapshot)
             && row.transition == None
    ensures LogsOk(t[row.snapshot.id := row.snapshot], log[RevisionKey(row.snapshot.id, 1) := row])
  {
    LogGrows(log, row);
    LogsGrow(t, log, row);
  }

  lemma EvidenceStaysHeld(evidence: map<Id, Evidence>, bindings: set<Binding>, pending: set<Id>, id: Id,
                          bind: Option<Id>)
    requires EvidenceHeld(evidence, bindings, pending)
    ensures EvidenceHeld(evidence, Linked(bindings, id, bind), if bind.Some? then pending - {bind.value} else pending)
  {
    var linked := Linked(bindings, id, bind);
    forall e | e in evidence && (e !in pending || bind == Some(e))
      ensures evidence[e].eventId.Some? || exists m :: Binding(m, e) in linked
    {
      if bind == Some(e) {
        assert Binding(id, e) in linked;
      } else if evidence[e].eventId.None? {
        var m :| Binding(m, e) in bindings;
        assert Binding(m, e) in linked;
      }
    }
  }

  /** A sound revision, decided on w and executed on a later r, finds in r the record it was decided on. */
  lemma ReviseFinds(w: Tables, r: Tables, b: MemoryRecord, a: MemoryRecord, c: Change, bind: Option<Id>, note: Note)
    requires Trails(w, r) && Sound(w, Revise(b, a, c, bind, note))
    requires ApplyAll(r, Writes(Revise(b, a, c, bind, note))).Ok?
    ensures b.id in r.memories && r.memories[b.id] == b && Bound(r.bindings, b.id) == Bound(w.bindings, b.id)
  {
    ReviseEffect(r, b, a, c, bind, note);
    assert SameOrLater(w, r, b.id);
  }

  lemma ReviseKeeps(r: Tables, b: MemoryRecord, a: MemoryRecord, c: Change, bind: Option<Id>, note: Note)
    requires MemoryOk(r) && MemoriesKeyed(r.memories) && b.id in r.memories && r.memories[b.id] == b
    requires Sound(r, Revise(b, a, c, bind, note))
    ensures MemoryOk(Stored(r, a, TransitionOf(c), bind, note))
  {
    hide RecordOk, Changes, LogsOk, Linked;
    SoundKeepsId(r, Revise(b, a, c, bind, note));
    CountsFollow(r.memories, r.bindings, a, bind);
    LogsRevise(r.memories, r.revisions, b, Audit(a, TransitionOf(c), note), c);
  }

  lemma CreateKeeps(r: Tables, m: MemoryRecord, bind: Option<Id>, note: Note)
    requires MemoryOk(r) && MemoriesKeyed(r.memories) && BindingsRefer(r.bindings, r.memories, r.evidence)
    requires m.id !in r.memories && Sound(r, Create(m, bind, note))
    ensures MemoryOk(Stored(r, m, None, bind, note))
  {
    assert Bound(r.bindings, m.id) == {};
    CountsFollow(r.memories, r.bindings, m, bind);
    LogsBegin(r.memories, r.revisions, Audit(m, None, note));
  }

  lemma StepKeepsMemory(w: Tables, r: Tables, step: Step)
    requires Consistent(r) && MemoryOk(r) && Trails(w, r) && Sound(w, step)
    requires ApplyAll(r, Writes(step)).Ok?
    ensures MemoryOk(After(r, step))
  {
    hide LogsOk, CountsOk, RecordsOk, Stored, UniqueKeys, RecordOk;
    match step
    case EnsureSubject(ref) =>
    case NewEvidence(e) =>
    case Create(m, bind, note) =>
      CreateEffect(r, m, bind, note);
      CreateKeeps(r, m, bind, note);
    case Revise(b, a, c, bind, note) =>
      ReviseFinds(w, r, b, a, c, bind, note);
      ReviseKeeps(r, b, a, c, bind, note);
  }

  lemma StepKeepsEvidence(r: Tables, pending: set<Id>, step: Step)
    requires EvidenceHeld(r.evidence, r.bindings, pending)
    ensures EvidenceHeld(After(r, step).evidence, After(r, step).bindings, PendingAfter(pending, step))
  {
    match step
    case EnsureSubject(ref) =>
    case NewEvidence(e) =>
    case Create(m, bind, note) => EvidenceStaysHeld(r.evidence, r.bindings, pending, m.id, bind);
    case Revise(b, a, c, bind, note) => EvidenceStaysHeld(r.evidence, r.bindings, pending, a.id, bind);
  }

  lemma StoreOkFrom(db: Tables, pending: set<Id>)
    ensures StoreOk(db, pending) <==> Consistent(db) && MemoryOk(db) && EvidenceHeld(db.evidence, db.bindings, pending)
  {
  }

  /** Executing a sound step on a later state keeps the invariant there. */
  lemma StepKeeps(w: Tables, r: Tables, pending: set<Id>, step: Step)
    requires StoreOk(r, pending) && Trails(w, r) && Sound(w, step)
    requires ApplyAll(r, Writes(step)).Ok?
    ensures StoreOk(ApplyAll(r, Writes(step)).value, PendingAfter(pending, step))
  {
    hide *;
    StoreOkFrom(r, pending);
    WritesKeepConsistency(r, Writes(step));
    StepKeepsMemory(w, r, step);
    StepKeepsEvidence(r, pending, step);
    if step.Revise? { SoundKeepsId(w, step); }
    StepEffect(r, step);
    StoreOkFrom(After(r, step), PendingAfter(pending, step));
  }

  /** Storing a new record, or a later revision of one, moves the tables forward. */
  lemma StoredEvolves(r: Tables, m: MemoryRecord, transition: Option<TransitionType>, bind: Option<Id>, note: Note)
    requires m.id in r.memories ==> r.memories[m.id].revision < m.revision
    requires RevisionKey(m.id, m.revision) !in r.revisions
    ensures Evolves(r, Stored(r, m, transition, bind, note))
  {
    var after := Stored(r, m, transition, bind, note);
    forall id | id in r.memories ensures SameOrLater(r, after, id) { LinkedBound(r.bindings, m.id, bind, id); }
  }

  /** One step moves the tables forward. */
  lemma StepEvolves(w: Tables, r: Tables, step: Step)
    requires Sound(w, step) && ApplyAll(r, Writes(step)).Ok?
    ensures Evolves(r, ApplyAll(r, Writes(step)).value)
  {
    hide RecordOk, Born;
    StepEffect(r, step);
    match step
    case EnsureSubject(ref) =>
    case NewEvidence(e) => ApplyOne(r, AddEvidence(e));
    case Create(m, bind, note) =>
      CreateEffect(r, m, bind, note);
      StoredEvolves(r, m, None, bind, note);
    case Revise(b, a, c, bind, note) =>
      ReviseEffect(r, b, a, c, bind, note);
      StoredEvolves(r, a, TransitionOf(c), bind, note);
  }

  /** Taken on both sides, a sound step leaves the reader's copy behind the later state as before. */
  lemma StepTogether(w: Tables, r: Tables, step: Step)
    requires BindingsRefer(w.bindings, w.memories, w.evidence) && BindingsRefer(r.bindings, r.memories, r.evidence)
    requires Trails(w, r) && Sound(w, step)
    requires ApplyAll(w, Writes(step)).Ok? && ApplyAll(r, Writes(step)).Ok?
    ensures Trails(ApplyAll(w, Writes(step)).value, ApplyAll(r, Writes(step)).value)
  {
    hide RecordOk, Born, Stored;
    if step.Revise? { SoundKeepsId(w, step); }
    StepEffect(w, step);
    StepEffect(r, step);
    match step
    case EnsureSubject(ref) =>
    case NewEvidence(e) =>
    case Create(m, bind, note) =>
      CreateEffect(r, m, bind, note);
      CreateEffect(w, m, bind, note);
      NewHasNoEvidence(w, m.id);
      NewHasNoEvidence(r, m.id);
      StoredTogether(w, r, m, bind, note, None);
    case Revise(b, a, c, bind, note) =>
      ReviseFinds(w, r, b, a, c, bind, note);
      StoredTogether(w, r, a, bind, note, TransitionOf(c));
  }

  lemma NewHasNoEvidence(db: Tables, id: Id)
    requires BindingsRefer(db.bindings, db.memories, db.evidence) && id !in db.memories
    ensures Bound(db.bindings, id) == {}
  {
  }

  lemma StoredTogether(w: Tables, r: Tables, m: MemoryRecord, bind: Option<Id>, note: Note,
                       transition: Option<TransitionType>)
    requires Trails(w, r) && Bound(w.bindings, m.id) == Bound(r.bindings, m.id)
    ensures Trails(Stored(w, m, transition, bind, note), Stored(r, m, transition, bind, note))
  {
    var w', r' := Stored(w, m, transition, bind, note), Stored(r, m, transition, bind, note);
    forall id | id in w'.memories && id in r'.memories ensures SameOrLater(w', r', id) {
      assert id in w.memories && id in r.memories ==> SameOrLater(w, r, id);
      LinkedBound(r.bindings, m.id, bind, id);
      LinkedBound(w.bindings, m.id, bind, id);
    }
  }
}
