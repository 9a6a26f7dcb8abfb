/** Every plan is a run of sound steps; executed whole on a later state it keeps the store invariant. */
module MemoryTransactions {
  import opened Domain
  import opened Sorting
  import opened Memory
  import opened Database
  import opened MemoryPlans
  import opened MemoryInvariants

  ghost predicate PlanOk(w: Tables, steps: seq<Step>)
    decreases |steps|
  {
    steps != [] ==>
      && Sound(w, steps[0]) && ApplyAll(w, Writes(steps[0])).Ok?
      && PlanOk(ApplyAll(w, Writes(steps[0])).value, steps[1..])
  }

  function PendingAll(pending: set<Id>, steps: seq<Step>): set<Id>
    decreases |steps|
  {
    if steps == [] then pending else PendingAll(PendingAfter(pending, steps[0]), steps[1..])
  }

  lemma StoreParts(db: Tables, pending: set<Id>)
    requires StoreOk(db, pending)
    ensures BindingsRefer(db.bindings, db.memories, db.evidence) && MemoriesKeyed(db.memories)
    ensures Consistent(db) && MemoryOk(db)
  {
  }

  predicate ClockOk(db: Tables, now: Time) { forall id | id in db.memories :: db.memories[id].createdAt <= now }

  predicate StepInTime(step: Step, now: Time) { step.Create? ==> step.memory.createdAt <= now }

  predicate InTime(steps: seq<Step>, now: Time) { forall i | 0 <= i < |steps| :: StepInTime(steps[i], now) }

  lemma ClockFollows(w: Tables, r: Tables, step: Step, now: Time)
    requires StepInTime(step, now) && ClockOk(r, now) && ApplyAll(r, Writes(step)).Ok?
    requires Sound(w, step) && Trails(w, r)
    ensures ClockOk(ApplyAll(r, Writes(step)).value, now)
  {
    hide RecordOk, Born;
    if step.Revise? {
      SoundKeepsId(w, step);
      ReviseFinds(w, r, step.before, step.after, step.change, step.bind, step.note);
    }
    StepEffect(r, step);
  }

  /** One sound step taken by the reader's copy w and by the later state r. */
  lemma StepBoth(w: Tables, wPending: set<Id>, r: Tables, pending: set<Id>, step: Step)
    requires ApplyAll(w, Writes(step)).Ok? && ApplyAll(r, Writes(step)).Ok?
    requires StoreOk(w, wPending) && StoreOk(r, pending) && Trails(w, r) && Sound(w, step)
    ensures StoreOk(ApplyAll(w, Writes(step)).value, PendingAfter(wPending, step))
    ensures StoreOk(ApplyAll(r, Writes(step)).value, PendingAfter(pending, step))
    ensures Evolves(r, ApplyAll(r, Writes(step)).value)
    ensures Trails(ApplyAll(w, Writes(step)).value, ApplyAll(r, Writes(step)).value)
  {
    hide StoreOk, Consistent, MemoryOk, Evolves, Trails, Sound;
    StoreParts(w, wPending);
    StoreParts(r, pending);
    EvolvesReflexive(w);
    EvolvesTrails(w, w);
    StepKeeps(w, w, wPending, step);
    StepKeeps(w, r, pending, step);
    StepEvolves(w, r, step);
    StepTogether(w, r, step);
  }

  /** A plan made on w and executed on a later state r keeps r's invariant and moves r forward. */
  lemma {:induction false} PlanKeeps(w: Tables, wPending: set<Id>, r: Tables, pending: set<Id>, steps: seq<Step>)
    requires Run(r, steps).Ok?
    requires StoreOk(w, wPending) && StoreOk(r, pending) && Trails(w, r) && PlanOk(w, steps)
    ensures StoreOk(Run(r, steps).value, PendingAll(pending, steps))
    ensures Evolves(r, Run(r, steps).value)
    decreases |steps|
  {
    hide StoreOk, Evolves, Trails, Sound;
    if steps == [] {
      EvolvesReflexive(r);
    } else {
      var step := steps[0];
      var w', r' := ApplyAll(w, Writes(step)).value, ApplyAll(r, Writes(step)).value;
      StepBoth(w, wPending, r, pending, step);
      PlanKeeps(w', PendingAfter(wPending, step), r', PendingAfter(pending, step), steps[1..]);
      EvolvesTransitive(r, r', Run(r', steps[1..]).value);
    }
  }

  /** Nothing it stores was created after the transaction's clock reading. */
  lemma {:induction false} PlanInTime(w: Tables, wPending: set<Id>, r: Tables, pending: set<Id>, steps: seq<Step>,
                                      now: Time)
    requires Run(r, steps).Ok? && InTime(steps, now) && ClockOk(r, now)
    requires StoreOk(w, wPending) && StoreOk(r, pending) && Trails(w, r) && PlanOk(w, steps)
    ensures ClockOk(Run(r, steps).value, now)
    decreases |steps|
  {
    hide StoreOk, Evolves, Trails, Sound, ClockOk, StepInTime;
    if steps != [] {
      var step := steps[0];
      var w', r' := ApplyAll(w, Writes(step)).value, ApplyAll(r, Writes(step)).value;
      StepBoth(w, wPending, r, pending, step);
      ClockFollows(w, r, step, now);
      PlanInTime(w', PendingAfter(wPending, step), r', PendingAfter(pending, step), steps[1..], now);
    }
  }

  /** A committed revision found its expected one: the stored revision was not past it, and now is. */
  lemma {:induction false} PlanOverwrites(w: Tables, wPending: set<Id>, r: Tables, pending: set<Id>, steps: seq<Step>,
                                          k: nat)
    requires k < |steps| && steps[k].Revise? && Run(r, steps).Ok?
    requires StoreOk(w, wPending) && StoreOk(r, pending) && Trails(w, r) && PlanOk(w, steps)
    ensures Passes(r, Run(r, steps).value, steps[k].before)
    decreases |steps|
  {
    hide StoreOk, Evolves, Trails, Sound, ApplyAll, Writes, Passes;
    var step := steps[0];
    var w', r' := ApplyAll(w, Writes(step)).value, ApplyAll(r, Writes(step)).value;
    StepBoth(w, wPending, r, pending, step);
    var all := Run(r', steps[1..]).value;
    if k == 0 {
      SoundKeepsId(w, step);
      ReviseEffect(r, step.before, step.after, step.change, step.bind, step.note);
      PlanKeeps(w', PendingAfter(wPending, step), r', PendingAfter(pending, step), steps[1..]);
      PassesNow(r, r', all, step);
    } else {
      PlanOverwrites(w', PendingAfter(wPending, step), r', PendingAfter(pending, step), steps[1..], k - 1);
      assert steps[k] == steps[1..][k - 1];
      PassesBefore(r, r', all, steps[k].before);
    }
  }

  /** b was at most the current revision's holder before, and is behind it after. */
  ghost predicate Passes(before: Tables, after: Tables, b: MemoryRecord) {
    && (b.id in before.memories ==> before.memories[b.id].revision <= b.revision)
    && b.id in after.memories && b.revision < after.memories[b.id].revision
  }

  lemma PassesNow(r: Tables, r': Tables, all: Tables, step: Step)
    requires step.Revise? && step.after.id == step.before.id && step.before.revision < step.after.revision
    requires step.after.id in r.memories && r.memories[step.after.id].revision == step.before.revision
    requires r' == After(r, step) && Evolves(r', all)
    ensures Passes(r, all, step.before)
  {
    assert SameOrLater(r', all, step.after.id);
  }

  lemma PassesBefore(r: Tables, r': Tables, all: Tables, b: MemoryRecord)
    requires Evolves(r, r') && Passes(r', all, b)
    ensures Passes(r, all, b)
  {
    assert b.id in r.memories ==> SameOrLater(r, r', b.id);
  }

  lemma EvolvesReflexive(r: Tables)
    ensures Evolves(r, r)
  {
  }

  /* ---- building a plan ---- */

  /** A session over `base`: its steps are sound and take base to the working copy. */
  ghost predicate SessionOk(base: Tables, s: Session, pending: set<Id>, now: Time) {
    && PlanOk(base, s.steps) && Run(base, s.steps) == Ok(s.db) && PendingAll({}, s.steps) == pending
    && StoreOk(s.db, pending) && ClockOk(s.db, now) && InTime(s.steps, now)
  }

  lemma {:induction false} PlanAppend(w: Tables, steps: seq<Step>, step: Step)
    requires PlanOk(w, steps) && Run(w, steps).Ok? && Sound(Run(w, steps).value, step)
    requires ApplyAll(Run(w, steps).value, Writes(step)).Ok?
    ensures PlanOk(w, steps + [step])
    ensures Run(w, steps + [step]) == ApplyAll(Run(w, steps).value, Writes(step))
    decreases |steps|
  {
    hide Sound, Writes;
    if steps == [] {
      assert steps + [step] == [step] && [step][1..] == [];
      assert Run(ApplyAll(w, Writes(step)).value, []) == ApplyAll(w, Writes(step));
    } else {
      assert (steps + [step])[1..] == steps[1..] + [step];
      PlanAppend(ApplyAll(w, Writes(steps[0])).value, steps[1..], step);
    }
  }

  lemma {:induction false} PendingAppend(pending: set<Id>, steps: seq<Step>, step: Step)
    ensures PendingAll(pending, steps + [step]) == PendingAfter(PendingAll(pending, steps), step)
    decreases |steps|
  {
    if steps == [] {
      assert steps + [step] == [step] && [step][1..] == [];
      assert PendingAll(PendingAfter(pending, step), []) == PendingAfter(pending, step);
    } else {
      assert (steps + [step])[1..] == steps[1..] + [step];
      PendingAppend(PendingAfter(pending, steps[0]), steps[1..], step);
    }
  }

  lemma DoOk(base: Tables, s: Session, pending: set<Id>, now: Time, step: Step)
    requires Sound(s.db, step) && StepInTime(step, now) && Do(s, step).Ok?
    requires SessionOk(base, s, pending, now)
    ensures SessionOk(base, Do(s, step).value, PendingAfter(pending, step), now)
  {
    hide StoreOk, Consistent, MemoryOk, Evolves, Sound, ClockOk, Run;
    StoreParts(s.db, pending);
    EvolvesReflexive(s.db);
    StepKeeps(s.db, s.db, pending, step);
    PlanAppend(base, s.steps, step);
    PendingAppend({}, s.steps, step);
    ClockFollows(s.db, s.db, step, now);
  }

  /* ---- reads ---- */

  lemma ListedMatches(db: Tables, ref: SubjectRef, f: MemoryFilter, limit: nat, offset: nat, m: MemoryRecord)
    requires MemoriesKeyed(db.memories) && m in ListMemories(db, ref, f, limit, offset)
    ensures Matches(m, ref, f) && m.id in db.memories && db.memories[m.id] == m
  {
    var rows := Filter(Rows(db.memories), (m: MemoryRecord) => Matches(m, ref, f));
    SortPermutes(rows, NewestFirst());
    assert m in Sort(rows, NewestFirst());
    assert m in rows && m in Rows(db.memories);
  }

  lemma FirstPageNonempty(db: Tables, ref: SubjectRef, f: MemoryFilter, id: Id)
    requires Live(db, ref) && id in db.memories && Matches(db.memories[id], ref, f)
    ensures ListMemories(db, ref, f, PAGE, 0) != []
  {
    hide Matches, NewestFirst, Rows, Filter, Sort;
    var rows := Filter(Rows(db.memories), (m: MemoryRecord) => Matches(m, ref, f));
    assert db.memories[id] in rows;
    SortLength(rows, NewestFirst());
  }

  lemma SortLength<T>(xs: seq<T>, leq: (T, T) -> bool)
    ensures |Sort(xs, leq)| == |xs|
  {
    SortPermutes(xs, leq);
  }

  /** The slot lookup returns a stored row that passes its filter, and nothing only if there is none. */
  lemma SlotFound(db: Tables, ref: SubjectRef, key: string, scope: Scope, value: Option<string>, states: set<State>)
    requires MemoriesKeyed(db.memories)
    ensures var x := FindExactSlot(db, ref, key, scope, value, states);
            x.Some? ==> StoredMatch(db, ref, SlotFilter(key, scope, value, states), x.value)
    ensures var x := FindExactSlot(db, ref, key, scope, value, states);
            x.None? && Live(db, ref) ==> NoMatch(db, ref, SlotFilter(key, scope, value, states))
  {
    hide Matches;
    var f := SlotFilter(key, scope, value, states);
    var values := ListMemories(db, ref, f, PAGE, 0);
    var active := Filter(values, (m: MemoryRecord) => m.state == Active);
    if active != [] {
      assert active[0] in active;
      ListedMatches(db, ref, f, PAGE, 0, active[0]);
    } else if values != [] {
      assert values[0] in values;
      ListedMatches(db, ref, f, PAGE, 0, values[0]);
    } else if Live(db, ref) {
      forall id | id in db.memories ensures !Matches(db.memories[id], ref, f) {
        if Matches(db.memories[id], ref, f) { FirstPageNonempty(db, ref, f, id); }
      }
    }
  }

  predicate StoredMatch(db: Tables, ref: SubjectRef, f: MemoryFilter, m: MemoryRecord) {
    Matches(m, ref, f) && m.id in db.memories && db.memories[m.id] == m
  }

  predicate NoMatch(db: Tables, ref: SubjectRef, f: MemoryFilter) {
    forall id | id in db.memories :: !Matches(db.memories[id], ref, f)
  }

  lemma StoredRecord(db: Tables, pending: set<Id>, id: Id)
    requires StoreOk(db, pending) && id in db.memories
    ensures RecordOk(db.memories[id]) && db.memories[id].id == id && LogOk(db.revisions, db.memories[id])
  {
    hide References, UniqueKeys, LogOk, RecordOk, CountsOk, EvidenceHeld;
  }

  lemma SessionParts(base: Tables, s: Session, pending: set<Id>, now: Time)
    requires SessionOk(base, s, pending, now)
    ensures StoreOk(s.db, pending) && ClockOk(s.db, now) && MemoriesKeyed(s.db.memories)
    ensures BindingsRefer(s.db.bindings, s.db.memories, s.db.evidence)
    ensures EvidenceKeyed(s.db.evidence)
  {
  }

  /* ---- the operations ---- */

  lemma DoEffect(s: Session, step: Step)
    requires Do(s, step).Ok? && (step.Revise? ==> step.after.id == step.before.id)
    ensures Do(s, step).value.db == After(s.db, step)
  {
    StepEffect(s.db, step);
  }

  lemma EnsureSubjectOk(base: Tables, s: Session, ref: SubjectRef, now: Time)
    requires EnsureSubjectIn(s, ref).Ok?
    requires SessionOk(base, s, {}, now)
    ensures SessionOk(base, EnsureSubjectIn(s, ref).value, {}, now) && Live(EnsureSubjectIn(s, ref).value.db, ref)
  {
    hide SessionOk;
    if ref !in s.db.subjects {
      DoOk(base, s, {}, now, EnsureSubject(ref));
      DoEffect(s, EnsureSubject(ref));
    }
  }

  lemma NewEvidenceOk(base: Tables, s: Session, e: Evidence, now: Time)
    requires Do(s, NewEvidence(e)).Ok?
    requires SessionOk(base, s, {}, now)
    ensures var s' := Do(s, NewEvidence(e)).value;
            && s'.db == s.db.(evidence := s.db.evidence[e.id := e])
            && SessionOk(base, s', if e.eventId.Some? then {} else {e.id}, now)
            && Unbound(s'.db.bindings, e.id)
  {
    hide SessionOk, StoreOk, ClockOk, MemoriesKeyed;
    SessionParts(base, s, {}, now);
    DoOk(base, s, {}, now, NewEvidence(e));
    DoEffect(s, NewEvidence(e));
    ApplyOne(s.db, AddEvidence(e));
    assert e.id !in s.db.evidence;
    assert PendingAfter({}, NewEvidence(e)) == if e.eventId.Some? then {} else {e.id};
  }

  ghost predicate Unbound(bindings: set<Binding>, e: Id) { forall m :: e !in Bound(bindings, m) }

  /** What is left to bind when the evidence of a call has been looked up or created. */
  ghost predicate OnlyPending(db: Tables, pending: set<Id>, e: Id) {
    pending == {} || (pending == {e} && Unbound(db.bindings, e))
  }

  /** After the lookup the evidence is stored; if it is new, no memory is bound to it yet. */
  lemma EvidenceOk(base: Tables, s: Session, ref: SubjectRef, i: EvidenceInput, id: Id, now: Time)
    returns (pending: set<Id>)
    requires GetOrCreateEvidence(s, ref, i, id, now).Ok?
    requires SessionOk(base, s, {}, now)
    ensures var (s', e) := GetOrCreateEvidence(s, ref, i, id, now).value;
            && s'.db == s.db.(evidence := s'.db.evidence)
            && SessionOk(base, s', pending, now) && OnlyPending(s'.db, pending, e.id)
  {
    hide SessionOk;
    pending := {};
    if FindSource(s.db, ref, i).None? {
      var e := BuildEvidence(ref, i, id, now);
      NewEvidenceOk(base, s, e, now);
      pending := if e.eventId.Some? then {} else {e.id};
    }
  }

  /** A revision made from a stored record that only touches its evidence or confidence. */
  lemma EvidencingOk(base: Tables, s: Session, pending: set<Id>, m: MemoryRecord, a: MemoryRecord, e: Id, note: Note)
    requires pending <= {e}
    requires m.id in s.db.memories && s.db.memories[m.id] == m
    requires Changes(Evidencing, m, a) && RecordValid(a)
    requires a.evidenceCount == m.evidenceCount + if e !in Bound(s.db.bindings, m.id) then 1 else 0
    requires Do(s, Revise(m, a, Evidencing, Some(e), note)).Ok?
    requires SessionOk(base, s, pending, note.at)
    ensures SessionOk(base, Do(s, Revise(m, a, Evidencing, Some(e), note)).value, {}, note.at)
  {
    hide SessionOk, StoreOk, BindingsRefer, EvidenceKeyed, LogOk;
    SessionParts(base, s, pending, note.at);
    StoredRecord(s.db, pending, m.id);
    var step := Revise(m, a, Evidencing, Some(e), note);
    DoOk(base, s, pending, note.at, step);
    assert PendingAfter(pending, step) == {};
  }

  lemma BindOk(base: Tables, s: Session, pending: set<Id>, m: MemoryRecord, e: Evidence, note: Note)
    requires BindAndCount(s, m, Some(e), note).Ok?
    requires m.id in s.db.memories && s.db.memories[m.id] == m
    requires OnlyPending(s.db, pending, e.id)
    requires SessionOk(base, s, pending, note.at)
    ensures SessionOk(base, BindAndCount(s, m, Some(e), note).value.0, {}, note.at)
  {
    hide SessionOk;
    if e.id !in BoundTo(s.db, m.id) {
      var a := m.(evidenceCount := m.evidenceCount + 1, revision := m.revision + 1, updatedAt := note.at);
      EvidencingOk(base, s, pending, m, a, e.id, note);
    }
  }

  lemma MergeOk(base: Tables, s: Session, pending: set<Id>, m: MemoryRecord, confidence: real, e: Evidence, note: Note)
    requires Merge(s, m, confidence, e, note).Ok?
    requires m.id in s.db.memories && s.db.memories[m.id] == m
    requires OnlyPending(s.db, pending, e.id)
    requires SessionOk(base, s, pending, note.at)
    ensures SessionOk(base, Merge(s, m, confidence, e, note).value.0, {}, note.at)
  {
    hide SessionOk;
    var isNew := e.id !in BoundTo(s.db, m.id);
    var raises := m.authority == Inferred && m.state == Candidate && confidence > m.confidence;
    if isNew || raises {
      var a := m.(confidence := if raises then confidence else m.confidence,
        evidenceCount := m.evidenceCount + if isNew then 1 else 0, revision := m.revision + 1, updatedAt := note.at);
      EvidencingOk(base, s, pending, m, a, e.id, note);
    }
  }

  lemma CreateOk(base: Tables, s: Session, pending: set<Id>, m: MemoryRecord, bind: Option<Id>, note: Note)
    requires pending <= (if bind.Some? then {bind.value} else {})
    requires RecordOk(m) && Born(m) && m.evidenceCount == (if bind.Some? then 1 else 0) && m.createdAt <= note.at
    requires Do(s, Create(m, bind, note)).Ok?
    requires SessionOk(base, s, pending, note.at)
    ensures SessionOk(base, Do(s, Create(m, bind, note)).value, {}, note.at)
  {
    hide SessionOk, RecordOk;
    DoOk(base, s, pending, note.at, Create(m, bind, note));
    assert PendingAfter(pending, Create(m, bind, note)) == {};
  }

  lemma TransitionOk(base: Tables, s: Session, pending: set<Id>, m: MemoryRecord, a: MemoryRecord, c: Change,
                     note: Note)
    requires m.id in s.db.memories && s.db.memories[m.id] == m
    requires Changes(c, m, a) && RecordOk(a) && a.evidenceCount == m.evidenceCount
    requires Do(s, Revise(m, a, c, None, note)).Ok?
    requires SessionOk(base, s, pending, note.at)
    ensures SessionOk(base, Do(s, Revise(m, a, c, None, note)).value, pending, note.at)
    ensures Do(s, Revise(m, a, c, None, note)).value.db.bindings == s.db.bindings
  {
    hide SessionOk;
    DoOk(base, s, pending, note.at, Revise(m, a, c, None, note));
    DoEffect(s, Revise(m, a, c, None, note));
  }

  lemma PatchOk(base: Tables, s: Session, ref: SubjectRef, id: Id, p: Patch, expected: int, note: Note)
    requires PatchPlan(s, ref, id, p, expected, note).Ok?
    requires SessionOk(base, s, {}, note.at)
    ensures SessionOk(base, PatchPlan(s, ref, id, p, expected, note).value.0, {}, note.at)
  {
    hide SessionOk, StoreOk, BindingsRefer, EvidenceKeyed;
    SessionParts(base, s, {}, note.at);
    var m := s.db.memories[id];
    StoredRecord(s.db, {}, id);
    if !EmptyPatch(p) { TransitionOk(base, s, {}, m, Patched(m, p, note.at).value, Patching, note); }
  }

  lemma ConfirmOk(base: Tables, s: Session, ref: SubjectRef, id: Id, expected: int, canConfirm: bool, note: Note)
    requires ConfirmPlan(s, ref, id, expected, canConfirm, note).Ok?
    requires SessionOk(base, s, {}, note.at)
    ensures SessionOk(base, ConfirmPlan(s, ref, id, expected, canConfirm, note).value.0, {}, note.at)
  {
    hide SessionOk, StoreOk, BindingsRefer, EvidenceKeyed;
    SessionParts(base, s, {}, note.at);
    var m := s.db.memories[id];
    StoredRecord(s.db, {}, id);
    TransitionOk(base, s, {}, m, ConfirmMemory(m, expected, note.at).value, Confirming, note);
  }

  lemma DeleteOk(base: Tables, s: Session, ref: SubjectRef, id: Id, expected: int, note: Note)
    requires DeletePlan(s, ref, id, expected, note).Ok?
    requires SessionOk(base, s, {}, note.at)
    ensures SessionOk(base, DeletePlan(s, ref, id, expected, note).value.0, {}, note.at)
  {
    hide SessionOk, StoreOk, BindingsRefer, EvidenceKeyed;
    SessionParts(base, s, {}, note.at);
    var m := s.db.memories[id];
    StoredRecord(s.db, {}, id);
    TransitionOk(base, s, {}, m, SoftDeleteMemory(m, expected, note.at).value, Deleting, note);
  }

  /** The row before the current one of a deleted memory: either the record as it was when it
      was deleted, or itself a deleted record that was patched or given evidence. */
  lemma BeforeDeletion(db: Tables, pending: set<Id>, id: Id)
    requires id in db.memories && db.memories[id].state == Deleted
    requires StoreOk(db, pending)
    ensures DeletionFollows(db.revisions, db.memories[id])
  {
    hide StoreOk, Follows, RecordOk, LogOk;
    StoredRecord(db, pending, id);
    RowBefore(db.revisions, db.memories[id]);
  }

  ghost predicate DeletionFollows(log: map<RevisionKey, Revision>, m: MemoryRecord) {
    && m.revision >= 2 && RevisionKey(m.id, m.revision - 1) in log
    && var p := log[RevisionKey(m.id, m.revision - 1)].snapshot;
    && p.id == m.id && p.subject == m.subject && p.authority == m.authority && RecordOk(p)
    && (p.state != Deleted ==> Changes(Deleting, p, m))
  }

  lemma RowBefore(log: map<RevisionKey, Revision>, m: MemoryRecord)
    requires LogOk(log, m) && m.state == Deleted
    ensures DeletionFollows(log, m)
  {
    assert RowOk(log, m.id, m.revision);
    assert m.revision > 1;
    assert RowOk(log, m.id, m.revision - 1);
    assert Follows(log[RevisionKey(m.id, m.revision - 1)], log[RevisionKey(m.id, m.revision)]);
  }

  lemma RestoreOk(base: Tables, s: Session, ref: SubjectRef, id: Id, expected: int, note: Note)
    requires RestorePlan(s, ref, id, expected, note).Ok?
    requires SessionOk(base, s, {}, note.at)
    ensures SessionOk(base, RestorePlan(s, ref, id, expected, note).value.0, {}, note.at)
  {
    hide SessionOk, StoreOk;
    SessionParts(base, s, {}, note.at);
    var m := s.db.memories[id];
    StoredRecord(s.db, {}, id);
    BeforeDeletion(s.db, {}, id);
    var p := s.db.revisions[RevisionKey(id, m.revision - 1)].snapshot;
    TransitionOk(base, s, {}, m, RestoreMemory(m, p.state, expected, note.at).value, Restoring, note);
  }

  lemma OptionalEvidenceOk(base: Tables, s: Session, ref: SubjectRef, i: Option<EvidenceInput>, id: Id, now: Time)
    returns (pending: set<Id>)
    requires GetOrCreateOptional(s, ref, i, id, now).Ok?
    requires SessionOk(base, s, {}, now)
    ensures var (s', e) := GetOrCreateOptional(s, ref, i, id, now).value;
            && s'.db == s.db.(evidence := s'.db.evidence)
            && SessionOk(base, s', pending, now)
            && if e.None? then pending == {} else OnlyPending(s'.db, pending, e.value.id)
  {
    pending := {};
    if i.Some? { pending := EvidenceOk(base, s, ref, i.value, id, now); }
  }

  lemma DisplaceOk(base: Tables, s: Session, pending: set<Id>, existing: Option<MemoryRecord>, m: MemoryRecord,
                   note: Note)
    requires Displace(s, existing, m, note).Ok?
    requires existing.Some? ==> existing.value.id in s.db.memories && s.db.memories[existing.value.id] == existing.value
    requires SessionOk(base, s, pending, note.at)
    ensures SessionOk(base, Displace(s, existing, m, note).value, pending, note.at)
  {
    hide SessionOk, StoreOk, BindingsRefer, EvidenceKeyed;
    if existing.Some? {
      var b := existing.value;
      SessionParts(base, s, pending, note.at);
      StoredRecord(s.db, pending, b.id);
      TransitionOk(base, s, pending, b, SupersedeMemory(b, m, b.revision, note.at).value, Superseding, note);
    }
  }

  lemma AddOk(base: Tables, s: Session, ref: SubjectRef, i: CreateInput, memoryId: Id, evidenceId: Id, note: Note)
    requires AddPlan(s, ref, i, memoryId, evidenceId, note).Ok?
    requires SessionOk(base, s, {}, note.at)
    ensures SessionOk(base, AddPlan(s, ref, i, memoryId, evidenceId, note).value.0, {}, note.at)
  {
    hide SessionOk, FindExactSlot, GetOrCreateOptional, EnsureSubjectIn, BindAndCount, Displace, Matches;
    var s1 := EnsureSubjectIn(s, ref).value;
    EnsureSubjectOk(base, s, ref, note.at);
    var (s2, evidence) := GetOrCreateOptional(s1, ref, i.evidence, evidenceId, note.at).value;
    var pending := OptionalEvidenceOk(base, s1, ref, i.evidence, evidenceId, note.at);
    SessionParts(base, s2, pending, note.at);
    var existing := FindExactSlot(s2.db, ref, i.key, i.scope, i.scopeValue, {Active});
    SlotFound(s2.db, ref, i.key, i.scope, i.scopeValue, {Active});
    if existing.Some? && existing.value.content == i.content {
      BindOptionalOk(base, s2, pending, existing.value, evidence, note);
    } else {
      var m := ExplicitMemory(ref, i, memoryId, if evidence.Some? then 1 else 0, note.at);
      DisplaceOk(base, s2, pending, existing, m, note);
      CreateOk(base, Displace(s2, existing, m, note).value, pending, m, EvidenceId(evidence), note);
    }
  }

  lemma BindOptionalOk(base: Tables, s: Session, pending: set<Id>, m: MemoryRecord, e: Option<Evidence>, note: Note)
    requires BindAndCount(s, m, e, note).Ok?
    requires m.id in s.db.memories && s.db.memories[m.id] == m
    requires if e.None? then pending == {} else OnlyPending(s.db, pending, e.value.id)
    requires SessionOk(base, s, pending, note.at)
    ensures SessionOk(base, BindAndCount(s, m, e, note).value.0, {}, note.at)
  {
    hide SessionOk;
    if e.Some? { BindOk(base, s, pending, m, e.value, note); }
  }

  lemma TargetStored(s: Session, ref: SubjectRef, x: Extraction)
    requires MemoriesKeyed(s.db.memories) && MergeTarget(s, ref, x).Ok?
    ensures var m := MergeTarget(s, ref, x).value;
            m.Some? ==> m.value.id in s.db.memories && s.db.memories[m.value.id] == m.value
  {
    hide FindExactSlot, Matches;
    SlotFound(s.db, ref, x.candidate.key, x.candidate.scope, x.candidate.scopeValue, {Active, Candidate});
  }

  lemma ExtractOneOk(base: Tables, s: Session, ref: SubjectRef, x: Extraction, note: Note)
    requires ExtractOne(s, ref, x, note).Ok?
    requires SessionOk(base, s, {}, note.at)
    ensures SessionOk(base, ExtractOne(s, ref, x, note).value.0, {}, note.at)
  {
    hide SessionOk, MergeTarget, GetOrCreateEvidence, Merge;
    SessionParts(base, s, {}, note.at);
    TargetStored(s, ref, x);
    var existing := MergeTarget(s, ref, x).value;
    var (s1, evidence) := GetOrCreateEvidence(s, ref, x.evidence, x.evidenceId, note.at).value;
    var pending := EvidenceOk(base, s, ref, x.evidence, x.evidenceId, note.at);
    if existing.Some? {
      MergeOk(base, s1, pending, existing.value, x.candidate.confidence, evidence, note);
    } else {
      CreateOk(base, s1, pending, CreateInferred(ref, x.candidate, x.memoryId, 1, note.at), Some(evidence.id), note);
    }
  }

  lemma {:induction false} ExtractAllOk(base: Tables, s: Session, ref: SubjectRef, xs: seq<Extraction>, note: Note)
    requires ExtractAll(s, ref, xs, note).Ok?
    requires SessionOk(base, s, {}, note.at)
    ensures SessionOk(base, ExtractAll(s, ref, xs, note).value.0, {}, note.at)
    decreases |xs|
  {
    hide SessionOk, ExtractOne;
    if xs != [] {
      var init := xs[..|xs| - 1];
      ExtractAllOk(base, s, ref, init, note);
      ExtractOneOk(base, ExtractAll(s, ref, init, note).value.0, ref, xs[|xs| - 1], note);
    }
  }
}
