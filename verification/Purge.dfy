/** Deleting everything a subject owns, one DELETE statement after another (sqlalchemy_uow.py). */
module Purge {
  import opened Domain
  import opened Memory
  import opened Records
  import opened Database

  datatype Table =
    | TAudit | TStateEvidence | TMemoryEvidence | TObservations | TRevisions | TSnapshots | TRuns
    | TStates | TMemories | TEvidence | TEvents | TEntities | TSubject

  const ORDER: seq<Table> :=
    [TAudit, TStateEvidence, TMemoryEvidence, TObservations, TRevisions, TSnapshots, TRuns,
     TStates, TMemories, TEvidence, TEvents, TEntities, TSubject]

  /* ---- the rows of one subject, table by table ---- */

  function AuditRest(t: map<Id, SubjectRef>, ref: SubjectRef): map<Id, SubjectRef> {
    map i | i in t && t[i] != ref :: t[i]
  }
  function ObservationsRest(t: map<Id, Observation>, ref: SubjectRef): map<Id, Observation> {
    map i | i in t && t[i].subject != ref :: t[i]
  }
  function RevisionsRest(t: map<RevisionKey, Revision>, ref: SubjectRef): map<RevisionKey, Revision> {
    map k | k in t && t[k].snapshot.subject != ref :: t[k]
  }
  function SnapshotsRest(t: map<SnapshotKey, Snapshot>, ref: SubjectRef): map<SnapshotKey, Snapshot> {
    map k | k in t && k.subject != ref :: t[k]
  }
  function RunsRest(t: map<Id, Run>, ref: SubjectRef): map<Id, Run> { map i | i in t && t[i].subject != ref :: t[i] }
  function StatesRest(t: map<StateKey, FeatureState>, ref: SubjectRef): map<StateKey, FeatureState> {
    map k | k in t && k.subject != ref :: t[k]
  }
  function MemoriesRest(t: map<Id, MemoryRecord>, ref: SubjectRef): map<Id, MemoryRecord> {
    map i | i in t && t[i].subject != ref :: t[i]
  }
  function EvidenceRest(t: map<Id, Evidence>, ref: SubjectRef): map<Id, Evidence> {
    map i | i in t && t[i].subject != ref :: t[i]
  }
  function EventsRest(t: map<Id, Event>, ref: SubjectRef): map<Id, Event> {
    map i | i in t && t[i].subject != ref :: t[i]
  }
  function EntitiesRest(t: map<EntityRef, Entity>, ref: SubjectRef): map<EntityRef, Entity> {
    map r | r in t && r.subject != ref :: t[r]
  }

  /* ---- cascades: rows that go with their parents ---- */

  function LinksOfStates(l: set<StateLink>, parents: map<StateKey, FeatureState>, ref: SubjectRef): set<StateLink> {
    set x | x in l && !(x.state in parents && x.state.subject == ref)
  }
  function LinksOfEvidence(l: set<StateLink>, parents: map<Id, Evidence>, ref: SubjectRef): set<StateLink> {
    set x | x in l && !(x.evidence in parents && parents[x.evidence].subject == ref)
  }
  function BindingsOfMemories(b: set<Binding>, parents: map<Id, MemoryRecord>, ref: SubjectRef): set<Binding> {
    set x | x in b && !(x.memory in parents && parents[x.memory].subject == ref)
  }
  function BindingsOfEvidence(b: set<Binding>, parents: map<Id, Evidence>, ref: SubjectRef): set<Binding> {
    set x | x in b && !(x.evidence in parents && parents[x.evidence].subject == ref)
  }
  function RevisionsOfMemories(t: map<RevisionKey, Revision>, parents: map<Id, MemoryRecord>,
                               ref: SubjectRef): map<RevisionKey, Revision>
  {
    map k | k in t && !(k.memory in parents && parents[k.memory].subject == ref) :: t[k]
  }

  /** DELETE FROM table WHERE the row belongs to ref, with its ON DELETE CASCADE children. */
  function Removed(db: Tables, t: Table, ref: SubjectRef): Tables {
    match t
    case TAudit => db.(audit := AuditRest(db.audit, ref))
    case TStateEvidence => db.(stateEvidence := LinksOfStates(db.stateEvidence, db.states, ref))
    case TMemoryEvidence => db.(bindings := BindingsOfMemories(db.bindings, db.memories, ref))
    case TObservations => db.(observations := ObservationsRest(db.observations, ref))
    case TRevisions => db.(revisions := RevisionsRest(db.revisions, ref))
    case TSnapshots => db.(snapshots := SnapshotsRest(db.snapshots, ref))
    case TRuns => db.(runs := RunsRest(db.runs, ref))
    case TStates =>
      db.(states := StatesRest(db.states, ref), stateEvidence := LinksOfStates(db.stateEvidence, db.states, ref))
    case TMemories =>
      db.(memories := MemoriesRest(db.memories, ref),
      bindings := BindingsOfMemories(db.bindings, db.memories, ref),
      revisions := RevisionsOfMemories(db.revisions, db.memories, ref))
    case TEvidence =>
      db.(evidence := EvidenceRest(db.evidence, ref),
      bindings := BindingsOfEvidence(db.bindings, db.evidence, ref),
      stateEvidence := LinksOfEvidence(db.stateEvidence, db.evidence, ref))
    case TEvents => db.(events := EventsRest(db.events, ref))
    case TEntities => db.(entities := EntitiesRest(db.entities, ref))
    case TSubject =>
      Tables(db.subjects - {ref}, EntitiesRest(db.entities, ref), EventsRest(db.events, ref),
             EvidenceRest(db.evidence, ref),
             MemoriesRest(db.memories, ref),
             BindingsOfEvidence(BindingsOfMemories(db.bindings, db.memories, ref), db.evidence, ref),
             RevisionsOfMemories(RevisionsRest(db.revisions, ref), db.memories, ref),
             ObservationsRest(db.observations, ref), StatesRest(db.states, ref),
             LinksOfEvidence(LinksOfStates(db.stateEvidence, db.states, ref), db.evidence, ref),
             SnapshotsRest(db.snapshots, ref), RunsRest(db.runs, ref), AuditRest(db.audit, ref))
  }

  /** No row is left naming a parent that a NO ACTION key says must exist. */
  ghost predicate NoActionHolds(db: Tables) {
    && EntitiesNamed(db.events, db.entities) && EventsNamed(db.evidence, db.events)
    && ObservedEventsNamed(db.observations, db.events) && ObservedEvidenceNamed(db.observations, db.evidence)
  }
  ghost predicate EntitiesNamed(t: map<Id, Event>, entities: map<EntityRef, Entity>) {
    forall i | i in t && t[i].content.entity.Some? :: t[i].content.entity.value in entities
  }
  ghost predicate EventsNamed(t: map<Id, Evidence>, events: map<Id, Event>) {
    forall i | i in t && t[i].eventId.Some? :: t[i].eventId.value in events
  }
  ghost predicate ObservedEventsNamed(t: map<Id, Observation>, events: map<Id, Event>) {
    forall i | i in t :: t[i].eventId in events
  }
  ghost predicate ObservedEvidenceNamed(t: map<Id, Observation>, evidence: map<Id, Evidence>) {
    forall i | i in t :: t[i].evidenceId in evidence
  }

  /** One statement: it fails if it would leave a dangling NO ACTION reference. */
  ghost function DeleteFrom(db: Tables, t: Table, ref: SubjectRef): Option<Tables> {
    if NoActionHolds(Removed(db, t, ref)) then Some(Removed(db, t, ref)) else None
  }

  ghost function DeleteAll(db: Tables, ts: seq<Table>, ref: SubjectRef): Option<Tables> {
    if ts == [] then Some(db) else
      var before := DeleteAll(db, ts[..|ts| - 1], ref);
      if before.None? then None else DeleteFrom(before.value, ts[|ts| - 1], ref)
  }

  /* ---- the tables with the subject's rows gone from some of them, and nothing else changed ---- */

  function Scrubbed(db: Tables, done: set<Table>, ref: SubjectRef): Tables {
    Tables(
      if TSubject in done then db.subjects - {ref} else db.subjects,
      if TEntities in done then EntitiesRest(db.entities, ref) else db.entities,
      if TEvents in done then EventsRest(db.events, ref) else db.events,
      if TEvidence in done then EvidenceRest(db.evidence, ref) else db.evidence,
      if TMemories in done then MemoriesRest(db.memories, ref) else db.memories,
      if TMemoryEvidence in done then BindingsOfMemories(db.bindings, db.memories, ref) else db.bindings,
      if TRevisions in done then RevisionsRest(db.revisions, ref) else db.revisions,
      if TObservations in done then ObservationsRest(db.observations, ref) else db.observations,
      if TStates in done then StatesRest(db.states, ref) else db.states,
      if TStateEvidence in done then LinksOfStates(db.stateEvidence, db.states, ref) else db.stateEvidence,
      if TSnapshots in done then SnapshotsRest(db.snapshots, ref) else db.snapshots,
      if TRuns in done then RunsRest(db.runs, ref) else db.runs,
      if TAudit in done then AuditRest(db.audit, ref) else db.audit)
  }

  const EVERYTHING: set<Table> :=
    {TAudit, TStateEvidence, TMemoryEvidence, TObservations, TRevisions, TSnapshots, TRuns,
     TStates, TMemories, TEvidence, TEvents, TEntities, TSubject}

  /** The tables that must be emptied of the subject before this one. */
  function Children(t: Table): set<Table> {
    match t
    case TStates => {TStateEvidence}
    case TMemories => {TMemoryEvidence, TRevisions}
    case TEvidence => {TMemoryEvidence, TStateEvidence, TObservations}
    case TEvents => {TEvidence, TObservations}
    case TEntities => {TEvents}
    case TSubject => EVERYTHING - {TSubject}
    case _ => {}
  }

  lemma ScrubbedNoAction(db: Tables, done: set<Table>, ref: SubjectRef)
    requires References(db)
    requires TEvidence in done ==> TObservations in done
    requires TEvents in done ==> TEvidence in done && TObservations in done
    requires TEntities in done ==> TEvents in done
    ensures NoActionHolds(Scrubbed(db, done, ref))
  {
    hide MemoryReferences, OwnerReferences, StateEvidenceRefers;
  }

  lemma RestTwice(db: Tables, ref: SubjectRef)
    ensures AuditRest(AuditRest(db.audit, ref), ref) == AuditRest(db.audit, ref)
    ensures ObservationsRest(ObservationsRest(db.observations, ref), ref) == ObservationsRest(db.observations, ref)
    ensures RevisionsRest(RevisionsRest(db.revisions, ref), ref) == RevisionsRest(db.revisions, ref)
    ensures SnapshotsRest(SnapshotsRest(db.snapshots, ref), ref) == SnapshotsRest(db.snapshots, ref)
    ensures RunsRest(RunsRest(db.runs, ref), ref) == RunsRest(db.runs, ref)
    ensures StatesRest(StatesRest(db.states, ref), ref) == StatesRest(db.states, ref)
    ensures MemoriesRest(MemoriesRest(db.memories, ref), ref) == MemoriesRest(db.memories, ref)
    ensures EvidenceRest(EvidenceRest(db.evidence, ref), ref) == EvidenceRest(db.evidence, ref)
    ensures EventsRest(EventsRest(db.events, ref), ref) == EventsRest(db.events, ref)
    ensures EntitiesRest(EntitiesRest(db.entities, ref), ref) == EntitiesRest(db.entities, ref)
  {
  }

  /** Once a subject's links are gone, deleting its parents cascades to nothing, whoever the links belonged to. */
  lemma CascadesAreEmpty(db: Tables, done: set<Table>, ref: SubjectRef)
    requires References(db)
    ensures var rest := BindingsOfMemories(db.bindings, db.memories, ref);
            BindingsOfMemories(rest, Scrubbed(db, done, ref).memories, ref) == rest
            && BindingsOfEvidence(rest, Scrubbed(db, done, ref).evidence, ref) == rest
    ensures var rest := LinksOfStates(db.stateEvidence, db.states, ref);
            LinksOfStates(rest, Scrubbed(db, done, ref).states, ref) == rest
            && LinksOfEvidence(rest, Scrubbed(db, done, ref).evidence, ref) == rest
    ensures var rest := RevisionsRest(db.revisions, ref);
            RevisionsOfMemories(rest, Scrubbed(db, done, ref).memories, ref) == rest
  {
    hide FactReferences, OwnerReferences, ObservationsRefer;
    assert BindingsRefer(db.bindings, db.memories, db.evidence);
    assert StateEvidenceRefers(db.stateEvidence, db.states, db.evidence);
    assert RevisionsRefer(db.revisions, db.memories);
  }

  /** Tables whose deletion cascades to others. */
  predicate Cascading(t: Table) { t in {TStates, TMemories, TEvidence} }

  lemma RemovedRecords(db: Tables, done: set<Table>, t: Table, ref: SubjectRef)
    requires t !in done && t in {TAudit, TSnapshots, TRuns}
    ensures Removed(Scrubbed(db, done, ref), t, ref) == Scrubbed(db, done + {t}, ref)
  {
    hide AuditRest, ObservationsRest, RevisionsRest, SnapshotsRest, RunsRest, StatesRest, MemoriesRest, EvidenceRest,
         EventsRest,
         EntitiesRest, LinksOfStates, BindingsOfMemories, LinksOfEvidence, BindingsOfEvidence, RevisionsOfMemories;
  }

  lemma RemovedFacts(db: Tables, done: set<Table>, t: Table, ref: SubjectRef)
    requires t !in done && t in {TObservations, TRevisions, TEvents, TEntities}
    ensures Removed(Scrubbed(db, done, ref), t, ref) == Scrubbed(db, done + {t}, ref)
  {
    hide AuditRest, ObservationsRest, RevisionsRest, SnapshotsRest, RunsRest, StatesRest, MemoriesRest, EvidenceRest,
         EventsRest,
         EntitiesRest, LinksOfStates, BindingsOfMemories, LinksOfEvidence, BindingsOfEvidence, RevisionsOfMemories;
  }

  lemma RemovedStateEvidence(db: Tables, done: set<Table>, ref: SubjectRef)
    requires TStateEvidence !in done && TStates !in done
    ensures Removed(Scrubbed(db, done, ref), TStateEvidence, ref) == Scrubbed(db, done + {TStateEvidence}, ref)
  {
    hide AuditRest, ObservationsRest, RevisionsRest, SnapshotsRest, RunsRest, StatesRest, MemoriesRest, EvidenceRest,
         EventsRest,
         EntitiesRest, LinksOfStates, BindingsOfMemories, LinksOfEvidence, BindingsOfEvidence, RevisionsOfMemories;
  }

  lemma RemovedMemoryEvidence(db: Tables, done: set<Table>, ref: SubjectRef)
    requires TMemoryEvidence !in done && TMemories !in done
    ensures Removed(Scrubbed(db, done, ref), TMemoryEvidence, ref) == Scrubbed(db, done + {TMemoryEvidence}, ref)
  {
    hide AuditRest, ObservationsRest, RevisionsRest, SnapshotsRest, RunsRest, StatesRest, MemoriesRest, EvidenceRest,
         EventsRest,
         EntitiesRest, LinksOfStates, BindingsOfMemories, LinksOfEvidence, BindingsOfEvidence, RevisionsOfMemories;
  }

  lemma RemovedParent(db: Tables, done: set<Table>, t: Table, ref: SubjectRef)
    requires t !in done && Children(t) <= done && Cascading(t)
    requires References(db)
    ensures Removed(Scrubbed(db, done, ref), t, ref) == Scrubbed(db, done + {t}, ref)
  {
    hide AuditRest, ObservationsRest, RevisionsRest, SnapshotsRest, RunsRest, StatesRest, MemoriesRest,
         EvidenceRest, EventsRest, EntitiesRest, LinksOfStates, LinksOfEvidence, BindingsOfMemories, BindingsOfEvidence,
         RevisionsOfMemories, References;
    CascadesAreEmpty(db, done, ref);
  }

  lemma RemovedStep(db: Tables, done: set<Table>, t: Table, ref: SubjectRef)
    requires t !in done && Children(t) <= done && t != TSubject
    requires TStates in done ==> TStateEvidence in done
    requires TMemories in done ==> TMemoryEvidence in done
    requires References(db)
    ensures Removed(Scrubbed(db, done, ref), t, ref) == Scrubbed(db, done + {t}, ref)
  {
    hide Removed, Scrubbed, References, Children;
    match t
    case TStateEvidence => RemovedStateEvidence(db, done, ref);
    case TMemoryEvidence => RemovedMemoryEvidence(db, done, ref);
    case _ =>
      if Cascading(t) {
        RemovedParent(db, done, t, ref);
      } else if t in {TAudit, TSnapshots, TRuns} {
        RemovedRecords(db, done, t, ref);
      } else {
        RemovedFacts(db, done, t, ref);
      }
  }

  lemma SubjectStep(db: Tables, done: set<Table>, ref: SubjectRef)
    requires done == EVERYTHING - {TSubject}
    requires References(db)
    ensures Removed(Scrubbed(db, done, ref), TSubject, ref) == Scrubbed(db, done + {TSubject}, ref)
  {
    hide AuditRest, ObservationsRest, RevisionsRest, SnapshotsRest, RunsRest, StatesRest, MemoriesRest,
         EvidenceRest, EventsRest, EntitiesRest, LinksOfStates, LinksOfEvidence, BindingsOfMemories, BindingsOfEvidence,
         RevisionsOfMemories, References;
    RestTwice(db, ref);
    CascadesAreEmpty(db, done, ref);
  }

  lemma AllTables(done: set<Table>)
    requires EVERYTHING - {TSubject} <= done && TSubject !in done
    ensures done == EVERYTHING - {TSubject}
  {
    forall t | t in done ensures t in EVERYTHING { OrderByRank(t); }
  }

  /** A statement whose children are done removes exactly the subject's rows of its own table. */
  lemma DeleteStep(db: Tables, done: set<Table>, t: Table, ref: SubjectRef)
    requires t !in done && Children(t) <= done
    requires forall x | x in done :: Children(x) <= done
    requires References(db)
    ensures DeleteFrom(Scrubbed(db, done, ref), t, ref) == Some(Scrubbed(db, done + {t}, ref))
  {
    hide References, NoActionHolds, Removed, Scrubbed;
    assert TStates in done ==> Children(TStates) <= done;
    assert TMemories in done ==> Children(TMemories) <= done;
    if t == TSubject {
      AllTables(done);
      SubjectStep(db, done, ref);
    } else {
      RemovedStep(db, done, t, ref);
    }
    assert forall x | x in done + {t} :: Children(x) <= done + {t};
    assert TEvidence in done + {t} ==> Children(TEvidence) <= done + {t};
    assert TEvents in done + {t} ==> Children(TEvents) <= done + {t};
    assert TEntities in done + {t} ==> Children(TEntities) <= done + {t};
    ScrubbedNoAction(db, done + {t}, ref);
  }

  function Done(ts: seq<Table>): set<Table> { set t | t in ts }

  /** Children before parents, no table twice. */
  ghost predicate DependencyOrder(ts: seq<Table>) {
    forall i | 0 <= i < |ts| :: ts[i] !in ts[..i] && Children(ts[i]) <= Done(ts[..i])
  }

  /** Along any such order every prefix succeeds and has removed the subject's rows of its tables and no others. */
  lemma {:induction false} EveryPrefixDeletes(db: Tables, ts: seq<Table>, ref: SubjectRef)
    requires DependencyOrder(ts)
    requires References(db)
    ensures DeleteAll(db, ts, ref) == Some(Scrubbed(db, Done(ts), ref))
    decreases |ts|
  {
    hide References, Scrubbed, DeleteFrom, Children;
    if ts == [] {
      assert Scrubbed(db, Done(ts), ref) == db by { NothingScrubbed(db, ref); }
    } else {
      var init, last := ts[..|ts| - 1], ts[|ts| - 1];
      assert ts == init + [last];
      forall i | 0 <= i < |init| ensures init[i] !in init[..i] && Children(init[i]) <= Done(init[..i]) {
        assert init[..i] == ts[..i] && init[i] == ts[i];
      }
      EveryPrefixDeletes(db, init, ref);
      assert ts[..|ts| - 1] == init;
      forall x | x in Done(init) ensures Children(x) <= Done(init) {
        var i :| 0 <= i < |init| && init[i] == x;
        assert Done(init[..i]) <= Done(init);
      }
      DeleteStep(db, Done(init), last, ref);
      assert Done(ts) == Done(init) + {last};
    }
  }

  lemma NothingScrubbed(db: Tables, ref: SubjectRef)
    ensures Scrubbed(db, {}, ref) == db && Done([]) == {}
  {
  }

  function Rank(t: Table): nat {
    match t
    case TAudit => 0 case TStateEvidence => 1 case TMemoryEvidence => 2 case TObservations => 3
    case TRevisions => 4 case TSnapshots => 5 case TRuns => 6 case TStates => 7 case TMemories => 8
    case TEvidence => 9 case TEvents => 10 case TEntities => 11 case TSubject => 12
  }

  lemma OrderByRank(t: Table)
    ensures Rank(t) < |ORDER| && ORDER[Rank(t)] == t
    ensures forall c | c in Children(t) :: Rank(c) < Rank(t)
  {
  }

  lemma RankByOrder(i: nat)
    requires i < |ORDER|
    ensures Rank(ORDER[i]) == i
  {
  }

  lemma OrderIsDependencyOrder()
    ensures DependencyOrder(ORDER) && Done(ORDER) == EVERYTHING
  {
    hide Children;
    forall i | 0 <= i < |ORDER| ensures ORDER[i] !in ORDER[..i] && Children(ORDER[i]) <= Done(ORDER[..i]) {
      RankByOrder(i);
      OrderByRank(ORDER[i]);
      forall j | 0 <= j < i ensures ORDER[j] != ORDER[i] { RankByOrder(j); }
      forall c | c in Children(ORDER[i]) ensures c in ORDER[..i] {
        OrderByRank(c);
        assert ORDER[..i][Rank(c)] == c;
      }
    }
    forall t ensures t in Done(ORDER) && t in EVERYTHING { OrderByRank(t); }
  }

  /** No row of any table belongs to the subject, or links to a row that does. */
  ghost predicate NothingLeft(db: Tables, ref: SubjectRef) {
    && ref !in db.subjects
    && (forall r | r in db.entities :: r.subject != ref)
    && (forall i | i in db.events :: db.events[i].subject != ref)
    && (forall i | i in db.evidence :: db.evidence[i].subject != ref)
    && (forall i | i in db.memories :: db.memories[i].subject != ref)
    && (forall b | b in db.bindings :: b.memory in db.memories && b.evidence in db.evidence)
    && (forall k | k in db.revisions :: db.revisions[k].snapshot.subject != ref && k.memory in db.memories)
    && (forall i | i in db.observations :: db.observations[i].subject != ref)
    && (forall k | k in db.states :: k.subject != ref)
    && (forall l | l in db.stateEvidence :: l.state in db.states && l.evidence in db.evidence)
    && (forall k | k in db.snapshots :: k.subject != ref)
    && (forall i | i in db.runs :: db.runs[i].subject != ref)
    && (forall i | i in db.audit :: db.audit[i] != ref)
  }

  /** Every row of every other subject is as it was. */
  ghost predicate OthersUntouched(before: Tables, after: Tables, ref: SubjectRef) {
    FactsUntouched(before, after, ref) && MemoriesUntouched(before, after, ref) && DerivedUntouched(before, after, ref)
  }
  ghost predicate FactsUntouched(before: Tables, after: Tables, ref: SubjectRef) {
    && (forall s | s in before.subjects && s != ref :: s in after.subjects && after.subjects[s] == before.subjects[s])
    && (forall r | r in before.entities && r.subject != ref ::
           r in after.entities && after.entities[r] == before.entities[r])
    && (forall i | i in before.events && before.events[i].subject != ref ::
           i in after.events && after.events[i] == before.events[i])
    && (forall i | i in before.evidence && before.evidence[i].subject != ref ::
          i in after.evidence && after.evidence[i] == before.evidence[i])
  }
  ghost predicate MemoriesUntouched(before: Tables, after: Tables, ref: SubjectRef) {
    && (forall i | i in before.memories && before.memories[i].subject != ref ::
          i in after.memories && after.memories[i] == before.memories[i])
    && (forall b | b in before.bindings && !(b.memory in before.memories && before.memories[b.memory].subject == ref) ::
          b in after.bindings)
    && (forall k | k in before.revisions && before.revisions[k].snapshot.subject != ref ::
          k in after.revisions && after.revisions[k] == before.revisions[k])
  }
  ghost predicate DerivedUntouched(before: Tables, after: Tables, ref: SubjectRef) {
    && (forall i | i in before.observations && before.observations[i].subject != ref ::
          i in after.observations && after.observations[i] == before.observations[i])
    && (forall k | k in before.states && k.subject != ref :: k in after.states && after.states[k] == before.states[k])
    && (forall l | l in before.stateEvidence && l.state.subject != ref :: l in after.stateEvidence)
    && (forall k | k in before.snapshots && k.subject != ref ::
           k in after.snapshots && after.snapshots[k] == before.snapshots[k])
    && (forall i | i in before.runs && before.runs[i].subject != ref ::
           i in after.runs && after.runs[i] == before.runs[i])
    && (forall i | i in before.audit && before.audit[i] != ref :: i in after.audit && after.audit[i] == before.audit[i])
  }

  lemma ScrubbedKeepsOthers(db: Tables, ref: SubjectRef)
    ensures FactsUntouched(db, Scrubbed(db, EVERYTHING, ref), ref)
    ensures MemoriesUntouched(db, Scrubbed(db, EVERYTHING, ref), ref)
    ensures DerivedUntouched(db, Scrubbed(db, EVERYTHING, ref), ref)
  {
  }

  lemma ScrubbedLeavesNothing(db: Tables, ref: SubjectRef)
    requires BindingsRefer(db.bindings, db.memories, db.evidence)
    requires StateEvidenceRefers(db.stateEvidence, db.states, db.evidence)
    requires RevisionsRefer(db.revisions, db.memories)
    ensures NothingLeft(Scrubbed(db, EVERYTHING, ref), ref)
  {
  }

  lemma ScrubbedClean(db: Tables, ref: SubjectRef)
    requires References(db)
    ensures NothingLeft(Scrubbed(db, EVERYTHING, ref), ref)
    ensures OthersUntouched(db, Scrubbed(db, EVERYTHING, ref), ref)
  {
    hide OwnerReferences, FactReferences, ObservationsRefer, NothingLeft, Scrubbed, FactsUntouched, MemoriesUntouched,
         DerivedUntouched;
    assert MemoryReferences(db) && FeatureReferences(db);
    ScrubbedKeepsOthers(db, ref);
    ScrubbedLeavesNothing(db, ref);
  }

  /** Purging any subject of a consistent database: no statement fails, nothing of the subject is
      left, and no row of another subject is touched, cascades included. */
  lemma PurgeIsClean(db: Tables, ref: SubjectRef)
    requires Consistent(db)
    ensures DeleteAll(db, ORDER, ref) == Some(Scrubbed(db, EVERYTHING, ref))
    ensures NothingLeft(Scrubbed(db, EVERYTHING, ref), ref)
    ensures OthersUntouched(db, Scrubbed(db, EVERYTHING, ref), ref)
  {
    hide References, NothingLeft, OthersUntouched, Scrubbed, DependencyOrder;
    OrderIsDependencyOrder();
    EveryPrefixDeletes(db, ORDER, ref);
    ScrubbedClean(db, ref);
  }

  /* ---- the order matters ---- */

  /** Deleting a subject's events is possible exactly when none of its evidence or observations names one of them. */
  lemma EventsNeedTheirChildrenGone(db: Tables, ref: SubjectRef)
    requires Consistent(db)
    ensures DeleteFrom(db, TEvents, ref).Some? <==>
            && (forall i | i in db.evidence && db.evidence[i].subject == ref :: db.evidence[i].eventId.None?)
            && (forall i | i in db.observations :: db.observations[i].subject != ref)
  {
    hide Keyed, UniqueKeys, OwnerReferences, MemoryReferences, StateEvidenceRefers, EventsNamed, ObservedEventsNamed,
         ObservationsRefer, EvidenceRefers;
    NamesOfRest(db, ref);
  }

  lemma NamesOfRest(db: Tables, ref: SubjectRef)
    requires ObservationsRefer(db.observations, db.subjects, db.events, db.evidence)
    requires EvidenceRefers(db.evidence, db.subjects, db.events)
    ensures EventsNamed(db.evidence, EventsRest(db.events, ref)) <==>
            forall i | i in db.evidence && db.evidence[i].subject == ref :: db.evidence[i].eventId.None?
    ensures ObservedEventsNamed(db.observations, EventsRest(db.events, ref)) <==>
            forall i | i in db.observations :: db.observations[i].subject != ref
    ensures ObservedEvidenceNamed(db.observations, db.evidence)
  {
  }

  class Session {
    var tables: Tables

    constructor (tables: Tables)
      ensures this.tables == tables
    {
      this.tables := tables;
    }

    /** A DELETE in its turn: its NO ACTION check passes and it removes the subject's rows of its table alone. */
    method DeleteRows(t: Table, ref: SubjectRef, ghost start: Tables)
      requires tables == Scrubbed(start, Emptied(Rank(t)), ref)
      requires References(start)
      modifies this
      ensures DeleteFrom(old(tables), t, ref) == Some(tables)
      ensures tables == Scrubbed(start, Emptied(Rank(t) + 1), ref)
    {
      hide References, Scrubbed, Removed, Children;
      EmptiedNext(t);
      DeleteStep(start, Emptied(Rank(t)), t, ref);
      tables := Removed(tables, t, ref);
    }

    /** Nothing happens for an unknown subject; a known one, deleted or not, goes without a trace. */
    method PurgeSubject(ref: SubjectRef)
      requires Consistent(tables)
      modifies this
      ensures ref !in old(tables).subjects ==> tables == old(tables)
      ensures ref in old(tables).subjects ==> NothingLeft(tables, ref) && OthersUntouched(old(tables), tables, ref)
                                              && tables == Scrubbed(old(tables), EVERYTHING, ref)
    {
      hide *;
      if ref !in tables.subjects { return; }
      ghost var start := tables;
      ConsistentRefers(start);
      RankValues();
      EmptiedEnds(start, ref);
      DeleteRows(TAudit, ref, start);
      DeleteRows(TStateEvidence, ref, start);
      DeleteRows(TMemoryEvidence, ref, start);
      DeleteRows(TObservations, ref, start);
      DeleteRows(TRevisions, ref, start);
      DeleteRows(TSnapshots, ref, start);
      DeleteRows(TRuns, ref, start);
      DeleteRows(TStates, ref, start);
      DeleteRows(TMemories, ref, start);
      DeleteRows(TEvidence, ref, start);
      DeleteRows(TEvents, ref, start);
      DeleteRows(TEntities, ref, start);
      DeleteRows(TSubject, ref, start);
      ScrubbedClean(start, ref);
    }
  }

  lemma ConsistentRefers(db: Tables)
    requires Consistent(db)
    ensures References(db)
  {
  }

  lemma RankValues()
    ensures Rank(TAudit) == 0 && Rank(TStateEvidence) == 1 && Rank(TMemoryEvidence) == 2 && Rank(TObservations) == 3
    ensures Rank(TRevisions) == 4 && Rank(TSnapshots) == 5 && Rank(TRuns) == 6 && Rank(TStates) == 7
    ensures Rank(TMemories) == 8 && Rank(TEvidence) == 9 && Rank(TEvents) == 10 && Rank(TEntities) == 11
            && Rank(TSubject) == 12
  {
  }

  function Emptied(n: nat): set<Table> { set t: Table | Rank(t) < n }

  lemma EmptiedNext(t: Table)
    ensures t !in Emptied(Rank(t)) && Emptied(Rank(t) + 1) == Emptied(Rank(t)) + {t}
    ensures Children(t) <= Emptied(Rank(t))
    ensures forall x | x in Emptied(Rank(t)) :: Children(x) <= Emptied(Rank(t))
  {
    hide Children;
    OrderByRank(t);
    forall x ensures forall c | c in Children(x) :: Rank(c) < Rank(x) { OrderByRank(x); }
    forall x | Rank(x) == Rank(t) ensures x == t { OrderByRank(x); }
  }

  lemma EmptiedEnds(db: Tables, ref: SubjectRef)
    ensures Scrubbed(db, Emptied(0), ref) == db && Emptied(13) == EVERYTHING
  {
    assert Emptied(0) == {};
    NothingScrubbed(db, ref);
    forall t ensures t in Emptied(13) && t in EVERYTHING { OrderByRank(t); }
  }
}
