/** A purge leaves a store that every other component can go on working with. */
module PurgeInvariants {
  import opened Domain
  import opened Memory
  import opened Records
  import opened Database
  import opened MemoryInvariants
  import opened Purge

  function Purged(db: Tables, ref: SubjectRef): Tables { Scrubbed(db, EVERYTHING, ref) }

  lemma PurgedParts(db: Tables, ref: SubjectRef)
    ensures Purged(db, ref) == Tables(
              db.subjects - {ref}, EntitiesRest(db.entities, ref), EventsRest(db.events, ref),
              EvidenceRest(db.evidence, ref),
              MemoriesRest(db.memories, ref), BindingsOfMemories(db.bindings, db.memories, ref),
              RevisionsRest(db.revisions, ref),
              ObservationsRest(db.observations, ref), StatesRest(db.states, ref),
              LinksOfStates(db.stateEvidence, db.states, ref),
              SnapshotsRest(db.snapshots, ref), RunsRest(db.runs, ref), AuditRest(db.audit, ref))
  {
  }

  lemma PurgeKeepsKeys(db: Tables, ref: SubjectRef)
    requires Keyed(db) && UniqueKeys(db)
    ensures Keyed(Purged(db, ref)) && UniqueKeys(Purged(db, ref))
  {
    hide Scrubbed;
    PurgedParts(db, ref);
  }

  lemma PurgeKeepsFacts(db: Tables, ref: SubjectRef)
    requires FactReferences(db)
    ensures FactReferences(Purged(db, ref))
  {
    hide Scrubbed;
    PurgedParts(db, ref);
  }

  lemma PurgeKeepsMemories(db: Tables, ref: SubjectRef)
    requires MemoryReferences(db)
    ensures MemoryReferences(Purged(db, ref))
  {
    hide Scrubbed;
    PurgedParts(db, ref);
  }

  lemma PurgeKeepsFeatures(db: Tables, ref: SubjectRef)
    requires StatesKeyed(db.states) && FeatureReferences(db)
    ensures FeatureReferences(Purged(db, ref))
  {
    hide Scrubbed;
    PurgedParts(db, ref);
  }

  lemma PurgeKeepsOwners(db: Tables, ref: SubjectRef)
    requires OwnerReferences(db)
    ensures OwnerReferences(Purged(db, ref))
  {
    hide Scrubbed;
    PurgedParts(db, ref);
  }

  /** A memory's log is good as long as none of its rows goes. */
  lemma LogSurvives(log: map<RevisionKey, Revision>, left: map<RevisionKey, Revision>, m: MemoryRecord)
    requires LogOk(log, m)
    requires forall r | RevisionKey(m.id, r) in log ::
               RevisionKey(m.id, r) in left && left[RevisionKey(m.id, r)] == log[RevisionKey(m.id, r)]
    ensures LogOk(left, m)
  {
    hide RecordOk, Follows, Born;
    forall r | 1 <= r <= m.revision ensures RowOk(left, m.id, r) { assert RowOk(log, m.id, r); }
  }

  lemma PurgeKeepsLogs(db: Tables, ref: SubjectRef)
    requires RecordsOk(db.memories) && LogsOk(db.memories, db.revisions)
    requires MemoriesKeyed(db.memories) && RevisionsRefer(db.revisions, db.memories)
    ensures RecordsOk(Purged(db, ref).memories) && LogsOk(Purged(db, ref).memories, Purged(db, ref).revisions)
  {
    hide Scrubbed, RecordOk, LogOk;
    PurgedParts(db, ref);
    var t, log := Purged(db, ref).memories, Purged(db, ref).revisions;
    forall id | id in t ensures LogOk(log, t[id]) {
      assert LogOk(db.revisions, t[id]);
      LogSurvives(db.revisions, log, t[id]);
    }
  }

  /** What is left of the memories and of their bindings is unchanged. */
  lemma OthersStay(db: Tables, ref: SubjectRef)
    requires MemoriesKeyed(db.memories)
    ensures forall id | id in Purged(db, ref).memories ::
              && id in db.memories && Purged(db, ref).memories[id] == db.memories[id]
              && Bound(Purged(db, ref).bindings, id) == Bound(db.bindings, id)
  {
    hide Scrubbed, Bound;
    PurgedParts(db, ref);
    var t, b := Purged(db, ref).memories, Purged(db, ref).bindings;
    forall id | id in t ensures Bound(b, id) == Bound(db.bindings, id) {}
  }

  lemma PurgeKeepsCounts(db: Tables, ref: SubjectRef)
    requires CountsOk(db.memories, db.bindings) && MemoriesKeyed(db.memories)
    ensures CountsOk(Purged(db, ref).memories, Purged(db, ref).bindings)
  {
    hide Purged, Bound;
    OthersStay(db, ref);
  }

  lemma PurgeKeepsEvidence(db: Tables, ref: SubjectRef)
    requires EvidenceHeld(db.evidence, db.bindings, {}) && BindingsRefer(db.bindings, db.memories, db.evidence)
    ensures EvidenceHeld(Purged(db, ref).evidence, Purged(db, ref).bindings, {})
  {
    hide Scrubbed;
    PurgedParts(db, ref);
  }

  lemma PurgeKeepsStates(db: Tables, ref: SubjectRef)
    requires StatesValid(db.states)
    ensures StatesValid(Purged(db, ref).states)
  {
    hide Scrubbed, StateValid;
    PurgedParts(db, ref);
  }

  lemma PurgeKeepsConsistency(db: Tables, ref: SubjectRef)
    requires Consistent(db)
    ensures Consistent(Purged(db, ref))
  {
    hide Purged, FactReferences, MemoryReferences, FeatureReferences, OwnerReferences, UniqueKeys, FactsKeyed,
         StatesValid;
    PurgeKeepsKeys(db, ref);
    PurgeKeepsFacts(db, ref);
    PurgeKeepsMemories(db, ref);
    PurgeKeepsFeatures(db, ref);
    PurgeKeepsOwners(db, ref);
    PurgeKeepsStates(db, ref);
  }

  /** References, unique keys, logs, evidence counts and held evidence all survive a purge. */
  lemma PurgeKeepsStore(db: Tables, ref: SubjectRef)
    requires StoreOk(db, {})
    ensures StoreOk(Purged(db, ref), {})
  {
    hide Purged, Consistent, RecordsOk, LogsOk, CountsOk, EvidenceHeld;
    StoreDetails(db);
    PurgeKeepsConsistency(db, ref);
    PurgeKeepsLogs(db, ref);
    PurgeKeepsCounts(db, ref);
    PurgeKeepsEvidence(db, ref);
  }

  lemma StoreDetails(db: Tables)
    requires StoreOk(db, {})
    ensures MemoriesKeyed(db.memories) && StatesKeyed(db.states)
    ensures RevisionsRefer(db.revisions, db.memories) && BindingsRefer(db.bindings, db.memories, db.evidence)
  {
    hide FactReferences, FeatureReferences, OwnerReferences, UniqueKeys, RecordsOk, LogsOk, CountsOk, EvidenceHeld,
         StatesValid;
  }
}
