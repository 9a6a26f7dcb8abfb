/** Values of the feature, event and profile domains (domain/features.py, events.py, jobs.py, profile.py). */
module Records {
  import opened Domain
  import opened Sorting

  /* ---- features ---- */

  datatype ObservationDraft = ObservationDraft(
    dimension: string, valueKey: string, value: string, score: real, polarity: Polarity,
    confidence: real, occurredAt: Time)

  datatype Observation = Observation(
    id: Id, subject: SubjectRef, draft: ObservationDraft, eventId: Id, evidenceId: Id,
    extractorName: string, extractorVersion: string, createdAt: Time)
  {
    function Identity(): (Id, string, string, string, string) {
      (eventId, draft.dimension, draft.valueKey, extractorName, extractorVersion)
    }
  }

  datatype StateDraft = StateDraft(
    dimension: string, valueKey: string, value: string, longTerm: real, shortTerm: real, confidence: real,
    positive: int, negative: int, neutral: int, firstAt: Time, lastAt: Time, evidenceIds: seq<Id>)

  datatype FeatureState = FeatureState(
    subject: SubjectRef, aggregator: string, version: string, updatedAt: Time, draft: StateDraft)
  {
    function Key(): StateKey { StateKey(subject, draft.dimension, draft.valueKey, aggregator) }
  }

  predicate Scored(x: real) { -1.0 <= x <= 1.0 }

  predicate ObservationValid(d: ObservationDraft) { Scored(d.score) && 0.0 <= d.confidence <= 1.0 }

  /** The field bounds and the validator of FeatureStateDraft, which every FeatureState runs again. */
  predicate StateValid(d: StateDraft) {
    && Scored(d.longTerm) && Scored(d.shortTerm) && 0.0 <= d.confidence <= 1.0
    && d.positive >= 0 && d.negative >= 0 && d.neutral >= 0 && d.positive + d.negative + d.neutral > 0
    && d.firstAt <= d.lastAt && d.evidenceIds != [] && Distinct(d.evidenceIds)
  }

  /** The unique constraint of the feature_states table. */
  datatype StateKey = StateKey(subject: SubjectRef, dimension: string, valueKey: string, aggregator: string)

  /* ---- events ---- */

  datatype EntityRef = EntityRef(subject: SubjectRef, entityType: string, externalId: string)
  datatype Entity = Entity(ref: EntityRef, content: string, deletedAt: Option<Time>)

  /** The part of an event that takes part in its content digest. */
  datatype EventContent = EventContent(
    eventType: string, entity: Option<EntityRef>, value: Option<real>, polarity: Polarity,
    properties: string, occurredAt: Time, schemaVersion: string)

  datatype Event = Event(
    id: Id, subject: SubjectRef, source: string, idempotencyKey: string, content: EventContent, observedAt: Time)

  /* ---- processing runs ---- */

  datatype Operation = ProcessEvent | ProcessPending | RebuildDimension
  datatype RunStatus = Pending | Running | Succeeded | RunFailed

  datatype Run = Run(
    id: Id, subject: SubjectRef, operation: Operation, status: RunStatus, startedAt: Time, finishedAt: Option<Time>,
    processedCount: nat, failedCount: nat, error: Option<Error>)

  /* ---- profiles ---- */

  datatype Resolution = ExplicitOnly | BehaviorOnly | Aligned | ExplicitOverridesBehavior | UnresolvedConflict
  datatype ProfileStatus = Complete | Partial | Stale | Empty | Failed

  datatype Coordinate = Coordinate(dimension: string, valueKey: string)

  /** feature_state_key: the JSON text of this triple, which determines it. */
  datatype FeatureKey = FeatureKey(dimension: string, valueKey: string, aggregator: string)

  datatype Conflict = Conflict(
    at: Coordinate, memoryIds: seq<Id>, featureKey: FeatureKey, memoryPolarity: Polarity,
    behaviorPolarity: Polarity, behaviorScore: real, evidenceRefs: seq<Id>)

  datatype Preference = Preference(
    at: Coordinate, memoryIds: seq<Id>, featureKey: Option<FeatureKey>, polarity: Polarity, score: real,
    confidence: real, resolution: Resolution, conflicts: seq<Conflict>, evidenceRefs: seq<Id>)

  datatype Coverage = Coverage(total: int, processed: int, failed: int)

  datatype Warning = CoverageIncomplete | MissingEvidence(memoryId: Id)

  datatype Snapshot = Snapshot(
    id: Id, subject: SubjectRef, version: nat, status: ProfileStatus, generatedAt: Time, algorithm: string,
    watermark: Option<Time>, coverage: Coverage, preferences: seq<Preference>, warnings: seq<Warning>)
}
