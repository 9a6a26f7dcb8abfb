/** Processing runs over the feature engine: each transaction either commits as a whole or leaves
    nothing behind but its failed run (feature_service.py). */
module FeatureService {
  import opened Domain
  import opened Sorting
  import opened Records
  import opened Database
  import opened Aggregation
  import opened FeatureEngine
  import opened Registry
  import MemoryService

  /** Every state is the one a full rebuild would give, and the tables are well formed. */
  ghost predicate Healthy(db: Tables, aggs: seq<Aggregator>) { Consistent(db) && CacheOk(db, aggs) }

  ghost predicate SameFacts(a: Tables, b: Tables) { a.events == b.events && a.evidence == b.evidence }

  ghost predicate SameFeatures(a: Tables, b: Tables) {
    SameFacts(a, b) && a.observations == b.observations && a.states == b.states && a.stateEvidence == b.stateEvidence
  }

  lemma HealthyElsewhere(a: Tables, b: Tables, aggs: seq<Aggregator>)
    requires Healthy(a, aggs) && a.observations == b.observations && a.states == b.states
             && a.stateEvidence == b.stateEvidence
    requires Consistent(b)
    ensures Healthy(b, aggs)
  {
    hide Consistent, Cached, LinksOk;
  }

  lemma HealthyAtFirst(aggs: seq<Aggregator>)
    ensures Healthy(EMPTY, aggs)
  {
    EmptyCacheOk(aggs);
  }

  /** Whatever else the services write between two runs, the cache stays sound. */
  lemma OtherWritesKeepHealth(db: Tables, w: Write, aggs: seq<Aggregator>)
    requires !w.AddObservation? && !w.UpsertState? && Apply(db, w).Ok?
    requires Healthy(db, aggs)
    ensures Healthy(Apply(db, w).value, aggs)
  {
    hide Consistent, CacheOk, Refusal;
    OneWriteKeeps(db, w);
    HealthyElsewhere(db, Apply(db, w).value, aggs);
  }

  /** The validator of ProcessingRun, which model_copy bypasses. */
  predicate RunValid(r: Run) {
    && (r.status in {Succeeded, RunFailed} <==> r.finishedAt.Some?)
    && (r.finishedAt.Some? ==> r.startedAt <= r.finishedAt.value)
    && (r.status == RunFailed <==> r.error.Some?)
  }

  /** events.list: newest first. */
  function Newest(): (Event, Event) -> bool {
    (a: Event, b: Event) => a.content.occurredAt > b.content.occurredAt
      || (a.content.occurredAt == b.content.occurredAt && a.id >= b.id)
  }

  function EventsNewestFirst(t: map<Id, Event>, ref: SubjectRef): seq<Event> {
    Sort(Filter(Rows(t), (e: Event) => e.subject == ref), Newest())
  }

  function PendingPage(t: map<Id, Event>, ref: SubjectRef, limit: nat): seq<Event> {
    var all := EventsNewestFirst(t, ref);
    if |all| <= limit then all else all[..limit]
  }

  /** What the extractors make of each event, or the error they end with. */
  type Extraction = Id -> Result<seq<Emission>>

  /** The identities of everything the extractors make of these events. */
  ghost function AllEmitted(extract: Extraction, events: seq<Event>): set<(Id, string, string, string, string)> {
    if events == [] then {} else
      var last := events[|events| - 1];
      AllEmitted(extract, events[..|events| - 1]) + if extract(last.id).Ok?
        then Emitted(last.id, extract(last.id).value) else {}
  }

  class Service {
    const store: MemoryService.Store
    const aggs: seq<Aggregator>

    constructor (store: MemoryService.Store, aggs: seq<Aggregator>)
      ensures this.store == store && this.aggs == aggs
    {
      this.store := store;
      this.aggs := aggs;
    }

    /** One transaction that makes sure of the subject and writes one run. */
    method WriteRun(run: Run) returns (r: Result<()>)
      requires Healthy(store.tables, aggs)
      modifies store
      ensures Healthy(store.tables, aggs) && SameFeatures(old(store.tables), store.tables)
      ensures r.Ok? ==> store.tables.runs == old(store.tables).runs[run.id := run] && Live(store.tables, run.subject)
      ensures r.Err? ==> store.tables == old(store.tables)
      ensures Live(old(store.tables), run.subject) && Writable(old(store.tables).runs, run) ==> r.Ok?
    {
      hide Consistent, CacheOk;
      var uow := new Transaction(aggs, store.tables);
      var _ :- uow.Ensure(run.subject);
      var _ :- uow.Execute(PutRun(run));
      HealthyElsewhere(store.tables, uow.work, aggs);
      store.tables := uow.work;
      r := Ok(());
    }

    method ProcessEvent(ref: SubjectRef, eventId: Id, extracted: Result<seq<Emission>>, ids: seq<Id>, runId: Id,
                        started: Time, now: Time)
      returns (r: Result<(nat, nat, nat)>)
      requires extracted.Ok? ==> |ids| >= |extracted.value|
      requires runId !in store.tables.runs && started <= now
      requires Healthy(store.tables, aggs)
      modifies store
      ensures Healthy(store.tables, aggs) && SameFacts(old(store.tables), store.tables)
      ensures r.Ok? ==> extracted.Ok?
                        && Counted(old(store.tables).observations, store.tables.observations, eventId, extracted.value,
                                   (r.value.0, r.value.1))
                        && r.value.2 ==
                             StatesInAll(store.tables.observations, aggs, ref, SortedKeys(Dimensions(extracted.value)))
                        && RunStored(store.tables,
                                     Run(runId, ref, Operation.ProcessEvent, Succeeded, started, Some(now), 1, 0, None))
      ensures r.Err? ==> SameFeatures(old(store.tables), store.tables)
                         && (store.tables == old(store.tables)
                             || RunStored(store.tables,
                                          Run(runId, ref, Operation.ProcessEvent, RunFailed, started, Some(now), 0, 0,
                                              Some(r.error))))
    {
      hide Consistent, CacheOk, Healthy, Counted, Extends, StatesInAll;
      var run := Run(runId, ref, Operation.ProcessEvent, Running, started, None, 0, 0, None);
      var _ :- WriteRun(run);
      r := ProcessInOwnTransaction(ref, eventId, extracted, ids,
                                   Some(run.(status := Succeeded, finishedAt := Some(now), processedCount := 1)), now);
      if r.Err? {
        var marked := WriteRun(run.(status := RunFailed, finishedAt := Some(now), error := Some(r.error)));
        assert marked.Ok?;
      }
    }

    /** Works on a copy of the tables; on any error the copy is dropped. */
    method ProcessInOwnTransaction(ref: SubjectRef, eventId: Id, extracted: Result<seq<Emission>>, ids: seq<Id>,
                                   run: Option<Run>, now: Time)
      returns (r: Result<(nat, nat, nat)>)
      requires extracted.Ok? ==> |ids| >= |extracted.value|
      requires Healthy(store.tables, aggs)
      modifies store
      ensures Healthy(store.tables, aggs) && SameFacts(old(store.tables), store.tables)
      ensures Extends(old(store.tables).observations, store.tables.observations)
      ensures r.Ok? ==> extracted.Ok?
                        && Counted(old(store.tables).observations, store.tables.observations, eventId, extracted.value,
                                   (r.value.0, r.value.1))
                        && r.value.2 ==
                             StatesInAll(store.tables.observations, aggs, ref, SortedKeys(Dimensions(extracted.value)))
                        && store.tables.runs ==
                             (if run.Some? then old(store.tables).runs[run.value.id := run.value]
                                 else old(store.tables).runs)
                        && Live(store.tables, ref)
      ensures r.Err? ==> store.tables == old(store.tables)
    {
      hide Consistent, CacheOk, Counted, StatesInAll, Extends, SortedKeys, Dimensions, Refusal;
      ExtendsItself(store.tables.observations);
      var uow := new Transaction(aggs, store.tables);
      var _ :- uow.Ensure(ref);
      HealthyElsewhere(store.tables, uow.work, aggs);
      r := uow.ProcessEventIn(ref, eventId, extracted, ids, now);
      if r.Err? { return; }
      if run.Some? {
        ghost var before := uow.work;
        var _ :- uow.Execute(PutRun(run.value));
        HealthyElsewhere(before, uow.work, aggs);
      }
      store.tables := uow.work;
    }

    /** One transaction per listed event; a failing event leaves nothing behind and the rest go on.
        `done` are the events that succeeded. */
    method ProcessListed(ref: SubjectRef, events: seq<Event>, extract: Extraction, ids: Id -> seq<Id>, now: Time)
      returns (processed: nat, failed: nat, firstError: Option<Error>, ghost done: seq<Event>)
      requires forall id | extract(id).Ok? :: |ids(id)| >= |extract(id).value|
      requires Live(store.tables, ref) && Healthy(store.tables, aggs)
      modifies store
      ensures Healthy(store.tables, aggs) && SameFacts(old(store.tables), store.tables)
      ensures Live(store.tables, ref) && store.tables.runs == old(store.tables).runs
      ensures Extends(old(store.tables).observations, store.tables.observations)
      ensures processed == |done| && processed + failed == |events| && (failed == 0 <==> firstError == None)
      ensures Processed(old(store.tables).observations, store.tables.observations, extract, events, done)
    {
      hide Consistent, CacheOk, Healthy, Counted, Extends, Processed;
      ghost var before := store.tables.observations;
      ExtendsItself(before);
      NothingProcessed(before, extract);
      processed, failed, firstError, done := 0, 0, None, [];
      assert events[..0] == [];
      for k := 0 to |events|
        invariant Healthy(store.tables, aggs) && SameFacts(old(store.tables), store.tables)
        invariant Live(store.tables, ref) && store.tables.runs == old(store.tables).runs
        invariant Extends(before, store.tables.observations)
        invariant processed == |done| && processed + failed == k && (failed == 0 <==> firstError == None)
        invariant Processed(before, store.tables.observations, extract, events[..k], done)
      {
        ghost var middle := store.tables.observations;
        var result := ProcessInOwnTransaction(ref, events[k].id, extract(events[k].id), ids(events[k].id), None, now);
        ExtendsChain(before, middle, store.tables.observations);
        assert events[..k + 1] == events[..k] + [events[k]];
        if result.Ok? {
          EventProcessed(before, middle, store.tables.observations, extract, events[..k], done, events[k],
                         (result.value.0, result.value.1));
          processed, done := processed + 1, done + [events[k]];
        } else {
          EventSkipped(before, middle, extract, events[..k], done, events[k]);
          failed := failed + 1;
          if firstError == None { firstError := Some(result.error); }
        }
      }
      assert events[..|events|] == events;
    }

    method ProcessPending(ref: SubjectRef, limit: int, extract: Extraction, ids: Id -> seq<Id>, runId: Id,
                          started: Time, now: Time)
      returns (r: Result<Run>, ghost done: seq<Event>)
      requires forall id | extract(id).Ok? :: |ids(id)| >= |extract(id).value|
      requires runId !in store.tables.runs && started <= now
      requires Healthy(store.tables, aggs)
      modifies store
      ensures Healthy(store.tables, aggs) && SameFacts(old(store.tables), store.tables)
      ensures Extends(old(store.tables).observations, store.tables.observations)
      ensures !(1 <= limit <= 200) ==> r == Err(InvalidArgument)
      ensures r.Err? ==> store.tables == old(store.tables)
      ensures r.Ok? ==> var events := PendingPage(old(store.tables).events, ref, limit);
                        && RunStored(store.tables, r.value) && r.value.subject == ref
                        && r.value.processedCount == |done| && |done| + r.value.failedCount == |events|
                        && (r.value.status == Succeeded <==> r.value.failedCount == 0)
                        && Processed(old(store.tables).observations, store.tables.observations, extract, events, done)
    {
      hide Consistent, CacheOk, Healthy, Extends, PendingPage, Processed;
      ExtendsItself(store.tables.observations);
      done := [];
      if !(1 <= limit <= 200) { return Err(InvalidArgument), done; }
      var run := Run(runId, ref, Operation.ProcessPending, Running, started, None, 0, 0, None);
      var begun := WriteRun(run);
      if begun.Err? { return Err(begun.error), done; }
      var events := PendingPage(store.tables.events, ref, limit);
      var processed, failed, firstError, succeeded := ProcessListed(ref, events, extract, ids, now);
      var completed := run.(status := if failed == 0 then Succeeded else RunFailed, finishedAt := Some(now),
                            processedCount := processed, failedCount := failed, error := firstError);
      var written := WriteRun(completed);
      assert written.Ok?;
      r, done := Ok(completed), succeeded;
    }

    method RebuildDimension(ref: SubjectRef, dimension: string, runId: Id, started: Time, now: Time)
      returns (r: Result<Run>)
      requires runId !in store.tables.runs && started <= now
      requires Healthy(store.tables, aggs)
      modifies store
      ensures Healthy(store.tables, aggs) && SameFacts(old(store.tables), store.tables)
      ensures store.tables.observations == old(store.tables).observations
      ensures dimension == "" ==> r == Err(InvalidArgument) && store.tables == old(store.tables)
      ensures r.Ok? ==> var n := |ObservationsIn(store.tables.observations, ref, dimension)|;
                        && r.value == Run(runId, ref, Operation.RebuildDimension, Succeeded, started, Some(now), n, 0,
                                          None)
                        && RunStored(store.tables, r.value)
                        && DimensionRebuilt(store.tables.observations, aggs, old(store.tables).states,
                                            store.tables.states, ref, dimension)
      ensures r.Err? ==> SameFeatures(old(store.tables), store.tables)
                         && (store.tables == old(store.tables)
                             || RunStored(store.tables,
                                          Run(runId, ref, Operation.RebuildDimension, RunFailed, started, Some(now), 0,
                                              0, Some(r.error))))
    {
      hide Healthy, Consistent, DimensionRebuilt, ObservationsIn;
      if dimension == "" { return Err(InvalidArgument); }
      var run := Run(runId, ref, Operation.RebuildDimension, Running, started, None, 0, 0, None);
      var _ :- WriteRun(run);
      var completed := run.(status := Succeeded, finishedAt := Some(now),
                            processedCount := |ObservationsIn(store.tables.observations, ref, dimension)|);
      var rebuilt := RebuildInOwnTransaction(ref, dimension, completed, now);
      if rebuilt.Ok? { return Ok(completed); }
      var marked := WriteRun(run.(status := RunFailed, finishedAt := Some(now), error := Some(rebuilt.error)));
      assert marked.Ok?;
      r := Err(rebuilt.error);
    }

    method RebuildInOwnTransaction(ref: SubjectRef, dimension: string, run: Run, now: Time) returns (r: Result<()>)
      requires Healthy(store.tables, aggs)
      modifies store
      ensures Healthy(store.tables, aggs) && SameFacts(old(store.tables), store.tables)
      ensures store.tables.observations == old(store.tables).observations
      ensures r.Ok? ==> store.tables.runs == old(store.tables).runs[run.id := run]
                        && DimensionRebuilt(store.tables.observations, aggs, old(store.tables).states,
                                            store.tables.states, ref, dimension)
      ensures r.Err? ==> store.tables == old(store.tables)
    {
      hide Consistent, CacheOk, DimensionRebuilt, LinksOk;
      var uow := new Transaction(aggs, store.tables);
      var _ :- uow.Ensure(ref);
      HealthyElsewhere(store.tables, uow.work, aggs);
      CacheParts(uow.work, aggs);
      ghost var start := uow.work;
      var _ :- uow.RebuildDimension(ref, dimension, now);
      CacheRebuilt(start, uow.work, aggs, ref, dimension);
      ghost var middle := uow.work;
      var _ :- uow.Execute(PutRun(run));
      HealthyElsewhere(middle, uow.work, aggs);
      store.tables := uow.work;
      r := Ok(());
    }
  }

  predicate Writable(runs: map<Id, Run>, run: Run) { run.id in runs ==> runs[run.id].subject == run.subject }

  ghost predicate RunStored(db: Tables, run: Run) { run.id in db.runs && db.runs[run.id] == run && RunValid(run) }

  lemma ExtendsItself(t: map<Id, Observation>)
    ensures Extends(t, t)
  {
  }

  lemma ExtendsChain(a: map<Id, Observation>, b: map<Id, Observation>, c: map<Id, Observation>)
    requires Extends(a, b) && Extends(b, c)
    ensures Extends(a, c)
  {
  }

  /** `done` are among the events, all of them if there are as many; exactly what the extractors made of
      `done` has been added; and nothing at all if everything was stored before. */
  ghost predicate Processed(before: map<Id, Observation>, after: map<Id, Observation>, extract: Extraction,
                            events: seq<Event>, done: seq<Event>)
  {
    && multiset(done) <= multiset(events) && (|done| == |events| ==> done == events)
    && (forall e | e in done :: extract(e.id).Ok?)
    && Identities(after) == Identities(before) + AllEmitted(extract, done)
    && (AllEmitted(extract, done) <= Identities(before) ==> after == before)
  }

  lemma NothingProcessed(t: map<Id, Observation>, extract: Extraction)
    ensures Processed(t, t, extract, [], [])
  {
  }

  lemma EventProcessed(before: map<Id, Observation>, middle: map<Id, Observation>, after: map<Id, Observation>,
                       extract: Extraction, events: seq<Event>, done: seq<Event>, e: Event, counts: (nat, nat))
    requires Processed(before, middle, extract, events, done) && extract(e.id).Ok?
    requires Counted(middle, after, e.id, extract(e.id).value, counts)
    ensures Processed(before, after, extract, events + [e], done + [e])
  {
    hide Identities, Emitted;
    assert (done + [e])[..|done|] == done;
    if |done| < |events| { assert |multiset(done)| <= |multiset(events)|; }
    ShorterPart(done, events);
  }

  lemma EventSkipped(before: map<Id, Observation>, after: map<Id, Observation>, extract: Extraction,
                     events: seq<Event>, done: seq<Event>, e: Event)
    requires Processed(before, after, extract, events, done)
    ensures Processed(before, after, extract, events + [e], done)
  {
    hide Identities, AllEmitted;
    ShorterPart(done, events);
  }

  lemma ShorterPart<T>(some: seq<T>, all: seq<T>)
    requires multiset(some) <= multiset(all)
    ensures |some| <= |all|
  {
    assert multiset(all) == multiset(some) + (multiset(all) - multiset(some));
    assert |multiset(all)| == |all| && |multiset(some)| == |some|;
  }

  /** Rebuilding a dimension of a sound cache leaves a sound cache. */
  lemma CacheRebuilt(before: Tables, after: Tables, aggs: seq<Aggregator>, ref: SubjectRef, dimension: string)
    requires CacheOk(before, aggs) && after.observations == before.observations
    requires LinksOk(after.states, after.stateEvidence)
    requires DimensionRebuilt(before.observations, aggs, before.states, after.states, ref, dimension)
    ensures CacheOk(after, aggs)
  {
    hide ObservationsAt, LinksOk;
    var none := None;
    forall key ensures Cached(after.observations, after.states, aggs, key) {
      assert Cached(before.observations, before.states, aggs, key);
      assert KeyRebuilt(before.observations, aggs, before.states, after.states, ref, dimension, none, key);
    }
  }

  /* ---- what the cached states say ---- */

  ghost predicate IsRecency(run: (seq<Observation>, Time) -> Result<StateDraft>, long: nat -> real, short: nat -> real,
                            fade: nat -> real)
  {
    forall obs: seq<Observation>, now: Time :: run(obs, now) == Recency(obs, now, long, short, fade)
  }

  ghost predicate IsFrequency(run: (seq<Observation>, Time) -> Result<StateDraft>, recentCount: nat,
                              fade: nat -> real)
  {
    forall obs: seq<Observation>, now: Time :: run(obs, now) == Frequency(obs, now, recentCount, fade)
  }

  /** A decayed state need not be refreshed: as long as the stored observations age by the same amount, which
      they do once all have happened, a recomputation differs from it in its confidence only. */
  lemma StoredStateStaysTrue(db: Tables, aggs: seq<Aggregator>, key: StateKey, later: Time,
                             long: nat -> real, short: nat -> real, fade: nat -> real)
    requires IsDecay(long) && IsDecay(short) && IsDecay(fade)
    requires key in db.states && AgesEvenly(ObservationsAt(db.observations, key), db.states[key].updatedAt, later)
    requires var w := Winner(Matching(aggs, key.dimension), key.aggregator);
             w.Some? && IsRecency(w.value.run, long, short, fade)
    requires Healthy(db, aggs)
    ensures Recency(ObservationsAt(db.observations, key), later, long, short, fade).Ok?
    ensures SameButConfidence(Recency(ObservationsAt(db.observations, key), later, long, short, fade).value,
                              db.states[key].draft)
  {
    hide Consistent, LinksOk, ObservationsAt, IsDecay, AgesEvenly, Recency, SameButConfidence;
    assert Cached(db.observations, db.states, aggs, key);
    RecencyIsTimeless(ObservationsAt(db.observations, key), db.states[key].updatedAt, later, long, short, fade);
  }

  /** A stored state of a built-in aggregator is valid and describes the observations stored now. */
  lemma StoredStateDescribes(db: Tables, aggs: seq<Aggregator>, key: StateKey, recentCount: nat,
                             long: nat -> real, short: nat -> real, fade: nat -> real)
    requires IsDecay(long) && IsDecay(short) && IsDecay(fade) && key in db.states
    requires var w := Winner(Matching(aggs, key.dimension), key.aggregator);
             w.Some? && (IsRecency(w.value.run, long, short, fade) || IsFrequency(w.value.run, recentCount, fade))
    requires Healthy(db, aggs)
    ensures StateValid(db.states[key].draft) && Describes(db.states[key].draft, ObservationsAt(db.observations, key))
  {
    hide Consistent, LinksOk, IsDecay, Recency, Frequency, StateValid, Describes, ObservationsAt;
    assert Cached(db.observations, db.states, aggs, key);
    var obs, now := ObservationsAt(db.observations, key), db.states[key].updatedAt;
    ObservationsValid(db.observations, key);
    if IsRecency(Winner(Matching(aggs, key.dimension), key.aggregator).value.run, long, short, fade) {
      RecencyDescribes(obs, now, long, short, fade);
    } else {
      FrequencyDescribes(obs, now, recentCount, fade);
    }
  }

  lemma ObservationsValid(t: map<Id, Observation>, key: StateKey)
    requires ValidDrafts(t)
    ensures AllValid(ObservationsAt(t, key))
  {
    hide ObservationsIn;
    forall o | o in ObservationsAt(t, key) ensures ObservationValid(o.draft) {
      InMember(t, key.subject, key.dimension, o);
    }
  }
}
