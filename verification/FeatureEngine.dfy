/** Observations and the states derived from them: the stored states are at every moment what a
    rebuild from all stored observations would have given (feature_service.py). */
module FeatureEngine {
  import opened Domain
  import opened Sorting
  import opened Records
  import opened Database
  import opened MemoryPlans
  import opened Aggregation
  import opened Registry
  import MemoryInvariants

  /* ---- reads ---- */

  predicate InDimension(o: Observation, ref: SubjectRef, dimension: string) {
    o.subject == ref && o.draft.dimension == dimension
  }

  /** list_observations, ordered by (occurred_at, id) */
  function ObservationsIn(t: map<Id, Observation>, ref: SubjectRef, dimension: string): seq<Observation> {
    Ordered(Filter(Rows(t), (o: Observation) => InDimension(o, ref, dimension)))
  }

  function WithValue(obs: seq<Observation>, valueKey: string): seq<Observation> {
    Filter(obs, (o: Observation) => o.draft.valueKey == valueKey)
  }

  function ObservationsAt(t: map<Id, Observation>, key: StateKey): seq<Observation> {
    WithValue(ObservationsIn(t, key.subject, key.dimension), key.valueKey)
  }

  lemma InMember(t: map<Id, Observation>, ref: SubjectRef, dimension: string, o: Observation)
    ensures o in ObservationsIn(t, ref, dimension) <==> InDimension(o, ref, dimension) && Stores(t, o)
  {
    hide InDimension;
    OrderedParts(Filter(Rows(t), (o: Observation) => InDimension(o, ref, dimension)));
  }

  /* ---- the cache property ---- */

  /** This state is what the winning aggregator made of the coordinate's observations. */
  ghost predicate Derived(t: map<Id, Observation>, aggs: seq<Aggregator>, key: StateKey, s: FeatureState) {
    && ObservationsAt(t, key) != []
    && var w := Winner(Matching(aggs, key.dimension), key.aggregator);
    && w.Some? && s.Key() == key && s.version == w.value.version
    && w.value.run(ObservationsAt(t, key), s.updatedAt) == Ok(s.draft)
  }

  ghost predicate Due(t: map<Id, Observation>, aggs: seq<Aggregator>, key: StateKey) {
    ObservationsAt(t, key) != [] && Winner(Matching(aggs, key.dimension), key.aggregator).Some?
  }

  /** A coordinate has a state exactly when it is due one, and then the right one. */
  ghost predicate Cached(t: map<Id, Observation>, states: map<StateKey, FeatureState>, aggs: seq<Aggregator>,
                         key: StateKey)
  {
    && (key in states <==> Due(t, aggs, key))
    && (key in states ==> Derived(t, aggs, key, states[key]))
  }

  ghost predicate LinksOk(states: map<StateKey, FeatureState>, links: set<StateLink>) {
    forall key, e | key in states :: StateLink(key, e) in links <==> e in states[key].draft.evidenceIds
  }

  ghost predicate CacheOk(db: Tables, aggs: seq<Aggregator>) {
    && (forall key :: Cached(db.observations, db.states, aggs, key))
    && LinksOk(db.states, db.stateEvidence)
    && (forall id | id in db.observations :: ObservationValid(db.observations[id].draft))
  }

  lemma CacheParts(db: Tables, aggs: seq<Aggregator>)
    requires CacheOk(db, aggs)
    ensures (forall key :: Cached(db.observations, db.states, aggs, key)) && LinksOk(db.states, db.stateEvidence)
    ensures ValidDrafts(db.observations)
  {
  }

  lemma CacheFrom(db: Tables, aggs: seq<Aggregator>)
    requires (forall key :: Cached(db.observations, db.states, aggs, key)) && LinksOk(db.states, db.stateEvidence)
    requires ValidDrafts(db.observations)
    ensures CacheOk(db, aggs)
  {
  }

  lemma EmptyCacheOk(aggs: seq<Aggregator>)
    ensures CacheOk(EMPTY, aggs)
  {
    forall key ensures Cached(EMPTY.observations, EMPTY.states, aggs, key) {
      assert Rows(EMPTY.observations) == [];
    }
  }

  /* ---- grouping ---- */

  function ValueKeys(obs: seq<Observation>): (r: seq<string>)
    ensures forall v :: v in r <==> exists o :: o in obs && o.draft.valueKey == v
  {
    if obs == [] then [] else
      var r := [obs[0].draft.valueKey] + ValueKeys(obs[1..]);
      assert forall o :: o in obs <==> o == obs[0] || o in obs[1..];
      r
  }

  /** sorted(grouped) */
  function SortedKeys(keys: seq<string>): (r: seq<string>)
    ensures forall v :: v in r <==> v in keys
  {
    var r := Sort(Unique(keys), StringLeq);
    SortPermutes(Unique(keys), StringLeq);
    r
  }

  lemma HasValue(t: map<Id, Observation>, ref: SubjectRef, dimension: string, v: string, aggregator: string)
    ensures v in ValueKeys(ObservationsIn(t, ref, dimension)) <==>
            ObservationsAt(t, StateKey(ref, dimension, v, aggregator)) != []
  {
    var obs := ObservationsIn(t, ref, dimension);
    var at := ObservationsAt(t, StateKey(ref, dimension, v, aggregator));
    if at != [] { assert at[0] in at; }
    if v in ValueKeys(obs) {
      var o :| o in obs && o.draft.valueKey == v;
      assert o in at;
    }
  }

  /* ---- one value key ---- */

  /** What a loop over `ms` leaves at each key of one coordinate; all other keys keep their state. */
  ghost predicate Rebuilt(before: map<StateKey, FeatureState>, after: map<StateKey, FeatureState>, ref: SubjectRef,
                          dimension: string, v: string, obs: seq<Observation>, ms: seq<Aggregator>, now: Time)
  {
    forall key :: RebuiltAt(before, after, ref, dimension, v, obs, ms, now, key)
  }

  ghost predicate RebuiltAt(before: map<StateKey, FeatureState>, after: map<StateKey, FeatureState>, ref: SubjectRef,
                            dimension: string, v: string, obs: seq<Observation>, ms: seq<Aggregator>, now: Time,
                            key: StateKey)
  {
    var w := Winner(ms, key.aggregator);
    if key == StateKey(ref, dimension, v, key.aggregator) && w.Some? then
      && key in after && after[key].updatedAt == now && after[key].Key() == key
      && after[key].version == w.value.version && w.value.run(obs, now) == Ok(after[key].draft)
    else
      && (key in before <==> key in after) && (key in before ==> before[key] == after[key])
  }

  /** The state an aggregator's draft becomes; a draft for another coordinate or an invalid one is refused. */
  function StateFrom(ref: SubjectRef, dimension: string, v: string, a: Aggregator, draft: StateDraft,
                     now: Time): Result<FeatureState>
  {
    if draft.dimension != dimension || draft.valueKey != v then Err(InvalidArgument)
    else if !StateValid(draft) then Err(Validation)
    else Ok(FeatureState(ref, a.name, a.version, now, draft))
  }

  lemma StoredIdentity(t: map<Id, Observation>, o: Observation)
    requires Stores(t, o)
    ensures o.Identity() in Identities(t)
  {
  }

  lemma NewObservation(db: Tables, o: Observation)
    requires Refusal(db, AddObservation(o)) == None
    ensures o.id !in db.observations && o.Identity() !in Identities(db.observations)
    ensures Effect(db, AddObservation(o)) == db.(observations := db.observations[o.id := o])
  {
  }

  lemma OneWriteKeeps(db: Tables, w: Write)
    requires Consistent(db) && Refusal(db, w).None?
    ensures Consistent(Effect(db, w))
  {
    hide Consistent;
    WritesKeepConsistency(db, [w]);
    MemoryInvariants.ApplyOne(db, w);
  }

  lemma ConsistentNumbered(db: Tables)
    requires Consistent(db)
    ensures Numbered(db.observations)
  {
    hide References, UniqueKeys, FactsKeyed;
  }

  /** A unit of work for features: the working copy of one transaction. */
  class Transaction {
    const aggs: seq<Aggregator>
    var work: Tables

    constructor (aggs: seq<Aggregator>, db: Tables)
      ensures this.aggs == aggs && work == db
    {
      this.aggs := aggs;
      work := db;
    }

    /** One repository call. */
    method Execute(w: Write) returns (r: Result<()>)
      requires Consistent(work)
      modifies this
      ensures Consistent(work)
      ensures r == match Apply(old(work), w) case Ok(_) => Ok(()) case Err(e) => Err(e)
      ensures work == if r.Ok? then Effect(old(work), w) else old(work)
    {
      hide Consistent, Refusal, Effect;
      var refusal := Refusal(work, w);
      if refusal.Some? { return Err(refusal.value); }
      OneWriteKeeps(work, w);
      work := Effect(work, w);
      r := Ok(());
    }

    /** ensure_in_uow */
    method Ensure(ref: SubjectRef) returns (r: Result<()>)
      requires Consistent(work)
      modifies this
      ensures Consistent(work)
      ensures work == old(work).(subjects := work.subjects)
      ensures r.Ok? ==> Live(work, ref)
      ensures r.Err? ==> work == old(work)
      ensures Live(old(work), ref) ==> r.Ok?
    {
      hide Consistent;
      if ref in work.subjects { return Require(Live(work, ref), SubjectDeleted); }
      r := Execute(AddSubject(ref));
    }

    twostate predicate OnlyStates()
      reads this
    {
      work == old(work).(states := work.states, stateEvidence := work.stateEvidence)
    }

    method Upsert(s: FeatureState) returns (r: Result<()>)
      requires LinksOk(work.states, work.stateEvidence) && Consistent(work)
      modifies this
      ensures Consistent(work)
      ensures r.Ok? ==> OnlyStates() && work.states == old(work).states[s.Key() := s]
      ensures LinksOk(work.states, work.stateEvidence)
      ensures r.Err? ==> work == old(work)
    {
      hide Consistent;
      var refusal := Refusal(work, UpsertState(s));
      if refusal.Some? { return Err(refusal.value); }
      OneWriteKeeps(work, UpsertState(s));
      work := Effect(work, UpsertState(s));
      r := Ok(());
    }

    method RebuildValue(ref: SubjectRef, dimension: string, v: string, obs: seq<Observation>, now: Time)
      returns (r: Result<nat>)
      requires LinksOk(work.states, work.stateEvidence) && Consistent(work)
      modifies this
      ensures LinksOk(work.states, work.stateEvidence) && Consistent(work)
      ensures OnlyStates()
      ensures r.Ok? ==> Rebuilt(old(work).states, work.states, ref, dimension, v, obs, Matching(aggs, dimension), now)
      ensures r.Ok? ==> r.value == |Matching(aggs, dimension)|
    {
      hide LinksOk, Consistent;
      var ms := Matching(aggs, dimension);
      ghost var before := work.states;
      for j := 0 to |ms|
        invariant LinksOk(work.states, work.stateEvidence) && OnlyStates() && Consistent(work)
        invariant Rebuilt(before, work.states, ref, dimension, v, obs, ms[..j], now)
      {
        ghost var middle := work.states;
        var draft :- ms[j].run(obs, now);
        var s :- StateFrom(ref, dimension, v, ms[j], draft, now);
        var _ :- Upsert(s);
        RebuiltOnce(before, middle, ref, dimension, v, obs, ms, j, now, s);
      }
      assert ms[..|ms|] == ms;
      r := Ok(|ms|);
    }

    /** _rebuild_dimension_in_uow */
    method RebuildDimension(ref: SubjectRef, dimension: string, now: Time) returns (r: Result<nat>)
      requires LinksOk(work.states, work.stateEvidence) && Consistent(work)
      modifies this
      ensures LinksOk(work.states, work.stateEvidence) && OnlyStates() && Consistent(work)
      ensures r.Ok? ==> DimensionRebuilt(work.observations, aggs, old(work).states, work.states, ref, dimension)
      ensures r.Ok? ==> r.value == StatesIn(work.observations, aggs, ref, dimension)
    {
      hide LinksOk, Consistent, ValuesRebuilt, DimensionRebuilt, Rebuilt, ObservationsIn, WithValue;
      var obs := ObservationsIn(work.observations, ref, dimension);
      var keys := SortedKeys(ValueKeys(obs));
      var updated := 0;
      ghost var before, t := work.states, work.observations;
      NoValuesRebuilt(t, aggs, before, ref, dimension);
      assert keys[..0] == [];
      for i := 0 to |keys|
        invariant LinksOk(work.states, work.stateEvidence) && OnlyStates() && Consistent(work)
        invariant ValuesRebuilt(t, aggs, before, work.states, ref, dimension, keys[..i])
        invariant updated == StatesPer(i, |Matching(aggs, dimension)|)
      {
        ghost var middle := work.states;
        var n :- RebuildValue(ref, dimension, keys[i], WithValue(obs, keys[i]), now);
        updated := updated + n;
        ValueRebuilt(t, aggs, before, middle, work.states, ref, dimension, keys, i, now);
      }
      AllValuesRebuilt(t, aggs, before, work.states, ref, dimension, keys);
      r := Ok(updated);
    }

    /** _save_observation_idempotently: false if the identity is already stored. */
    method SaveObservation(o: Observation) returns (r: Result<bool>)
      requires Consistent(work)
      modifies this
      ensures Consistent(work)
      ensures r == Ok(true) ==> o.id !in old(work).observations
                                && work == old(work).(observations := old(work).observations[o.id := o])
      ensures r != Ok(true) ==> work == old(work)
      ensures r == Ok(false) ==> o.Identity() in Identities(work.observations)
      ensures r == Ok(true) ==> o.Identity() !in Identities(old(work).observations)
    {
      hide Consistent, Refusal, Effect, ObservationsIn, Filter, InDimension, IdentityFree;
      var known := Filter(ObservationsIn(work.observations, o.subject, o.draft.dimension),
                          (x: Observation) => x.Identity() == o.Identity());
      if known != [] {
        assert known[0] in known;
        InMember(work.observations, o.subject, o.draft.dimension, known[0]);
        StoredIdentity(work.observations, known[0]);
        return Ok(false);
      }
      var refusal := Refusal(work, AddObservation(o));
      if refusal.Some? { return Err(refusal.value); }
      NewObservation(work, o);
      OneWriteKeeps(work, AddObservation(o));
      work := Effect(work, AddObservation(o));
      r := Ok(true);
    }

    /** One round of the extraction loop: true if the draft was new. */
    method SaveDraft(ref: SubjectRef, eventId: Id, evidenceId: Id, e: Emission, id: Id, now: Time)
      returns (r: Result<bool>)
      requires Consistent(work)
      modifies this
      ensures Consistent(work) && OnlyObservations(old(work), work)
      ensures r.Err? ==> work == old(work)
      ensures r.Ok? ==> Saved(old(work).observations, work.observations, ref, eventId, e, r.value)
    {
      hide Consistent, Identities;
      if !ObservationValid(e.draft) { return Err(Validation); }
      var o := Observation(id, ref, e.draft, eventId, evidenceId, e.extractor, e.version, now);
      r := SaveObservation(o);
      if r == Ok(true) { assert Recorded(old(work).observations, work.observations, ref, eventId, e, o); }
    }

    /** The extraction loops of _process_event_in_uow. */
    method SaveAll(ref: SubjectRef, eventId: Id, evidenceId: Id, emitted: seq<Emission>, ids: seq<Id>, now: Time)
      returns (r: Result<(nat, nat)>)
      requires |ids| >= |emitted| && Consistent(work)
      requires SavingIn(work, work, aggs, ref, eventId, emitted, 0, (0, 0))
      modifies this
      ensures exists i: nat, counts: (nat, nat) :: SavingIn(old(work), work, aggs, ref, eventId, emitted, i, counts)
      ensures r.Ok? ==> SavingIn(old(work), work, aggs, ref, eventId, emitted, |emitted|, r.value)
    {
      hide *;
      var created, replayed := 0, 0;
      ghost var before := work;
      for i := 0 to |emitted|
        invariant SavingIn(before, work, aggs, ref, eventId, emitted, i, (created, replayed))
      {
        ghost var middle := work;
        SavingConsistent(before, middle, aggs, ref, eventId, emitted, i, (created, replayed));
        var isNew := SaveDraft(ref, eventId, evidenceId, emitted[i], ids[i], now);
        if isNew.Err? { return Err(isNew.error); }
        SavingNextIn(before, middle, work, aggs, ref, eventId, emitted, i, (created, replayed), isNew.value);
        if isNew.value { created := created + 1; } else { replayed := replayed + 1; }
      }
      r := Ok((created, replayed));
    }

    /** _process_event_in_uow */
    method ProcessEventIn(ref: SubjectRef, eventId: Id, extracted: Result<seq<Emission>>, ids: seq<Id>, now: Time)
      returns (r: Result<(nat, nat, nat)>)
      requires extracted.Ok? ==> |ids| >= |extracted.value|
      requires CacheOk(work, aggs) && Consistent(work)
      modifies this
      ensures work == old(work).(observations := work.observations, states := work.states,
                                 stateEvidence := work.stateEvidence)
      ensures Extends(old(work).observations, work.observations)
      ensures r.Ok? ==> CacheOk(work, aggs)
      ensures Consistent(work)
      ensures r.Ok? ==> extracted.Ok?
                        && Counted(old(work).observations, work.observations, eventId, extracted.value,
                                   (r.value.0, r.value.1))
      ensures r.Ok? ==> r.value.2 == StatesInAll(work.observations, aggs, ref, SortedKeys(Dimensions(extracted.value)))
      ensures !OwnsEvent(old(work), ref, eventId) ==> r == Err(InvalidArgument)
    {
      hide Cached, LinksOk, CachedExcept, Numbered, Counted, DimensionRebuilt, ValidDrafts, EvidenceForEvent, CacheOk,
           Consistent, SavingIn, StatesIn;
      if !OwnsEvent(work, ref, eventId) { return Err(InvalidArgument); }
      var evidence := EvidenceForEvent(work.evidence, ref, eventId);
      if evidence == [] { return Err(InvalidArgument); }
      var emitted :- extracted;
      SavingStartsIn(work, aggs, ref, eventId, emitted);
      var dimensions := SortedKeys(Dimensions(emitted));
      ghost var none := Dimensions(emitted);
      var counts := SaveAll(ref, eventId, evidence[0].id, emitted, ids, now);
      if counts.Err? {
        ghost var i, seen :| SavingIn(old(work), work, aggs, ref, eventId, emitted, i, seen);
        SavingInParts(old(work), work, aggs, ref, eventId, emitted, i, seen);
        return Err(counts.error);
      }
      SavingInParts(old(work), work, aggs, ref, eventId, emitted, |emitted|, counts.value);
      assert emitted[..|emitted|] == emitted;
      var updated := 0;
      ghost var t := work.observations;
      SameDimensions(t, work.states, aggs, ref, none, dimensions[0..]);
      for i := 0 to |dimensions|
        invariant work == old(work).(observations := t, states := work.states, stateEvidence := work.stateEvidence)
        invariant LinksOk(work.states, work.stateEvidence) && Consistent(work)
        invariant CachedExcept(t, work.states, aggs, ref, dimensions[i..])
        invariant updated == StatesInAll(t, aggs, ref, dimensions[..i])
      {
        assert dimensions[..i + 1][..i] == dimensions[..i];
        ghost var middle := work.states;
        var n :- RebuildDimension(ref, dimensions[i], now);
        RebuildShrinks(t, aggs, middle, work.states, ref, dimensions, i);
        updated := updated + n;
      }
      assert dimensions[|dimensions|..] == [] && dimensions[..|dimensions|] == dimensions;
      NothingExcepted(t, work.states, aggs, ref);
      CacheFrom(work, aggs);
      r := Ok((counts.value.0, counts.value.1, updated));
    }
  }

  /** n states for each of the values, one value after another. */
  function StatesPer(values: nat, n: nat): nat { if values == 0 then 0 else StatesPer(values - 1, n) + n }

  /** How many states a rebuild of the dimension writes. */
  function StatesIn(t: map<Id, Observation>, aggs: seq<Aggregator>, ref: SubjectRef, dimension: string): nat {
    StatesPer(|SortedKeys(ValueKeys(ObservationsIn(t, ref, dimension)))|, |Matching(aggs, dimension)|)
  }

  function StatesInAll(t: map<Id, Observation>, aggs: seq<Aggregator>, ref: SubjectRef, dimensions: seq<string>): nat {
    if dimensions == [] then 0 else
      StatesInAll(t, aggs, ref, dimensions[..|dimensions| - 1]) + StatesIn(t, aggs, ref, dimensions[|dimensions| - 1])
  }

  /** Every due key of the dimension has a freshly derived state; the rest keep theirs. */
  ghost predicate DimensionRebuilt(t: map<Id, Observation>, aggs: seq<Aggregator>, before: map<StateKey, FeatureState>,
                                   after: map<StateKey, FeatureState>, ref: SubjectRef, dimension: string)
  {
    forall key :: KeyRebuilt(t, aggs, before, after, ref, dimension, None, key)
  }

  ghost predicate ValuesRebuilt(t: map<Id, Observation>, aggs: seq<Aggregator>, before: map<StateKey, FeatureState>,
                                after: map<StateKey, FeatureState>, ref: SubjectRef, dimension: string,
                                done: seq<string>)
  {
    forall key :: KeyRebuilt(t, aggs, before, after, ref, dimension, Some(done), key)
  }

  /** The key is in the dimension and, if values are given, has one of them. */
  predicate Included(key: StateKey, ref: SubjectRef, dimension: string, values: Option<seq<string>>) {
    key.subject == ref && key.dimension == dimension && (values.Some? ==> key.valueKey in values.value)
  }

  ghost predicate KeyRebuilt(t: map<Id, Observation>, aggs: seq<Aggregator>, before: map<StateKey, FeatureState>,
                             after: map<StateKey, FeatureState>, ref: SubjectRef, dimension: string,
                             values: Option<seq<string>>, key: StateKey)
  {
    if Included(key, ref, dimension, values) && Due(t, aggs, key) then key in after && Derived(t, aggs, key, after[key])
    else (key in before <==> key in after) && (key in before ==> before[key] == after[key])
  }

  lemma NoValuesRebuilt(t: map<Id, Observation>, aggs: seq<Aggregator>, states: map<StateKey, FeatureState>,
                        ref: SubjectRef, dimension: string)
    ensures ValuesRebuilt(t, aggs, states, states, ref, dimension, [])
  {
  }

  lemma ValueRebuilt(t: map<Id, Observation>, aggs: seq<Aggregator>, before: map<StateKey, FeatureState>,
                     middle: map<StateKey, FeatureState>, after: map<StateKey, FeatureState>, ref: SubjectRef,
                     dimension: string, keys: seq<string>, i: nat, now: Time)
    requires i < |keys| && (forall v | v in keys :: v in ValueKeys(ObservationsIn(t, ref, dimension)))
    requires ValuesRebuilt(t, aggs, before, middle, ref, dimension, keys[..i])
    requires Rebuilt(middle, after, ref, dimension, keys[i], WithValue(ObservationsIn(t, ref, dimension), keys[i]),
                     Matching(aggs, dimension), now)
    ensures ValuesRebuilt(t, aggs, before, after, ref, dimension, keys[..i + 1])
  {
    hide ObservationsIn, WithValue;
    var done := keys[..i + 1];
    var obs := ObservationsIn(t, ref, dimension);
    var some, fewer := Some(done), Some(keys[..i]);
    forall key ensures KeyRebuilt(t, aggs, before, after, ref, dimension, some, key) {
      assert KeyRebuilt(t, aggs, before, middle, ref, dimension, fewer, key);
      assert RebuiltAt(middle, after, ref, dimension, keys[i], WithValue(obs, keys[i]), Matching(aggs, dimension), now,
                       key);
      assert key.valueKey in done <==> key.valueKey in keys[..i] || key.valueKey == keys[i];
      assert keys[i] in keys;
      HasValue(t, ref, dimension, keys[i], key.aggregator);
    }
  }

  lemma AllValuesRebuilt(t: map<Id, Observation>, aggs: seq<Aggregator>, before: map<StateKey, FeatureState>,
                         after: map<StateKey, FeatureState>, ref: SubjectRef, dimension: string, keys: seq<string>)
    requires ValuesRebuilt(t, aggs, before, after, ref, dimension, keys[..|keys|])
    requires forall v | v in ValueKeys(ObservationsIn(t, ref, dimension)) :: v in keys
    ensures DimensionRebuilt(t, aggs, before, after, ref, dimension)
  {
    hide ObservationsIn, WithValue, Derived;
    assert keys[..|keys|] == keys;
    var none, some := None, Some(keys);
    forall key ensures KeyRebuilt(t, aggs, before, after, ref, dimension, none, key) {
      assert KeyRebuilt(t, aggs, before, after, ref, dimension, some, key);
      if key.subject == ref && key.dimension == dimension && Due(t, aggs, key) {
        HasValue(t, ref, dimension, key.valueKey, key.aggregator);
      }
    }
  }

  lemma RebuiltOnce(before: map<StateKey, FeatureState>, middle: map<StateKey, FeatureState>, ref: SubjectRef,
                    dimension: string, v: string, obs: seq<Observation>, ms: seq<Aggregator>, j: nat, now: Time,
                    s: FeatureState)
    requires j < |ms| && Rebuilt(before, middle, ref, dimension, v, obs, ms[..j], now)
    requires s.subject == ref && s.draft.dimension == dimension && s.draft.valueKey == v && s.updatedAt == now
    requires s.aggregator == ms[j].name && s.version == ms[j].version && ms[j].run(obs, now) == Ok(s.draft)
    ensures Rebuilt(before, middle[s.Key() := s], ref, dimension, v, obs, ms[..j + 1], now)
  {
    assert ms[..j + 1][..j] == ms[..j];
    var after, longer := middle[s.Key() := s], ms[..j + 1];
    forall key ensures RebuiltAt(before, after, ref, dimension, v, obs, longer, now, key) {
      assert RebuiltAt(before, middle, ref, dimension, v, obs, ms[..j], now, key);
    }
  }

  /* ---- adding observations ---- */

  ghost predicate Numbered(t: map<Id, Observation>) { forall id | id in t :: t[id].id == id }

  lemma SameMembersSameOrder(a: seq<Observation>, b: seq<Observation>)
    requires Distinct(a) && Distinct(b) && DistinctIds(a) && forall o :: o in a <==> o in b
    ensures Ordered(a) == Ordered(b)
  {
    DistinctCount(a);
    DistinctCount(b);
    assert (set o | o in a) == (set o | o in b);
    ByTimeTotal();
    forall i, j | 0 <= i < |a| && 0 <= j < |a| && ByTime()(a[i], a[j]) && ByTime()(a[j], a[i]) ensures a[i] == a[j] {
      assert a[i] in a && a[j] in a;
    }
    SortIgnoresOrder(a, b, ByTime());
  }

  /** A listing depends only on which of its observations are stored. */
  lemma ListingDetermined(t: map<Id, Observation>, u: map<Id, Observation>, ref: SubjectRef, dimension: string)
    requires Numbered(t) && Numbered(u)
    requires forall o :: InDimension(o, ref, dimension) ==> (Stores(t, o) <==> Stores(u, o))
    ensures ObservationsIn(t, ref, dimension) == ObservationsIn(u, ref, dimension)
  {
    hide InDimension, Stores;
    var p := (o: Observation) => InDimension(o, ref, dimension);
    RowsAreDistinct(t, (o: Observation) => o.id);
    RowsAreDistinct(u, (o: Observation) => o.id);
    FilterDistinct(Rows(t), p);
    FilterDistinct(Rows(u), p);
    forall o ensures o in Filter(Rows(t), p) <==> o in Filter(Rows(u), p) {
      StoredRows(t, o);
      StoredRows(u, o);
    }
    forall a, b | a in Filter(Rows(t), p) && b in Filter(Rows(t), p) && a.id == b.id ensures a == b {
      StoredOnce(t, a, b);
    }
    SameMembersSameOrder(Filter(Rows(t), p), Filter(Rows(u), p));
  }

  lemma StoredRows(t: map<Id, Observation>, o: Observation)
    ensures o in Rows(t) <==> Stores(t, o)
  {
  }

  lemma StoredOnce(t: map<Id, Observation>, a: Observation, b: Observation)
    requires Numbered(t) && a in Rows(t) && b in Rows(t) && a.id == b.id
    ensures a == b
  {
    assert Stores(t, a) && Stores(t, b);
  }

  lemma AddLeavesOthers(t: map<Id, Observation>, o: Observation, key: StateKey)
    requires Numbered(t) && o.id !in t && !(key.subject == o.subject && key.dimension == o.draft.dimension)
    ensures ObservationsAt(t[o.id := o], key) == ObservationsAt(t, key)
  {
    var u := t[o.id := o];
    forall x | InDimension(x, key.subject, key.dimension) ensures Stores(t, x) <==> Stores(u, x) {
      if Stores(t, x) { assert x.id in u && u[x.id] == x; }
    }
    ListingDetermined(t, u, key.subject, key.dimension);
  }

  lemma AddKeepsNonempty(t: map<Id, Observation>, o: Observation, key: StateKey)
    requires Numbered(t) && o.id !in t && ObservationsAt(t, key) != []
    ensures ObservationsAt(t[o.id := o], key) != []
  {
    hide InDimension, ObservationsIn;
    var u := t[o.id := o];
    var x := ObservationsAt(t, key)[0];
    assert x in ObservationsAt(t, key);
    InMember(t, key.subject, key.dimension, x);
    assert x.id in u && u[x.id] == x;
    InMember(u, key.subject, key.dimension, x);
    assert x in ObservationsAt(u, key);
  }

  /* ---- processing an event ---- */

  /** One draft of one extractor. */
  datatype Emission = Emission(extractor: string, version: string, draft: ObservationDraft)

  function Dimensions(emitted: seq<Emission>): (r: seq<string>)
    ensures forall e | e in emitted :: e.draft.dimension in r
  {
    if emitted == [] then [] else [emitted[0].draft.dimension] + Dimensions(emitted[1..])
  }

  function IdentityOf(eventId: Id, e: Emission): (Id, string, string, string, string) {
    (eventId, e.draft.dimension, e.draft.valueKey, e.extractor, e.version)
  }

  ghost function Identities(t: map<Id, Observation>): set<(Id, string, string, string, string)> {
    set id | id in t :: t[id].Identity()
  }

  ghost function Emitted(eventId: Id, emitted: seq<Emission>): set<(Id, string, string, string, string)> {
    set e | e in emitted :: IdentityOf(eventId, e)
  }

  /** list_for_event, ordered by (created_at, id) */
  function EvidenceForEvent(t: map<Id, Evidence>, ref: SubjectRef, eventId: Id): seq<Evidence> {
    Sort(Filter(Rows(t), (e: Evidence) => e.subject == ref && e.eventId == Some(eventId)),
         (a: Evidence, b: Evidence) => a.createdAt < b.createdAt || (a.createdAt == b.createdAt && a.id <= b.id))
  }

  ghost predicate ValidDrafts(t: map<Id, Observation>) { forall id | id in t :: ObservationValid(t[id].draft) }

  /** Every draft is accounted for, and the identities stored are the old ones and those emitted. */
  ghost predicate Counted(before: map<Id, Observation>, after: map<Id, Observation>, eventId: Id,
                          emitted: seq<Emission>, counts: (nat, nat))
  {
    && counts.0 + counts.1 == |emitted|
    && |after| == |before| + counts.0
    && Identities(after) == Identities(before) + Emitted(eventId, emitted)
    && (counts.0 == 0 ==> after == before)
    && (Emitted(eventId, emitted) <= Identities(before) ==> counts.0 == 0)
  }

  /** Processing again what has been processed creates no observation. */
  lemma ReprocessingCreatesNothing(before: map<Id, Observation>, middle: map<Id, Observation>,
                                   after: map<Id, Observation>, eventId: Id, emitted: seq<Emission>, first: (nat, nat),
                                   second: (nat, nat))
    requires Counted(before, middle, eventId, emitted, first) && Counted(middle, after, eventId, emitted, second)
    ensures second == (0, |emitted|) && after == middle
  {
  }

  lemma NothingCounted(t: map<Id, Observation>, eventId: Id)
    ensures Counted(t, t, eventId, [], (0, 0)) && Extends(t, t)
  {
  }

  /** Where the extraction loop stands after its first i drafts. */
  ghost predicate Saving(before: map<Id, Observation>, t: map<Id, Observation>, states: map<StateKey, FeatureState>,
                         aggs: seq<Aggregator>, ref: SubjectRef, eventId: Id, emitted: seq<Emission>, i: nat,
                         counts: (nat, nat))
  {
    && i <= |emitted| && Numbered(t) && ValidDrafts(t) && Extends(before, t)
    && CachedExcept(t, states, aggs, ref, Dimensions(emitted))
    && Counted(before, t, eventId, emitted[..i], counts)
  }

  lemma ExtendsOnce(before: map<Id, Observation>, t: map<Id, Observation>, o: Observation)
    requires Extends(before, t) && o.id !in t
    ensures Extends(before, t[o.id := o])
  {
  }

  lemma SavingStarts(t: map<Id, Observation>, states: map<StateKey, FeatureState>, aggs: seq<Aggregator>,
                     ref: SubjectRef, eventId: Id, emitted: seq<Emission>)
    requires Numbered(t) && ValidDrafts(t) && CachedExcept(t, states, aggs, ref, Dimensions(emitted))
    ensures Saving(t, t, states, aggs, ref, eventId, emitted, 0, (0, 0))
  {
    hide CachedExcept, ValidDrafts, Numbered, Counted, Extends;
    NothingCounted(t, eventId);
    assert emitted[..0] == [];
  }

  ghost predicate OnlyObservations(a: Tables, b: Tables) { b == a.(observations := b.observations) }

  ghost predicate SavingIn(before: Tables, db: Tables, aggs: seq<Aggregator>, ref: SubjectRef, eventId: Id,
                           emitted: seq<Emission>, i: nat, counts: (nat, nat))
  {
    && OnlyObservations(before, db) && Consistent(db)
    && Saving(before.observations, db.observations, db.states, aggs, ref, eventId, emitted, i, counts)
  }

  lemma SavingConsistent(before: Tables, db: Tables, aggs: seq<Aggregator>, ref: SubjectRef, eventId: Id,
                         emitted: seq<Emission>, i: nat, counts: (nat, nat))
    requires SavingIn(before, db, aggs, ref, eventId, emitted, i, counts)
    ensures Consistent(db)
  {
  }

  lemma SavingNextIn(before: Tables, middle: Tables, after: Tables, aggs: seq<Aggregator>, ref: SubjectRef, eventId: Id,
                     emitted: seq<Emission>, i: nat, counts: (nat, nat), isNew: bool)
    requires i < |emitted| && Saved(middle.observations, after.observations, ref, eventId, emitted[i], isNew)
    requires SavingIn(before, middle, aggs, ref, eventId, emitted, i, counts) && OnlyObservations(middle, after)
             && Consistent(after)
    ensures SavingIn(before, after, aggs, ref, eventId, emitted, i + 1,
                     if isNew then (counts.0 + 1, counts.1) else (counts.0, counts.1 + 1))
  {
    hide Consistent, Saved, Saving;
    SavingNext(before.observations, middle.observations, after.observations, middle.states, aggs, ref, eventId, emitted,
               i, counts, isNew);
  }

  lemma SavingInParts(before: Tables, db: Tables, aggs: seq<Aggregator>, ref: SubjectRef, eventId: Id,
                      emitted: seq<Emission>, i: nat, counts: (nat, nat))
    requires SavingIn(before, db, aggs, ref, eventId, emitted, i, counts)
    ensures OnlyObservations(before, db) && Consistent(db) && i <= |emitted|
    ensures Numbered(db.observations) && ValidDrafts(db.observations) && Extends(before.observations, db.observations)
    ensures CachedExcept(db.observations, db.states, aggs, ref, Dimensions(emitted))
    ensures Counted(before.observations, db.observations, eventId, emitted[..i], counts)
  {
    hide CachedExcept, ValidDrafts, Numbered, Counted, Extends, Consistent;
  }

  lemma SavingStartsIn(db: Tables, aggs: seq<Aggregator>, ref: SubjectRef, eventId: Id, emitted: seq<Emission>)
    requires CacheOk(db, aggs) && Consistent(db)
    ensures SavingIn(db, db, aggs, ref, eventId, emitted, 0, (0, 0)) && LinksOk(db.states, db.stateEvidence)
  {
    hide Cached, LinksOk, CachedExcept, ValidDrafts, Numbered, Saving, Consistent, CacheOk;
    ConsistentNumbered(db);
    CacheParts(db, aggs);
    CacheExcept(db.observations, db.states, aggs, ref, Dimensions(emitted));
    SavingStarts(db.observations, db.states, aggs, ref, eventId, emitted);
  }

  /** The draft is stored under its identity: as a new row, or it was there already. */
  ghost predicate Saved(before: map<Id, Observation>, after: map<Id, Observation>, ref: SubjectRef, eventId: Id,
                        e: Emission, isNew: bool)
  {
    if isNew then exists o: Observation :: Recorded(before, after, ref, eventId, e, o)
    else after == before && IdentityOf(eventId, e) in Identities(before)
  }

  ghost predicate Recorded(before: map<Id, Observation>, after: map<Id, Observation>, ref: SubjectRef, eventId: Id,
                           e: Emission, o: Observation)
  {
    && o.subject == ref && o.draft == e.draft && ObservationValid(o.draft)
    && o.Identity() == IdentityOf(eventId, e) && IdentityOf(eventId, e) !in Identities(before)
    && o.id !in before && after == before[o.id := o]
  }

  lemma SavingNext(before: map<Id, Observation>, middle: map<Id, Observation>, after: map<Id, Observation>,
                   states: map<StateKey, FeatureState>, aggs: seq<Aggregator>, ref: SubjectRef, eventId: Id,
                   emitted: seq<Emission>, i: nat, counts: (nat, nat), isNew: bool)
    requires i < |emitted| && Saved(middle, after, ref, eventId, emitted[i], isNew)
    requires Saving(before, middle, states, aggs, ref, eventId, emitted, i, counts)
    ensures Saving(before, after, states, aggs, ref, eventId, emitted, i + 1,
                   if isNew then (counts.0 + 1, counts.1) else (counts.0, counts.1 + 1))
  {
    hide CachedExcept, ValidDrafts, Numbered, Counted, Extends, Identities;
    CountedNext(before, middle, after, ref, eventId, emitted, i, counts, isNew);
    if isNew {
      var o :| Recorded(middle, after, ref, eventId, emitted[i], o);
      assert emitted[i] in emitted;
      AddKeepsCachedExcept(middle, states, aggs, o, Dimensions(emitted));
      AddKeepsNumbered(middle, o);
      ExtendsOnce(before, middle, o);
    }
  }

  lemma CountedNext(before: map<Id, Observation>, middle: map<Id, Observation>, after: map<Id, Observation>,
                    ref: SubjectRef, eventId: Id, emitted: seq<Emission>, i: nat, counts: (nat, nat), isNew: bool)
    requires i < |emitted| && Counted(before, middle, eventId, emitted[..i], counts)
    requires Saved(middle, after, ref, eventId, emitted[i], isNew)
    ensures Counted(before, after, eventId, emitted[..i + 1],
                    if isNew then (counts.0 + 1, counts.1) else (counts.0, counts.1 + 1))
  {
    var longer := emitted[..i + 1];
    assert longer == emitted[..i] + [emitted[i]];
    assert Emitted(eventId, longer) == Emitted(eventId, emitted[..i]) + {IdentityOf(eventId, emitted[i])};
    if isNew {
      var o :| Recorded(middle, after, ref, eventId, emitted[i], o);
      forall x ensures x in Identities(after) <==> x in Identities(middle) + {o.Identity()} {
        if x in Identities(middle) {
          var id :| id in middle && middle[id].Identity() == x;
          assert id in after && after[id] == middle[id];
        }
        if x == o.Identity() { assert o.id in after && after[o.id] == o; }
      }
    }
  }

  lemma AddKeepsNumbered(t: map<Id, Observation>, o: Observation)
    requires Numbered(t) && ValidDrafts(t) && o.id !in t && ObservationValid(o.draft)
    ensures Numbered(t[o.id := o]) && ValidDrafts(t[o.id := o]) && Extends(t, t[o.id := o])
  {
  }

  /** The cache holds everywhere but in the listed dimensions of one subject, where no state is out of place. */
  ghost predicate CachedExcept(t: map<Id, Observation>, states: map<StateKey, FeatureState>, aggs: seq<Aggregator>,
                               ref: SubjectRef, dimensions: seq<string>)
  {
    forall key :: CachedOrPending(t, states, aggs, ref, dimensions, key)
  }

  ghost predicate CachedOrPending(t: map<Id, Observation>, states: map<StateKey, FeatureState>, aggs: seq<Aggregator>,
                                  ref: SubjectRef, dimensions: seq<string>, key: StateKey)
  {
    if key.subject == ref && key.dimension in dimensions then key in states ==> Due(t, aggs, key)
    else Cached(t, states, aggs, key)
  }

  lemma CacheExcept(t: map<Id, Observation>, states: map<StateKey, FeatureState>, aggs: seq<Aggregator>,
                    ref: SubjectRef, dimensions: seq<string>)
    requires forall key :: Cached(t, states, aggs, key)
    ensures CachedExcept(t, states, aggs, ref, dimensions)
  {
    hide Due, Derived;
    forall key ensures CachedOrPending(t, states, aggs, ref, dimensions, key) { assert Cached(t, states, aggs, key); }
  }

  lemma NothingExcepted(t: map<Id, Observation>, states: map<StateKey, FeatureState>, aggs: seq<Aggregator>,
                        ref: SubjectRef)
    requires CachedExcept(t, states, aggs, ref, [])
    ensures forall key :: Cached(t, states, aggs, key)
  {
    hide Cached;
    var none: seq<string> := [];
    forall key ensures Cached(t, states, aggs, key) { assert CachedOrPending(t, states, aggs, ref, none, key); }
  }

  lemma SameDimensions(t: map<Id, Observation>, states: map<StateKey, FeatureState>, aggs: seq<Aggregator>,
                       ref: SubjectRef, a: seq<string>, b: seq<string>)
    requires CachedExcept(t, states, aggs, ref, a) && forall d :: d in a <==> d in b
    ensures CachedExcept(t, states, aggs, ref, b)
  {
    hide Cached, Due;
    forall key ensures CachedOrPending(t, states, aggs, ref, b, key) {
      assert CachedOrPending(t, states, aggs, ref, a, key);
    }
  }

  lemma AddKeepsCachedExcept(t: map<Id, Observation>, states: map<StateKey, FeatureState>, aggs: seq<Aggregator>,
                             o: Observation, dimensions: seq<string>)
    requires Numbered(t) && o.id !in t && o.draft.dimension in dimensions
    requires CachedExcept(t, states, aggs, o.subject, dimensions)
    ensures CachedExcept(t[o.id := o], states, aggs, o.subject, dimensions)
  {
    hide Numbered, ObservationsAt;
    var u := t[o.id := o];
    forall key ensures CachedOrPending(u, states, aggs, o.subject, dimensions, key) {
      assert CachedOrPending(t, states, aggs, o.subject, dimensions, key);
      if key.subject == o.subject && key.dimension in dimensions {
        if ObservationsAt(t, key) != [] { AddKeepsNonempty(t, o, key); }
      } else {
        AddLeavesOthers(t, o, key);
      }
    }
  }

  lemma RebuildShrinks(t: map<Id, Observation>, aggs: seq<Aggregator>, before: map<StateKey, FeatureState>,
                       after: map<StateKey, FeatureState>, ref: SubjectRef, dimensions: seq<string>, i: nat)
    requires i < |dimensions| && CachedExcept(t, before, aggs, ref, dimensions[i..])
    requires DimensionRebuilt(t, aggs, before, after, ref, dimensions[i])
    ensures CachedExcept(t, after, aggs, ref, dimensions[i + 1..])
  {
    hide Due, Derived;
    var left, fewer, none := dimensions[i..], dimensions[i + 1..], None;
    assert left == [dimensions[i]] + fewer;
    forall key ensures CachedOrPending(t, after, aggs, ref, fewer, key) {
      assert CachedOrPending(t, before, aggs, ref, left, key);
      assert KeyRebuilt(t, aggs, before, after, ref, dimensions[i], none, key);
      if key in after && Derived(t, aggs, key, after[key]) { DerivedIsDue(t, aggs, key, after[key]); }
    }
  }

  lemma DerivedIsDue(t: map<Id, Observation>, aggs: seq<Aggregator>, key: StateKey, s: FeatureState)
    requires Derived(t, aggs, key, s)
    ensures Due(t, aggs, key)
  {
  }
}
