/** Profile snapshots: refreshed only when their content changes, numbered 1, 2, 3, ..., never altered
    (profile_service.py, repositories.py). */
module ProfileService {
  import opened Domain
  import opened Sorting
  import opened Memory
  import opened Records
  import opened Database
  import opened MemoryPlans
  import opened MemoryInvariants
  import opened Aggregation
  import opened Profile
  import opened ProfileResolver
  import opened ProfileProperties
  import Export
  import FeatureService
  import MemoryService

  /* ---- versions ---- */

  /** Each subject's versions are exactly 1..n. */
  ghost predicate Versioned(t: map<SnapshotKey, Snapshot>) {
    forall k | k in t :: k.version >= 1 && (k.version > 1 ==> SnapshotKey(k.subject, k.version - 1) in t)
  }

  predicate IsLatest(t: map<SnapshotKey, Snapshot>, ref: SubjectRef, k: SnapshotKey) {
    k in t && k.subject == ref && forall j | j in t && j.subject == ref :: j.version <= k.version
  }

  lemma {:induction false} LatestExists(t: map<SnapshotKey, Snapshot>, ref: SubjectRef, keys: set<SnapshotKey>)
    returns (k: SnapshotKey)
    requires keys != {} && forall j | j in keys :: j in t && j.subject == ref
    ensures k in keys && forall j | j in keys :: j.version <= k.version
    decreases |keys|
  {
    k :| k in keys;
    var first, rest := k, keys - {k};
    if rest != {} {
      var other := LatestExists(t, ref, rest);
      if other.version > k.version { k := other; }
    }
    forall j | j in keys ensures j.version <= k.version { assert j == first || j in rest; }
  }

  lemma SomeLatest(t: map<SnapshotKey, Snapshot>, ref: SubjectRef, any: SnapshotKey)
    requires any in t && any.subject == ref
    ensures exists k :: IsLatest(t, ref, k)
  {
    var keys := set k | k in t && k.subject == ref;
    assert any in keys;
    var k := LatestExists(t, ref, keys);
    assert IsLatest(t, ref, k);
  }

  /** profiles.get_latest */
  function Latest(t: map<SnapshotKey, Snapshot>, ref: SubjectRef): (r: Option<Snapshot>)
    ensures r.Some? ==> exists k :: IsLatest(t, ref, k) && t[k] == r.value
    ensures r.None? ==> forall k | k in t :: k.subject != ref
  {
    if forall k | k in t :: k.subject != ref then None else
      var any :| any in t && any.subject == ref;
      SomeLatest(t, ref, any);
      var k :| IsLatest(t, ref, k);
      Some(t[k])
  }

  function NextVersion(latest: Option<Snapshot>): nat { if latest.None? then 1 else latest.value.version + 1 }

  /* ---- reading ---- */

  const ACTIVE := MemoryFilter(Some({Active}), None, None, None)

  function ActiveMemories(db: Tables, ref: SubjectRef): seq<MemoryRecord> {
    Sort(Filter(Rows(db.memories), (m: MemoryRecord) => Matches(m, ref, ACTIVE)), NewestFirst())
  }

  /** ORDER BY started_at DESC, id DESC */
  function RunsNewestFirst(t: map<Id, Run>, ref: SubjectRef): seq<Run> {
    Sort(Filter(Rows(t), (r: Run) => r.subject == ref),
         (a: Run, b: Run) => a.startedAt > b.startedAt || (a.startedAt == b.startedAt && a.id >= b.id))
  }

  /** All states of the subject once, in whatever order the database returns them: its ORDER BY is not total. */
  ghost predicate Lists(states: seq<FeatureState>, t: map<StateKey, FeatureState>, ref: SubjectRef) {
    Distinct(states) && forall s :: s in states <==> (s.Key() in t && t[s.Key()] == s && s.subject == ref)
  }

  function InputOf(db: Tables, ref: SubjectRef, options: Options, at: Time, states: seq<FeatureState>): Input {
    Input(ref, options, at, ActiveMemories(db, ref), db.bindings, states,
          FeatureService.EventsNewestFirst(db.events, ref), RunsNewestFirst(db.runs, ref))
  }

  function CheckedSnapshot(s: Snapshot): Result<Snapshot> {
    if SnapshotValid(s) && CoverageValid(s.coverage) then Ok(s) else Err(Validation)
  }

  function NewSnapshot(d: Tables, ref: SubjectRef, options: Options, at: Time, states: seq<FeatureState>,
                       algorithm: string, id: Id, now: Time): Result<Snapshot>
  {
    var content :- Built(InputOf(d, ref, options, at, states), algorithm);
    CheckedSnapshot(Stamped(content, id, NextVersion(Latest(d.snapshots, ref)), now))
  }

  lemma NewSnapshotParts(d: Tables, ref: SubjectRef, options: Options, at: Time, states: seq<FeatureState>,
                         algorithm: string, id: Id, now: Time)
    requires NewSnapshot(d, ref, options, at, states, algorithm, id, now).Ok?
    ensures var r := NewSnapshot(d, ref, options, at, states, algorithm, id, now).value;
            && r.subject == ref && r.version == NextVersion(Latest(d.snapshots, ref)) && r.version >= 1
            && Built(InputOf(d, ref, options, at, states), algorithm).Ok?
            && r == Stamped(Built(InputOf(d, ref, options, at, states), algorithm).value, id, r.version, now)
            && CheckedSnapshot(r) == Ok(r)
  {
    hide Built, Latest, ActiveMemories, NextVersion;
    hide FeatureService.EventsNewestFirst, RunsNewestFirst;
  }

  /** The digests agree and no new snapshot is forced. */
  predicate Unchanged(latest: Option<Snapshot>, s: Snapshot, force: bool) {
    latest.Some? && !force && ContentOf(s) == ContentOf(latest.value)
  }

  /** What a refresh leaves and returns. */
  function Refreshed(db: Tables, ref: SubjectRef, options: Options, at: Time, force: bool, states: seq<FeatureState>,
                     algorithm: string, id: Id, now: Time): Result<(Tables, Snapshot)>
  {
    var d :- EnsuredSubject(db, ref);
    var snapshot :- NewSnapshot(d, ref, options, at, states, algorithm, id, now);
    var latest := Latest(d.snapshots, ref);
    if Unchanged(latest, snapshot, force) then Ok((db, latest.value)) else
      var e :- Apply(d, AddSnapshot(snapshot));
      Ok((e, snapshot))
  }

  class Service {
    const store: MemoryService.Store
    const algorithm: string

    constructor (store: MemoryService.Store, algorithm: string)
      ensures this.store == store && this.algorithm == algorithm
    {
      this.store := store;
      this.algorithm := algorithm;
    }

    method RefreshProfile(ref: SubjectRef, options: Options, at: Time, force: bool, states: seq<FeatureState>, id: Id,
                          now: Time)
      returns (r: Result<Snapshot>)
      modifies store
      ensures match Refreshed(old(store.tables), ref, options, at, force, states, algorithm, id, now)
              case Ok(done) => r == Ok(done.1) && store.tables == done.0
              case Err(e) => r == Err(e) && store.tables == old(store.tables)
    {
      hide Built, Latest, Refusal, Effect, ContentOf, CheckedSnapshot, ActiveMemories;
      var work :- EnsuredSubject(store.tables, ref);
      var memories := Export.ListPaged(ActiveMemories(work, ref));
      var events := Export.ListPaged(FeatureService.EventsNewestFirst(work.events, ref));
      var runs := Export.ListPaged(RunsNewestFirst(work.runs, ref));
      var latest := Latest(work.snapshots, ref);
      var content :- BuildSnapshot(Input(ref, options, at, memories, work.bindings, states, events, runs), algorithm);
      var snapshot :- CheckedSnapshot(Stamped(content, id, NextVersion(latest), now));
      if Unchanged(latest, snapshot, force) { return Ok(latest.value); }
      work :- Apply(work, AddSnapshot(snapshot));
      store.tables := work;
      r := Ok(snapshot);
    }

    /** The subject is made sure of and committed before the versions are looked at. */
    method CompareProfiles(ref: SubjectRef, left: int, right: int) returns (r: Result<seq<PreferenceChange>>)
      requires SnapshotsKeyed(store.tables.snapshots)
      modifies store
      ensures match EnsuredSubject(old(store.tables), ref)
              case Err(e) => r == Err(e) && store.tables == old(store.tables)
              case Ok(d) =>
                var t, a, b := old(store.tables).snapshots, SnapshotKey(ref, left), SnapshotKey(ref, right);
                && store.tables == d
                && if a in t && b in t then
                     && (r.Ok? <==> left <= right)
                     && (r.Ok? ==> r.value == Differences(t[a].preferences, t[b].preferences))
                   else r == Err(InvalidArgument)
    {
      hide Differences;
      store.tables :- EnsuredSubject(store.tables, ref);
      var t := store.tables.snapshots;
      if SnapshotKey(ref, left) !in t || SnapshotKey(ref, right) !in t { return Err(InvalidArgument); }
      var a, b := t[SnapshotKey(ref, left)], t[SnapshotKey(ref, right)];
      if left == right { NoOwnDifference(a.preferences); }
      r := DiffSnapshots(a, b);
    }
  }

  lemma NoOwnDifference(ps: seq<Resolved>)
    ensures Differences(ps, ps) == []
  {
    NoSelfDifference(AllKeys(ps, ps), ByCoordinate(ps));
  }

  /* ---- what a refresh keeps ---- */

  lemma LatestVersion(t: map<SnapshotKey, Snapshot>, ref: SubjectRef)
    requires SnapshotsKeyed(t) && Versioned(t) && Latest(t, ref).Some?
    ensures var s := Latest(t, ref).value;
            s.version >= 1 && s.subject == ref && SnapshotKey(ref, s.version) in t
              && t[SnapshotKey(ref, s.version)] == s
            && forall k | k in t && k.subject == ref :: k.version <= s.version
  {
    var k :| IsLatest(t, ref, k) && t[k] == Latest(t, ref).value;
    assert k == SnapshotKey(ref, t[k].version);
  }

  lemma AddedParts(d: Tables, s: Snapshot)
    requires Apply(d, AddSnapshot(s)).Ok?
    ensures Apply(d, AddSnapshot(s)).value == d.(snapshots := d.snapshots[SnapshotKey(s.subject, s.version) := s])
  {
  }

  /** A refresh keeps every old snapshot as it was and the versions dense; it adds at most the next
      version, and what it returns is then the latest. */
  lemma VersionsStayDense(db: Tables, ref: SubjectRef, options: Options, at: Time, force: bool,
                          states: seq<FeatureState>, algorithm: string, id: Id, now: Time)
    requires SnapshotsKeyed(db.snapshots) && Versioned(db.snapshots)
    requires Refreshed(db, ref, options, at, force, states, algorithm, id, now).Ok?
    ensures var (after, s) := Refreshed(db, ref, options, at, force, states, algorithm, id, now).value;
            && SnapshotsKeyed(after.snapshots) && Versioned(after.snapshots) && Extends(db.snapshots, after.snapshots)
            && Latest(after.snapshots, ref) == Some(s)
            && |after.snapshots| <= |db.snapshots| + 1
  {
    hide NewSnapshot, SnapshotValid, Latest, Apply, EnsuredSubject, ContentOf, SnapshotsKeyed, Versioned;
    var d := EnsuredSubject(db, ref).value;
    EnsuredParts(db, ref);
    var snapshot := NewSnapshot(d, ref, options, at, states, algorithm, id, now).value;
    NewSnapshotParts(d, ref, options, at, states, algorithm, id, now);
    if !Unchanged(Latest(d.snapshots, ref), snapshot, force) {
      AddedParts(d, snapshot);
      NextKeepsVersions(d.snapshots, ref, snapshot, Apply(d, AddSnapshot(snapshot)).value.snapshots);
    }
  }

  lemma NextKeepsVersions(t: map<SnapshotKey, Snapshot>, ref: SubjectRef, s: Snapshot,
                          after: map<SnapshotKey, Snapshot>)
    requires SnapshotsKeyed(t) && Versioned(t) && s.subject == ref && s.version == NextVersion(Latest(t, ref))
    requires after == t[SnapshotKey(ref, s.version) := s]
    ensures SnapshotsKeyed(after) && Versioned(after) && Extends(t, after) && Latest(after, ref) == Some(s)
  {
    hide Latest, IsLatest;
    if Latest(t, ref).Some? { LatestVersion(t, ref); }
    NextIsNew(t, ref, s, after);
    NextIsDense(t, ref, s, after);
    NextIsLatest(t, ref, s, after);
  }

  /** No version of the subject is as high. */
  ghost predicate Above(t: map<SnapshotKey, Snapshot>, ref: SubjectRef, version: nat) {
    forall k | k in t && k.subject == ref :: k.version < version
  }

  lemma NextIsNew(t: map<SnapshotKey, Snapshot>, ref: SubjectRef, s: Snapshot, after: map<SnapshotKey, Snapshot>)
    requires SnapshotsKeyed(t) && Versioned(t) && s.subject == ref && s.version == NextVersion(Latest(t, ref))
    requires after == t[SnapshotKey(ref, s.version) := s]
    ensures Above(t, ref, s.version) && SnapshotsKeyed(after) && Extends(t, after)
  {
    hide Latest, Versioned;
    if Latest(t, ref).Some? { LatestVersion(t, ref); }
  }

  lemma NextIsDense(t: map<SnapshotKey, Snapshot>, ref: SubjectRef, s: Snapshot, after: map<SnapshotKey, Snapshot>)
    requires SnapshotsKeyed(t) && Versioned(t) && s.version == NextVersion(Latest(t, ref))
    requires after == t[SnapshotKey(ref, s.version) := s]
    ensures Versioned(after)
  {
    hide Latest, SnapshotsKeyed;
    if Latest(t, ref).Some? { LatestVersion(t, ref); }
  }

  lemma NextIsLatest(t: map<SnapshotKey, Snapshot>, ref: SubjectRef, s: Snapshot, after: map<SnapshotKey, Snapshot>)
    requires Above(t, ref, s.version) && after == t[SnapshotKey(ref, s.version) := s]
    ensures Latest(after, ref) == Some(s)
  {
    hide Latest;
    var next := SnapshotKey(ref, s.version);
    assert IsLatest(after, ref, next);
    if Latest(after, ref).Some? {
      var k :| IsLatest(after, ref, k) && after[k] == Latest(after, ref).value;
      assert k == next;
    }
  }

  /* ---- refreshing again ---- */

  lemma ListingsPermute(a: seq<FeatureState>, b: seq<FeatureState>, t: map<StateKey, FeatureState>, ref: SubjectRef)
    requires Lists(a, t, ref) && Lists(b, t, ref)
    ensures multiset(a) == multiset(b)
  {
    assert forall s :: s in a <==> s in b;
    DistinctCount(a);
    DistinctCount(b);
    assert (set s | s in a) == (set s | s in b);
  }

  /** The rows of a reachable store are well formed. */
  lemma ReadsAreWellFormed(db: Tables, ref: SubjectRef, options: Options, at: Time, states: seq<FeatureState>)
    requires Lists(states, db.states, ref)
    requires StoreOk(db, {})
    ensures WellFormed(InputOf(db, ref, options, at, states))
  {
    hide References, UniqueKeys, LogsOk, CountsOk, EvidenceHeld, StateValid, RecordValid, DerivedKeyed;
    var p := (m: MemoryRecord) => Matches(m, ref, ACTIVE);
    RowsAreDistinct(db.memories, (m: MemoryRecord) => m.id);
    FilterDistinct(Rows(db.memories), p);
    SortPermutes(Filter(Rows(db.memories), p), NewestFirst());
    PermutedDistinct(Filter(Rows(db.memories), p), ActiveMemories(db, ref));
    forall m | m in ActiveMemories(db, ref)
      ensures RecordValid(m) && m.subject == ref && m.id in db.memories && db.memories[m.id] == m
    {
      assert Stores(db.memories, m);
    }
  }

  /** The same content is built from the tables a refresh leaves, in whatever order they list the states. */
  lemma SameContent(db: Tables, after: Tables, ref: SubjectRef, options: Options, at: Time,
                    states: seq<FeatureState>, again: seq<FeatureState>, algorithm: string)
    requires after == db.(subjects := after.subjects, snapshots := after.snapshots)
    requires Lists(states, db.states, ref) && Lists(again, db.states, ref)
    requires StoreOk(db, {})
    ensures Built(InputOf(db, ref, options, at, states), algorithm) ==
              Built(InputOf(after, ref, options, at, again), algorithm)
  {
    hide WellFormed, Built, StoreOk;
    ListingsPermute(states, again, db.states, ref);
    ReadsAreWellFormed(db, ref, options, at, states);
    hide Lists;
    OrderDoesNotMatter(InputOf(db, ref, options, at, states), InputOf(after, ref, options, at, again), algorithm);
  }

  /** Whatever id, version and time a content is stamped with, the digest is the same. */
  lemma DigestIgnoresStamp(content: Content, id: Id, version: nat, now: Time, id2: Id, version2: nat, later: Time)
    requires version >= 1 && version2 >= 1
    ensures ContentOf(Stamped(content, id, version, now)) == ContentOf(Stamped(content, id2, version2, later))
    ensures CheckedSnapshot(Stamped(content, id, version, now)).Ok? <==>
              CheckedSnapshot(Stamped(content, id2, version2, later)).Ok?
  {
  }

  lemma SnapshotOwnersExist(db: Tables, ref: SubjectRef)
    requires StoreOk(db, {})
    ensures SnapshotsKeyed(db.snapshots) && (Latest(db.snapshots, ref).Some? ==> ref in db.subjects)
  {
    hide FactReferences, MemoryReferences, FeatureReferences, UniqueKeys, MemoryOk, EvidenceHeld, FactsKeyed;
  }

  /** Refreshing again with the same options and time returns the same snapshot and changes nothing,
      whatever the id, the clock and the order of the rows. */
  lemma RefreshIsIdempotent(db: Tables, ref: SubjectRef, options: Options, at: Time, force: bool,
                            states: seq<FeatureState>, again: seq<FeatureState>, algorithm: string, id: Id, now: Time,
                            id2: Id, later: Time)
    requires Refreshed(db, ref, options, at, force, states, algorithm, id, now).Ok?
    requires Lists(states, db.states, ref) && Lists(again, db.states, ref) && Versioned(db.snapshots)
    requires StoreOk(db, {})
    ensures var (after, s) := Refreshed(db, ref, options, at, force, states, algorithm, id, now).value;
            Refreshed(after, ref, options, at, false, again, algorithm, id2, later) == Ok((after, s))
  {
    hide *;
    RefreshFrame(db, ref, options, at, force, states, algorithm, id, now);
    var d := EnsuredSubject(db, ref).value;
    var (after, s) := Refreshed(db, ref, options, at, force, states, algorithm, id, now).value;
    var snapshot := NewSnapshot(d, ref, options, at, states, algorithm, id, now).value;
    NewSnapshotParts(d, ref, options, at, states, algorithm, id, now);
    SameContent(db, d, ref, options, at, states, states, algorithm);
    SameContent(db, after, ref, options, at, states, again, algorithm);
    SecondRefresh(after, ref, options, at, again, algorithm, s, snapshot, id, snapshot.version, now, id2, later);
  }

  /** A refresh changes at most the subject's row and the snapshots, and returns the latest, whose content is the one
      built. */
  lemma RefreshFrame(db: Tables, ref: SubjectRef, options: Options, at: Time, force: bool, states: seq<FeatureState>,
                     algorithm: string, id: Id, now: Time)
    requires Refreshed(db, ref, options, at, force, states, algorithm, id, now).Ok? && Versioned(db.snapshots)
    requires StoreOk(db, {})
    ensures EnsuredSubject(db, ref).Ok?
    ensures var d := EnsuredSubject(db, ref).value;
            && d == db.(subjects := d.subjects, snapshots := d.snapshots)
            && NewSnapshot(d, ref, options, at, states, algorithm, id, now).Ok?
    ensures var (after, s) := Refreshed(db, ref, options, at, force, states, algorithm, id, now).value;
            && after == db.(subjects := after.subjects, snapshots := after.snapshots)
            && Live(after, ref) && Latest(after.snapshots, ref) == Some(s)
            && ContentOf(NewSnapshot(EnsuredSubject(db, ref).value, ref, options, at, states, algorithm, id,
                                     now).value) == ContentOf(s)
  {
    hide *;
    SnapshotOwnersExist(db, ref);
    RefreshCases(db, ref, options, at, force, states, algorithm, id, now);
    EnsuredParts(db, ref);
    var d := EnsuredSubject(db, ref).value;
    VersionsStayDense(db, ref, options, at, force, states, algorithm, id, now);
    var snapshot := NewSnapshot(d, ref, options, at, states, algorithm, id, now).value;
    if Unchanged(Latest(d.snapshots, ref), snapshot, force) {
      UnchangedParts(Latest(d.snapshots, ref), snapshot, force);
    } else {
      AddedParts(d, snapshot);
      LiveElsewhere(d, Apply(d, AddSnapshot(snapshot)).value, ref);
    }
  }

  lemma RefreshCases(db: Tables, ref: SubjectRef, options: Options, at: Time, force: bool, states: seq<FeatureState>,
                     algorithm: string, id: Id, now: Time)
    requires Refreshed(db, ref, options, at, force, states, algorithm, id, now).Ok?
    ensures EnsuredSubject(db, ref).Ok?
            && NewSnapshot(EnsuredSubject(db, ref).value, ref, options, at, states, algorithm, id, now).Ok?
    ensures var d := EnsuredSubject(db, ref).value;
            var snapshot := NewSnapshot(d, ref, options, at, states, algorithm, id, now).value;
            var latest := Latest(d.snapshots, ref);
            if Unchanged(latest, snapshot, force) then
              latest.Some?
                && Refreshed(db, ref, options, at, force, states, algorithm, id, now).value == (db, latest.value)
            else
              && Apply(d, AddSnapshot(snapshot)).Ok?
              && Refreshed(db, ref, options, at, force, states, algorithm, id, now).value ==
                   (Apply(d, AddSnapshot(snapshot)).value, snapshot)
  {
    hide EnsuredSubject, NewSnapshot, Latest, ContentOf, Apply;
  }

  lemma UnchangedParts(latest: Option<Snapshot>, s: Snapshot, force: bool)
    requires Unchanged(latest, s, force)
    ensures ContentOf(s) == ContentOf(latest.value)
  {
  }

  lemma LiveElsewhere(a: Tables, b: Tables, ref: SubjectRef)
    requires Live(a, ref) && b.subjects == a.subjects
    ensures Live(b, ref)
  {
  }

  lemma SecondRefresh(db: Tables, ref: SubjectRef, options: Options, at: Time, states: seq<FeatureState>,
                      algorithm: string, s: Snapshot, first: Snapshot, id: Id, version: nat, now: Time, id2: Id,
                      later: Time)
    requires Live(db, ref) && Latest(db.snapshots, ref) == Some(s) && version >= 1
    requires Built(InputOf(db, ref, options, at, states), algorithm).Ok?
    requires first == Stamped(Built(InputOf(db, ref, options, at, states), algorithm).value, id, version, now)
    requires CheckedSnapshot(first).Ok? && ContentOf(first) == ContentOf(s)
    ensures Refreshed(db, ref, options, at, false, states, algorithm, id2, later) == Ok((db, s))
  {
    hide Built, ContentOf, InputOf, Latest, CoverageValid, SnapshotValid, Stamped, Refusal, Effect;
    DigestIgnoresStamp(Built(InputOf(db, ref, options, at, states), algorithm).value, id, version, now, id2,
                       NextVersion(Some(s)), later);
  }
}
