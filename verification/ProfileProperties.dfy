/** What the resolver promises: its output always passes the validators, behaviour never overrides a
    memory, and the order in which rows are read does not matter. */
module ProfileProperties {
  import opened Domain
  import opened Sorting
  import opened Memory
  import opened Records
  import opened Database
  import opened Aggregation
  import opened Profile
  import opened ProfileResolver

  /** Rows as the tables hold them: valid, of this subject, and unique in id or key. */
  ghost predicate WellFormed(i: Input) {
    && Distinct(i.memories)
    && (forall m | m in i.memories :: RecordValid(m) && m.subject == i.subject)
    && (forall a, b | a in i.memories && b in i.memories && a.id == b.id :: a == b)
    && (forall s | s in i.states :: StateValid(s.draft) && s.subject == i.subject)
    && (forall a, b | a in i.states && b in i.states && a.Key() == b.Key() :: a == b)
  }

  /* ---- the validators are never tripped ---- */

  lemma DistinctNoRepeats<T>(xs: seq<T>)
    requires Distinct(xs)
    ensures NoRepeats(xs)
  {
    DistinctCount(xs);
  }

  lemma SortedIdsPass(s: set<Id>)
    ensures NoRepeats(SortedIds(s)) && (s != {} ==> SortedIds(s) != [])
  {
    hide SortedIds;
    assert IdSet(SortedIds(s)) == s;
  }

  lemma SortedSelectionPasses(ids: seq<Id>)
    requires Distinct(ids)
    ensures NoRepeats(Sort(ids, IdOrder())) && forall x :: x in Sort(ids, IdOrder()) <==> x in ids
  {
    SortPermutes(ids, IdOrder());
    PermutedDistinct(ids, Sort(ids, IdOrder()));
    DistinctNoRepeats(Sort(ids, IdOrder()));
  }

  /** What is needed of a selected memory. */
  ghost predicate Selected(s: Selection, at: Time) {
    && RecordValid(s.memory) && IsEffective(s.memory, at)
    && s.memory.kind in {Kind.Preference, Kind.Constraint} && s.memory.target.Some? && s.memory.authority != Inferred
    && s.memory.id in s.memoryIds && NoRepeats(s.memoryIds)
    && s.evidence != [] && NoRepeats(s.evidence)
  }

  lemma CandidatesAreCounted(i: Input, c: Coordinate, m: MemoryRecord)
    requires m in CandidatesAt(i.memories, i, c)
    ensures m in i.memories && CountsAt(m, i, c)
  {
  }

  lemma SelectionIsSound(i: Input, c: Coordinate)
    requires SelectedAt(i, c).Some? && WellFormed(i)
    ensures Selected(SelectedAt(i, c).value, i.at)
    ensures SelectedAt(i, c).value.memory.subject == i.subject && PlaceOf(SelectedAt(i, c).value.memory) == c
  {
    hide IsEffective, RecordValid, InScope, CandidatesAt, MemoryRank;
    var ms := CandidatesAt(i.memories, i, c);
    var s := SelectedAt(i, c).value;
    CandidatesAreCounted(i, c, s.memory);
    CandidateIdsDistinct(i, c);
    SortedSelectionPasses(IdsOf(ms));
    var k :| 0 <= k < |ms| && ms[k] == s.memory;
    assert IdsOf(ms)[k] == s.memory.id;
    var e :| e in Bound(i.bindings, s.memory.id);
    assert Binding(s.memory.id, e) in i.bindings;
    assert e in BoundToAny(i.bindings, ms);
    SortedIdsPass(BoundToAny(i.bindings, ms));
  }

  lemma CandidateIdsDistinct(i: Input, c: Coordinate)
    requires WellFormed(i)
    ensures Distinct(IdsOf(CandidatesAt(i.memories, i, c)))
  {
    hide IsEffective, RecordValid, InScope;
    FilterDistinct(i.memories, (m: MemoryRecord) => CountsAt(m, i, c));
    var ms := CandidatesAt(i.memories, i, c);
    forall j, k | 0 <= j < k < |ms| ensures ms[j].id != ms[k].id {
      assert ms[j] in ms && ms[k] in ms;
    }
  }

  /** The preference resolve_preference_pair makes of a sound selection. */
  function PairOf(s: Selection, f: FeatureState, memoryIds: seq<Id>): Resolved {
    var resolution := ResolutionOf(s.memory.polarity, PolarityFor(f.draft.longTerm));
    var refs := SortedIds(IdSet(s.evidence) + IdSet(f.draft.evidenceIds));
    var conflict := Conflict(PlaceOfState(f), memoryIds, FeatureKeyOf(f), s.memory.polarity,
                             PolarityFor(f.draft.longTerm), f.draft.longTerm, refs);
    Records.Preference.Preference(
      PlaceOfState(f), memoryIds, Some(FeatureKeyOf(f)), s.memory.polarity, ExplicitScore(s.memory.polarity),
      s.memory.confidence,
      resolution, if resolution == Aligned then [] else [conflict], refs)
  }

  lemma PairIsValid(s: Selection, f: FeatureState, memoryIds: seq<Id>)
    requires RecordValid(s.memory) && StateValid(f.draft) && s.evidence != []
    requires memoryIds != [] && NoRepeats(memoryIds)
    ensures PreferenceValid(PairOf(s, f, memoryIds)) && forall c | c in PairOf(s, f, memoryIds).conflicts ::
              ConflictValid(c)
  {
    hide NoRepeats, SortedIds, IdSet;
    var refs := IdSet(s.evidence) + IdSet(f.draft.evidenceIds);
    assert s.evidence[0] in refs;
    SortedIdsPass(refs);
  }

  lemma PairResolves(s: Selection, f: FeatureState, at: Time)
    requires Selected(s, at) && StateValid(f.draft) && s.memory.subject == f.subject
             && PlaceOf(s.memory) == PlaceOfState(f)
    ensures ResolvePreferencePair(s.memory, f, s.evidence, at) == Ok(PairOf(s, f, [s.memory.id]))
  {
    hide IsEffective, NoRepeats, PreferenceValid, ConflictValid, SortedIds, IdSet, RecordValid, StateValid;
    DistinctNoRepeats([s.memory.id]);
    PairIsValid(s, f, [s.memory.id]);
    var p := PairOf(s, f, [s.memory.id]);
    assert p.resolution != Aligned ==> p.conflicts[0] in p.conflicts;
  }

  /** The base preference of a pair and its final copy both pass. */
  lemma PairPasses(s: Selection, f: FeatureState, at: Time)
    requires Selected(s, at) && StateValid(f.draft) && s.memory.subject == f.subject
             && PlaceOf(s.memory) == PlaceOfState(f)
    ensures ResolvePair(s, f, at).Ok? && PreferenceValid(ResolvePair(s, f, at).value)
    ensures FollowsMemory(ResolvePair(s, f, at).value, s) && ResolvePair(s, f, at).value.at == PlaceOfState(f)
  {
    hide IsEffective, NoRepeats, PreferenceValid, SortedIds, IdSet, RecordValid, StateValid, ResolvePreferencePair;
    PairResolves(s, f, at);
    PairIsValid(s, f, s.memoryIds);
    assert Widened(PairOf(s, f, [s.memory.id]).conflicts, s.memoryIds, PairOf(s, f, s.memoryIds).evidenceRefs) ==
             PairOf(s, f, s.memoryIds).conflicts;
    assert ResolvePair(s, f, at) == Ok(PairOf(s, f, s.memoryIds));
  }

  ghost predicate FollowsMemory(p: Resolved, s: Selection) {
    && p.polarity == s.memory.polarity && p.score == ExplicitScore(s.memory.polarity)
       && p.confidence == s.memory.confidence
    && p.memoryIds == s.memoryIds
  }

  ghost predicate FollowsBehavior(p: Resolved, f: FeatureState) {
    && p.polarity == PolarityFor(f.draft.longTerm) && p.score == f.draft.longTerm && p.confidence == f.draft.confidence
    && p.featureKey == Some(FeatureKeyOf(f)) && p.memoryIds == []
  }

  lemma MemoryOnlyPasses(s: Selection, at: Time)
    requires Selected(s, at)
    ensures ResolveMemoryOnly(s).Ok? && PreferenceValid(ResolveMemoryOnly(s).value)
    ensures FollowsMemory(ResolveMemoryOnly(s).value, s) && ResolveMemoryOnly(s).value.at == PlaceOf(s.memory)
  {
    hide IsEffective, NoRepeats;
  }

  lemma BehaviorOnlyPasses(f: FeatureState)
    requires StateValid(f.draft)
    ensures ResolveBehaviorOnly(f).Ok? && PreferenceValid(ResolveBehaviorOnly(f).value)
    ensures ResolveBehaviorOnly(f).value.at == PlaceOfState(f) && FollowsBehavior(ResolveBehaviorOnly(f).value, f)
  {
    var ids := f.draft.evidenceIds;
    SortedSelectionPasses(ids);
    SortPermutes(ids, IdOrder());
    DistinctNoRepeats<Id>([]);
  }

  /** Every coordinate resolves to a valid preference; where there is a memory it decides, elsewhere behaviour does. */
  lemma EveryPlaceResolves(i: Input, c: Coordinate)
    requires Covered(i, c) && WellFormed(i)
    ensures PreferenceAt(i, c).Ok? && PreferenceValid(PreferenceAt(i, c).value) && PreferenceAt(i, c).value.at == c
    ensures SelectedAt(i, c).Some? ==> FollowsMemory(PreferenceAt(i, c).value, SelectedAt(i, c).value)
    ensures SelectedAt(i, c).None? ==>
              StateAt(i, c).Some? && FollowsBehavior(PreferenceAt(i, c).value, StateAt(i, c).value)
  {
    hide Covered, SelectedAt, StateAt, StatesAt, PreferenceValid, ResolvePair, ResolveMemoryOnly, ResolveBehaviorOnly,
         Selected;
    CoveredHasSource(i, c);
    var s, f := SelectedAt(i, c), StateAt(i, c);
    if s.Some? { SelectionIsSound(i, c); }
    if f.Some? { StatesAreGiven(i, c, f.value); }
    if s.Some? && f.Some? {
      PairPasses(s.value, f.value, i.at);
    } else if s.Some? {
      MemoryOnlyPasses(s.value, i.at);
    } else {
      BehaviorOnlyPasses(f.value);
    }
  }

  lemma StatesAreGiven(i: Input, c: Coordinate, f: FeatureState)
    requires f in StatesAt(i.states, c)
    ensures f in i.states && PlaceOfState(f) == c
  {
  }

  /** The snapshot a content becomes. */
  function Stamped(content: Content, id: Id, version: nat, now: Time): Snapshot {
    Snapshot(id, content.subject, version, content.status, now, content.algorithm, content.watermark, content.coverage,
             content.preferences, content.warnings)
  }

  ghost predicate AllPass(s: Snapshot) {
    SnapshotValid(s) && CoverageValid(s.coverage) && forall p | p in s.preferences :: PreferenceValid(p)
  }

  /** From well-formed rows a snapshot can always be built, and it passes every validator. */
  lemma BuildingNeverFails(i: Input, algorithm: string, id: Id, version: nat, now: Time)
    requires version >= 1 && WellFormed(i)
    ensures Built(i, algorithm).Ok? && AllPass(Stamped(Built(i, algorithm).value, id, version, now))
    ensures Coordinates(Built(i, algorithm).value.preferences) == SortedPlaces(i)
  {
    hide Covered, PreferenceAt, PreferenceValid, WellFormed, SortedPlaces, PreferencesOver, Warnings, Watermark, Total,
         MissingIds;
    var places := SortedPlaces(i);
    forall c | c in places ensures PreferenceAt(i, c).Ok? { EveryPlaceResolves(i, c); }
    PreferencesEach(i, places);
    var ps := PreferencesOver(i, places).value;
    forall k | 0 <= k < |ps| ensures PreferenceValid(ps[k]) && ps[k].at == places[k] {
      assert places[k] in places;
      EveryPlaceResolves(i, places[k]);
    }
    assert Coordinates(ps) == places;
    PlacesOnce(i);
    DistinctNoRepeats(places);
  }

  lemma PlacesOnce(i: Input)
    ensures Distinct(SortedPlaces(i))
  {
    hide PlacesOf;
    SortPermutes(Unique(PlacesOf(i)), CoordinateOrder());
    PermutedDistinct(Unique(PlacesOf(i)), SortedPlaces(i));
  }

  lemma BuiltHolds(i: Input, algorithm: string, c: Coordinate)
    requires Covered(i, c) && WellFormed(i)
    ensures Built(i, algorithm).Ok? && c in ByCoordinate(Built(i, algorithm).value.preferences)
    ensures PreferenceAt(i, c) == Ok(ByCoordinate(Built(i, algorithm).value.preferences)[c])
  {
    hide Covered, PreferenceAt, WellFormed, AllPass, SortedPlaces, CoverageOf, PreferencesOver;
    var places := SortedPlaces(i);
    BuildingNeverFails(i, algorithm, 0, 1, 0);
    PreferencesEach(i, places);
    PreferenceFound(i, places, PreferencesOver(i, places).value, c);
  }

  lemma PreferenceFound(i: Input, places: seq<Coordinate>, ps: seq<Resolved>, c: Coordinate)
    requires |ps| == |places| && Coordinates(ps) == places && c in places
    requires forall d | d in places :: Covered(i, d)
    requires forall k | 0 <= k < |places| :: PreferenceAt(i, places[k]) == Ok(ps[k])
    ensures c in ByCoordinate(ps) && PreferenceAt(i, c) == Ok(ByCoordinate(ps)[c])
  {
    hide Covered, PreferenceAt, ByCoordinate, Coordinates;
    var k :| 0 <= k < |places| && places[k] == c;
    assert ps[k].at == c;
    var p := ByCoordinate(ps)[c];
    var j :| 0 <= j < |ps| && ps[j] == p;
    assert places[j] == c;
  }

  /** Behaviour cannot override memory: whatever the feature states, a coordinate with a counting
      memory has that memory's polarity, score and confidence. */
  lemma BehaviorCannotOverride(i: Input, j: Input, algorithm: string, c: Coordinate)
    requires j == i.(states := j.states) && CandidatesAt(i.memories, i, c) != []
    requires WellFormed(i) && WellFormed(j)
    ensures Built(i, algorithm).Ok? && c in ByCoordinate(Built(i, algorithm).value.preferences)
    ensures Built(j, algorithm).Ok? && c in ByCoordinate(Built(j, algorithm).value.preferences)
    ensures var p, q := ByCoordinate(Built(i, algorithm).value.preferences)[c],
            ByCoordinate(Built(j, algorithm).value.preferences)[c];
            p.polarity == q.polarity && p.score == q.score && p.confidence == q.confidence && p.memoryIds == q.memoryIds
  {
    hide WellFormed, PreferenceAt, Built, ByCoordinate;
    SameCandidates(i, j, c);
    BuiltHolds(i, algorithm, c);
    BuiltHolds(j, algorithm, c);
    EveryPlaceResolves(i, c);
    EveryPlaceResolves(j, c);
  }

  lemma SameCandidates(i: Input, j: Input, c: Coordinate)
    requires j == i.(states := j.states)
    ensures CandidatesAt(i.memories, i, c) == CandidatesAt(j.memories, j, c)
  {
    SameFilter(i.memories, i, j, c);
  }

  lemma {:induction false} SameFilter(ms: seq<MemoryRecord>, i: Input, j: Input, c: Coordinate)
    requires i.options == j.options && i.at == j.at && i.bindings == j.bindings
    ensures CandidatesAt(ms, i, c) == CandidatesAt(ms, j, c)
  {
    if ms != [] { SameFilter(ms[..|ms| - 1], i, j, c); }
  }

  /** No candidate ranks before the selected memory, and no state before the selected state; the
      selection names every candidate and all of their evidence. */
  lemma SelectionIsBest(i: Input, c: Coordinate)
    ensures SelectedAt(i, c).Some? ==>
              forall m | m in CandidatesAt(i.memories, i, c) :: MemoryRank()(SelectedAt(i, c).value.memory, m)
    ensures SelectedAt(i, c).Some? ==> forall id :: id in SelectedAt(i, c).value.memoryIds <==>
              exists m :: m in CandidatesAt(i.memories, i, c) && m.id == id
    ensures SelectedAt(i, c).Some? ==> forall e :: e in SelectedAt(i, c).value.evidence <==>
              exists m :: m in CandidatesAt(i.memories, i, c) && Binding(m.id, e) in i.bindings
    ensures StateAt(i, c).Some? ==> forall s | s in StatesAt(i.states, c) :: StateRank()(StateAt(i, c).value, s)
  {
    RanksTotal();
    hide MemoryRank, StateRank, CandidatesAt, StatesAt, Sort;
    var ms, fs := CandidatesAt(i.memories, i, c), StatesAt(i.states, c);
    FirstIsBest(ms, MemoryRank());
    FirstIsBest(fs, StateRank());
    SortPermutes(IdsOf(ms), IdOrder());
    forall id ensures id in IdsOf(ms) <==> exists m :: m in ms && m.id == id {
      if m :| m in ms && m.id == id {
        var k :| 0 <= k < |ms| && ms[k] == m;
        assert IdsOf(ms)[k] == id;
      }
    }
    forall e ensures e in BoundToAny(i.bindings, ms) <==> exists m :: m in ms && Binding(m.id, e) in i.bindings {
      if m :| m in ms && Binding(m.id, e) in i.bindings {
        var b := Binding(m.id, e);
        assert b in i.bindings && b.memory == m.id && b.evidence == e;
      }
    }
  }

  lemma FirstIsBest<T(!new)>(xs: seq<T>, leq: (T, T) -> bool)
    requires TotalPreorder(leq)
    ensures xs != [] ==> Sort(xs, leq) != [] && forall x | x in xs :: leq(Sort(xs, leq)[0], x)
  {
    SortPermutes(xs, leq);
    SortSorted(xs, leq);
    forall x | x in xs && xs != [] ensures leq(Sort(xs, leq)[0], x) {
      var k :| 0 <= k < |Sort(xs, leq)| && Sort(xs, leq)[k] == x;
    }
  }

  lemma WarningsFrom(incomplete: bool, missing: set<Id>)
    ensures CoverageIncomplete in Warnings(incomplete, missing) <==> incomplete
    ensures forall id :: MissingEvidence(id) in Warnings(incomplete, missing) <==> id in missing
  {
    hide WarningOrder, SortedIds, LeastFirst, Sorted, MissingWarnings;
    var ids := SortedIds(missing);
    var ws := MissingWarnings(ids);
    forall id ensures MissingEvidence(id) in ws <==> id in missing {
      if id in missing {
        var k :| 0 <= k < |ids| && ids[k] == id;
        assert ws[k] == MissingEvidence(id);
      }
    }
  }

  /** A memory is reported exactly when it speaks here but has no evidence, incomplete coverage exactly
      when fewer runs succeeded than there are events. */
  lemma WarningsAreExact(i: Input, algorithm: string)
    requires Built(i, algorithm).Ok?
    ensures CoverageIncomplete in Built(i, algorithm).value.warnings <==> Total(i.runs, ProcessedBy) < |i.events|
    ensures forall id :: MissingEvidence(id) in Built(i, algorithm).value.warnings <==>
              exists m :: m in i.memories && Unsupported(m, i) && m.id == id
  {
    hide Unsupported, PreferencesOver, SortedPlaces, Warnings, StatusOf, Watermark, Total;
    WarningsFrom(CoverageOf(i.runs, |i.events|).processed != |i.events|, MissingIds(i));
  }

  /** A snapshot is empty when there is neither an event nor anything that speaks about a place; otherwise
      it is complete exactly when as many events were processed as there are. */
  lemma StatusIsExact(i: Input, algorithm: string)
    requires Built(i, algorithm).Ok?
    ensures Built(i, algorithm).value.status ==
              if i.events == [] && forall c :: !Covered(i, c) then Empty
              else if Total(i.runs, ProcessedBy) >= |i.events| then Complete else Partial
  {
    hide PreferencesOver, Covered, SortedPlaces, Warnings, Watermark, Total, MissingIds;
    assert PlacesOf(i) == [] <==> forall c :: !Covered(i, c) by {
      if PlacesOf(i) != [] { assert Covered(i, PlacesOf(i)[0]); }
    }
  }

  /* ---- the order of the rows does not matter ---- */

  /** The same rows, read in another order. */
  ghost predicate SameRows(i: Input, j: Input) {
    && j == i.(memories := j.memories, states := j.states, events := j.events)
    && multiset(i.memories) == multiset(j.memories) && multiset(i.states) == multiset(j.states)
    && multiset(i.events) == multiset(j.events)
  }

  lemma SameSelection(i: Input, j: Input, c: Coordinate)
    requires SameRows(i, j) && WellFormed(i)
    ensures SelectedAt(i, c) == SelectedAt(j, c)
  {
    hide IsEffective, RecordValid, InScope, MemoryRank, CandidatesAt, StateValid;
    var a, b := CandidatesAt(i.memories, i, c), CandidatesAt(j.memories, j, c);
    CandidatesPermute(i, j, c);
    SameElements(a, b);
    if a != [] {
      RanksTotal();
      forall x, y | 0 <= x < |a| && 0 <= y < |a| && MemoryRank()(a[x], a[y]) && MemoryRank()(a[y], a[x])
        ensures a[x] == a[y]
      {
        CandidatesAreCounted(i, c, a[x]);
        CandidatesAreCounted(i, c, a[y]);
      }
      SortIgnoresOrder(a, b, MemoryRank());
      IdsPermute(a, b);
      SortIgnoresOrder(IdsOf(a), IdsOf(b), IdOrder());
      assert BoundToAny(i.bindings, a) == BoundToAny(j.bindings, b);
    }
  }

  lemma CandidatesPermute(i: Input, j: Input, c: Coordinate)
    requires SameRows(i, j)
    ensures multiset(CandidatesAt(i.memories, i, c)) == multiset(CandidatesAt(j.memories, j, c))
  {
    SameFilter(j.memories, i, j, c);
    FilterIgnoresOrder(i.memories, j.memories, (m: MemoryRecord) => CountsAt(m, i, c));
  }

  lemma {:induction false} IdCount(ms: seq<MemoryRecord>, id: Id)
    ensures multiset(IdsOf(ms))[id] == |Filter(ms, (m: MemoryRecord) => m.id == id)|
  {
    if ms != [] { IdCount(ms[..|ms| - 1], id); }
  }

  lemma IdsPermute(a: seq<MemoryRecord>, b: seq<MemoryRecord>)
    requires multiset(a) == multiset(b)
    ensures multiset(IdsOf(a)) == multiset(IdsOf(b))
  {
    forall id ensures multiset(IdsOf(a))[id] == multiset(IdsOf(b))[id] {
      var p := (m: MemoryRecord) => m.id == id;
      IdCount(a, id);
      IdCount(b, id);
      FilterIgnoresOrder(a, b, p);
      SameElements(Filter(a, p), Filter(b, p));
    }
  }

  lemma SameState(i: Input, j: Input, c: Coordinate)
    requires SameRows(i, j) && WellFormed(i)
    ensures StateAt(i, c) == StateAt(j, c)
  {
    hide StateRank, RecordValid, StateValid;
    var a, b := StatesAt(i.states, c), StatesAt(j.states, c);
    FilterIgnoresOrder(i.states, j.states, (s: FeatureState) => PlaceOfState(s) == c);
    SameElements(a, b);
    RanksTotal();
    forall x, y | 0 <= x < |a| && 0 <= y < |a| && StateRank()(a[x], a[y]) && StateRank()(a[y], a[x])
      ensures a[x] == a[y]
    {
      StatesAreGiven(i, c, a[x]);
      StatesAreGiven(i, c, a[y]);
      assert a[x].Key() == a[y].Key();
    }
    SortIgnoresOrder(a, b, StateRank());
  }

  lemma SamePlaces(i: Input, j: Input)
    requires SameRows(i, j) && WellFormed(i)
    ensures forall c :: Covered(i, c) <==> Covered(j, c)
    ensures SortedPlaces(i) == SortedPlaces(j)
  {
    hide WellFormed, SelectedAt, StateAt;
    forall c ensures Covered(i, c) <==> Covered(j, c) {
      SameSelection(i, j, c);
      SameState(i, j, c);
    }
    CoordinateOrderTotal();
    hide CoordinateOrder;
    SortedSetIsCanonical(PlacesOf(i), PlacesOf(j), CoordinateOrder());
  }

  lemma {:induction false} SamePreferences(i: Input, j: Input, places: seq<Coordinate>)
    requires forall c | c in places :: Covered(i, c) && Covered(j, c)
    requires SameRows(i, j) && WellFormed(i)
    ensures PreferencesOver(i, places) == PreferencesOver(j, places)
  {
    hide SameRows, WellFormed, Covered, SelectedAt, StateAt, Resolve;
    if places != [] {
      SamePreferences(i, j, places[..|places| - 1]);
      var c := places[|places| - 1];
      SameSelection(i, j, c);
      SameState(i, j, c);
      assert i.at == j.at by { SameTime(i, j); }
    }
  }

  lemma SameTime(i: Input, j: Input)
    requires SameRows(i, j)
    ensures i.at == j.at
  {
  }

  lemma SameRemainder(i: Input, j: Input)
    requires SameRows(i, j)
    ensures MissingIds(i) == MissingIds(j) && Watermark(i.events) == Watermark(j.events) && |i.events| == |j.events|
    ensures i.subject == j.subject && i.runs == j.runs
  {
    hide IsEffective, InScope, Watermark;
    SameElements(i.events, j.events);
    SameElements(i.memories, j.memories);
  }

  lemma SameStatus(i: Input, j: Input, coverage: Coverage)
    requires (forall c :: Covered(i, c) <==> Covered(j, c)) && |i.events| == |j.events|
    ensures StatusOf(i, coverage) == StatusOf(j, coverage)
  {
    hide Covered, PlacesOf;
    if PlacesOf(i) != [] { assert PlacesOf(i)[0] in PlacesOf(j); }
    if PlacesOf(j) != [] { assert PlacesOf(j)[0] in PlacesOf(i); }
  }

  /** The content of a snapshot does not depend on the order of its memories, states and events. */
  lemma OrderDoesNotMatter(i: Input, j: Input, algorithm: string)
    requires SameRows(i, j) && WellFormed(i)
    ensures Built(i, algorithm) == Built(j, algorithm)
  {
    hide WellFormed, Covered, PreferencesOver, CoverageOf, SortedPlaces, SameRows, StatusOf, MissingIds, Warnings,
         Watermark;
    SamePlaces(i, j);
    SamePreferences(i, j, SortedPlaces(i));
    SameRemainder(i, j);
    SameStatus(i, j, CoverageOf(i.runs, |i.events|));
  }
}
