/** Late fusion of memories and feature states into one profile (profile_service.py). */
module ProfileResolver {
  import opened Domain
  import opened Sorting
  import opened Memory
  import opened Records
  import opened Database
  import opened Aggregation
  import opened Profile

  datatype Options = Options(useCase: Option<string>, topic: Option<string>, entity: Option<string>)

  /** Everything a snapshot is built from. */
  datatype Input = Input(
    subject: SubjectRef, options: Options, at: Time, memories: seq<MemoryRecord>, bindings: set<Binding>,
    states: seq<FeatureState>, events: seq<Event>, runs: seq<Run>)

  function Requested(s: Scope, o: Options): Option<string> {
    match s
    case Global => None
    case UseCase => o.useCase
    case Topic => o.topic
    case Entity => o.entity
  }

  function ScopeRank(s: Scope): nat {
    match s
    case Global => 0
    case UseCase => 1
    case Topic => 2
    case Entity => 3
  }

  function AuthorityRank(a: Authority): nat {
    match a
    case Inferred => 0
    case Confirmed => 1
    case Explicit => 2
  }

  predicate InScope(m: MemoryRecord, o: Options) {
    m.scope == Global || (Requested(m.scope, o).Some? && m.scopeValue == Requested(m.scope, o))
  }

  /** The memory speaks about a coordinate here and now. */
  predicate Speaks(m: MemoryRecord, i: Input) {
    IsEffective(m, i.at) && m.kind in {Kind.Preference, Kind.Constraint} && m.target.Some? && InScope(m, i.options)
  }

  predicate Unsupported(m: MemoryRecord, i: Input) { Speaks(m, i) && Bound(i.bindings, m.id) == {} }

  predicate Counts(m: MemoryRecord, i: Input) {
    Speaks(m, i) && Bound(i.bindings, m.id) != {} && m.authority != Inferred
  }

  function PlaceOf(m: MemoryRecord): Coordinate requires m.target.Some? {
    Coordinate(m.target.value.dimension, m.target.value.valueKey)
  }

  predicate CountsAt(m: MemoryRecord, i: Input, c: Coordinate) { Counts(m, i) && PlaceOf(m) == c }

  function PlaceOfState(s: FeatureState): Coordinate { Coordinate(s.draft.dimension, s.draft.valueKey) }

  function CandidatesAt(ms: seq<MemoryRecord>, i: Input, c: Coordinate): seq<MemoryRecord> {
    Filter(ms, (m: MemoryRecord) => CountsAt(m, i, c))
  }

  function StatesAt(states: seq<FeatureState>, c: Coordinate): seq<FeatureState> {
    Filter(states, (s: FeatureState) => PlaceOfState(s) == c)
  }

  /* ---- selection ---- */

  /** Narrower scope first, then authority, then recency, then id. */
  function MemoryRank(): (MemoryRecord, MemoryRecord) -> bool {
    (a: MemoryRecord, b: MemoryRecord) =>
      || ScopeRank(a.scope) > ScopeRank(b.scope)
      || (ScopeRank(a.scope) == ScopeRank(b.scope)
          && (|| AuthorityRank(a.authority) > AuthorityRank(b.authority)
              || (AuthorityRank(a.authority) == AuthorityRank(b.authority)
                  && (a.updatedAt > b.updatedAt || (a.updatedAt == b.updatedAt && a.id <= b.id)))))
  }

  function ByStrength(): (FeatureState, FeatureState) -> bool {
    (a: FeatureState, b: FeatureState) =>
      || a.draft.confidence > b.draft.confidence
      || (a.draft.confidence == b.draft.confidence
          && (|| AbsReal(a.draft.longTerm) > AbsReal(b.draft.longTerm)
              || (AbsReal(a.draft.longTerm) == AbsReal(b.draft.longTerm)
                     && AbsReal(a.draft.shortTerm) >= AbsReal(b.draft.shortTerm))))
  }

  function ByName(): (FeatureState, FeatureState) -> bool {
    Lex(ByString((s: FeatureState) => s.aggregator), ByString((s: FeatureState) => s.version))
  }

  /** Confidence, then long-term and short-term strength, then aggregator and version. */
  function StateRank(): (FeatureState, FeatureState) -> bool { Lex(ByStrength(), ByName()) }

  lemma RanksTotal()
    ensures TotalPreorder(MemoryRank()) && TotalPreorder(StateRank())
    ensures forall a, b :: MemoryRank()(a, b) && MemoryRank()(b, a) ==> a.id == b.id
    ensures forall a, b :: StateRank()(a, b) && StateRank()(b, a) ==> a.aggregator == b.aggregator
  {
    var name, version := (s: FeatureState) => s.aggregator, (s: FeatureState) => s.version;
    ByStringTotal(name);
    ByStringTotal(version);
    LexTotal(ByString(name), ByString(version));
    LexTotal(ByStrength(), ByName());
    forall a, b | StateRank()(a, b) && StateRank()(b, a) ensures a.aggregator == b.aggregator {
      assert name(a) == name(b);
    }
  }

  datatype Selection = Selection(memory: MemoryRecord, memoryIds: seq<Id>, evidence: seq<Id>)

  function IdsOf(ms: seq<MemoryRecord>): (r: seq<Id>)
    ensures |r| == |ms| && forall k | 0 <= k < |r| :: r[k] == ms[k].id
  {
    if ms == [] then [] else IdsOf(ms[..|ms| - 1]) + [ms[|ms| - 1].id]
  }

  function BoundToAny(bindings: set<Binding>, ms: seq<MemoryRecord>): set<Id> {
    set b | b in bindings && (exists m :: m in ms && m.id == b.memory) :: b.evidence
  }

  function IdOrder(): (Id, Id) -> bool { (a: Id, b: Id) => a <= b }

  function SelectMemory(ms: seq<MemoryRecord>, bindings: set<Binding>): Selection
    requires ms != []
  {
    SortPermutes(ms, MemoryRank());
    Selection(Sort(ms, MemoryRank())[0], Sort(IdsOf(ms), IdOrder()), SortedIds(BoundToAny(bindings, ms)))
  }

  function SelectState(states: seq<FeatureState>): FeatureState
    requires states != []
  {
    SortPermutes(states, StateRank());
    Sort(states, StateRank())[0]
  }

  /* ---- resolution ---- */

  function Widened(cs: seq<Conflict>, memoryIds: seq<Id>, refs: seq<Id>): (r: seq<Conflict>)
    ensures |r| == |cs| && forall k | 0 <= k < |r| :: r[k] == cs[k].(memoryIds := memoryIds, evidenceRefs := refs)
  {
    if cs == [] then [] else [cs[0].(memoryIds := memoryIds, evidenceRefs := refs)] + Widened(cs[1..], memoryIds, refs)
  }

  /** _resolve_pair: the final copies skip the validators. */
  function ResolvePair(s: Selection, f: FeatureState, at: Time): Result<Resolved> {
    var base :- ResolvePreferencePair(s.memory, f, s.evidence, at);
    var refs := SortedIds(IdSet(s.evidence) + IdSet(f.draft.evidenceIds));
    Ok(base.(memoryIds := s.memoryIds, conflicts := Widened(base.conflicts, s.memoryIds, refs), evidenceRefs := refs))
  }

  function Checked(p: Resolved): Result<Resolved> { if PreferenceValid(p) then Ok(p) else Err(Validation) }

  function ResolveMemoryOnly(s: Selection): Result<Resolved>
    requires s.memory.target.Some?
  {
    Checked(Records.Preference.Preference(
              PlaceOf(s.memory), s.memoryIds, None, s.memory.polarity, ExplicitScore(s.memory.polarity),
              s.memory.confidence, ExplicitOnly, [], s.evidence))
  }

  function ResolveBehaviorOnly(f: FeatureState): Result<Resolved> {
    Checked(Records.Preference.Preference(
              PlaceOfState(f), [], Some(FeatureKeyOf(f)), PolarityFor(f.draft.longTerm), f.draft.longTerm,
              f.draft.confidence, BehaviorOnly, [], Sort(f.draft.evidenceIds, IdOrder())))
  }

  function Resolve(s: Option<Selection>, f: Option<FeatureState>, at: Time): Result<Resolved>
    requires s.Some? || f.Some?
    requires s.Some? ==> s.value.memory.target.Some?
  {
    if s.Some? && f.Some? then ResolvePair(s.value, f.value, at)
    else if s.Some? then ResolveMemoryOnly(s.value)
    else ResolveBehaviorOnly(f.value)
  }

  function SelectedAt(i: Input, c: Coordinate): (r: Option<Selection>)
    ensures r.Some? <==> CandidatesAt(i.memories, i, c) != []
    ensures r.Some? ==> r.value.memory in CandidatesAt(i.memories, i, c) && r.value.memory.target.Some?
  {
    var ms := CandidatesAt(i.memories, i, c);
    if ms == [] then None else
      SortPermutes(ms, MemoryRank());
      var s := SelectMemory(ms, i.bindings);
      assert s.memory in Sort(ms, MemoryRank());
      Some(s)
  }

  function StateAt(i: Input, c: Coordinate): (r: Option<FeatureState>)
    ensures r.Some? <==> StatesAt(i.states, c) != []
    ensures r.Some? ==> r.value in StatesAt(i.states, c)
  {
    var fs := StatesAt(i.states, c);
    if fs == [] then None else
      SortPermutes(fs, StateRank());
      var f := SelectState(fs);
      assert f in Sort(fs, StateRank());
      Some(f)
  }

  predicate Covered(i: Input, c: Coordinate) { CandidatesAt(i.memories, i, c) != [] || StatesAt(i.states, c) != [] }

  function PreferenceAt(i: Input, c: Coordinate): Result<Resolved>
    requires Covered(i, c)
  {
    Resolve(SelectedAt(i, c), StateAt(i, c), i.at)
  }

  /* ---- coordinates ---- */

  function MemoryPlaces(ms: seq<MemoryRecord>, i: Input): (r: seq<Coordinate>)
    ensures forall c :: c in r <==> exists m :: m in ms && CountsAt(m, i, c)
  {
    if ms == [] then [] else
      var last := ms[|ms| - 1];
      var init := MemoryPlaces(ms[..|ms| - 1], i);
      var r := init + if Counts(last, i) then [PlaceOf(last)] else [];
      assert forall m :: m in ms <==> m in ms[..|ms| - 1] || m == last;
      assert forall c :: c in r <==> c in init || CountsAt(last, i, c);
      r
  }

  function StatePlaces(states: seq<FeatureState>): (r: seq<Coordinate>)
    ensures forall c :: c in r <==> exists s :: s in states && PlaceOfState(s) == c
  {
    if states == [] then [] else
      var last := states[|states| - 1];
      var r := StatePlaces(states[..|states| - 1]) + [PlaceOfState(last)];
      assert forall s :: s in states <==> s in states[..|states| - 1] || s == last;
      r
  }

  function PlacesOf(i: Input): (r: seq<Coordinate>)
    ensures forall c :: c in r <==> Covered(i, c)
  {
    var r := MemoryPlaces(i.memories, i) + StatePlaces(i.states);
    assert forall c :: c in r <==> Covered(i, c) by {
      forall c ensures c in r <==> Covered(i, c) { PlaceIsCovered(i, c); }
    }
    r
  }

  lemma PlaceIsCovered(i: Input, c: Coordinate)
    ensures c in MemoryPlaces(i.memories, i) <==> CandidatesAt(i.memories, i, c) != []
    ensures c in StatePlaces(i.states) <==> StatesAt(i.states, c) != []
  {
    var ms, fs := CandidatesAt(i.memories, i, c), StatesAt(i.states, c);
    if ms != [] { assert ms[0] in ms; }
    if fs != [] { assert fs[0] in fs; }
    if c in MemoryPlaces(i.memories, i) {
      var m :| m in i.memories && CountsAt(m, i, c);
      assert m in ms;
    }
    if c in StatePlaces(i.states) {
      var s :| s in i.states && PlaceOfState(s) == c;
      assert s in fs;
    }
  }

  /** sorted(set(selected_memories) | set(selected_states)) */
  function SortedPlaces(i: Input): (r: seq<Coordinate>)
    ensures forall c :: c in r <==> Covered(i, c)
  {
    SortPermutes(Unique(PlacesOf(i)), CoordinateOrder());
    Sort(Unique(PlacesOf(i)), CoordinateOrder())
  }

  function PreferencesOver(i: Input, places: seq<Coordinate>): Result<seq<Resolved>>
    requires forall c | c in places :: Covered(i, c)
  {
    if places == [] then Ok([]) else
      var init :- PreferencesOver(i, places[..|places| - 1]);
      var last :- PreferenceAt(i, places[|places| - 1]);
      Ok(init + [last])
  }

  lemma {:induction false} PreferencesEach(i: Input, places: seq<Coordinate>)
    requires forall c | c in places :: Covered(i, c)
    ensures PreferencesOver(i, places).Ok? <==> forall c | c in places :: PreferenceAt(i, c).Ok?
    ensures PreferencesOver(i, places).Ok? ==>
              && |PreferencesOver(i, places).value| == |places|
              && forall k | 0 <= k < |places| :: PreferenceAt(i, places[k]) == Ok(PreferencesOver(i, places).value[k])
  {
    hide PreferenceAt, Covered;
    if places != [] {
      var init, last := places[..|places| - 1], places[|places| - 1];
      assert forall c :: c in places <==> c in init || c == last;
      PreferencesEach(i, init);
    }
  }

  /* ---- coverage, warnings, watermark ---- */

  function ProcessedBy(r: Run): nat {
    match r.operation
    case ProcessEvent => if r.status == Succeeded then 1 else 0
    case ProcessPending => r.processedCount
    case RebuildDimension => 0
  }

  function FailedBy(r: Run): nat {
    match r.operation
    case ProcessEvent => if r.status == RunFailed then 1 else 0
    case ProcessPending => r.failedCount
    case RebuildDimension => 0
  }

  function Total(runs: seq<Run>, f: Run -> nat): nat {
    if runs == [] then 0 else Total(runs[..|runs| - 1], f) + f(runs[|runs| - 1])
  }

  function CoverageOf(runs: seq<Run>, total: nat): (r: Coverage)
    ensures CoverageValid(r)
    ensures r.processed == total <==> Total(runs, ProcessedBy) >= total
  {
    var processed := Min(Total(runs, ProcessedBy), total);
    Coverage(total, processed, Min(Total(runs, FailedBy), Max(0, total - processed)))
  }

  /** _coverage_from_runs counts runs, not events, and clamps. */
  method CoverageFromRuns(runs: seq<Run>, total: nat) returns (processed: int, failed: int)
    ensures Coverage(total, processed, failed) == CoverageOf(runs, total)
  {
    processed, failed := 0, 0;
    for k := 0 to |runs|
      invariant processed == Total(runs[..k], ProcessedBy) && failed == Total(runs[..k], FailedBy)
    {
      assert runs[..k + 1][..k] == runs[..k];
      if runs[k].operation == Operation.ProcessEvent {
        if runs[k].status == Succeeded {
          processed := processed + 1;
        } else if runs[k].status == RunFailed {
          failed := failed + 1;
        }
      } else if runs[k].operation == Operation.ProcessPending {
        processed := processed + runs[k].processedCount;
        failed := failed + runs[k].failedCount;
      }
    }
    assert runs[..|runs|] == runs;
    processed := Min(processed, total);
    failed := Min(failed, Max(0, total - processed));
  }

  /** The time of the latest event. */
  function Watermark(events: seq<Event>): (w: Option<Time>)
    ensures w.None? <==> events == []
    ensures w.Some? ==> (forall e | e in events :: e.content.occurredAt <= w.value) && exists e ::
              e in events && e.content.occurredAt == w.value
  {
    if events == [] then None else
      var last := events[|events| - 1];
      var w := Watermark(events[..|events| - 1]);
      assert forall e :: e in events <==> e in events[..|events| - 1] || e == last;
      if w.Some? && last.content.occurredAt < w.value then w else Some(last.content.occurredAt)
  }

  function MissingIds(i: Input): set<Id> { set m | m in i.memories && Unsupported(m, i) :: m.id }

  function MissingWarnings(ids: seq<Id>): (r: seq<Warning>)
    ensures |r| == |ids| && forall k | 0 <= k < |r| :: r[k] == MissingEvidence(ids[k])
  {
    if ids == [] then [] else [MissingEvidence(ids[0])] + MissingWarnings(ids[1..])
  }

  /** sorted(warnings) */
  function Warnings(incomplete: bool, missing: set<Id>): (r: seq<Warning>)
    ensures Sorted(r, WarningOrder())
  {
    (if incomplete then [CoverageIncomplete] else []) + MissingWarnings(SortedIds(missing))
  }

  function StatusOf(i: Input, coverage: Coverage): ProfileStatus {
    if i.events == [] && PlacesOf(i) == [] then Empty
    else if coverage.processed == coverage.total then Complete else Partial
  }

  /** A snapshot but for its identity. */
  function Built(i: Input, algorithm: string): (r: Result<Content>)
    ensures r.Ok? ==> r.value.subject == i.subject
  {
    var preferences :- PreferencesOver(i, SortedPlaces(i));
    var coverage := CoverageOf(i.runs, |i.events|);
    Ok(Content(i.subject, StatusOf(i, coverage), algorithm, Watermark(i.events), coverage, preferences,
               Warnings(coverage.processed != coverage.total, MissingIds(i))))
  }

  /* ---- the loops of _build_snapshot ---- */

  /** A dict of lists holds, for each coordinate, the rows that fall there, and no empty list. */
  ghost predicate Grouped<T(!new)>(groups: map<Coordinate, seq<T>>, rows: Coordinate -> seq<T>) {
    forall c :: (c in groups <==> rows(c) != []) && (c in groups ==> groups[c] == rows(c))
  }

  function Appended<T>(groups: map<Coordinate, seq<T>>, c: Coordinate, row: T): map<Coordinate, seq<T>> {
    groups[c := (if c in groups then groups[c] else []) + [row]]
  }

  method GroupMemories(i: Input)
    returns (groups: map<Coordinate, seq<MemoryRecord>>, missing: set<Id>, places: seq<Coordinate>)
    ensures Grouped(groups, c => CandidatesAt(i.memories, i, c))
    ensures missing == MissingIds(i) && places == MemoryPlaces(i.memories, i)
  {
    hide InScope, IsEffective, CandidatesAt, Bound;
    groups, missing, places := map[], {}, [];
    NothingGrouped(i);
    var ms := i.memories;
    for k := 0 to |ms|
      invariant Grouped(groups, c => CandidatesAt(ms[..k], i, c))
      invariant missing == set m | m in ms[..k] && Unsupported(m, i) :: m.id
      invariant places == MemoryPlaces(ms[..k], i)
    {
      assert ms[..k + 1][..k] == ms[..k] && ms[..k + 1] == ms[..k] + [ms[k]];
      ghost var before := groups;
      var m := ms[k];
      if Speaks(m, i) {
        if Bound(i.bindings, m.id) == {} {
          missing := missing + {m.id};
        } else if m.authority != Inferred {
          groups := Appended(groups, PlaceOf(m), m);
          places := places + [PlaceOf(m)];
        }
      }
      GroupedNext(before, groups, ms, k, i);
    }
    assert ms[..|ms|] == ms;
  }

  lemma NothingGrouped(i: Input)
    ensures Grouped(map[], c => CandidatesAt([], i, c))
  {
  }

  lemma GroupedNext(before: map<Coordinate, seq<MemoryRecord>>, after: map<Coordinate, seq<MemoryRecord>>,
                    ms: seq<MemoryRecord>, k: nat, i: Input)
    requires k < |ms| && Grouped(before, c => CandidatesAt(ms[..k], i, c))
    requires after == if Counts(ms[k], i) then Appended(before, PlaceOf(ms[k]), ms[k]) else before
    ensures Grouped(after, c => CandidatesAt(ms[..k + 1], i, c))
  {
    hide Counts;
    assert ms[..k + 1][..k] == ms[..k];
    forall c ensures CandidatesAt(ms[..k + 1], i, c) == CandidatesAt(ms[..k], i, c) + if CountsAt(ms[k], i, c)
      then [ms[k]] else [] {}
  }

  method GroupStates(states: seq<FeatureState>)
    returns (groups: map<Coordinate, seq<FeatureState>>, places: seq<Coordinate>)
    ensures Grouped(groups, c => StatesAt(states, c)) && places == StatePlaces(states)
  {
    groups, places := map[], [];
    for k := 0 to |states|
      invariant Grouped(groups, c => StatesAt(states[..k], c)) && places == StatePlaces(states[..k])
    {
      assert states[..k + 1][..k] == states[..k];
      groups := Appended(groups, PlaceOfState(states[k]), states[k]);
      places := places + [PlaceOfState(states[k])];
    }
    assert states[..|states|] == states;
  }

  lemma CoveredHasSource(i: Input, c: Coordinate)
    requires Covered(i, c)
    ensures SelectedAt(i, c).Some? || StateAt(i, c).Some?
  {
  }

  /** The resolution loop of _build_snapshot over the two selections. */
  method ResolvePlaces(i: Input, memories: map<Coordinate, Selection>, states: map<Coordinate, FeatureState>,
                       places: seq<Coordinate>)
    returns (r: Result<seq<Resolved>>)
    requires forall c | c in places :: Covered(i, c)
    requires forall c :: (if c in memories then Some(memories[c]) else None) == SelectedAt(i, c)
    requires forall c :: (if c in states then Some(states[c]) else None) == StateAt(i, c)
    ensures r == PreferencesOver(i, places)
  {
    hide Covered, SelectedAt, StateAt, Resolve;
    var preferences: seq<Resolved> := [];
    for k := 0 to |places|
      invariant PreferencesOver(i, places[..k]) == Ok(preferences)
    {
      assert places[..k + 1][..k] == places[..k];
      var c := places[k];
      assert c in places;
      var s := if c in memories then Some(memories[c]) else None;
      var f := if c in states then Some(states[c]) else None;
      assert s == SelectedAt(i, c) && f == StateAt(i, c);
      CoveredHasSource(i, c);
      var preference := Resolve(s, f, i.at);
      if preference.Err? {
        PreferencesStop(i, places, k + 1);
        return Err(preference.error);
      }
      preferences := preferences + [preference.value];
    }
    assert places[..|places|] == places;
    r := Ok(preferences);
  }

  /** _build_snapshot */
  method BuildSnapshot(i: Input, algorithm: string) returns (r: Result<Content>)
    ensures r == Built(i, algorithm)
  {
    hide Resolve, SelectMemory, SelectState, CandidatesAt, StatesAt, MemoryPlaces, StatePlaces, Warnings, Watermark,
         PreferencesOver, Total, MissingIds, CoordinateOrder;
    var candidates, missing, memoryPlaces := GroupMemories(i);
    var grouped, statePlaces := GroupStates(i.states);
    var selectedMemories := map c | c in candidates :: SelectMemory(candidates[c], i.bindings);
    var selectedStates := map c | c in grouped :: SelectState(grouped[c]);
    var places := Sort(Unique(memoryPlaces + statePlaces), CoordinateOrder());
    assert places == SortedPlaces(i);
    var preferences :- ResolvePlaces(i, selectedMemories, selectedStates, places);
    var processed, failed := CoverageFromRuns(i.runs, |i.events|);
    var warnings := Warnings(processed != |i.events|, missing);
    var status := if i.events == [] && memoryPlaces == [] && statePlaces == [] then Empty
                  else if processed == |i.events| then Complete else Partial;
    r := Ok(Content(i.subject, status, algorithm, Watermark(i.events), Coverage(|i.events|, processed, failed),
                    preferences, warnings));
  }

  lemma {:induction false} PreferencesStop(i: Input, places: seq<Coordinate>, k: nat)
    requires k <= |places| && forall c | c in places :: Covered(i, c)
    requires PreferencesOver(i, places[..k]).Err?
    ensures PreferencesOver(i, places) == PreferencesOver(i, places[..k])
    decreases |places| - k
  {
    hide PreferenceAt, Covered;
    if k == |places| {
      assert places[..k] == places;
    } else {
      assert places[..k + 1][..k] == places[..k];
      PreferencesStop(i, places, k + 1);
    }
  }
}
