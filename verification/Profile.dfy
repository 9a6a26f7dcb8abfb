/** Resolved preferences, their validators, and what changed between two snapshots (domain/profile.py). */
module Profile {
  import opened Domain
  import opened Sorting
  import opened Memory
  import opened Records
  import opened Aggregation

  type Resolved = Records.Preference

  /* ---- polarity ---- */

  function PolarityFor(score: real): Polarity {
    if score > 0.0 then Positive else if score < 0.0 then Negative else Neutral
  }

  function ExplicitScore(p: Polarity): real {
    match p
    case Positive => 1.0
    case Negative => -1.0
    case _ => 0.0
  }

  /* ---- validators ---- */

  /** len(set(xs)) == len(xs) */
  predicate NoRepeats<T(==)>(xs: seq<T>) { |set x | x in xs| == |xs| }

  predicate Within<T(==)>(xs: seq<T>, ys: seq<T>) { forall x | x in xs :: x in ys }

  predicate ConflictValid(c: Conflict) {
    && c.memoryIds != [] && c.evidenceRefs != [] && Scored(c.behaviorScore)
    && NoRepeats(c.memoryIds) && NoRepeats(c.evidenceRefs)
    && !(c.memoryPolarity == c.behaviorPolarity && c.memoryPolarity != Polarity.Unknown)
    && c.behaviorPolarity == PolarityFor(c.behaviorScore)
  }

  predicate SourcesMatch(r: Resolution, hasMemory: bool, hasBehavior: bool) {
    match r
    case ExplicitOnly => hasMemory && !hasBehavior
    case BehaviorOnly => !hasMemory && hasBehavior
    case _ => hasMemory && hasBehavior
  }

  predicate Belongs(c: Conflict, p: Resolved) {
    c.at == p.at && Within(c.memoryIds, p.memoryIds) && Some(c.featureKey) == p.featureKey
      && Within(c.evidenceRefs, p.evidenceRefs)
  }

  predicate PreferenceValid(p: Resolved) {
    && Scored(p.score) && 0.0 <= p.confidence <= 1.0 && p.evidenceRefs != []
    && NoRepeats(p.memoryIds) && NoRepeats(p.evidenceRefs)
    && SourcesMatch(p.resolution, p.memoryIds != [], p.featureKey.Some?)
    && (p.conflicts != [] <==> p.resolution in {ExplicitOverridesBehavior, UnresolvedConflict})
    && (if p.polarity == Polarity.Unknown then p.score == 0.0 else p.polarity == PolarityFor(p.score))
    && forall i | 0 <= i < |p.conflicts| :: ConflictValid(p.conflicts[i]) && Belongs(p.conflicts[i], p)
  }

  predicate CoverageValid(c: Coverage) {
    0 <= c.processed && 0 <= c.failed && c.processed + c.failed <= c.total
  }

  function Coordinates(ps: seq<Resolved>): (r: seq<Coordinate>)
    ensures |r| == |ps| && forall i | 0 <= i < |r| :: r[i] == ps[i].at
  {
    if ps == [] then [] else Coordinates(ps[..|ps| - 1]) + [ps[|ps| - 1].at]
  }

  predicate SnapshotValid(s: Snapshot) {
    && s.version >= 1
    && (s.status == Complete ==> s.coverage.processed == s.coverage.total)
    && (s.status == Empty ==> s.preferences == [])
    && NoRepeats(Coordinates(s.preferences))
  }

  /* ---- one memory against one state ---- */

  function FeatureKeyOf(s: FeatureState): FeatureKey { FeatureKey(s.draft.dimension, s.draft.valueKey, s.aggregator) }

  function IdSet(ids: seq<Id>): (r: set<Id>)
    ensures forall e :: e in r <==> e in ids
  {
    set e | e in ids
  }

  function ResolutionOf(memory: Polarity, behavior: Polarity): Resolution {
    if memory == Polarity.Unknown then UnresolvedConflict else if memory == behavior then Aligned
      else ExplicitOverridesBehavior
  }

  /** resolve_preference_pair with the long-term horizon, including the checks of the models it builds. */
  function ResolvePreferencePair(m: MemoryRecord, f: FeatureState, evidence: seq<Id>, at: Time): Result<Resolved> {
    var _ :- Require(m.subject == f.subject, Validation);
    var _ :- Require(IsEffective(m, at), Validation);
    var _ :- Require(m.kind in {Kind.Preference, Kind.Constraint}, Validation);
    var _ :- Require(m.target == Some(Target(f.draft.dimension, f.draft.valueKey)), Validation);
    var _ :- Require(m.authority != Inferred, Validation);
    var _ :- Require(evidence != [], Validation);
    var place := Coordinate(f.draft.dimension, f.draft.valueKey);
    var refs := SortedIds(IdSet(evidence) + IdSet(f.draft.evidenceIds));
    var behavior := PolarityFor(f.draft.longTerm);
    var resolution := ResolutionOf(m.polarity, behavior);
    var conflict := Conflict(place, [m.id], FeatureKeyOf(f), m.polarity, behavior, f.draft.longTerm, refs);
    var _ :- Require(resolution != Aligned ==> ConflictValid(conflict), Validation);
    var p := Records.Preference.Preference(place, [m.id], Some(FeatureKeyOf(f)), m.polarity, ExplicitScore(m.polarity),
                                           m.confidence,
                        resolution, if resolution == Aligned then [] else [conflict], refs);
    var _ :- Require(PreferenceValid(p), Validation);
    Ok(p)
  }

  /* ---- content ---- */

  function CoordinateOrder(): (Coordinate, Coordinate) -> bool {
    Lex(ByString((c: Coordinate) => c.dimension), ByString((c: Coordinate) => c.valueKey))
  }

  lemma CoordinateOrderTotal()
    ensures TotalPreorder(CoordinateOrder())
    ensures forall a, b :: CoordinateOrder()(a, b) && CoordinateOrder()(b, a) ==> a == b
  {
    var dimension, value := (c: Coordinate) => c.dimension, (c: Coordinate) => c.valueKey;
    ByStringTotal(dimension);
    ByStringTotal(value);
    LexTotal(ByString(dimension), ByString(value));
    forall a, b | CoordinateOrder()(a, b) && CoordinateOrder()(b, a) ensures a == b {
      assert dimension(a) == dimension(b) && value(a) == value(b);
    }
  }

  /** What the content digest of a snapshot covers: neither its id nor its version nor its time. */
  datatype Content = Content(
    subject: SubjectRef, status: ProfileStatus, algorithm: string, watermark: Option<Time>, coverage: Coverage,
    preferences: seq<Resolved>, warnings: seq<Warning>)

  function WarningOrder(): (Warning, Warning) -> bool {
    (a: Warning, b: Warning) => a.CoverageIncomplete? || (b.MissingEvidence? && a.memoryId <= b.memoryId)
  }

  function PreferenceOrder(): (Resolved, Resolved) -> bool {
    (a: Resolved, b: Resolved) => CoordinateOrder()(a.at, b.at)
  }

  function ContentOf(s: Snapshot): Content {
    Content(s.subject, s.status, s.algorithm, s.watermark, s.coverage,
            Sort(s.preferences, PreferenceOrder()), Sort(s.warnings, WarningOrder()))
  }

  /* ---- differences ---- */

  datatype ChangeKind = Added | Removed | Strengthened | Weakened | Changed | ConflictChanged

  datatype PreferenceChange = PreferenceChange(
    at: Coordinate, kind: ChangeKind, before: Option<Resolved>, after: Option<Resolved>)

  predicate ChangeValid(c: PreferenceChange) {
    && (c.before.Some? <==> c.kind != Added) && (c.after.Some? <==> c.kind != Removed)
    && (c.before.Some? ==> c.before.value.at == c.at) && (c.after.Some? ==> c.after.value.at == c.at)
    && (c.before.Some? && c.after.Some? ==>
          && c.before != c.after
          && (c.kind in {Strengthened, Weakened} ==> c.before.value.polarity == c.after.value.polarity)
          && (c.kind == Strengthened ==> Growth(c.before.value, c.after.value) > 0.0)
          && (c.kind == Weakened ==> Growth(c.before.value, c.after.value) < 0.0)
          && (c.kind == ConflictChanged ==> c.before.value.conflicts != c.after.value.conflicts))
  }

  function Growth(before: Resolved, after: Resolved): real { AbsReal(after.score) - AbsReal(before.score) }

  /** {(item.dimension, item.value_key): item for item in preferences} */
  function ByCoordinate(ps: seq<Resolved>): (r: map<Coordinate, Resolved>)
    ensures forall c :: c in r <==> exists i :: 0 <= i < |ps| && ps[i].at == c
    ensures forall c | c in r :: r[c].at == c && r[c] in ps
  {
    if ps == [] then map[] else ByCoordinate(ps[..|ps| - 1])[ps[|ps| - 1].at := ps[|ps| - 1]]
  }

  function Lookup(m: map<Coordinate, Resolved>, c: Coordinate): Option<Resolved> { if c in m then Some(m[c]) else None }

  function KindOf(before: Option<Resolved>, after: Option<Resolved>): ChangeKind {
    if before.None? then Added
    else if after.None? then Removed
    else if before.value.conflicts != after.value.conflicts then ConflictChanged
    else if before.value.polarity != after.value.polarity then Changed
    else if Growth(before.value, after.value) > 0.0 then Strengthened
    else if Growth(before.value, after.value) < 0.0 then Weakened
    else Changed
  }

  function ChangesAt(c: Coordinate, before: Option<Resolved>, after: Option<Resolved>): seq<PreferenceChange> {
    if before == after then [] else [PreferenceChange(c, KindOf(before, after), before, after)]
  }

  function ChangesOver(keys: seq<Coordinate>, left: map<Coordinate, Resolved>,
                       right: map<Coordinate, Resolved>): seq<PreferenceChange>
  {
    if keys == [] then [] else
      var last := keys[|keys| - 1];
      ChangesOver(keys[..|keys| - 1], left, right) + ChangesAt(last, Lookup(left, last), Lookup(right, last))
  }

  function AllKeys(left: seq<Resolved>, right: seq<Resolved>): seq<Coordinate> {
    Sort(Unique(Coordinates(left) + Coordinates(right)), CoordinateOrder())
  }

  function Differences(left: seq<Resolved>, right: seq<Resolved>): seq<PreferenceChange> {
    ChangesOver(AllKeys(left, right), ByCoordinate(left), ByCoordinate(right))
  }

  /** diff_profile_snapshots */
  method DiffSnapshots(left: Snapshot, right: Snapshot) returns (r: Result<seq<PreferenceChange>>)
    ensures r.Ok? ==> r.value == Differences(left.preferences, right.preferences)
    ensures r.Ok? <==> left.subject == right.subject && left.version <= right.version
                       && (left.version == right.version ==> Differences(left.preferences, right.preferences) == [])
  {
    hide ByCoordinate, AllKeys, ChangesOver, ChangeValid, Belongs;
    NoChanges(ByCoordinate(left.preferences), ByCoordinate(right.preferences));
    if left.subject != right.subject { return Err(Validation); }
    var leftBy, rightBy := ByCoordinate(left.preferences), ByCoordinate(right.preferences);
    var keys := AllKeys(left.preferences, right.preferences);
    var changes: seq<PreferenceChange> := [];
    assert keys[..0] == [];
    for k := 0 to |keys|
      invariant changes == ChangesOver(keys[..k], leftBy, rightBy)
    {
      ChangesNext(keys, k, leftBy, rightBy);
      var before, after := Lookup(leftBy, keys[k]), Lookup(rightBy, keys[k]);
      var kind;
      if before.None? {
        assert after.Some? by { KeyIsUsed(left.preferences, right.preferences, keys[k]); }
        kind := Added;
      } else if after.None? {
        kind := Removed;
      } else if before.value.conflicts != after.value.conflicts {
        kind := ConflictChanged;
      } else if before == after {
        continue;
      } else if before.value.polarity != after.value.polarity {
        kind := Changed;
      } else {
        var delta := AbsReal(after.value.score) - AbsReal(before.value.score);
        kind := if delta > 0.0 then Strengthened else if delta < 0.0 then Weakened else Changed;
      }
      assert kind == KindOf(before, after);
      var change := PreferenceChange(keys[k], kind, before, after);
      assert ChangeValid(change) by { ChangeIsValid(keys[k], before,
                                                    after); }  // the constructor's validator accepts it
      changes := changes + [change];
    }
    assert keys[..|keys|] == keys;
    if right.version < left.version || (right.version == left.version && changes != []) { return Err(Validation); }
    r := Ok(changes);
  }

  lemma ChangeIsValid(c: Coordinate, before: Option<Resolved>, after: Option<Resolved>)
    requires before != after
    requires (before.Some? ==> before.value.at == c) && (after.Some? ==> after.value.at == c)
    ensures ChangeValid(PreferenceChange(c, KindOf(before, after), before, after))
  {
  }

  lemma NoChanges(left: map<Coordinate, Resolved>, right: map<Coordinate, Resolved>)
    ensures ChangesOver([], left, right) == []
  {
  }

  lemma ChangesNext(keys: seq<Coordinate>, k: nat, left: map<Coordinate, Resolved>, right: map<Coordinate, Resolved>)
    requires k < |keys|
    ensures ChangesOver(keys[..k + 1], left, right) ==
            ChangesOver(keys[..k], left, right) + ChangesAt(keys[k], Lookup(left, keys[k]), Lookup(right, keys[k]))
  {
    assert keys[..k + 1][..k] == keys[..k];
  }

  lemma KeyIsUsed(left: seq<Resolved>, right: seq<Resolved>, c: Coordinate)
    ensures c in AllKeys(left, right) <==> c in ByCoordinate(left) || c in ByCoordinate(right)
  {
    var all := Coordinates(left) + Coordinates(right);
    SortPermutes(Unique(all), CoordinateOrder());
    assert c in Coordinates(left) <==> c in ByCoordinate(left);
    assert c in Coordinates(right) <==> c in ByCoordinate(right);
  }

  lemma KeysIncrease(left: seq<Resolved>, right: seq<Resolved>)
    ensures Distinct(AllKeys(left, right))
  {
    var all := Unique(Coordinates(left) + Coordinates(right));
    SortPermutes(all, CoordinateOrder());
    PermutedDistinct(all, AllKeys(left, right));
  }

  /* ---- what a difference means ---- */

  /** A coordinate is listed exactly once if its preference differs and not at all if it does not. */
  lemma {:induction false} ListedIffDifferent(keys: seq<Coordinate>, left: map<Coordinate, Resolved>,
                                              right: map<Coordinate, Resolved>, c: Coordinate)
    requires Distinct(keys)
    ensures multiset(Listed(ChangesOver(keys, left, right)))[c] == if c in keys && Lookup(left, c) != Lookup(right, c)
            then 1 else 0
  {
    if keys != [] {
      var init, last := keys[..|keys| - 1], keys[|keys| - 1];
      assert keys == init + [last];
      ListedIffDifferent(init, left, right, c);
      ListedNext(ChangesOver(init, left, right), last, Lookup(left, last), Lookup(right, last));
      hide Listed, ChangesAt, Lookup;
      assert keys[|keys| - 1] !in init;
    }
  }

  lemma ListedNext(cs: seq<PreferenceChange>, c: Coordinate, before: Option<Resolved>, after: Option<Resolved>)
    ensures Listed(cs + ChangesAt(c, before, after)) == Listed(cs) + if before == after then [] else [c]
  {
    hide KindOf;
    ListedConcat(cs, ChangesAt(c, before, after));
  }

  function Listed(cs: seq<PreferenceChange>): (r: seq<Coordinate>)
    ensures |r| == |cs| && forall i | 0 <= i < |r| :: r[i] == cs[i].at
  {
    if cs == [] then [] else Listed(cs[..|cs| - 1]) + [cs[|cs| - 1].at]
  }

  lemma ListedConcat(a: seq<PreferenceChange>, b: seq<PreferenceChange>)
    ensures Listed(a + b) == Listed(a) + Listed(b)
  {
  }

  lemma EachDifferenceOnce(left: seq<Resolved>, right: seq<Resolved>, c: Coordinate)
    ensures multiset(Listed(Differences(left, right)))[c] ==
            if Lookup(ByCoordinate(left), c) != Lookup(ByCoordinate(right), c) then 1 else 0
  {
    KeysIncrease(left, right);
    KeyIsUsed(left, right, c);
    ListedIffDifferent(AllKeys(left, right), ByCoordinate(left), ByCoordinate(right), c);
  }

  function ApplyChange(m: map<Coordinate, Resolved>, c: PreferenceChange): map<Coordinate, Resolved> {
    if c.after.Some? then m[c.at := c.after.value] else m - {c.at}
  }

  function ApplyChanges(m: map<Coordinate, Resolved>, cs: seq<PreferenceChange>): map<Coordinate, Resolved> {
    if cs == [] then m else ApplyChange(ApplyChanges(m, cs[..|cs| - 1]), cs[|cs| - 1])
  }

  lemma ApplyEach(m: map<Coordinate, Resolved>, init: seq<PreferenceChange>, here: seq<PreferenceChange>)
    requires |here| <= 1
    ensures ApplyChanges(m, init + here) == if here == [] then ApplyChanges(m, init)
            else ApplyChange(ApplyChanges(m, init), here[0])
  {
    if here == [] { assert init + here == init; } else { assert (init + here)[..|init|] == init; }
  }

  lemma {:induction false} ApplyOver(keys: seq<Coordinate>, left: map<Coordinate, Resolved>,
                                     right: map<Coordinate, Resolved>, c: Coordinate)
    ensures Lookup(ApplyChanges(left, ChangesOver(keys, left, right)), c) == if c in keys then Lookup(right, c)
            else Lookup(left, c)
  {
    hide ApplyChanges, KindOf;
    if keys == [] {
      NothingApplied(left);
    } else {
      var init, last := keys[..|keys| - 1], keys[|keys| - 1];
      assert keys == init + [last];
      ApplyOver(init, left, right, c);
      ApplyOver(init, left, right, last);
      ApplyEach(left, ChangesOver(init, left, right), ChangesAt(last, Lookup(left, last), Lookup(right, last)));
    }
  }

  lemma NothingApplied(m: map<Coordinate, Resolved>)
    ensures ApplyChanges(m, []) == m
  {
  }

  /** Applying the difference to the left preferences gives the right ones. */
  lemma DifferenceIsAPatch(left: seq<Resolved>, right: seq<Resolved>)
    ensures ApplyChanges(ByCoordinate(left), Differences(left, right)) == ByCoordinate(right)
  {
    var patched := ApplyChanges(ByCoordinate(left), Differences(left, right));
    forall c ensures Lookup(patched, c) == Lookup(ByCoordinate(right), c) {
      KeyIsUsed(left, right, c);
      ApplyOver(AllKeys(left, right), ByCoordinate(left), ByCoordinate(right), c);
    }
    SameLookups(patched, ByCoordinate(right));
  }

  lemma SameLookups(a: map<Coordinate, Resolved>, b: map<Coordinate, Resolved>)
    requires forall c :: Lookup(a, c) == Lookup(b, c)
    ensures a == b
  {
    forall c ensures (c in a <==> c in b) && (c in a ==> a[c] == b[c]) { assert Lookup(a, c) == Lookup(b, c); }
  }

  function Opposite(k: ChangeKind): ChangeKind {
    match k
    case Added => Removed
    case Removed => Added
    case Strengthened => Weakened
    case Weakened => Strengthened
    case Changed => Changed
    case ConflictChanged => ConflictChanged
  }

  function Mirrored(c: PreferenceChange): PreferenceChange {
    PreferenceChange(c.at, Opposite(c.kind), c.after, c.before)
  }

  function MirrorAll(cs: seq<PreferenceChange>): seq<PreferenceChange> {
    if cs == [] then [] else MirrorAll(cs[..|cs| - 1]) + [Mirrored(cs[|cs| - 1])]
  }

  lemma MirrorNext(cs: seq<PreferenceChange>, here: seq<PreferenceChange>)
    requires |here| <= 1
    ensures MirrorAll(cs + here) == MirrorAll(cs) + if here == [] then [] else [Mirrored(here[0])]
  {
    hide Mirrored;
    if here == [] { assert cs + here == cs; } else { assert (cs + here)[..|cs|] == cs; }
  }

  lemma MirrorHere(c: Coordinate, before: Option<Resolved>, after: Option<Resolved>)
    ensures ChangesAt(c, after, before) ==
            if ChangesAt(c, before, after) == [] then [] else [Mirrored(ChangesAt(c, before, after)[0])]
  {
  }

  lemma {:induction false} MirrorOver(keys: seq<Coordinate>, left: map<Coordinate, Resolved>,
                                      right: map<Coordinate, Resolved>)
    ensures ChangesOver(keys, right, left) == MirrorAll(ChangesOver(keys, left, right))
  {
    if keys != [] {
      var init, last := keys[..|keys| - 1], keys[|keys| - 1];
      MirrorOver(init, left, right);
      MirrorNext(ChangesOver(init, left, right), ChangesAt(last, Lookup(left, last), Lookup(right, last)));
      MirrorHere(last, Lookup(left, last), Lookup(right, last));
      hide MirrorAll, Mirrored, KindOf, Lookup;
    }
  }

  /** Comparing the other way round lists the same coordinates with opposite changes. */
  lemma DifferenceMirrors(left: seq<Resolved>, right: seq<Resolved>)
    ensures Differences(right, left) == MirrorAll(Differences(left, right))
  {
    MirrorOver(AllKeys(left, right), ByCoordinate(left), ByCoordinate(right));
    var a, b := Coordinates(left) + Coordinates(right), Coordinates(right) + Coordinates(left);
    CoordinateOrderTotal();
    SortedSetIsCanonical(a, b, CoordinateOrder());
  }

  lemma {:induction false} ChangesAreValid(keys: seq<Coordinate>, left: seq<Resolved>, right: seq<Resolved>, k: nat)
    requires k < |ChangesOver(keys, ByCoordinate(left), ByCoordinate(right))|
    ensures ChangeValid(ChangesOver(keys, ByCoordinate(left), ByCoordinate(right))[k])
  {
    if keys != [] {
      var init := keys[..|keys| - 1];
      if k < |ChangesOver(init, ByCoordinate(left), ByCoordinate(right))| { ChangesAreValid(init, left, right, k); }
    }
  }

  /** A snapshot does not differ from itself, so comparing equal versions never trips the validator. */
  lemma {:induction false} NoSelfDifference(keys: seq<Coordinate>, m: map<Coordinate, Resolved>)
    ensures ChangesOver(keys, m, m) == []
  {
    if keys != [] { NoSelfDifference(keys[..|keys| - 1], m); }
  }
}
