/** The built-in aggregators over exact reals (plugins/builtins/recency.py, frequency.py). */
module Aggregation {
  import opened Domain
  import opened Sorting
  import opened Records

  /* ---- decay ---- */

  function Times(x: real, y: real): real { x * y }

  lemma TimesUnits(x: real)
    ensures Times(x, 0.0) == 0.0 && Times(0.0, x) == 0.0 && Times(x, 1.0) == x && Times(1.0, x) == x
  {
  }

  lemma TimesCommutes(x: real, y: real)
    ensures Times(x, y) == Times(y, x)
  {
  }

  lemma TimesAssociates(x: real, y: real, z: real)
    ensures Times(Times(x, y), z) == Times(x, Times(y, z))
  {
    assert (x * y) * z == x * (y * z);
  }

  lemma TimesDistributes(x: real, a: real, b: real)
    ensures Times(x, a + b) == Times(x, a) + Times(x, b)
  {
  }

  lemma TimesMonotone(x: real, a: real, b: real)
    requires x >= 0.0 && a <= b
    ensures Times(x, a) <= Times(x, b)
  {
    assert x * (b - a) >= 0.0;
    assert x * (b - a) == x * b - x * a;
  }

  lemma TimesStrict(x: real, a: real, b: real)
    requires x > 0.0 && a < b
    ensures Times(x, a) < Times(x, b)
  {
    assert x * (b - a) > 0.0;
    assert x * (b - a) == x * b - x * a;
  }

  predicate Multiplies(w: nat -> real, a: nat, b: nat) { w(a + b) == Times(w(a), w(b)) }
  predicate InUnit(w: nat -> real, a: nat) { 0.0 < w(a) <= 1.0 }

  /** exp(-c * age): 1 at age 0, multiplicative, positive and never above 1. */
  ghost predicate IsDecay(w: nat -> real) {
    w(0) == 1.0 && (forall a: nat, b: nat :: Multiplies(w, a, b)) && forall a: nat :: InUnit(w, a)
  }

  function Halving(k: nat): real { if k == 0 then 1.0 else Halving(k - 1) / 2.0 }

  lemma HalfProduct(x: real, y: real)
    ensures Times(x, y) / 2.0 == Times(x, y / 2.0)
  {
  }

  lemma {:induction false} HalvingMultiplies(a: nat, b: nat)
    ensures Halving(a + b) == Times(Halving(a), Halving(b)) && 0.0 < Halving(b) <= 1.0
  {
    hide Times;
    if b == 0 {
      TimesUnits(Halving(a));
    } else {
      HalvingMultiplies(a, b - 1);
      HalfProduct(Halving(a), Halving(b - 1));
      assert Halving(a + b) == Halving(a + (b - 1)) / 2.0;
    }
  }

  /** The hypotheses on the weight are met: with time counted in half-lives it is 1/2 per unit. */
  lemma HalvingIsDecay()
    ensures IsStrictDecay(Halving) && Halving(1) == 0.5
  {
    hide Times;
    forall a: nat, b: nat ensures Multiplies(Halving, a, b) { HalvingMultiplies(a, b); }
    forall a: nat ensures InUnit(Halving, a) { HalvingMultiplies(0, a); }
    assert Halving(0) == 1.0;
  }

  /* ---- scores ---- */

  function Signed(o: Observation): real {
    match o.draft.polarity
    case Positive => AbsReal(o.draft.score)
    case Negative => -AbsReal(o.draft.score)
    case _ => o.draft.score
  }

  function Age(at: Time, now: Time): nat { Max(0, now - at) }

  function WeightSum(obs: seq<Observation>, now: Time, w: nat -> real): real {
    if obs == [] then 0.0 else w(Age(obs[0].draft.occurredAt, now)) + WeightSum(obs[1..], now, w)
  }

  function ScoreSum(obs: seq<Observation>, now: Time, w: nat -> real): real {
    if obs == [] then 0.0 else Times(w(Age(obs[0].draft.occurredAt, now)), Signed(obs[0])) + ScoreSum(obs[1..], now, w)
  }

  lemma {:induction false} WeightsPositive(obs: seq<Observation>, now: Time, w: nat -> real)
    requires IsDecay(w)
    ensures WeightSum(obs, now, w) >= 0.0 && (obs != [] ==> WeightSum(obs, now, w) > 0.0)
  {
    if obs != [] {
      assert InUnit(w, Age(obs[0].draft.occurredAt, now));
      WeightsPositive(obs[1..], now, w);
    }
  }

  /** The quotient; the weights of observations never add up to zero (WeightsPositive). */
  function WeightedAverage(obs: seq<Observation>, now: Time, w: nat -> real): real {
    if WeightSum(obs, now, w) == 0.0 then 0.0 else ScoreSum(obs, now, w) / WeightSum(obs, now, w)
  }

  ghost predicate NoneAfter(obs: seq<Observation>, now: Time) { forall o | o in obs :: o.draft.occurredAt <= now }

  lemma ShiftArithmetic(d: real, x: real, score: real, weights: real, scores: real)
    ensures Times(d, x) + Times(d, weights) == Times(d, x + weights)
    ensures Times(Times(d, x), score) + Times(d, scores) == Times(d, Times(x, score) + scores)
  {
    hide Times;
    TimesDistributes(d, x, weights);
    TimesAssociates(d, x, score);
    TimesDistributes(d, Times(x, score), scores);
  }

  /** How much an observation ages from s to t; while it is in the future it does not. */
  function Aging(o: Observation, s: Time, t: Time): int { Age(o.draft.occurredAt, t) - Age(o.draft.occurredAt, s) }

  /** All observations age by the same amount. */
  ghost predicate AgesEvenly(obs: seq<Observation>, s: Time, t: Time) {
    forall a, b | a in obs && b in obs :: Aging(a, s, t) == Aging(b, s, t)
  }

  lemma {:induction false} SumsShift(obs: seq<Observation>, s: Time, t: Time, d: nat, w: nat -> real)
    requires IsDecay(w) && forall o | o in obs :: Aging(o, s, t) == d
    ensures WeightSum(obs, t, w) == Times(w(d), WeightSum(obs, s, w))
    ensures ScoreSum(obs, t, w) == Times(w(d), ScoreSum(obs, s, w))
  {
    hide Times, Signed;
    TimesUnits(w(d));
    if obs != [] {
      SumsShift(obs[1..], s, t, d, w);
      var age := Age(obs[0].draft.occurredAt, s);
      assert obs[0] in obs;
      assert Age(obs[0].draft.occurredAt, t) == d + age;
      assert Multiplies(w, d, age);
      ShiftArithmetic(w(d), w(age), Signed(obs[0]), WeightSum(obs[1..], s, w), ScoreSum(obs[1..], s, w));
    }
  }

  lemma ScaledRatio(c: real, s: real, t: real)
    requires c > 0.0 && t > 0.0
    ensures Times(c, t) > 0.0 && Times(c, s) / Times(c, t) == s / t
  {
    var q := s / t;
    assert Times(q, t) == s;
    assert Times(c, s) == Times(q, Times(c, t)) && Times(c, t) > 0.0 by {
      hide Times;
      TimesAssociates(c, q, t);
      TimesAssociates(q, c, t);
      TimesCommutes(c, q);
      TimesUnits(c);
      TimesStrict(c, 0.0, t);
    }
    Quotient(Times(c, s), q, Times(c, t));
  }

  lemma Quotient(x: real, q: real, y: real)
    requires y != 0.0 && x == Times(q, y)
    ensures x / y == q
  {
  }

  lemma ShiftedAverage(obs: seq<Observation>, s: Time, t: Time, d: nat, w: nat -> real)
    requires IsDecay(w) && forall o | o in obs :: Aging(o, s, t) == d
    ensures WeightedAverage(obs, s, w) == WeightedAverage(obs, t, w)
  {
    hide Times;
    SumsShift(obs, s, t, d, w);
    WeightsPositive(obs, s, w);
    WeightsPositive(obs, t, w);
    assert InUnit(w, d);
    if obs != [] { ScaledRatio(w(d), ScoreSum(obs, s, w), WeightSum(obs, s, w)); }
  }

  lemma EvenAgingKeepsAverage(obs: seq<Observation>, s: Time, t: Time, w: nat -> real)
    requires IsDecay(w) && AgesEvenly(obs, s, t)
    ensures WeightedAverage(obs, s, w) == WeightedAverage(obs, t, w)
  {
    if obs != [] {
      var o := obs[0];
      assert o in obs;
      if s <= t {
        ShiftedAverage(obs, s, t, Aging(o, s, t), w);
      } else {
        ShiftedAverage(obs, t, s, Aging(o, t, s), w);
      }
    }
  }

  lemma PastAgesEvenly(obs: seq<Observation>, now: Time, later: Time)
    requires NoneAfter(obs, now) && now <= later
    ensures AgesEvenly(obs, now, later)
  {
  }

  /** When the score is recomputed does not matter, once every observation has happened. */
  lemma AverageIsTimeless(obs: seq<Observation>, now: Time, later: Time, w: nat -> real)
    requires IsDecay(w) && NoneAfter(obs, now) && now <= later
    ensures WeightedAverage(obs, now, w) == WeightedAverage(obs, later, w)
  {
    PastAgesEvenly(obs, now, later);
    EvenAgingKeepsAverage(obs, now, later, w);
  }

  /* ---- when recomputing changes an average ---- */

  /** A decay that does fade. */
  ghost predicate IsStrictDecay(w: nat -> real) { IsDecay(w) && w(1) < 1.0 }

  lemma StrictDecayDrops(w: nat -> real, a: nat, b: nat)
    requires IsStrictDecay(w) && a < b
    ensures w(b) < w(a)
  {
    assert Multiplies(w, a, b - a) && Multiplies(w, 1, b - a - 1) && InUnit(w, a) && InUnit(w, b - a - 1)
           && InUnit(w, 1);
    hide IsDecay;
    ProductAtMost(w(1), w(b - a - 1));
    ProductAtMost(w(a), w(b - a));
  }

  lemma ProductAtMost(x: real, y: real)
    requires 0.0 < x && y <= 1.0
    ensures Times(x, y) <= x && (y < 1.0 ==> Times(x, y) < x)
  {
    hide Times;
    TimesUnits(x);
    TimesMonotone(x, y, 1.0);
    if y < 1.0 { TimesStrict(x, y, 1.0); }
  }

  /** The same observations with other scores. */
  ghost predicate SameTimes(obs: seq<Observation>, other: seq<Observation>) {
    |obs| == |other| && forall i | 0 <= i < |obs| :: obs[i].draft.occurredAt == other[i].draft.occurredAt
  }

  /** Score 1 for the i-th observation and 0 for the others. */
  function Indicator(obs: seq<Observation>, i: int): (r: seq<Observation>)
    ensures SameTimes(obs, r)
  {
    if obs == [] then [] else
      [obs[0].(draft := obs[0].draft.(score := if i == 0 then 1.0 else 0.0, polarity := Neutral))]
        + Indicator(obs[1..], i - 1)
  }

  lemma {:induction false} IndicatorSums(obs: seq<Observation>, i: int, now: Time, w: nat -> real)
    ensures WeightSum(Indicator(obs, i), now, w) == WeightSum(obs, now, w)
    ensures ScoreSum(Indicator(obs, i), now, w) == if 0 <= i < |obs| then w(Age(obs[i].draft.occurredAt, now)) else 0.0
  {
    hide Times;
    if obs != [] {
      IndicatorSums(obs[1..], i - 1, now, w);
      var first := Indicator(obs, i)[0];
      assert Indicator(obs, i)[1..] == Indicator(obs[1..], i - 1);
      assert Signed(first) == if i == 0 then 1.0 else 0.0;
      TimesUnits(w(Age(first.draft.occurredAt, now)));
    }
  }

  lemma CrossProduct(x: real, s: real, y: real, t: real)
    requires s > 0.0 && t > 0.0 && x / s == y / t
    ensures Times(x, t) == Times(y, s)
  {
    var q := x / s;
    assert x == Times(q, s) && y == Times(q, t);
    hide Times;
    TimesAssociates(q, s, t);
    TimesAssociates(q, t, s);
    TimesCommutes(s, t);
  }

  /** If the average keeps for the i-th indicator, all weights together fade as the i-th does. */
  lemma FadesLikeTheWhole(obs: seq<Observation>, i: nat, s: Time, t: Time, w: nat -> real)
    requires i < |obs| && IsDecay(w) && s <= t
    requires WeightedAverage(Indicator(obs, i), s, w) == WeightedAverage(Indicator(obs, i), t, w)
    ensures Times(w(Aging(obs[i], s, t)), WeightSum(obs, s, w)) == WeightSum(obs, t, w)
  {
    hide Times, Indicator, WeightSum, ScoreSum, SameTimes;
    AgingForward(obs[i], s, t);
    WeightsPositive(obs, s, w);
    WeightsPositive(obs, t, w);
    IndicatorSums(obs, i, s, w);
    IndicatorSums(obs, i, t, w);
    var age, d := Age(obs[i].draft.occurredAt, s), Aging(obs[i], s, t);
    assert Multiplies(w, d, age) && InUnit(w, age);
    CrossProduct(w(age), WeightSum(obs, s, w), w(d + age), WeightSum(obs, t, w));
    CancelFactor(w(age), w(d), WeightSum(obs, s, w), WeightSum(obs, t, w));
  }

  lemma CancelFactor(x: real, y: real, s: real, t: real)
    requires x > 0.0 && Times(x, t) == Times(Times(y, x), s)
    ensures Times(y, s) == t
  {
    hide Times;
    TimesCommutes(y, x);
    TimesAssociates(x, y, s);
    if Times(y, s) < t { TimesStrict(x, Times(y, s), t); }
    if t < Times(y, s) { TimesStrict(x, t, Times(y, s)); }
  }

  lemma SameFactor(x: real, y: real, s: real)
    requires s > 0.0 && Times(x, s) == Times(y, s)
    ensures x == y
  {
    hide Times;
    TimesCommutes(x, s);
    TimesCommutes(y, s);
    if x < y { TimesStrict(s, x, y); }
    if y < x { TimesStrict(s, y, x); }
  }

  ghost predicate AverageKeeps(obs: seq<Observation>, s: Time, t: Time, w: nat -> real) {
    forall other | SameTimes(obs, other) :: WeightedAverage(other, s, w) == WeightedAverage(other, t, w)
  }

  lemma KeptAveragePair(obs: seq<Observation>, i: nat, j: nat, s: Time, t: Time, w: nat -> real)
    requires i < |obs| && j < |obs| && IsStrictDecay(w) && s <= t && AverageKeeps(obs, s, t, w)
    ensures Aging(obs[i], s, t) == Aging(obs[j], s, t)
  {
    hide IsStrictDecay, IsDecay, Times, WeightedAverage, WeightSum, Age, Indicator, SameTimes;
    StrictIsDecay(w);
    FadesLikeTheWhole(obs, i, s, t, w);
    FadesLikeTheWhole(obs, j, s, t, w);
    WeightsPositive(obs, s, w);
    AgingForward(obs[i], s, t);
    AgingForward(obs[j], s, t);
    var a, b := Aging(obs[i], s, t), Aging(obs[j], s, t);
    SameFactor(w(a), w(b), WeightSum(obs, s, w));
    if a < b { StrictDecayDrops(w, a, b); }
    if b < a { StrictDecayDrops(w, b, a); }
  }

  lemma AgingForward(o: Observation, s: Time, t: Time)
    requires s <= t
    ensures Aging(o, s, t) >= 0
  {
  }

  lemma KeptAverageAgesEvenly(obs: seq<Observation>, s: Time, t: Time, w: nat -> real)
    requires IsStrictDecay(w) && s <= t && AverageKeeps(obs, s, t, w)
    ensures AgesEvenly(obs, s, t)
  {
    hide IsStrictDecay, AverageKeeps, Aging;
    forall a, b | a in obs && b in obs ensures Aging(a, s, t) == Aging(b, s, t) {
      var i :| 0 <= i < |obs| && obs[i] == a;
      var j :| 0 <= j < |obs| && obs[j] == b;
      KeptAveragePair(obs, i, j, s, t, w);
    }
  }

  lemma StrictIsDecay(w: nat -> real)
    requires IsStrictDecay(w)
    ensures IsDecay(w)
  {
  }

  /** Between two times the average stays the same whatever the scores if and only if all observations
      age by the same amount: none of them is overtaken on its own by its time of occurrence. */
  lemma AverageKeepsIffAgingIsEven(obs: seq<Observation>, s: Time, t: Time, w: nat -> real)
    requires IsStrictDecay(w)
    ensures AverageKeeps(obs, s, t, w) <==> AgesEvenly(obs, s, t)
  {
    hide WeightedAverage, IsDecay;
    if AgesEvenly(obs, s, t) {
      forall other | SameTimes(obs, other) ensures WeightedAverage(other, s, w) == WeightedAverage(other, t, w) {
        SameAging(obs, other, s, t);
        EvenAgingKeepsAverage(other, s, t, w);
      }
    }
    if AverageKeeps(obs, s, t, w) {
      if s <= t { KeptAverageAgesEvenly(obs, s, t, w); } else { KeptAverageAgesEvenly(obs, t, s, w); }
    }
  }

  lemma SameAging(obs: seq<Observation>, other: seq<Observation>, s: Time, t: Time)
    requires SameTimes(obs, other) && AgesEvenly(obs, s, t)
    ensures AgesEvenly(other, s, t)
  {
    forall a, b | a in other && b in other ensures Aging(a, s, t) == Aging(b, s, t) {
      var i :| 0 <= i < |other| && other[i] == a;
      var j :| 0 <= j < |other| && other[j] == b;
      assert obs[i] in obs && obs[j] in obs;
    }
  }

  /** It can change: an observation still in the future does not age, one in the past does. */
  lemma AverageMovesBeforehand()
    ensures exists obs: seq<Observation>, now: Time, later: Time ::
              now <= later && WeightedAverage(obs, now, Halving) != WeightedAverage(obs, later, Halving)
  {
    var s := SubjectRef("t", "n", "s");
    var early := Observation(0, s, ObservationDraft("d", "v", "", 1.0, Positive, 1.0, 0), 0, 0, "x", "1", 0);
    var late := Observation(1, s, ObservationDraft("d", "v", "", 1.0, Negative, 1.0, 1), 0, 0, "x", "1", 0);
    var obs := [early, late];
    TwoSums(early, late, 0);
    TwoSums(early, late, 1);
    assert Halving(0) == 1.0 && Halving(1) == 0.5;
    assert WeightedAverage(obs, 0, Halving) == 0.0 && WeightedAverage(obs, 1, Halving) == -0.5 / 1.5;
  }

  lemma TwoSums(a: Observation, b: Observation, now: Time)
    ensures WeightSum([a, b], now, Halving) ==
              Halving(Age(a.draft.occurredAt, now)) + Halving(Age(b.draft.occurredAt, now))
    ensures ScoreSum([a, b], now, Halving) ==
            Times(Halving(Age(a.draft.occurredAt, now)), Signed(a))
              + Times(Halving(Age(b.draft.occurredAt, now)), Signed(b))
  {
    hide Halving, Times, Signed;
    assert [a, b][1..] == [b] && [b][1..] == [];
    assert WeightSum([b], now, Halving) == Halving(Age(b.draft.occurredAt, now));
    assert ScoreSum([b], now, Halving) == Times(Halving(Age(b.draft.occurredAt, now)), Signed(b));
  }

  lemma BoundArithmetic(x: real, score: real, lo: real, hi: real, weights: real, scores: real)
    requires x >= 0.0 && lo <= score <= hi && Times(lo, weights) <= scores <= Times(hi, weights)
    ensures Times(lo, x + weights) <= Times(x, score) + scores <= Times(hi, x + weights)
  {
    hide Times;
    TimesDistributes(lo, x, weights);
    TimesDistributes(hi, x, weights);
    TimesCommutes(lo, x);
    TimesCommutes(hi, x);
    TimesMonotone(x, lo, score);
    TimesMonotone(x, score, hi);
  }

  lemma {:induction false} SumsBounded(obs: seq<Observation>, now: Time, w: nat -> real, lo: real, hi: real)
    requires IsDecay(w) && forall o | o in obs :: lo <= Signed(o) <= hi
    ensures Times(lo, WeightSum(obs, now, w)) <= ScoreSum(obs, now, w) <= Times(hi, WeightSum(obs, now, w))
  {
    hide Times, Signed;
    TimesUnits(lo);
    TimesUnits(hi);
    if obs != [] {
      SumsBounded(obs[1..], now, w, lo, hi);
      assert obs[0] in obs;
      var age := Age(obs[0].draft.occurredAt, now);
      assert InUnit(w, age);
      BoundArithmetic(w(age), Signed(obs[0]), lo, hi, WeightSum(obs[1..], now, w), ScoreSum(obs[1..], now, w));
    }
  }

  lemma RatioBounded(lo: real, s: real, t: real, hi: real)
    requires t > 0.0 && Times(lo, t) <= s <= Times(hi, t)
    ensures lo <= s / t <= hi
  {
    var q := s / t;
    assert Times(q, t) == s;
    hide Times;
    TimesCommutes(lo, t);
    TimesCommutes(hi, t);
    TimesCommutes(q, t);
    if q < lo { TimesStrict(t, q, lo); }
    if hi < q { TimesStrict(t, hi, q); }
  }

  /** A decayed score lies between the least and the greatest signed score. */
  lemma AverageIsBounded(obs: seq<Observation>, now: Time, w: nat -> real, lo: real, hi: real)
    requires IsDecay(w) && obs != [] && forall o | o in obs :: lo <= Signed(o) <= hi
    ensures lo <= WeightedAverage(obs, now, w) <= hi
  {
    SumsBounded(obs, now, w, lo, hi);
    WeightsPositive(obs, now, w);
    hide IsDecay;
    RatioBounded(lo, ScoreSum(obs, now, w), WeightSum(obs, now, w), hi);
  }

  /* ---- counts, evidence, confidence ---- */

  function CountOf(obs: seq<Observation>, p: Polarity): nat {
    if obs == [] then 0 else (if obs[0].draft.polarity == p then 1 else 0) + CountOf(obs[1..], p)
  }

  lemma {:induction false} CountsFit(obs: seq<Observation>)
    ensures CountOf(obs, Positive) + CountOf(obs, Negative) <= |obs|
  {
    if obs != [] { CountsFit(obs[1..]); }
  }

  function EvidenceOf(obs: seq<Observation>): (r: seq<Id>)
    ensures |r| == |obs| && forall i | 0 <= i < |r| :: r[i] == obs[i].evidenceId
  {
    if obs == [] then [] else [obs[0].evidenceId] + EvidenceOf(obs[1..])
  }

  /** The loop of _unique_evidence_ids: first occurrences in order. */
  method UniqueEvidenceIds(obs: seq<Observation>) returns (result: seq<Id>)
    ensures result == Unique(EvidenceOf(obs))
  {
    hide EvidenceOf, Distinct;
    var ids := EvidenceOf(obs);
    var seen: set<Id> := {};
    result := [];
    for i := 0 to |obs|
      invariant result == Unique(ids[..i])
      invariant forall e :: e in seen <==> e in result
    {
      assert ids[..i + 1][..i] == ids[..i];
      if obs[i].evidenceId !in seen {
        seen := seen + {obs[i].evidenceId};
        result := result + [obs[i].evidenceId];
      }
    }
    assert ids[..|obs|] == ids;
  }

  function Consistency(n: nat, positive: nat, negative: nat): real
    requires n > 0 && positive + negative <= n
  {
    Max(positive, Max(negative, n - positive - negative)) as real / n as real
  }

  function RawConfidence(n: nat, positive: nat, negative: nat, freshness: real): real
    requires n > 0 && positive + negative <= n
  {
    Times(Times(MinReal(1.0, n as real / 5.0), Consistency(n, positive, negative)), freshness)
  }

  function Confidence(n: nat, positive: nat, negative: nat, freshness: real): real
    requires n > 0 && positive + negative <= n
  {
    MinReal(1.0, MaxReal(0.0, RawConfidence(n, positive, negative, freshness)))
  }

  lemma ConsistencyBounds(n: nat, positive: nat, negative: nat)
    requires n > 0 && positive + negative <= n
    ensures 1.0 / 3.0 <= Consistency(n, positive, negative) <= 1.0
  {
    var m := Max(positive, Max(negative, n - positive - negative));
    assert 3 * m >= n && m <= n;
    ThirdOf(n as real);
    TimesUnits(n as real);
    hide Times;
    RatioBounded(1.0 / 3.0, m as real, n as real, 1.0);
  }

  lemma ThirdOf(x: real)
    ensures Times(1.0 / 3.0, x) == x / 3.0 && Times(x, 1.0 / 3.0) == x / 3.0
  {
  }

  lemma ProductBounds(x: real, y: real)
    requires 0.0 <= x <= 1.0 && 0.0 <= y <= 1.0
    ensures 0.0 <= Times(x, y) <= 1.0
  {
    hide Times;
    TimesUnits(x);
    TimesMonotone(x, 0.0, y);
    TimesMonotone(x, y, 1.0);
  }

  /** Over the reals the clamp never acts, and confidence is at least a third of sample size times freshness. */
  lemma ConfidenceBounds(n: nat, positive: nat, negative: nat, freshness: real)
    requires n > 0 && positive + negative <= n && 0.0 < freshness <= 1.0
    ensures Confidence(n, positive, negative, freshness) == RawConfidence(n, positive, negative, freshness)
    ensures Times(MinReal(1.0, n as real / 5.0) / 3.0, freshness) <= Confidence(n, positive, negative, freshness) <= 1.0
  {
    hide Times, Consistency;
    ConsistencyBounds(n, positive, negative);
    var sample, c := MinReal(1.0, n as real / 5.0), Consistency(n, positive, negative);
    ProductBounds(sample, c);
    ProductBounds(Times(sample, c), freshness);
    ThirdOf(sample);
    TimesMonotone(sample, 1.0 / 3.0, c);
    TimesCommutes(sample / 3.0, freshness);
    TimesCommutes(Times(sample, c), freshness);
    TimesMonotone(freshness, sample / 3.0, Times(sample, c));
  }

  /* ---- the aggregators ---- */

  /** sorted by (occurred_at, str(id)) */
  function ByTime(): (Observation, Observation) -> bool {
    (a: Observation, b: Observation) =>
      a.draft.occurredAt < b.draft.occurredAt || (a.draft.occurredAt == b.draft.occurredAt && a.id <= b.id)
  }

  function Ordered(obs: seq<Observation>): seq<Observation> { Sort(obs, ByTime()) }

  lemma ByTimeTotal()
    ensures TotalPreorder(ByTime())
  {
  }

  lemma OrderedParts(obs: seq<Observation>)
    ensures Sorted(Ordered(obs), ByTime()) && multiset(Ordered(obs)) == multiset(obs)
    ensures |Ordered(obs)| == |obs| && forall o :: o in Ordered(obs) <==> o in obs
  {
    ByTimeTotal();
    SortSorted(obs, ByTime());
    SortPermutes(obs, ByTime());
  }

  /** The part of a draft both aggregators compute alike, with the two scores filled in. */
  function Draft(ordered: seq<Observation>, longTerm: real, shortTerm: real, freshness: real): StateDraft
    requires ordered != [] && CountOf(ordered, Positive) + CountOf(ordered, Negative) <= |ordered|
  {
    var latest := ordered[|ordered| - 1];
    var positive, negative := CountOf(ordered, Positive), CountOf(ordered, Negative);
    StateDraft(latest.draft.dimension, latest.draft.valueKey, latest.draft.value, longTerm, shortTerm,
               Confidence(|ordered|, positive, negative, freshness),
               positive, negative, |ordered| - positive - negative,
               ordered[0].draft.occurredAt, latest.draft.occurredAt, Unique(EvidenceOf(ordered)))
  }

  function Recency(obs: seq<Observation>, now: Time, long: nat -> real, short: nat -> real,
                   fade: nat -> real): Result<StateDraft>
  {
    if obs == [] then Err(Validation) else
      var ordered := Ordered(obs);
      OrderedParts(obs);
      CountsFit(ordered);
      Ok(Draft(ordered, WeightedAverage(ordered, now, long), WeightedAverage(ordered, now, short),
               fade(Age(ordered[|ordered| - 1].draft.occurredAt, now))))
  }

  function SignedSum(obs: seq<Observation>): real { if obs == [] then 0.0 else Signed(obs[0]) + SignedSum(obs[1..]) }

  function Average(obs: seq<Observation>): real { if obs == [] then 0.0 else SignedSum(obs) / |obs| as real }

  /** The last `count` of a list; the whole list if it is shorter. */
  function Recent(obs: seq<Observation>, count: nat): seq<Observation> {
    if |obs| <= count then obs else obs[|obs| - count..]
  }

  function Frequency(obs: seq<Observation>, now: Time, recentCount: nat, fade: nat -> real): Result<StateDraft> {
    if obs == [] then Err(Validation) else
      var ordered := Ordered(obs);
      OrderedParts(obs);
      CountsFit(ordered);
      Ok(Draft(ordered, Average(ordered), Average(Recent(ordered, recentCount)),
               fade(Age(ordered[|ordered| - 1].draft.occurredAt, now))))
  }

  lemma {:induction false} SignedSumBounded(obs: seq<Observation>)
    requires forall o | o in obs :: Scored(Signed(o))
    ensures -(|obs| as real) <= SignedSum(obs) <= |obs| as real
  {
    if obs != [] {
      assert obs[0] in obs;
      SignedSumBounded(obs[1..]);
    }
  }

  lemma AverageScored(obs: seq<Observation>)
    requires forall o | o in obs :: Scored(Signed(o))
    ensures Scored(Average(obs))
  {
    SignedSumBounded(obs);
    if obs != [] { RatioBounded(-1.0, SignedSum(obs), |obs| as real, 1.0); }
  }

  /** What a draft says of the observations it came from. */
  ghost predicate Describes(d: StateDraft, obs: seq<Observation>) {
    && d.positive + d.negative + d.neutral == |obs|
    && (forall e :: e in d.evidenceIds <==> exists o :: o in obs && o.evidenceId == e)
    && (forall o | o in obs :: d.firstAt <= o.draft.occurredAt <= d.lastAt)
    && (exists o :: o in obs && o.draft.occurredAt == d.firstAt)
    && (exists o :: o in obs && o.draft.occurredAt == d.lastAt && o.draft.value == d.value)
  }

  lemma DraftDescribes(obs: seq<Observation>, longTerm: real, shortTerm: real, freshness: real)
    requires obs != [] && 0.0 < freshness <= 1.0 && Scored(longTerm) && Scored(shortTerm)
    ensures CountOf(Ordered(obs), Positive) + CountOf(Ordered(obs), Negative) <= |Ordered(obs)| == |obs|
    ensures StateValid(Draft(Ordered(obs), longTerm, shortTerm, freshness))
    ensures Describes(Draft(Ordered(obs), longTerm, shortTerm, freshness), obs)
  {
    hide Ordered, ByTime, EvidenceOf, Unique, Confidence, CountOf, Distinct;
    var ordered := Ordered(obs);
    OrderedParts(obs);
    CountsFit(ordered);
    ConfidenceBounds(|ordered|, CountOf(ordered, Positive), CountOf(ordered, Negative), freshness);
    EvidenceCovers(ordered, obs);
    EndsAreExtreme(obs);
    UniqueIsDistinct(EvidenceOf(ordered));
  }

  lemma UniqueIsDistinct(ids: seq<Id>)
    ensures Distinct(Unique(ids))
  {
  }

  lemma EndsAreExtreme(obs: seq<Observation>)
    requires obs != []
    ensures |Ordered(obs)| == |obs| && Ordered(obs)[0] in obs && Ordered(obs)[|obs| - 1] in obs
    ensures forall o | o in obs ::
              Ordered(obs)[0].draft.occurredAt <= o.draft.occurredAt <= Ordered(obs)[|obs| - 1].draft.occurredAt
  {
    hide Ordered;
    OrderedParts(obs);
    var ordered := Ordered(obs);
    assert ordered[0] in ordered && ordered[|obs| - 1] in ordered;
    forall o | o in obs
      ensures ordered[0].draft.occurredAt <= o.draft.occurredAt <= ordered[|obs| - 1].draft.occurredAt
    {
      var i :| 0 <= i < |ordered| && ordered[i] == o;
      assert i != 0 ==> ByTime()(ordered[0], ordered[i]);
      assert i != |ordered| - 1 ==> ByTime()(ordered[i], ordered[|ordered| - 1]);
    }
  }

  lemma EvidenceCovers(ordered: seq<Observation>, obs: seq<Observation>)
    requires obs != [] && |ordered| == |obs| && forall o :: o in ordered <==> o in obs
    ensures var r := Unique(EvidenceOf(ordered)); r != [] && forall e :: e in r <==>
              exists o :: o in obs && o.evidenceId == e
  {
    var ids := EvidenceOf(ordered);
    assert ids[0] in ids;
    assert ids[0] in Unique(ids);
    forall e ensures e in ids <==> exists o :: o in obs && o.evidenceId == e {
      if e in ids {
        var i :| 0 <= i < |ids| && ids[i] == e;
        assert ordered[i] in obs;
      }
      if o :| o in obs && o.evidenceId == e {
        var i :| 0 <= i < |ordered| && ordered[i] == o;
        assert ids[i] == e;
      }
    }
  }

  lemma SignedScored(o: Observation)
    requires ObservationValid(o.draft)
    ensures Scored(Signed(o))
  {
  }

  ghost predicate AllValid(obs: seq<Observation>) { forall o | o in obs :: ObservationValid(o.draft) }

  /** Exponential decay turns any valid observations into a valid draft that describes them. */
  lemma RecencyDescribes(obs: seq<Observation>, now: Time, long: nat -> real, short: nat -> real, fade: nat -> real)
    requires obs != [] && AllValid(obs) && IsDecay(long) && IsDecay(short) && IsDecay(fade)
    ensures Recency(obs, now, long, short, fade).Ok?
    ensures StateValid(Recency(obs, now, long, short, fade).value)
            && Describes(Recency(obs, now, long, short, fade).value, obs)
  {
    hide StateValid, Describes, WeightedAverage, Draft;
    var ordered := Ordered(obs);
    OrderedParts(obs);
    forall o | o in ordered ensures -1.0 <= Signed(o) <= 1.0 { SignedScored(o); }
    AverageIsBounded(ordered, now, long, -1.0, 1.0);
    AverageIsBounded(ordered, now, short, -1.0, 1.0);
    assert InUnit(fade, Age(ordered[|ordered| - 1].draft.occurredAt, now));
    DraftDescribes(obs, WeightedAverage(ordered, now, long), WeightedAverage(ordered, now, short),
                   fade(Age(ordered[|ordered| - 1].draft.occurredAt, now)));
  }

  lemma FrequencyDescribes(obs: seq<Observation>, now: Time, recentCount: nat, fade: nat -> real)
    requires obs != [] && AllValid(obs) && IsDecay(fade)
    ensures Frequency(obs, now, recentCount, fade).Ok?
    ensures StateValid(Frequency(obs, now, recentCount, fade).value)
            && Describes(Frequency(obs, now, recentCount, fade).value, obs)
  {
    hide StateValid, Describes, Average, Draft;
    var ordered := Ordered(obs);
    OrderedParts(obs);
    forall o | o in ordered ensures Scored(Signed(o)) { SignedScored(o); }
    AverageScored(ordered);
    forall o | o in Recent(ordered, recentCount) ensures o in ordered {}
    AverageScored(Recent(ordered, recentCount));
    assert InUnit(fade, Age(ordered[|ordered| - 1].draft.occurredAt, now));
    DraftDescribes(obs, Average(ordered), Average(Recent(ordered, recentCount)),
                   fade(Age(ordered[|ordered| - 1].draft.occurredAt, now)));
  }

  ghost predicate DistinctIds(obs: seq<Observation>) {
    forall a, b | a in obs && b in obs && a.id == b.id :: a == b
  }

  /** Neither aggregator depends on the order it is given the observations in. */
  lemma AggregatesIgnoreOrder(a: seq<Observation>, b: seq<Observation>, now: Time, long: nat -> real,
                              short: nat -> real, fade: nat -> real, recentCount: nat)
    requires multiset(a) == multiset(b) && DistinctIds(a)
    ensures Recency(a, now, long, short, fade) == Recency(b, now, long, short, fade)
    ensures Frequency(a, now, recentCount, fade) == Frequency(b, now, recentCount, fade)
  {
    ByTimeTotal();
    forall i, j | 0 <= i < |a| && 0 <= j < |a| && ByTime()(a[i], a[j]) && ByTime()(a[j], a[i]) ensures a[i] == a[j] {
      assert a[i] in a && a[j] in a;
    }
    SortIgnoresOrder(a, b, ByTime());
    SameElements(a, b);
  }

  /** All of a draft but its confidence, which fades with the age of the last observation. */
  ghost predicate SameButConfidence(a: StateDraft, b: StateDraft) { a == b.(confidence := a.confidence) }

  /** A decayed draft can be recomputed at any time without changing anything but its confidence, as long as
      its observations age by the same amount: always once all of them have happened. */
  lemma RecencyIsTimeless(obs: seq<Observation>, now: Time, later: Time, long: nat -> real, short: nat -> real,
                          fade: nat -> real)
    requires obs != [] && IsDecay(long) && IsDecay(short) && AgesEvenly(obs, now, later)
    ensures Recency(obs, now, long, short, fade).Ok? && Recency(obs, later, long, short, fade).Ok?
    ensures SameButConfidence(Recency(obs, later, long, short, fade).value, Recency(obs, now, long, short, fade).value)
  {
    hide WeightedAverage, Aging, IsDecay;
    OrderedParts(obs);
    EvenAgingKeepsAverage(Ordered(obs), now, later, long);
    EvenAgingKeepsAverage(Ordered(obs), now, later, short);
  }
}
