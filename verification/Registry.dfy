/** The registered aggregators and the order in which they run (plugins/registry.py). */
module Registry {
  import opened Domain
  import opened Sorting
  import opened Records

  datatype Aggregator = Aggregator(
    name: string, version: string, dimension: string, run: (seq<Observation>, Time) -> Result<StateDraft>)
  {
    function Key(): (string, string, string) { (name, version, dimension) }
  }

  /** No two aggregators agree in name, version and dimension. */
  ghost predicate Registered(aggs: seq<Aggregator>) {
    forall i, j | 0 <= i < j < |aggs| :: aggs[i].Key() != aggs[j].Key()
  }

  predicate AppliesTo(a: Aggregator, dimension: string) { a.dimension == dimension || a.dimension == "*" }

  /** Versions are compared as texts, and so are dimensions. */
  function VersionOrder(): (Aggregator, Aggregator) -> bool {
    Lex(ByString((a: Aggregator) => a.version), ByString((a: Aggregator) => a.dimension))
  }

  function RegistryOrder(): (Aggregator, Aggregator) -> bool {
    Lex(ByString((a: Aggregator) => a.name), VersionOrder())
  }

  /** aggregators_for */
  function Matching(aggs: seq<Aggregator>, dimension: string): seq<Aggregator> {
    Sort(Filter(aggs, (a: Aggregator) => AppliesTo(a, dimension)), RegistryOrder())
  }

  class FeatureRegistry {
    const blank: string -> bool
    var aggregators: seq<Aggregator>

    constructor (blank: string -> bool)
      ensures this.blank == blank && aggregators == [] && Registered(aggregators)
    {
      this.blank := blank;
      aggregators := [];
    }

    /** A name, version and dimension are registered once and stay registered. */
    method RegisterAggregator(a: Aggregator) returns (r: Result<()>)
      requires Registered(aggregators)
      modifies this
      ensures Registered(aggregators)
      ensures r.Ok? <==> !blank(a.name) && !blank(a.version) && !blank(a.dimension)
                         && forall b | b in old(aggregators) :: b.Key() != a.Key()
      ensures r.Err? ==> r == Err(InvalidArgument)
      ensures aggregators == if r.Ok? then old(aggregators) + [a] else old(aggregators)
    {
      if blank(a.name) || blank(a.version) || blank(a.dimension) { return Err(InvalidArgument); }
      if exists k :: 0 <= k < |aggregators| && aggregators[k].Key() == a.Key() { return Err(InvalidArgument); }
      aggregators := aggregators + [a];
      r := Ok(());
    }
  }

  lemma OrdersTotal()
    ensures TotalPreorder(VersionOrder()) && TotalPreorder(RegistryOrder())
  {
    ByStringTotal((a: Aggregator) => a.name);
    ByStringTotal((a: Aggregator) => a.version);
    ByStringTotal((a: Aggregator) => a.dimension);
    LexTotal(ByString((a: Aggregator) => a.version), ByString((a: Aggregator) => a.dimension));
    LexTotal(ByString((a: Aggregator) => a.name), VersionOrder());
  }

  /** Equal ranks mean equal keys. */
  lemma SameRankSameKey(a: Aggregator, b: Aggregator)
    requires RegistryOrder()(a, b) && RegistryOrder()(b, a)
    ensures a.Key() == b.Key()
  {
    StringLeqTotal(a.name, b.name);
    StringLeqTotal(a.version, b.version);
    StringLeqTotal(a.dimension, b.dimension);
  }

  /** The aggregators of a dimension run in an order that does not depend on the order of registration. */
  lemma RegistrationOrderIsImmaterial(aggs: seq<Aggregator>, bggs: seq<Aggregator>, dimension: string)
    requires Registered(aggs) && multiset(aggs) == multiset(bggs)
    ensures Matching(aggs, dimension) == Matching(bggs, dimension)
  {
    var applies := (a: Aggregator) => AppliesTo(a, dimension);
    OrdersTotal();
    FilterIgnoresOrder(aggs, bggs, applies);
    RanksDiffer(aggs, Filter(aggs, applies));
    SortIgnoresOrder(Filter(aggs, applies), Filter(bggs, applies), RegistryOrder());
  }

  lemma RanksDiffer(aggs: seq<Aggregator>, some: seq<Aggregator>)
    requires Registered(aggs) && forall a | a in some :: a in aggs
    ensures AntisymmetricOn(RegistryOrder(), some)
  {
    forall i, j | 0 <= i < |some| && 0 <= j < |some| && RegistryOrder()(some[i], some[j])
      && RegistryOrder()(some[j], some[i])
      ensures some[i] == some[j]
    {
      SameRankSameKey(some[i], some[j]);
      OnePerKey(aggs, some[i], some[j]);
    }
  }

  lemma OnePerKey(aggs: seq<Aggregator>, a: Aggregator, b: Aggregator)
    requires Registered(aggs) && a in aggs && b in aggs && a.Key() == b.Key()
    ensures a == b
  {
  }

  /* ---- the state that is kept ---- */

  /** States are keyed by aggregator name alone, so of several aggregators the last one run is kept. */
  ghost function Winner(ms: seq<Aggregator>, name: string): Option<Aggregator> {
    if ms == [] then None
    else if ms[|ms| - 1].name == name then Some(ms[|ms| - 1])
    else Winner(ms[..|ms| - 1], name)
  }

  ghost predicate NoneLater(ms: seq<Aggregator>, name: string, k: nat) { forall j | k < j < |ms| :: ms[j].name != name }

  lemma {:induction false} WinnerIsLast(ms: seq<Aggregator>, name: string)
    ensures match Winner(ms, name)
            case None => forall k | 0 <= k < |ms| :: ms[k].name != name
            case Some(a) => exists k :: 0 <= k < |ms| && ms[k] == a && a.name == name && NoneLater(ms, name, k)
  {
    if ms != [] {
      var last := |ms| - 1;
      if ms[last].name == name {
        assert NoneLater(ms, name, last);
      } else {
        WinnerIsLast(ms[..last], name);
        if Winner(ms, name).Some? {
          var k :| 0 <= k < last && ms[..last][k] == Winner(ms, name).value && NoneLater(ms[..last], name, k);
          forall j | k < j < |ms| ensures ms[j].name != name {
            if j < last { assert ms[..last][j] == ms[j]; }
          }
          assert NoneLater(ms, name, k);
        } else {
          forall k | 0 <= k < |ms| ensures ms[k].name != name {
            if k < last { assert ms[..last][k] == ms[k]; }
          }
        }
      }
    }
  }

  lemma MatchingParts(aggs: seq<Aggregator>, dimension: string)
    ensures Sorted(Matching(aggs, dimension), RegistryOrder())
    ensures forall b :: b in Matching(aggs, dimension) <==> b in aggs && AppliesTo(b, dimension)
  {
    var some := Filter(aggs, (a: Aggregator) => AppliesTo(a, dimension));
    OrdersTotal();
    SortSorted(some, RegistryOrder());
    SortPermutes(some, RegistryOrder());
  }

  lemma LastOutranks(ms: seq<Aggregator>, k: nat, b: Aggregator)
    requires Sorted(ms, RegistryOrder()) && k < |ms| && NoneLater(ms, ms[k].name, k) && b in ms && b.name == ms[k].name
    ensures VersionOrder()(b, ms[k])
  {
    var j :| 0 <= j < |ms| && ms[j] == b;
    OrdersTotal();
    if j < k { RankOfVersion(b, ms[k]); }
  }

  /** Of the aggregators of one name that apply, the state is that of the greatest version text and, for
      one version, of the greatest dimension text; there is one exactly when any aggregator of the name applies. */
  lemma WinnerIsGreatest(aggs: seq<Aggregator>, dimension: string, name: string)
    ensures match Winner(Matching(aggs, dimension), name)
            case None => forall b | b in aggs && b.name == name :: !AppliesTo(b, dimension)
            case Some(a) => && a in aggs && a.name == name && AppliesTo(a, dimension)
                            && forall b | b in aggs && b.name == name && AppliesTo(b, dimension) :: VersionOrder()(b, a)
  {
    hide Matching, VersionOrder, RegistryOrder, Winner, AppliesTo, Sorted, NoneLater;
    var ms := Matching(aggs, dimension);
    MatchingParts(aggs, dimension);
    WinnerIsLast(ms, name);
    if Winner(ms, name).Some? {
      var k :| 0 <= k < |ms| && ms[k] == Winner(ms, name).value && NoneLater(ms, name, k);
      assert ms[k] in ms;
      forall b | b in aggs && b.name == name && AppliesTo(b, dimension) ensures VersionOrder()(b, ms[k]) {
        LastOutranks(ms, k, b);
      }
    } else {
      forall b | b in aggs && b.name == name ensures !AppliesTo(b, dimension) { assert b in ms ==> b in ms[..]; }
    }
  }

  lemma RankOfVersion(a: Aggregator, b: Aggregator)
    requires a.name == b.name && RegistryOrder()(a, b)
    ensures VersionOrder()(a, b)
  {
    StringLeqTotal(a.name, b.name);
  }
}
