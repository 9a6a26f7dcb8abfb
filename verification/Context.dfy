/** Resolving a context bundle from the store, untrusted index hits, any reranker and a token budget
    (context_service.py, domain/context.py). */
module Context {
  import opened Domain
  import opened Sorting
  import opened Memory
  import opened Database
  import opened MemoryPlans
  import opened ProfileResolver
  import ProfileService
  import Export

  datatype Request = Request(
    subject: SubjectRef, query: string, options: Options, at: Time, budget: Option<nat>, includeInferred: bool)

  /** What an index or a reranker says about one id; the id may be anything. */
  datatype Hit = Hit(id: Id, score: real)

  datatype Source = Structured | FullText | Vector | Reranked

  datatype Rated = Rated(score: real, sources: set<Source>)

  /** A memory with the candidate that brought it in. */
  datatype Item = Item(memory: MemoryRecord, rated: Rated)

  datatype SearchHit = SearchHit(memory: MemoryRecord, score: real, sources: set<Source>)

  /** The memories of a bundle. */
  datatype Bundle = Bundle(hard: seq<MemoryRecord>, memories: seq<SearchHit>, tokens: nat, truncated: bool)

  /* ---- which memories may be returned ---- */

  predicate Admits(r: Request, m: MemoryRecord) {
    IsEffective(m, r.at) && InScope(m, r.options) && (r.includeInferred || m.authority != Inferred)
  }

  predicate Admissible(t: map<Id, MemoryRecord>, r: Request, id: Id) {
    id in t && t[id].subject == r.subject && Admits(r, t[id])
  }

  predicate IsHard(m: MemoryRecord) {
    m.kind in {Kind.Constraint, Kind.Instruction} && m.authority in {Explicit, Confirmed}
  }

  function Score(m: MemoryRecord): real { (AuthorityRank(m.authority) + 1) as real / 3.0 }

  /** The first pass: effective memories of the listing, by id. */
  function Listed(ms: seq<MemoryRecord>, r: Request): (t: map<Id, MemoryRecord>)
    ensures forall id | id in t :: t[id] in ms && t[id].id == id && Admits(r, t[id])
    ensures forall m | m in ms && Admits(r, m) :: m.id in t
  {
    if ms == [] then map[] else
      var last := ms[|ms| - 1];
      var t := Listed(ms[..|ms| - 1], r);
      assert forall m :: m in ms <==> m in ms[..|ms| - 1] || m == last;
      if Admits(r, last) then t[last.id := last] else t
  }

  /** With unique ids the first pass holds exactly the admissible rows. */
  lemma ListedRows(db: Tables, r: Request)
    requires MemoriesKeyed(db.memories)
    ensures var t := Listed(ProfileService.ActiveMemories(db, r.subject), r);
            && (forall id :: id in t <==> Admissible(db.memories, r, id))
            && (forall id | id in t :: t[id] == db.memories[id])
  {
    hide InScope, InWindow;
    var ms := ProfileService.ActiveMemories(db, r.subject);
    forall m ensures m in ms <==> Stores(db.memories, m) && m.subject == r.subject && m.state == Active {
      ActiveRow(db, r.subject, m);
    }
    forall id | Admissible(db.memories, r, id) ensures id in Listed(ms, r) {
      assert Stores(db.memories, db.memories[id]);
      assert db.memories[id] in ms;
    }
  }

  lemma ActiveRow(db: Tables, ref: SubjectRef, m: MemoryRecord)
    ensures m in ProfileService.ActiveMemories(db, ref) <==>
              Stores(db.memories, m) && m.subject == ref && m.state == Active
  {
    hide Rows, Filter, Sort, NewestFirst;
    SortPermutes(Filter(Rows(db.memories), (m: MemoryRecord) => Matches(m, ref, ProfileService.ACTIVE)), NewestFirst());
    if Stores(db.memories, m) {
      var id :| id in db.memories && db.memories[id] == m;
      assert db.memories[id] in Rows(db.memories);
    }
  }

  /* ---- hits ---- */

  ghost predicate HitsId(hits: seq<Hit>, id: Id) { exists h :: h in hits && h.id == id }

  /** The score is the greatest of the old one and those of the hits; the source is noted if there is one. */
  ghost predicate BoostedAt(before: Rated, after: Rated, hits: seq<Hit>, id: Id, scale: real -> real, source: Source) {
    && after.sources == before.sources + (if HitsId(hits, id) then {source} else {})
    && before.score <= after.score
    && (forall h | h in hits && h.id == id :: scale(h.score) <= after.score)
    && (after.score == before.score || exists h :: h in hits && h.id == id && scale(h.score) == after.score)
  }

  ghost predicate Boosted(before: map<Id, Rated>, after: map<Id, Rated>, hits: seq<Hit>, scale: real -> real,
                          source: Source)
  {
    && after.Keys == before.Keys
    && forall id | id in before :: BoostedAt(before[id], after[id], hits, id, scale, source)
  }

  /** The loops over text and vector hits: hits for unknown ids are ignored. */
  method Boost(candidates: map<Id, Rated>, hits: seq<Hit>, scale: real -> real, source: Source)
    returns (after: map<Id, Rated>)
    ensures Boosted(candidates, after, hits, scale, source)
  {
    after := candidates;
    for k := 0 to |hits|
      invariant Boosted(candidates, after, hits[..k], scale, source)
    {
      var h := hits[k];
      ghost var middle := after;
      if h.id in after {
        after := after[h.id := Rated(MaxReal(after[h.id].score, scale(h.score)), after[h.id].sources + {source})];
      }
      BoostedNext(candidates, middle, after, hits, k, scale, source);
    }
    assert hits[..|hits|] == hits;
  }

  lemma BoostedNext(before: map<Id, Rated>, middle: map<Id, Rated>, after: map<Id, Rated>, hits: seq<Hit>, k: nat,
                    scale: real -> real, source: Source)
    requires k < |hits| && Boosted(before, middle, hits[..k], scale, source)
    requires after == if hits[k].id in middle
                      then middle[hits[k].id :=
                          Rated(MaxReal(middle[hits[k].id].score, scale(hits[k].score)),
                                middle[hits[k].id].sources + {source})]
                      else middle
    ensures Boosted(before, after, hits[..k + 1], scale, source)
  {
    var fewer, more := hits[..k], hits[..k + 1];
    assert forall h :: h in more <==> h in fewer || h == hits[k];
    forall id | id in before ensures BoostedAt(before[id], after[id], more, id, scale, source) {
      assert BoostedAt(before[id], middle[id], fewer, id, scale, source);
    }
  }

  function FirstHit(hits: seq<Hit>, id: Id): Option<Hit> {
    if hits == [] then None
    else var earlier := FirstHit(hits[..|hits| - 1], id);
         if earlier.Some? then earlier
         else if hits[|hits| - 1].id == id then Some(hits[|hits| - 1]) else None
  }

  /** _apply_reranker: the first result for a known id sets its score; `results` are those received before any
      failure. */
  method Rerank(candidates: map<Id, Rated>, results: seq<Hit>) returns (after: map<Id, Rated>)
    ensures after.Keys == candidates.Keys
    ensures forall id | id in candidates ::
              after[id] == match FirstHit(results, id)
                           case Some(h) => Rated(h.score, candidates[id].sources + {Reranked})
                           case None => candidates[id]
  {
    after := candidates;
    var seen: set<Id> := {};
    for k := 0 to |results|
      invariant after.Keys == candidates.Keys
      invariant forall id :: id in seen <==> id in candidates && FirstHit(results[..k], id).Some?
      invariant forall id | id in candidates ::
                  after[id] == match FirstHit(results[..k], id)
                               case Some(h) => Rated(h.score, candidates[id].sources + {Reranked})
                               case None => candidates[id]
    {
      assert results[..k + 1][..k] == results[..k];
      var h := results[k];
      if h.id in seen || h.id !in candidates { continue; }
      seen := seen + {h.id};
      after := after[h.id := Rated(h.score, after[h.id].sources + {Reranked})];
    }
    assert results[..|results|] == results;
  }

  /* ---- reloading ---- */

  /** Of the ids done, those admissible now are kept with their current row; the others are still candidates. */
  ghost predicate ReloadedAt(candidates: map<Id, Rated>, kept: map<Id, Rated>, memories: map<Id, MemoryRecord>,
                             t: map<Id, MemoryRecord>, r: Request, done: set<Id>, id: Id)
  {
    && (id in kept <==> id in candidates && (id in done ==> Admissible(t, r, id)))
    && (id in kept ==> kept[id] == candidates[id])
    && (id in kept && id in done ==> id in memories && memories[id] == t[id])
  }

  /** Every candidate is read again from the store; stale entries are dropped. */
  method Reload(candidates: map<Id, Rated>, known: map<Id, MemoryRecord>, t: map<Id, MemoryRecord>, r: Request)
    returns (kept: map<Id, Rated>, memories: map<Id, MemoryRecord>)
    ensures forall id :: ReloadedAt(candidates, kept, memories, t, r, candidates.Keys, id)
  {
    hide Admits, SortedIds;
    kept, memories := candidates, known;
    var ids := SortedIds(candidates.Keys);
    ghost var done: set<Id> := {};
    for k := 0 to |ids|
      invariant done == set i | 0 <= i < k :: ids[i]
      invariant forall id :: ReloadedAt(candidates, kept, memories, t, r, done, id)
    {
      var id := ids[k];
      ghost var keptBefore, memoriesBefore, doneBefore := kept, memories, done;
      if Admissible(t, r, id) {
        memories := memories[id := t[id]];
      } else {
        kept := kept - {id};
      }
      done := done + {id};
      forall other ensures ReloadedAt(candidates, kept, memories, t, r, done, other) {
        assert ReloadedAt(candidates, keptBefore, memoriesBefore, t, r, doneBefore, other);
      }
    }
    assert done == candidates.Keys by {
      forall id | id in candidates ensures id in done { assert id in ids; }
      forall id | id in done ensures id in candidates { assert id in ids; }
    }
  }

  /* ---- ranking and the token budget ---- */

  /** Score, then narrower scope, authority, recency, id. */
  function HitOrder(): (Item, Item) -> bool {
    (a: Item, b: Item) =>
      a.rated.score > b.rated.score || (a.rated.score == b.rated.score && MemoryRank()(a.memory, b.memory))
  }

  function ItemsOf(ids: seq<Id>, candidates: map<Id, Rated>, memories: map<Id, MemoryRecord>): (r: seq<Item>)
    requires forall id | id in ids :: id in candidates && id in memories
    ensures |r| == |ids| && forall k | 0 <= k < |r| :: r[k] == Item(memories[ids[k]], candidates[ids[k]])
  {
    if ids == [] then [] else
      var last := ids[|ids| - 1];
      ItemsOf(ids[..|ids| - 1], candidates, memories) + [Item(memories[last], candidates[last])]
  }

  /** max(1, ceil(len(content) / 4) + 4) */
  function Cost(m: MemoryRecord): nat { Max(1, (|m.content| + 3) / 4 + 4) }

  function TotalCost(ms: seq<MemoryRecord>): nat {
    if ms == [] then 0 else TotalCost(ms[..|ms| - 1]) + Cost(ms[|ms| - 1])
  }

  function Clamped(x: real): real { MaxReal(0.0, MinReal(1.0, x)) }

  function HitOf(i: Item): SearchHit { SearchHit(i.memory, Clamped(i.rated.score), i.rated.sources) }

  function MemoriesOf(hits: seq<SearchHit>): (r: seq<MemoryRecord>)
    ensures |r| == |hits| && forall k | 0 <= k < |r| :: r[k] == hits[k].memory
  {
    Mapped(hits, (h: SearchHit) => h.memory)
  }

  function CostOfItems(items: seq<Item>): nat {
    if items == [] then 0 else CostOfItems(items[..|items| - 1]) + Cost(items[|items| - 1].memory)
  }

  predicate Fits(used: nat, cost: nat, budget: Option<nat>) { budget.None? || used + cost <= budget.value }

  function HitsOf(items: seq<Item>): (r: seq<SearchHit>)
    ensures |r| == |items| && forall k | 0 <= k < |r| :: r[k] == HitOf(items[k])
  {
    Mapped(items, HitOf)
  }

  /** Each item in turn, if it still fits. */
  function Chosen(items: seq<Item>, reserved: nat, budget: Option<nat>): seq<Item> {
    if items == [] then [] else
      var init, last := Chosen(items[..|items| - 1], reserved, budget), items[|items| - 1];
      if Fits(reserved + CostOfItems(init), Cost(last.memory), budget) then init + [last] else init
  }

  lemma NothingChosen(reserved: nat, budget: Option<nat>)
    ensures Chosen([], reserved, budget) == [] && CostOfItems([]) == 0 && HitsOf([]) == []
  {
  }

  /** _select_with_budget */
  method SelectWithBudget(items: seq<Item>, hard: seq<MemoryRecord>, budget: Option<nat>)
    returns (selected: seq<SearchHit>, truncated: bool)
    ensures selected == HitsOf(Chosen(items, TotalCost(hard), budget))
    ensures truncated <==> |Chosen(items, TotalCost(hard), budget)| < |items|
  {
    hide Cost, HitOf, Chosen, CostOfItems, HitsOf, TotalCost;
    var used := TotalCost(hard);
    selected, truncated := [], false;
    NothingChosen(TotalCost(hard), budget);
    assert items[..0] == [];
    for n := 0 to |items|
      invariant var chosen := Chosen(items[..n], TotalCost(hard), budget);
                && selected == HitsOf(chosen) && used == TotalCost(hard) + CostOfItems(chosen)
                && |chosen| <= n && (truncated <==> |chosen| < n)
    {
      ChosenNext(items[..n], items[n], TotalCost(hard), budget);
      assert items[..n + 1] == items[..n] + [items[n]];
      var cost := Cost(items[n].memory);
      if budget.Some? && used + cost > budget.value {
        truncated := true;
        continue;
      }
      selected := selected + [HitOf(items[n])];
      used := used + cost;
    }
    assert items[..|items|] == items;
  }

  lemma ChosenNext(init: seq<Item>, last: Item, reserved: nat, budget: Option<nat>)
    ensures var chosen := Chosen(init, reserved, budget);
            var fits := budget.None? || reserved + CostOfItems(chosen) + Cost(last.memory) <= budget.value;
            && Chosen(init + [last], reserved, budget) == (if fits then chosen + [last] else chosen)
            && CostOfItems(chosen + [last]) == CostOfItems(chosen) + Cost(last.memory)
            && HitsOf(chosen + [last]) == HitsOf(chosen) + [HitOf(last)]
  {
    hide Cost, HitOf;
    var chosen := Chosen(init, reserved, budget);
    assert (init + [last])[..|init|] == init && (chosen + [last])[..|chosen|] == chosen;
  }

  /** xs is ys with some elements left out. */
  ghost predicate Subsequence<T>(xs: seq<T>, ys: seq<T>) {
    || xs == []
    || (ys != []
        && (|| Subsequence(xs, ys[..|ys| - 1])
            || (xs[|xs| - 1] == ys[|ys| - 1] && Subsequence(xs[..|xs| - 1], ys[..|ys| - 1]))))
  }

  lemma CostOfLonger(init: seq<Item>, last: Item)
    ensures CostOfItems(init + [last]) == CostOfItems(init) + Cost(last.memory)
  {
    assert (init + [last])[..|init|] == init;
  }

  lemma {:induction false} ChosenInOrder(items: seq<Item>, reserved: nat, budget: Option<nat>)
    ensures Subsequence(Chosen(items, reserved, budget), items)
  {
    hide Fits, CostOfItems;
    if items != [] {
      var init, last := items[..|items| - 1], items[|items| - 1];
      ChosenInOrder(init, reserved, budget);
      var chosen := Chosen(init, reserved, budget);
      assert (chosen + [last])[..|chosen|] == chosen;
    }
  }

  lemma {:induction false} ChosenFits(items: seq<Item>, reserved: nat, budget: Option<nat>)
    ensures budget.Some? ==> reserved + CostOfItems(Chosen(items, reserved, budget)) <= Max(budget.value, reserved)
  {
    hide Cost, CostOfItems;
    NothingChosen(reserved, budget);
    if items != [] {
      var init, last := items[..|items| - 1], items[|items| - 1];
      ChosenFits(init, reserved, budget);
      CostOfLonger(Chosen(init, reserved, budget), last);
    }
  }

  lemma {:induction false} NothingElseFits(items: seq<Item>, reserved: nat, budget: Option<nat>, i: Item)
    requires i in items && i !in Chosen(items, reserved, budget)
    ensures !Fits(reserved + CostOfItems(Chosen(items, reserved, budget)), Cost(i.memory), budget)
  {
    hide Cost, CostOfItems;
    var init, last := items[..|items| - 1], items[|items| - 1];
    assert i in init || i == last;
    var chosen := Chosen(init, reserved, budget);
    CostOfLonger(chosen, last);
    if i in init && i !in chosen { NothingElseFits(init, reserved, budget, i); }
  }

  /** The selection keeps the order of the ranking, never exceeds the budget unless the hard memories
      alone do, and nothing that was left out would fit in what remains. */
  lemma {:induction false} SelectionIsGreedy(items: seq<Item>, reserved: nat, budget: Option<nat>)
    ensures Subsequence(Chosen(items, reserved, budget), items)
    ensures budget.Some? ==> reserved + CostOfItems(Chosen(items, reserved, budget)) <= Max(budget.value, reserved)
    ensures forall i | i in items && i !in Chosen(items, reserved, budget) ::
              !Fits(reserved + CostOfItems(Chosen(items, reserved, budget)), Cost(i.memory), budget)
  {
    hide *;
    ChosenInOrder(items, reserved, budget);
    ChosenFits(items, reserved, budget);
    forall i | i in items && i !in Chosen(items, reserved, budget)
      ensures !Fits(reserved + CostOfItems(Chosen(items, reserved, budget)), Cost(i.memory), budget)
    {
      NothingElseFits(items, reserved, budget, i);
    }
  }

  /** How far a selection got: everything, or less because something did not fit. */
  ghost predicate Progress(items: seq<Item>, reserved: nat, budget: Option<nat>) {
    var chosen := Chosen(items, reserved, budget);
    && |chosen| <= |items| && CostOfItems(chosen) <= CostOfItems(items)
    && (|chosen| == |items| ==> chosen == items)
    && (|chosen| < |items| ==> !Fits(reserved, CostOfItems(items), budget))
    && (|chosen| == |items| ==> items == [] || Fits(reserved, CostOfItems(items), budget))
  }

  lemma ProgressNext(init: seq<Item>, last: Item, reserved: nat, budget: Option<nat>)
    requires Progress(init, reserved, budget)
    ensures Progress(init + [last], reserved, budget)
  {
    hide Cost, CostOfItems, Chosen;
    ChosenNext(init, last, reserved, budget);
    CostOfLonger(init, last);
  }

  lemma {:induction false} Progresses(items: seq<Item>, reserved: nat, budget: Option<nat>)
    ensures Progress(items, reserved, budget)
  {
    if items == [] {
      NothingChosen(reserved, budget);
    } else {
      hide *;
      var init, last := items[..|items| - 1], items[|items| - 1];
      Progresses(init, reserved, budget);
      ProgressNext(init, last, reserved, budget);
      assert init + [last] == items;
    }
  }

  /** Something is left out exactly when not everything fits. */
  lemma TruncatedIffTooMuch(items: seq<Item>, reserved: nat, budget: Option<nat>)
    ensures |Chosen(items, reserved, budget)| <= |items|
    ensures |Chosen(items, reserved, budget)| == |items| ==> Chosen(items, reserved, budget) == items
    ensures |Chosen(items, reserved, budget)| < |items| <==> items != [] && !Fits(reserved, CostOfItems(items), budget)
  {
    hide CostOfItems, Chosen;
    Progresses(items, reserved, budget);
  }

  /* ---- the bundle ---- */

  function ItemMemories(items: seq<Item>): (r: seq<MemoryRecord>)
    ensures |r| == |items| && forall k | 0 <= k < |r| :: r[k] == items[k].memory
  {
    Mapped(items, (i: Item) => i.memory)
  }

  function HardItems(items: seq<Item>): seq<Item> { Filter(Sort(items, HitOrder()), (i: Item) => IsHard(i.memory)) }

  function MemoryIds(ms: seq<MemoryRecord>): (r: set<Id>) { set m | m in ms :: m.id }

  function SoftItems(items: seq<Item>, hard: set<Id>): seq<Item> {
    Sort(Filter(items, (i: Item) => i.memory.id !in hard), HitOrder())
  }

  function BundleOf(items: seq<Item>, budget: Option<nat>): Bundle {
    var hard := ItemMemories(HardItems(items));
    var soft := SoftItems(items, MemoryIds(hard));
    var chosen := HitsOf(Chosen(soft, TotalCost(hard), budget));
    Bundle(hard, chosen, TotalCost(hard) + TotalCost(MemoriesOf(chosen)), |chosen| < |soft|)
  }

  /** The validator of ContextBundle. */
  ghost predicate BundleValid(b: Bundle) {
    && Distinct(IdsOf(b.hard)) && Distinct(IdsOf(MemoriesOf(b.memories)))
    && MemoryIds(b.hard) !! MemoryIds(MemoriesOf(b.memories))
  }

  /** Each memory once. */
  ghost predicate Separate(items: seq<Item>) {
    forall j, k | 0 <= j < k < |items| :: items[j].memory.id != items[k].memory.id
  }

  ghost predicate Given(items: seq<Item>, m: MemoryRecord) { exists i :: i in items && i.memory == m }

  lemma HardAre(items: seq<Item>, m: MemoryRecord)
    ensures m in ItemMemories(HardItems(items)) <==> Given(items, m) && IsHard(m)
  {
    var hard := HardItems(items);
    SortPermutes(items, HitOrder());
    if m in ItemMemories(hard) {
      var k :| 0 <= k < |hard| && hard[k].memory == m;
      assert hard[k] in hard;
      assert hard[k] in items;
    }
    if Given(items, m) && IsHard(m) {
      var i :| i in items && i.memory == m;
      assert i in hard;
      var k :| 0 <= k < |hard| && hard[k] == i;
    }
  }

  lemma SoftAre(items: seq<Item>, i: Item)
    requires Separate(items)
    ensures i in SoftItems(items, MemoryIds(ItemMemories(HardItems(items)))) <==> i in items && !IsHard(i.memory)
  {
    var hard := MemoryIds(ItemMemories(HardItems(items)));
    var rest := Filter(items, (i: Item) => i.memory.id !in hard);
    SortPermutes(rest, HitOrder());
    if i in items {
      if IsHard(i.memory) {
        HardAre(items, i.memory);
        assert i.memory.id in hard;
      } else if i.memory.id in hard {
        var m :| m in ItemMemories(HardItems(items)) && m.id == i.memory.id;
        HardAre(items, m);
        var j :| j in items && j.memory == m;
        SeparateOnce(items, i, j);
      }
    }
  }

  lemma SeparateOnce(items: seq<Item>, a: Item, b: Item)
    requires Separate(items) && a in items && b in items && a.memory.id == b.memory.id
    ensures a == b
  {
  }

  lemma SeparateDistinct(items: seq<Item>)
    requires Separate(items)
    ensures Distinct(items)
  {
  }

  lemma DistinctSeparate(items: seq<Item>, some: seq<Item>)
    requires Separate(items) && Distinct(some) && forall i | i in some :: i in items
    ensures Separate(some) && Distinct(IdsOf(ItemMemories(some)))
  {
    forall j, k | 0 <= j < k < |some| ensures some[j].memory.id != some[k].memory.id {
      if some[j].memory.id == some[k].memory.id { SeparateOnce(items, some[j], some[k]); }
    }
  }

  lemma {:induction false} SubsequenceParts<T>(xs: seq<T>, ys: seq<T>)
    requires Subsequence(xs, ys)
    ensures forall x | x in xs :: x in ys
    ensures Distinct(ys) ==> Distinct(xs)
  {
    if xs != [] {
      var init := ys[..|ys| - 1];
      if Subsequence(xs, init) {
        SubsequenceParts(xs, init);
      } else {
        var before := xs[..|xs| - 1];
        SubsequenceParts(before, init);
        assert xs == before + [xs[|xs| - 1]];
        if Distinct(ys) {
          assert forall j | 0 <= j < |init| :: init[j] == ys[j] != ys[|ys| - 1];
          assert Distinct(init);
          assert xs[|xs| - 1] !in before;
        }
      }
    }
  }

  /** What a bundle made of these items says: the hard memories are all of the hard ones, the others are
      soft ones, all of them unless truncated. */
  ghost predicate Partitions(b: Bundle, items: seq<Item>) {
    && (forall m :: m in b.hard <==> Given(items, m) && IsHard(m))
    && (forall m | m in MemoriesOf(b.memories) :: Given(items, m) && !IsHard(m))
    && (!b.truncated ==> forall m | Given(items, m) && !IsHard(m) :: m in MemoriesOf(b.memories))
    && (forall h | h in b.memories :: 0.0 <= h.score <= 1.0)
  }

  ghost predicate WithinBudget(b: Bundle, budget: Option<nat>) {
    && b.tokens == TotalCost(b.hard) + TotalCost(MemoriesOf(b.memories))
    && (budget.Some? ==> b.tokens <= Max(budget.value, TotalCost(b.hard)))
    && (budget.None? ==> !b.truncated)
  }

  lemma ChosenAreSoft(items: seq<Item>, chosen: seq<Item>, m: MemoryRecord)
    requires Separate(items) && forall i | i in chosen ::
               i in SoftItems(items, MemoryIds(ItemMemories(HardItems(items))))
    requires m in MemoriesOf(HitsOf(chosen))
    ensures Given(items, m) && !IsHard(m)
  {
    hide HardItems, SoftItems, IsHard, MemoryIds, Separate, Clamped;
    var ms := MemoriesOf(HitsOf(chosen));
    var k :| 0 <= k < |ms| && ms[k] == m;
    assert chosen[k] in chosen;
    SoftAre(items, chosen[k]);
  }

  lemma AllSoftChosen(items: seq<Item>, m: MemoryRecord)
    requires Separate(items) && Given(items, m) && !IsHard(m)
    ensures m in MemoriesOf(HitsOf(SoftItems(items, MemoryIds(ItemMemories(HardItems(items))))))
  {
    hide HardItems, SoftItems, IsHard, MemoryIds, Separate, Clamped, MemoriesOf, HitsOf;
    var i :| i in items && i.memory == m;
    var soft := SoftItems(items, MemoryIds(ItemMemories(HardItems(items))));
    SoftAre(items, i);
    var k :| 0 <= k < |soft| && soft[k] == i;
    assert MemoriesOf(HitsOf(soft))[k] == m;
  }

  lemma BundlePartitions(items: seq<Item>, budget: Option<nat>)
    requires Separate(items)
    ensures Partitions(BundleOf(items, budget), items)
  {
    hide HardItems, SoftItems, Chosen, TotalCost, IsHard, MemoryIds, MemoriesOf, HitsOf, ItemMemories, Separate,
         Subsequence, Fits, Given;
    var b := BundleOf(items, budget);
    var hard := ItemMemories(HardItems(items));
    var soft := SoftItems(items, MemoryIds(hard));
    var chosen := Chosen(soft, TotalCost(hard), budget);
    ChosenInOrder(soft, TotalCost(hard), budget);
    SubsequenceParts(chosen, soft);
    TruncatedIffTooMuch(soft, TotalCost(hard), budget);
    forall m ensures m in b.hard <==> Given(items, m) && IsHard(m) { HardAre(items, m); }
    forall m | m in MemoriesOf(b.memories) ensures Given(items, m) && !IsHard(m) { ChosenAreSoft(items, chosen, m); }
    if !b.truncated {
      forall m | Given(items, m) && !IsHard(m) ensures m in MemoriesOf(b.memories) { AllSoftChosen(items, m); }
    }
  }

  lemma BundleIsValid(items: seq<Item>, budget: Option<nat>)
    requires Separate(items)
    ensures BundleValid(BundleOf(items, budget))
  {
    hide TotalCost, IsHard, HitOrder, Chosen, ItemMemories, MemoriesOf, HitsOf, IdsOf, Separate, Filter, Sort,
         Subsequence;
    var hard := ItemMemories(HardItems(items));
    var soft := SoftItems(items, MemoryIds(hard));
    var chosen := Chosen(soft, TotalCost(hard), budget);
    SeparateDistinct(items);
    SortPermutes(items, HitOrder());
    PermutedDistinct(items, Sort(items, HitOrder()));
    FilterDistinct(Sort(items, HitOrder()), (i: Item) => IsHard(i.memory));
    DistinctSeparate(items, HardItems(items));
    var rest := Filter(items, (i: Item) => i.memory.id !in MemoryIds(hard));
    FilterDistinct(items, (i: Item) => i.memory.id !in MemoryIds(hard));
    SortPermutes(rest, HitOrder());
    PermutedDistinct(rest, soft);
    SelectionIsGreedy(soft, TotalCost(hard), budget);
    SubsequenceParts(chosen, soft);
    DistinctSeparate(items, chosen);
    assert MemoriesOf(HitsOf(chosen)) == ItemMemories(chosen);
    forall m | m in ItemMemories(chosen) ensures m.id !in MemoryIds(hard) {
      var k :| 0 <= k < |chosen| && chosen[k].memory == m;
      assert chosen[k] in chosen;
      assert chosen[k] in soft;
      assert chosen[k] in rest;
    }
  }

  lemma BundleFits(items: seq<Item>, budget: Option<nat>)
    ensures WithinBudget(BundleOf(items, budget), budget)
  {
    hide TotalCost, HardItems, SoftItems, Chosen, Fits, IsHard, HitsOf, MemoriesOf, CostOfItems, ItemMemories,
         MemoryIds;
    var hard := ItemMemories(HardItems(items));
    var soft := SoftItems(items, MemoryIds(hard));
    ChosenFits(soft, TotalCost(hard), budget);
    TruncatedIffTooMuch(soft, TotalCost(hard), budget);
    SameCosts(Chosen(soft, TotalCost(hard), budget));
    NoLimit(TotalCost(hard), CostOfItems(soft));
  }

  lemma NoLimit(used: nat, cost: nat)
    ensures Fits(used, cost, None)
  {
  }

  lemma {:induction false} SameCosts(items: seq<Item>)
    ensures TotalCost(MemoriesOf(HitsOf(items))) == CostOfItems(items)
  {
    if items != [] { SameCosts(items[..|items| - 1]); }
  }

  lemma {:induction false} SubsequenceSorted<T(!new)>(xs: seq<T>, ys: seq<T>, leq: (T, T) -> bool)
    requires Subsequence(xs, ys) && Sorted(ys, leq)
    ensures Sorted(xs, leq)
  {
    if xs != [] {
      var init := ys[..|ys| - 1];
      if Subsequence(xs, init) {
        SubsequenceSorted(xs, init, leq);
      } else {
        var before := xs[..|xs| - 1];
        SubsequenceSorted(before, init, leq);
        SubsequenceParts(before, init);
        forall k | 0 <= k < |before| ensures leq(before[k], xs[|xs| - 1]) {
          assert before[k] in before && before[k] in init;
        }
      }
    }
  }

  lemma HitOrderTotal()
    ensures TotalPreorder(HitOrder())
  {
    RanksTotal();
  }

  /** The returned memories come in the order of the ranking. */
  lemma BundleIsRanked(items: seq<Item>, budget: Option<nat>)
    ensures exists hard, soft: seq<Item> ::
              && Sorted(hard, HitOrder()) && Sorted(soft, HitOrder())
              && BundleOf(items, budget).hard == ItemMemories(hard) && BundleOf(items, budget).memories == HitsOf(soft)
  {
    HitOrderTotal();
    hide HitOrder, Sort, Filter, TotalCost, MemoriesOf, Chosen, HitsOf, ItemMemories, MemoryIds;
    var hard := HardItems(items);
    var ids := MemoryIds(ItemMemories(hard));
    var soft := SoftItems(items, ids);
    var reserved := TotalCost(ItemMemories(hard));
    SortSorted(items, HitOrder());
    FilterKeepsOrder(Sort(items, HitOrder()), (i: Item) => IsHard(i.memory), HitOrder());
    SortSorted(Filter(items, (i: Item) => i.memory.id !in ids), HitOrder());
    ChosenInOrder(soft, reserved, budget);
    SubsequenceSorted(Chosen(soft, reserved, budget), soft, HitOrder());
    assert BundleOf(items, budget).memories == HitsOf(Chosen(soft, reserved, budget));
  }

  /* ---- resolve_context ---- */

  predicate HasRetrieval(r: Request, text: Option<seq<Hit>>, vector: Option<seq<Hit>>) {
    r.query != "" && (text.Some? || vector.Some?)
  }

  ghost predicate Found(hits: Option<seq<Hit>>, id: Id) { hits.Some? && HitsId(hits.value, id) }

  /** Listed and, if there is a query and an index to answer it, hard or hit. */
  ghost predicate Retrieved(t: map<Id, MemoryRecord>, r: Request, text: Option<seq<Hit>>, vector: Option<seq<Hit>>,
                            id: Id)
  {
    id in t && (HasRetrieval(r, text, vector) ==> IsHard(t[id]) || Found(text, id) || Found(vector, id))
  }

  /** Structured candidates, boosted by the hits and filtered by relevance. */
  method Retrieve(r: Request, listed: map<Id, MemoryRecord>, text: Option<seq<Hit>>, vector: Option<seq<Hit>>)
    returns (candidates: map<Id, Rated>)
    ensures forall id :: id in candidates <==> Retrieved(listed, r, text, vector, id)
  {
    hide IsHard, Score, HitsId, Boosted;
    candidates := map id | id in listed :: Rated(Score(listed[id]), {Structured});
    ghost var structured := candidates;
    if r.query != "" && text.Some? {
      candidates := Boost(candidates, text.value, (x: real) => x, FullText);
      BoostedSources(structured, candidates, text.value, (x: real) => x, FullText);
    }
    ghost var searched := candidates;
    if r.query != "" && vector.Some? {
      candidates := Boost(candidates, vector.value, (x: real) => (x + 1.0) / 2.0, Vector);
      BoostedSources(searched, candidates, vector.value, (x: real) => (x + 1.0) / 2.0, Vector);
    }
    if HasRetrieval(r, text, vector) {
      candidates := map id | id in candidates
        && (IsHard(listed[id]) || candidates[id].sources * {FullText, Vector} != {}) :: candidates[id];
    }
  }

  lemma BoostedSources(before: map<Id, Rated>, after: map<Id, Rated>, hits: seq<Hit>, scale: real -> real,
                       source: Source)
    requires Boosted(before, after, hits, scale, source)
    ensures after.Keys == before.Keys
    ensures forall id | id in before ::
              after[id].sources == before[id].sources + if HitsId(hits, id) then {source} else {}
  {
    hide HitsId;
    forall id | id in before
      ensures after[id].sources == before[id].sources + if HitsId(hits, id) then {source} else {}
    {
      assert BoostedAt(before[id], after[id], hits, id, scale, source);
    }
  }

  ghost predicate Considered(listed: Tables, r: Request, text: Option<seq<Hit>>, vector: Option<seq<Hit>>, id: Id) {
    Retrieved(Listed(ProfileService.ActiveMemories(listed, r.subject), r), r, text, vector, id)
  }

  /** A memory of the bundle: admissible and retrieved when listed, admissible still when read again. */
  ghost predicate Eligible(listed: Tables, current: Tables, r: Request, text: Option<seq<Hit>>,
                           vector: Option<seq<Hit>>, m: MemoryRecord)
  {
    && Admissible(current.memories, r, m.id) && current.memories[m.id] == m
    && Considered(listed, r, text, vector, m.id)
  }

  /** Whatever the indexes and the reranker return: hard constraints are exactly the eligible hard memories,
      the rest are eligible soft memories, all of them unless the budget is too small. */
  ghost predicate Safe(b: Bundle, listed: Tables, current: Tables, r: Request, text: Option<seq<Hit>>,
                       vector: Option<seq<Hit>>)
  {
    && BundleValid(b) && WithinBudget(b, r.budget)
    && (forall m :: m in b.hard <==> Eligible(listed, current, r, text, vector, m) && IsHard(m))
    && (forall m | m in MemoriesOf(b.memories) :: Eligible(listed, current, r, text, vector, m) && !IsHard(m))
    && (!b.truncated ==>
           forall m | Eligible(listed, current, r, text, vector, m) && !IsHard(m) :: m in MemoriesOf(b.memories))
    && (forall h | h in b.memories :: 0.0 <= h.score <= 1.0)
  }

  lemma ItemsSeparate(ids: seq<Id>, candidates: map<Id, Rated>, memories: map<Id, MemoryRecord>)
    requires forall id | id in ids :: id in candidates && id in memories && memories[id].id == id
    requires forall j, k | 0 <= j < k < |ids| :: ids[j] < ids[k]
    ensures Separate(ItemsOf(ids, candidates, memories))
    ensures forall m :: Given(ItemsOf(ids, candidates, memories), m) <==> m.id in ids && memories[m.id] == m
  {
    hide ItemsOf;
    var items := ItemsOf(ids, candidates, memories);
    forall k | 0 <= k < |ids| ensures ids[k] in ids {}
    forall m ensures Given(items, m) <==> m.id in ids && memories[m.id] == m {
      if m.id in ids && memories[m.id] == m {
        var k :| 0 <= k < |ids| && ids[k] == m.id;
        assert items[k] in items;
      }
    }
  }

  /** Ranks, separates hard from soft, and cuts to the budget. */
  method Assemble(items: seq<Item>, budget: Option<nat>) returns (b: Bundle)
    ensures b == BundleOf(items, budget)
  {
    hide HardItems, SoftItems, MemoryIds, TotalCost, MemoriesOf, Chosen;
    var hard := ItemMemories(HardItems(items));
    var soft := SoftItems(items, MemoryIds(hard));
    var hits, truncated := SelectWithBudget(soft, hard, budget);
    b := Bundle(hard, hits, TotalCost(hard) + TotalCost(MemoriesOf(hits)), truncated);
  }

  lemma BundleIsSafe(items: seq<Item>, listed: Tables, current: Tables, r: Request, text: Option<seq<Hit>>,
                     vector: Option<seq<Hit>>)
    requires Separate(items) && forall m :: Given(items, m) <==> Eligible(listed, current, r, text, vector, m)
    ensures Safe(BundleOf(items, r.budget), listed, current, r, text, vector)
  {
    hide BundleOf, Separate, Given, Eligible, IsHard, MemoriesOf, BundleValid, WithinBudget;
    BundlePartitions(items, r.budget);
    BundleIsValid(items, r.budget);
    BundleFits(items, r.budget);
  }

  /** The candidates that survive retrieval and reloading, as the reranker scored them. */
  method Gather(r: Request, known: map<Id, MemoryRecord>, t: map<Id, MemoryRecord>, text: Option<seq<Hit>>,
                vector: Option<seq<Hit>>, reranked: Option<seq<Hit>>) returns (items: seq<Item>, considered: set<Id>)
    requires MemoriesKeyed(t)
    ensures Separate(items) && forall id :: id in considered <==> Retrieved(known, r, text, vector, id)
    ensures forall m :: Given(items, m) <==>
              Admissible(t, r, m.id) && t[m.id] == m && Retrieved(known, r, text, vector, m.id)
  {
    hide Admits, Retrieved, Separate, Given, ItemsOf, SortedIds;
    var candidates := Retrieve(r, known, text, vector);
    considered := candidates.Keys;
    var kept, now := Reload(candidates, known, t, r);
    forall id ensures id in kept <==> Retrieved(known, r, text, vector, id) && Admissible(t, r, id) {
      assert ReloadedAt(candidates, kept, now, t, r, candidates.Keys, id);
    }
    forall id | id in kept ensures id in now && now[id] == t[id] && now[id].id == id {
      assert ReloadedAt(candidates, kept, now, t, r, candidates.Keys, id);
    }
    if reranked.Some? && r.query != "" && kept.Keys != {} {
      kept := Rerank(kept, reranked.value);
    }
    var ids := SortedIds(kept.Keys);
    items := ItemsOf(ids, kept, now);
    ItemsSeparate(ids, kept, now);
  }

  /** The memory part of resolve_context. `considered` are the memories it knew of before reading again. */
  method SelectMemories(r: Request, listed: Tables, current: Tables, text: Option<seq<Hit>>, vector: Option<seq<Hit>>,
                        reranked: Option<seq<Hit>>) returns (b: Bundle, considered: set<Id>)
    requires MemoriesKeyed(current.memories)
    ensures Safe(b, listed, current, r, text, vector)
    ensures forall id :: id in considered <==> Considered(listed, r, text, vector, id)
  {
    hide Retrieved, BundleOf, Separate, Given, Safe, Listed, MemoriesKeyed;
    hide ProfileService.ActiveMemories;
    var memories := Export.ListPaged(ProfileService.ActiveMemories(listed, r.subject));
    var items;
    items, considered := Gather(r, Listed(memories, r), current.memories, text, vector, reranked);
    b := Assemble(items, r.budget);
    BundleIsSafe(items, listed, current, r, text, vector);
  }

  /** Every effective explicit or confirmed constraint or instruction in scope is among the hard
      constraints, whatever the query, the budget, the index hits and the reranker. */
  lemma HardConstraintsAlwaysReturned(b: Bundle, db: Tables, r: Request, text: Option<seq<Hit>>,
                                      vector: Option<seq<Hit>>, m: MemoryRecord)
    requires MemoriesKeyed(db.memories) && Safe(b, db, db, r, text, vector)
    ensures m in b.hard <==>
              Stores(db.memories, m) && m.subject == r.subject && IsEffective(m, r.at) && InScope(m, r.options)
                && IsHard(m)
  {
    hide IsEffective, InScope, BundleValid, WithinBudget, MemoriesOf, Listed;
    hide ProfileService.ActiveMemories;
    ListedRows(db, r);
  }
}
