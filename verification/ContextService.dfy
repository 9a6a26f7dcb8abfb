/** The whole context bundle: memories, interests, conflicts and the evidence for all of them
    (context_service.py). */
module ContextService {
  import opened Domain
  import opened Sorting
  import opened Memory
  import opened Records
  import opened Database
  import opened MemoryPlans
  import opened ProfileResolver
  import opened Context
  import Aggregation
  import FeatureEngine
  import ProfileService

  datatype Limits = Limits(recent: nat, longTerm: nat)

  datatype ContextBundle = ContextBundle(
    selection: Bundle, recent: seq<FeatureState>, longTerm: seq<FeatureState>, conflicts: seq<Conflict>,
    evidenceIds: seq<Id>)

  /* ---- interests ---- */

  function Weight(score: FeatureState -> real): FeatureState -> real {
    (s: FeatureState) => Aggregation.Times(AbsReal(score(s)), s.draft.confidence)
  }

  function ByUpdate(): (FeatureState, FeatureState) -> bool {
    (a: FeatureState, b: FeatureState) => a.updatedAt >= b.updatedAt
  }

  function ByPlace(): (FeatureState, FeatureState) -> bool {
    Lex(ByString((s: FeatureState) => s.draft.dimension), ByString((s: FeatureState) => s.draft.valueKey))
  }

  /** Strongest weighted score, then latest update, then dimension and value. */
  function InterestOrder(score: FeatureState -> real): (FeatureState, FeatureState) -> bool {
    Lex(Reverse(ByNumber(Weight(score))), Lex(ByUpdate(), ByPlace()))
  }

  function ShortTerm(): FeatureState -> real { (s: FeatureState) => s.draft.shortTerm }
  function LongTerm(): FeatureState -> real { (s: FeatureState) => s.draft.longTerm }

  lemma InterestOrderTotal(score: FeatureState -> real)
    ensures TotalPreorder(InterestOrder(score))
  {
    var dimension, value := (s: FeatureState) => s.draft.dimension, (s: FeatureState) => s.draft.valueKey;
    ByStringTotal(dimension);
    ByStringTotal(value);
    LexTotal(ByString(dimension), ByString(value));
    LexTotal(ByUpdate(), ByPlace());
    NumbersTotal(Weight(score));
    LexTotal(Reverse(ByNumber(Weight(score))), Lex(ByUpdate(), ByPlace()));
  }

  lemma NumbersTotal<T(!new)>(key: T -> real)
    ensures TotalPreorder(Reverse(ByNumber(key)))
  {
  }

  /** The strongest `limit` states; which of equals come first depends on the order they were read in. */
  function Interests(states: seq<FeatureState>, score: FeatureState -> real, limit: nat): (r: seq<FeatureState>)
    ensures IsTop(r, states, InterestOrder(score), limit)
  {
    InterestOrderTotal(score);
    CutIsTop(states, InterestOrder(score), limit);
    Take(Sort(states, InterestOrder(score)), limit)
  }

  /* ---- conflicts ---- */

  predicate Concerns(c: Conflict, ids: set<Id>) { exists id :: id in c.memoryIds && id in ids }

  /** _relevant_conflicts */
  method RelevantConflicts(preferences: seq<Preference>, ids: set<Id>) returns (result: seq<Conflict>)
    ensures forall c :: c in result <==> exists p :: p in preferences && c in p.conflicts && Concerns(c, ids)
  {
    hide Concerns;
    result := [];
    for i := 0 to |preferences|
      invariant forall c :: c in result <==> exists p :: p in preferences[..i] && c in p.conflicts && Concerns(c, ids)
    {
      ghost var earlier := result;
      var conflicts := preferences[i].conflicts;
      for j := 0 to |conflicts|
        invariant forall c :: c in result <==> c in earlier || (c in conflicts[..j] && Concerns(c, ids))
      {
        if Concerns(conflicts[j], ids) { result := result + [conflicts[j]]; }
      }
      assert forall p :: p in preferences[..i + 1] <==> p in preferences[..i] || p == preferences[i];
    }
    assert preferences[..|preferences|] == preferences;
  }

  /* ---- evidence ---- */

  /** list_evidence_ids */
  function EvidenceOf(db: Tables, ref: SubjectRef, memory: Id): set<Id> {
    if OwnsMemory(db, ref, memory) then BoundTo(db, memory) else {}
  }

  ghost predicate OfMemories(ms: seq<MemoryRecord>, of: map<Id, set<Id>>, e: Id) {
    exists m :: m in ms && m.id in of && e in of[m.id]
  }

  ghost predicate OfStates(states: seq<FeatureState>, e: Id) { exists s :: s in states && e in s.draft.evidenceIds }

  ghost predicate OfConflicts(conflicts: seq<Conflict>, e: Id) { exists c :: c in conflicts && e in c.evidenceRefs }

  /** _bundle_evidence_ids */
  method BundleEvidence(ms: seq<MemoryRecord>, states: seq<FeatureState>, conflicts: seq<Conflict>,
                        of: map<Id, set<Id>>)
    returns (ids: seq<Id>)
    ensures forall i, j | 0 <= i < j < |ids| :: ids[i] < ids[j]
    ensures forall e :: e in ids <==> OfMemories(ms, of, e) || OfStates(states, e) || OfConflicts(conflicts, e)
  {
    var evidence: set<Id> := {};
    for k := 0 to |ms|
      invariant forall e :: e in evidence <==> OfMemories(ms[..k], of, e)
    {
      assert forall m :: m in ms[..k + 1] <==> m in ms[..k] || m == ms[k];
      if ms[k].id in of { evidence := evidence + of[ms[k].id]; }
    }
    assert ms[..|ms|] == ms;
    for k := 0 to |states|
      invariant forall e :: e in evidence <==> OfMemories(ms, of, e) || OfStates(states[..k], e)
    {
      assert forall s :: s in states[..k + 1] <==> s in states[..k] || s == states[k];
      evidence := evidence + set e | e in states[k].draft.evidenceIds;
    }
    assert states[..|states|] == states;
    for k := 0 to |conflicts|
      invariant forall e :: e in evidence <==>
                  OfMemories(ms, of, e) || OfStates(states, e) || OfConflicts(conflicts[..k], e)
    {
      assert forall c :: c in conflicts[..k + 1] <==> c in conflicts[..k] || c == conflicts[k];
      evidence := evidence + set e | e in conflicts[k].evidenceRefs;
    }
    assert conflicts[..|conflicts|] == conflicts;
    ids := SortedIds(evidence);
  }

  /* ---- resolve_context ---- */

  /** A returned memory is bound to it, or a returned interest or conflict cites it. */
  ghost predicate Supports(db: Tables, ref: SubjectRef, b: ContextBundle, e: Id) {
    || (exists m :: m in b.selection.hard + MemoriesOf(b.selection.memories) && e in EvidenceOf(db, ref, m.id))
    || OfStates(b.recent + b.longTerm, e)
    || OfConflicts(b.conflicts, e)
  }

  /** A conflict of the latest profile about a memory that was considered, whether or not it is returned. */
  ghost predicate Disputes(later: Tables, listed: Tables, r: Request, text: Option<seq<Hit>>, vector: Option<seq<Hit>>,
                           c: Conflict)
  {
    && ProfileService.Latest(later.snapshots, r.subject).Some?
    && (exists p :: p in ProfileService.Latest(later.snapshots, r.subject).value.preferences && c in p.conflicts)
    && exists id :: id in c.memoryIds && Considered(listed, r, text, vector, id)
  }

  /** `listed`, `current` and `later` are what the transaction reads at its start, when it reads the
      candidates again, and for everything else. */
  method ResolveContext(r: Request, limits: Limits, listed: Tables, current: Tables, later: Tables,
                        states: seq<FeatureState>, text: Option<seq<Hit>>, vector: Option<seq<Hit>>,
                        reranked: Option<seq<Hit>>)
    returns (b: Result<ContextBundle>)
    requires MemoriesKeyed(current.memories)
    requires ProfileService.Lists(states, later.states, r.subject)
    ensures b.Ok? <==> Live(listed, r.subject)
    ensures b.Err? ==> b == Err(if r.subject in listed.subjects then SubjectDeleted else SubjectNotFound)
    ensures b.Ok? ==> Safe(b.value.selection, listed, current, r, text, vector)
    ensures b.Ok? ==> IsTop(b.value.recent, states, InterestOrder(ShortTerm()), limits.recent)
                      && IsTop(b.value.longTerm, states, InterestOrder(LongTerm()), limits.longTerm)
    ensures b.Ok? ==> forall c :: c in b.value.conflicts <==> Disputes(later, listed, r, text, vector, c)
    ensures b.Ok? ==> (forall e :: e in b.value.evidenceIds <==> Supports(later, r.subject, b.value, e))
                      && forall i, j | 0 <= i < j < |b.value.evidenceIds| ::
                           b.value.evidenceIds[i] < b.value.evidenceIds[j]
  {
    hide Safe, IsTop, InterestOrder, Considered, EvidenceOf, MemoriesKeyed, OfStates, OfConflicts;
    hide ProfileService.Latest, ProfileService.Lists;
    var _ :- RequireSubject(listed, r.subject);
    var selection, considered := SelectMemories(r, listed, current, text, vector, reranked);
    var recent := Interests(states, ShortTerm(), limits.recent);
    var longTerm := Interests(states, LongTerm(), limits.longTerm);
    var profile := ProfileService.Latest(later.snapshots, r.subject);
    var conflicts := RelevantConflicts(if profile.Some? then profile.value.preferences else [], considered);
    var returned := selection.hard + MemoriesOf(selection.memories);
    var of := map id | id in considered :: EvidenceOf(later, r.subject, id);
    var ids := BundleEvidence(returned, recent + longTerm, conflicts, of);
    b := Ok(ContextBundle(selection, recent, longTerm, conflicts, ids));
    forall m | m in returned ensures m.id in considered {
      ReturnedIsConsidered(selection, listed, current, r, text, vector, m);
    }
  }

  lemma ReturnedIsConsidered(b: Bundle, listed: Tables, current: Tables, r: Request, text: Option<seq<Hit>>,
                             vector: Option<seq<Hit>>, m: MemoryRecord)
    requires Safe(b, listed, current, r, text, vector) && m in b.hard + MemoriesOf(b.memories)
    ensures Considered(listed, r, text, vector, m.id)
  {
    hide Considered, BundleValid, WithinBudget, MemoriesOf, IsHard, Admissible;
  }

  /** The evidence of memories and interests is stored, and is the subject's own. */
  lemma CitedEvidenceIsStored(db: Tables, ref: SubjectRef, states: seq<FeatureState>, memory: Id, s: FeatureState,
                              e: Id)
    requires Consistent(db) && FeatureEngine.LinksOk(db.states, db.stateEvidence)
             && ProfileService.Lists(states, db.states, ref)
    requires e in EvidenceOf(db, ref, memory) || (s in states && e in s.draft.evidenceIds)
    ensures OwnsEvidence(db, ref, e)
  {
    hide Keyed, UniqueKeys, FactReferences, OwnerReferences, StatesValid;
    if e in EvidenceOf(db, ref, memory) {
      assert Binding(memory, e) in db.bindings;
    } else {
      assert StateLink(s.Key(), e) in db.stateEvidence;
    }
  }
}
