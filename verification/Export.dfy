/** Reading everything a subject owns, page by page (subject_service.py). */
module Export {
  import opened Domain
  import opened Sorting
  import opened Memory
  import opened Records
  import opened Database
  import opened MemoryPlans
  import opened MemoryInvariants
  import opened MemoryTransactions
  import opened MemoryProtocol

  /** The paging loop of every listing: it returns the whole listing once, in order. */
  method ListPaged<T>(rows: seq<T>) returns (all: seq<T>)
    ensures all == rows
  {
    all := [];
    var offset := 0;
    while true
      invariant offset <= |rows| && all == rows[..offset]
      decreases |rows| - offset
    {
      var page := Page(rows, PAGE, offset);
      assert page == rows[offset..Min(offset + PAGE, |rows|)];
      all := all + page;
      if |page| < PAGE {
        assert rows[..|rows|] == rows;
        break;
      }
      offset := offset + PAGE;
    }
  }

  function EventsOf(db: Tables, ref: SubjectRef): seq<Event> { Filter(Rows(db.events), (e: Event) => e.subject == ref) }
  function MemoriesOf(db: Tables, ref: SubjectRef): seq<MemoryRecord> {
    Sort(Filter(Rows(db.memories), (m: MemoryRecord) => m.subject == ref), NewestFirst())
  }
  function EvidenceOf(db: Tables, ref: SubjectRef, eventId: Id): seq<Evidence> {
    Filter(Rows(db.evidence), (e: Evidence) => e.subject == ref && e.eventId == Some(eventId))
  }

  /** Evidence reached through memory bindings and through events. */
  ghost predicate Reached(db: Tables, ref: SubjectRef, e: Id) {
    && OwnsEvidence(db, ref, e)
    && (|| (exists b :: b in db.bindings && OwnsMemory(db, ref, b.memory) && b.evidence == e)
        || (db.evidence[e].eventId.Some? && OwnsEvent(db, ref, db.evidence[e].eventId.value)))
  }

  /** In every reachable state each evidence row of the subject is reached, so nothing is left out. */
  lemma EverythingIsReached(run: seq<System>, n: nat, ref: SubjectRef, e: Id)
    requires IsRun(run) && n < |run|
    ensures OwnsEvidence(run[n].db, ref, e) <==> Reached(run[n].db, ref, e)
  {
    hide StoreOk, ClientOk, HistoryOk, AllFaithful, ClockOk;
    RunsAreSafe(run, n);
    if OwnsEvidence(run[n].db, ref, e) { HeldIsReached(run[n].db, ref, e); }
  }

  lemma HeldIsReached(db: Tables, ref: SubjectRef, e: Id)
    requires OwnsEvidence(db, ref, e)
    requires StoreOk(db, {})
    ensures Reached(db, ref, e)
  {
    hide Keyed, UniqueKeys, MemoryOk, FeatureReferences, OwnerReferences, RevisionsRefer, MemoriesOwned, EntitiesOwned,
         EventsRefer;
    if db.evidence[e].eventId.None? {
      var m :| Binding(m, e) in db.bindings;
      assert Binding(m, e) in db.bindings && OwnsMemory(db, ref, Binding(m, e).memory);
    }
  }

  class ExportReader {
    const db: Tables
    /** evidence_by_id */
    var found: map<Id, Evidence>

    constructor (db: Tables)
      ensures this.db == db && found == map[]
    {
      this.db := db;
      found := map[];
    }

    ghost predicate Genuine(ref: SubjectRef)
      reads this
    {
      forall e | e in found :: OwnsEvidence(db, ref, e) && found[e] == db.evidence[e]
    }

    method Keep(ref: SubjectRef, e: Id)
      requires Genuine(ref)
      modifies this
      ensures Genuine(ref) && found.Keys == old(found).Keys + if OwnsEvidence(db, ref, e) then {e} else {}
    {
      if OwnsEvidence(db, ref, e) { found := found[e := db.evidence[e]]; }
    }

    method KeepAll(ref: SubjectRef, ids: seq<Id>)
      requires Genuine(ref)
      modifies this
      ensures Genuine(ref) && old(found).Keys <= found.Keys
      ensures forall e | e in ids && OwnsEvidence(db, ref, e) :: e in found
    {
      for i := 0 to |ids|
        invariant Genuine(ref) && old(found).Keys <= found.Keys
        invariant forall e | e in ids[..i] && OwnsEvidence(db, ref, e) :: e in found
      {
        Keep(ref, ids[i]);
        assert ids[..i + 1] == ids[..i] + [ids[i]];
      }
      assert ids[..|ids|] == ids;
    }

    ghost predicate HasBoundTo(ref: SubjectRef, ms: seq<MemoryRecord>)
      reads this
    {
      forall m, e | m in ms && Binding(m.id, e) in db.bindings && OwnsEvidence(db, ref, e) :: e in found
    }

    ghost predicate HasAttachedTo(ref: SubjectRef, vs: seq<Event>)
      reads this
    {
      forall v, e | v in vs && OwnsEvidence(db, ref, e) && db.evidence[e].eventId == Some(v.id) :: e in found
    }

    method KeepBound(ref: SubjectRef, memories: seq<MemoryRecord>)
      requires Genuine(ref)
      modifies this
      ensures Genuine(ref) && HasBoundTo(ref, memories)
    {
      for i := 0 to |memories|
        invariant Genuine(ref) && HasBoundTo(ref, memories[..i])
      {
        ghost var before := found.Keys;
        KeepAll(ref, SortedIds(BoundTo(db, memories[i].id)));
        forall m, e | m in memories[..i + 1] && Binding(m.id, e) in db.bindings && OwnsEvidence(db, ref, e)
          ensures e in found
        {
          assert m in memories[..i] || m == memories[i];
          if m in memories[..i] { assert e in before; } else { assert e in BoundTo(db, m.id); }
        }
      }
      assert memories[..|memories|] == memories;
    }

    method KeepAttached(ref: SubjectRef, events: seq<Event>)
      requires Genuine(ref)
      requires Consistent(db)
      modifies this
      ensures Genuine(ref) && old(found).Keys <= found.Keys && HasAttachedTo(ref, events)
    {
      hide Consistent, AttachedIds;
      for i := 0 to |events|
        invariant Genuine(ref) && old(found).Keys <= found.Keys && HasAttachedTo(ref, events[..i])
      {
        ghost var before := found.Keys;
        KeepAll(ref, AttachedIds(db, ref, events[i].id));
        forall v, e | v in events[..i + 1] && OwnsEvidence(db, ref, e) && db.evidence[e].eventId == Some(v.id)
          ensures e in found
        {
          assert v in events[..i] || v == events[i];
          if v in events[..i] { assert e in before; } else { RowListed(db, ref, e, v.id); }
        }
      }
      assert events[..|events|] == events;
    }

    /** The evidence part of an export: exactly the subject's evidence rows, each as stored. */
    method ExportEvidence(ref: SubjectRef, observed: seq<Id>, aggregated: seq<Id>)
      requires found == map[]
      requires StoreOk(db, {})
      modifies this
      ensures Genuine(ref) && forall e :: e in found <==> OwnsEvidence(db, ref, e)
    {
      hide StoreOk, Consistent, EventsOf, MemoriesOf;
      StoreParts(db, {});
      var memories := ListPaged(MemoriesOf(db, ref));
      KeepBound(ref, memories);
      ghost var bound := found.Keys;
      var events := ListPaged(EventsOf(db, ref));
      KeepAttached(ref, events);
      KeepAll(ref, observed);
      KeepAll(ref, aggregated);
      forall e | OwnsEvidence(db, ref, e) ensures e in found {
        HeldIsReached(db, ref, e);
        ReachedIsListed(db, ref, e);
        if m :| m in memories && Binding(m.id, e) in db.bindings { assert e in bound; }
      }
    }
  }

  function EvidenceIds(rows: seq<Evidence>): (r: seq<Id>)
    ensures forall e | e in rows :: e.id in r
  {
    if rows == [] then [] else [rows[0].id] + EvidenceIds(rows[1..])
  }

  function AttachedIds(db: Tables, ref: SubjectRef, event: Id): seq<Id> { EvidenceIds(EvidenceOf(db, ref, event)) }

  lemma RowListed(db: Tables, ref: SubjectRef, e: Id, event: Id)
    requires OwnsEvidence(db, ref, e) && db.evidence[e].eventId == Some(event)
    requires Consistent(db)
    ensures e in AttachedIds(db, ref, event)
  {
    hide References, UniqueKeys;
    assert db.evidence[e] in Rows(db.evidence);
    assert db.evidence[e] in EvidenceOf(db, ref, event);
  }

  lemma ReachedIsListed(db: Tables, ref: SubjectRef, e: Id)
    requires Reached(db, ref, e)
    requires Consistent(db)
    ensures || (exists m :: m in MemoriesOf(db, ref) && Binding(m.id, e) in db.bindings)
            || (exists v :: v in EventsOf(db, ref) && db.evidence[e].eventId == Some(v.id))
  {
    hide References, UniqueKeys;
    if b :| b in db.bindings && OwnsMemory(db, ref, b.memory) && b.evidence == e {
      var m := db.memories[b.memory];
      assert m in Rows(db.memories);
      SortPermutes(Filter(Rows(db.memories), (m: MemoryRecord) => m.subject == ref), NewestFirst());
      assert m in MemoriesOf(db, ref) && Binding(m.id, e) == b;
    } else {
      var v := db.events[db.evidence[e].eventId.value];
      assert v in Rows(db.events);
      assert v in EventsOf(db, ref) && db.evidence[e].eventId == Some(v.id);
    }
  }
}
