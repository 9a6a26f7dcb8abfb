/** Idempotent ingestion of events (domain/events.py, event_service.py). */
module Events {
  import opened Domain
  import opened Sorting
  import opened Records
  import opened Database
  import opened MemoryInvariants
  import FeatureEngine

  datatype EvidenceDraft = EvidenceDraft(
    sourceType: SourceType, sourceRef: string, excerpt: Option<string>, metadata: string, occurredAt: Time)

  /** What a client sends. */
  datatype Incoming = Incoming(source: string, idempotencyKey: string, content: EventContent,
                               evidence: Option<EvidenceDraft>)

  /** The ids and the clock reading of one ingestion. */
  datatype Fresh = Fresh(eventId: Id, evidenceId: Id, now: Time)

  datatype Status = Created | Replayed
  datatype Ingested = Ingested(status: Status, event: Event, evidence: Evidence)

  /* ---- classification ---- */

  datatype Decision = Replay | Conflicting | DifferentScope

  /** The digests of two contents agree exactly when the contents do. */
  function Classify(existing: Event, ref: SubjectRef, x: Incoming): Decision {
    if !HasEventKey(existing, ref, x.source, x.idempotencyKey) then DifferentScope
    else if existing.content == x.content then Replay else Conflicting
  }

  /** get_by_idempotency_key */
  function Holder(t: map<Id, Event>, ref: SubjectRef, x: Incoming): (r: Option<Event>)
    ensures r.Some? ==> Stores(t, r.value) && HasEventKey(r.value, ref, x.source, x.idempotencyKey)
    ensures r.None? ==> forall id | id in t :: !HasEventKey(t[id], ref, x.source, x.idempotencyKey)
  {
    FindRow(t, (e: Event) => HasEventKey(e, ref, x.source, x.idempotencyKey))
  }

  function Decimal(n: nat): string { if n < 10 then ["0123456789"[n]] else Decimal(n / 10) + ["0123456789"[n % 10]] }

  function EvidenceFor(e: Event, draft: Option<EvidenceDraft>, f: Fresh): Evidence {
    match draft
    case Some(d) => Evidence(f.evidenceId, e.subject, d.sourceType, d.sourceRef, Some(e.id), d.excerpt, d.metadata,
                             d.occurredAt, f.now)
    case None => Evidence(f.evidenceId, e.subject, EventSource, "event:" + Decimal(e.id), Some(e.id), None,
                          e.source + "," + e.idempotencyKey, e.content.occurredAt, f.now)
  }

  /* ---- one event ---- */

  /** The statements one ingestion decides on, having read `db`, and what it will answer. */
  datatype Plan = Plan(writes: seq<Write>, answer: Ingested)

  function ReplayOrConflict(db: Tables, ref: SubjectRef, x: Incoming, existing: Event, f: Fresh): Result<Plan> {
    match Classify(existing, ref, x)
    case Conflicting => Err(IdempotencyConflict)
    case DifferentScope => Err(InvalidArgument)
    case Replay =>
      var known := FeatureEngine.EvidenceForEvent(db.evidence, ref, existing.id);
      if known != [] then Ok(Plan([], Ingested(Replayed, existing, known[0]))) else
        var v := EvidenceFor(existing, None, f);
        Ok(Plan([AddEvidence(v)], Ingested(Replayed, existing, v)))
  }

  /** _ingest_one_in_uow */
  function IngestPlan(db: Tables, ref: SubjectRef, x: Incoming, f: Fresh): Result<Plan> {
    var existing := Holder(db.events, ref, x);
    if existing.Some? then ReplayOrConflict(db, ref, x, existing.value, f) else
      var entity := x.content.entity;
      var _ :- Require(entity.Some? ==> entity.value.subject == ref, TenantScopeViolation);
      var _ :- Require(entity.Some? ==> entity.value in db.entities && db.entities[entity.value].deletedAt.None?,
                       EntityNotFound);
      var e := Event(f.eventId, ref, x.source, x.idempotencyKey, x.content, f.now);
      var v := EvidenceFor(e, x.evidence, f);
      Ok(Plan([AddEvent(e), AddEvidence(v)], Ingested(Created, e, v)))
  }

  /** ensure_in_uow and the plan after it. */
  function CallPlan(db: Tables, ref: SubjectRef, x: Incoming, f: Fresh): Result<Plan> {
    var d :- EnsuredSubject(db, ref);
    var plan :- IngestPlan(d, ref, x, f);
    Ok(plan.(writes := (if ref in db.subjects then [] else [AddSubject(ref)]) + plan.writes))
  }

  /** A transaction that read `read` and executes its statements on `now`. */
  function Attempt(read: Tables, now: Tables, ref: SubjectRef, x: Incoming, f: Fresh): Result<(Tables, Ingested)> {
    var plan :- CallPlan(read, ref, x, f);
    var after :- ApplyAll(now, plan.writes);
    Ok((after, plan.answer))
  }

  /** _retry_idempotency_race, in a new transaction */
  function Retry(db: Tables, ref: SubjectRef, x: Incoming, f: Fresh, original: Error): Result<(Tables, Ingested)> {
    var d :- EnsuredSubject(db, ref);
    var existing := Holder(d.events, ref, x);
    var _ :- Require(existing.Some?, original);
    var plan :- ReplayOrConflict(d, ref, x, existing.value, f);
    var after :- ApplyAll(d, plan.writes);
    Ok((after, plan.answer))
  }

  /** ingest_event: `read` is what the first transaction read, `now` the tables it executes on, `later` those a retry
      finds. */
  function IngestEvent(read: Tables, now: Tables, later: Tables, ref: SubjectRef, x: Incoming,
                       f: Fresh): Result<(Tables, Ingested)>
  {
    var first := Attempt(read, now, ref, x, f);
    if first == Err(InvalidArgument) then Retry(later, ref, x, f, InvalidArgument) else first
  }

  /* ---- keys ---- */

  /** Neither events nor evidence are lost or altered. */
  ghost predicate FactsKept(a: Tables, b: Tables) { Extends(a.events, b.events) && Extends(a.evidence, b.evidence) }

  lemma NothingLost(db: Tables)
    ensures FactsKept(db, db) && Extends(db.evidence, db.evidence)
  {
  }

  lemma KeptThrough(a: Tables, b: Tables, c: Tables)
    requires FactsKept(a, b) && FactsKept(b, c)
    ensures FactsKept(a, c)
  {
  }

  lemma {:induction false} WritesKeepEvents(db: Tables, ws: seq<Write>)
    requires ApplyAll(db, ws).Ok?
    ensures FactsKept(db, ApplyAll(db, ws).value)
    decreases |ws|
  {
    hide Apply;
    if ws != [] {
      OneKeepsEvents(db, ws[0]);
      WritesKeepEvents(Apply(db, ws[0]).value, ws[1..]);
    }
  }

  lemma OneKeepsEvents(db: Tables, w: Write)
    requires Apply(db, w).Ok?
    ensures FactsKept(db, Apply(db, w).value)
  {
    hide SlotFree, SourceFree, IdentityFree, EventKeyFree;
  }

  lemma ConsistentEvents(db: Tables)
    requires Consistent(db)
    ensures EventsKeyed(db.events) && EventKeysUnique(db.events) && EvidenceKeyed(db.evidence)
  {
    hide References, SourcesUnique, SlotsUnique, IdentitiesUnique, DerivedKeyed;
  }

  /** There is one event per key, so the holder is the event stored under it. */
  lemma HolderIs(t: map<Id, Event>, ref: SubjectRef, x: Incoming, e: Event)
    requires EventsKeyed(t) && EventKeysUnique(t)
    requires Stores(t, e) && HasEventKey(e, ref, x.source, x.idempotencyKey)
    ensures Holder(t, ref, x) == Some(e)
  {
    hide Holder;
    var id :| id in t && t[id] == e;
    var h := Holder(t, ref, x).value;
    var other :| other in t && t[other] == h;
  }

  /** The first writer of a key holds it for good. */
  lemma FirstWriterWins(before: Tables, after: Tables, ref: SubjectRef, x: Incoming)
    requires FactsKept(before, after) && Holder(before.events, ref, x).Some?
    requires Consistent(after)
    ensures Holder(after.events, ref, x) == Holder(before.events, ref, x)
  {
    hide Consistent, Holder;
    ConsistentEvents(after);
    var e := Holder(before.events, ref, x).value;
    StillStores(before.events, after.events, e);
    HolderIs(after.events, ref, x, e);
  }

  /* ---- what an answer means ---- */

  /** The answered event is stored under the key with exactly the content sent. */
  ghost predicate Answered(t: map<Id, Event>, ref: SubjectRef, x: Incoming, answer: Ingested) {
    Holder(t, ref, x) == Some(answer.event) && answer.event.content == x.content
  }

  /** The answered evidence is stored and belongs to the answered event. */
  ghost predicate Evidenced(t: map<Id, Evidence>, answer: Ingested) {
    var v := answer.evidence;
    v.id in t && t[v.id] == v && v.eventId == Some(answer.event.id) && v.subject == answer.event.subject
  }

  /** Created means that no row had the event's id before. */
  ghost predicate StatusRight(before: map<Id, Event>, answer: Ingested) {
    answer.status == Created ==> answer.event.id !in before
  }

  ghost predicate Conflicts(t: map<Id, Event>, ref: SubjectRef, x: Incoming) {
    Holder(t, ref, x).Some? && Holder(t, ref, x).value.content != x.content
  }

  lemma AddedEvent(db: Tables, ws: seq<Write>, e: Event)
    requires AddEvent(e) in ws && ApplyAll(db, ws).Ok?
    ensures e.id in ApplyAll(db, ws).value.events && ApplyAll(db, ws).value.events[e.id] == e && e.id !in db.events
    decreases |ws|
  {
    hide Apply;
    var next := Apply(db, ws[0]).value;
    if ws[0] == AddEvent(e) {
      NewEvent(db, e);
      WritesKeepEvents(next, ws[1..]);
    } else {
      OneKeepsEvents(db, ws[0]);
      AddedEvent(next, ws[1..], e);
    }
  }

  lemma AddedEvidence(db: Tables, ws: seq<Write>, v: Evidence)
    requires AddEvidence(v) in ws && ApplyAll(db, ws).Ok?
    ensures v.id in ApplyAll(db, ws).value.evidence && ApplyAll(db, ws).value.evidence[v.id] == v
    decreases |ws|
  {
    hide Apply;
    var next := Apply(db, ws[0]).value;
    if ws[0] == AddEvidence(v) {
      NewEvidence(db, v);
      WritesKeepEvents(next, ws[1..]);
    } else {
      AddedEvidence(next, ws[1..], v);
    }
  }

  lemma NewEvidence(db: Tables, v: Evidence)
    requires Apply(db, AddEvidence(v)).Ok?
    ensures Apply(db, AddEvidence(v)).value.evidence == db.evidence[v.id := v]
  {
    hide SourceFree;
  }

  /** Evidence listed for an event is stored and belongs to it. */
  lemma ListedEvidence(t: map<Id, Evidence>, ref: SubjectRef, id: Id)
    requires EvidenceKeyed(t) && FeatureEngine.EvidenceForEvent(t, ref, id) != []
    ensures var v := FeatureEngine.EvidenceForEvent(t, ref, id)[0];
            v.id in t && t[v.id] == v && v.eventId == Some(id) && v.subject == ref
  {
    var rows := Filter(Rows(t), (e: Evidence) => e.subject == ref && e.eventId == Some(id));
    SortPermutes(rows,
                 (a: Evidence, b: Evidence) => a.createdAt < b.createdAt
                   || (a.createdAt == b.createdAt && a.id <= b.id));
    var v := FeatureEngine.EvidenceForEvent(t, ref, id)[0];
    assert v in FeatureEngine.EvidenceForEvent(t, ref, id);
    assert v in rows && Stores(t, v);
  }

  lemma NewEvent(db: Tables, e: Event)
    requires Apply(db, AddEvent(e)).Ok?
    ensures e.id !in db.events && Apply(db, AddEvent(e)).value.events == db.events[e.id := e]
  {
    hide EventKeyFree;
  }

  /** The evidence answered is either about to be added or stored for the event already. */
  ghost predicate EvidencePlanned(db: Tables, p: Plan) {
    && p.answer.evidence.eventId == Some(p.answer.event.id) && p.answer.evidence.subject == p.answer.event.subject
    && (AddEvidence(p.answer.evidence) in p.writes || Evidenced(db.evidence, p.answer))
  }

  lemma PlanHasEvidence(db: Tables, ref: SubjectRef, x: Incoming, f: Fresh)
    requires CallPlan(db, ref, x, f).Ok? && EvidenceKeyed(db.evidence)
    ensures EvidencePlanned(db, CallPlan(db, ref, x, f).value)
  {
    hide Holder, Decimal;
    hide FeatureEngine.EvidenceForEvent;
    EnsuredParts(db, ref);
    var existing := Holder(EnsuredSubject(db, ref).value.events, ref, x);
    if existing.Some? { ReplayHasEvidence(EnsuredSubject(db, ref).value, ref, x, existing.value, f); }
  }

  lemma ReplayHasEvidence(db: Tables, ref: SubjectRef, x: Incoming, existing: Event, f: Fresh)
    requires EvidenceKeyed(db.evidence) && existing.subject == ref
    ensures ReplayOrConflict(db, ref, x, existing, f).Ok? ==>
              EvidencePlanned(db, ReplayOrConflict(db, ref, x, existing, f).value)
  {
    hide Decimal;
    hide FeatureEngine.EvidenceForEvent;
    if FeatureEngine.EvidenceForEvent(db.evidence, ref, existing.id) != [] {
      ListedEvidence(db.evidence, ref, existing.id);
    }
  }

  /** Evidence planned on what was read is stored after the statements, whatever was written in between. */
  lemma PlannedIsStored(read: Tables, now: Tables, p: Plan)
    requires EvidencePlanned(read, p) && FactsKept(read, now) && ApplyAll(now, p.writes).Ok?
    ensures Evidenced(ApplyAll(now, p.writes).value.evidence, p.answer)
  {
    hide ApplyAll;
    WritesKeepEvents(now, p.writes);
    if AddEvidence(p.answer.evidence) in p.writes { AddedEvidence(now, p.writes, p.answer.evidence); }
  }

  /** A plan is only made for content that agrees with what was read. */
  lemma PlanAgrees(db: Tables, ref: SubjectRef, x: Incoming, f: Fresh)
    ensures IngestPlan(db, ref, x, f).Ok? ==>
              var p := IngestPlan(db, ref, x, f).value;
              && p.answer.event.content == x.content && HasEventKey(p.answer.event, ref, x.source, x.idempotencyKey)
              && (if p.answer.status == Replayed then Holder(db.events, ref, x) == Some(p.answer.event)
                  else AddEvent(p.answer.event) in p.writes)
    ensures IngestPlan(db, ref, x, f) == Err(IdempotencyConflict) <==> Conflicts(db.events, ref, x)
  {
    hide Holder, Decimal;
    hide FeatureEngine.EvidenceForEvent;
  }

  lemma CallAgrees(db: Tables, ref: SubjectRef, x: Incoming, f: Fresh)
    ensures CallPlan(db, ref, x, f).Ok? ==>
              var p := CallPlan(db, ref, x, f).value;
              && p.answer.event.content == x.content && HasEventKey(p.answer.event, ref, x.source, x.idempotencyKey)
              && (if p.answer.status == Replayed then Holder(db.events, ref, x) == Some(p.answer.event)
                  else AddEvent(p.answer.event) in p.writes)
    ensures CallPlan(db, ref, x, f) == Err(IdempotencyConflict) <==>
              EnsuredSubject(db, ref).Ok? && Conflicts(db.events, ref, x)
  {
    hide Holder, IngestPlan, Conflicts, HasEventKey;
    if EnsuredSubject(db, ref).Ok? {
      EnsuredParts(db, ref);
      PlanAgrees(EnsuredSubject(db, ref).value, ref, x, f);
    }
  }

  /** Whatever others wrote between the read and the commit: a success means that the content sent is stored. */
  lemma SuccessMeansStored(read: Tables, now: Tables, ref: SubjectRef, x: Incoming, f: Fresh)
    requires Attempt(read, now, ref, x, f).Ok? && FactsKept(read, now)
    requires Consistent(read) && Consistent(now)
    ensures var (after, answer) := Attempt(read, now, ref, x, f).value;
            && Consistent(after) && FactsKept(now, after) && Answered(after.events, ref, x, answer)
            && Evidenced(after.evidence, answer) && StatusRight(now.events, answer)
  {
    hide Consistent, Holder, CallPlan, EvidencePlanned, Extends, Evidenced, ApplyAll;
    ConsistentEvents(read);
    PlanHasEvidence(read, ref, x, f);
    PlannedIsStored(read, now, CallPlan(read, ref, x, f).value);
    var plan := CallPlan(read, ref, x, f).value;
    var after := ApplyAll(now, plan.writes).value;
    CallAgrees(read, ref, x, f);
    WritesKeepConsistency(now, plan.writes);
    WritesKeepEvents(now, plan.writes);
    ConsistentEvents(after);
    var e := plan.answer.event;
    if plan.answer.status == Replayed {
      KeptThrough(read, now, after);
      StillStores(read.events, after.events, e);
    } else {
      AddedEvent(now, plan.writes, e);
    }
    assert Stores(after.events, e);
    HolderIs(after.events, ref, x, e);
  }

  /** A conflict is reported exactly when, in the tables read, another content holds the key. */
  lemma ConflictMeansDifferent(read: Tables, now: Tables, ref: SubjectRef, x: Incoming, f: Fresh)
    ensures Attempt(read, now, ref, x, f) == Err(IdempotencyConflict) <==>
              EnsuredSubject(read, ref).Ok? && Conflicts(read.events, ref, x)
  {
    hide CallPlan, Conflicts, EnsuredSubject;
    CallAgrees(read, ref, x, f);
    if CallPlan(read, ref, x, f).Ok? { NeverConflicts(now, CallPlan(read, ref, x, f).value.writes); }
  }

  /** The tables never raise an idempotency conflict themselves. */
  lemma {:induction false} NeverConflicts(db: Tables, ws: seq<Write>)
    ensures ApplyAll(db, ws) != Err(IdempotencyConflict)
    decreases |ws|
  {
    hide SlotFree, SourceFree, IdentityFree, EventKeyFree;
    if ws != [] && Apply(db, ws[0]).Ok? { NeverConflicts(Apply(db, ws[0]).value, ws[1..]); }
  }

  /** The statements an ingestion may execute. */
  ghost predicate IngestWrite(w: Write) {
    match w
    case AddSubject(_) => true
    case AddEvidence(_) => true
    case AddEvent(e) => e.content.entity.Some? ==> e.content.entity.value.subject == e.subject
    case _ => false
  }

  lemma PlansIngestWrites(db: Tables, ref: SubjectRef, x: Incoming, f: Fresh)
    requires CallPlan(db, ref, x, f).Ok?
    ensures forall w | w in CallPlan(db, ref, x, f).value.writes :: IngestWrite(w)
  {
    hide Holder, EvidenceFor, EnsuredSubject;
    hide FeatureEngine.EvidenceForEvent;
  }

  lemma OneRefusedAsInvalid(db: Tables, w: Write)
    requires IngestWrite(w)
    ensures Apply(db, w).Err? ==> Apply(db, w).error == InvalidArgument
  {
    hide SourceFree, EventKeyFree;
  }

  /** What the tables refuse of an ingestion, they refuse as an invalid argument: the error that is retried. */
  lemma {:induction false} RefusedAsInvalid(db: Tables, ws: seq<Write>)
    requires forall w | w in ws :: IngestWrite(w)
    ensures ApplyAll(db, ws).Err? ==> ApplyAll(db, ws).error == InvalidArgument
    decreases |ws|
  {
    hide Apply, IngestWrite;
    if ws != [] {
      assert IngestWrite(ws[0]);
      OneRefusedAsInvalid(db, ws[0]);
      if Apply(db, ws[0]).Ok? { RefusedAsInvalid(Apply(db, ws[0]).value, ws[1..]); }
    }
  }

  /** ensure_in_uow lets the subject through. */
  predicate Open(db: Tables, ref: SubjectRef) { ref in db.subjects ==> db.subjects[ref].None? }

  lemma EnsuredIffOpen(db: Tables, ref: SubjectRef)
    ensures EnsuredSubject(db, ref).Ok? <==> Open(db, ref)
    ensures Live(db, ref) ==> Open(db, ref)
  {
  }

  /** None of the statements deletes the subject. */
  ghost predicate Spares(ws: seq<Write>, ref: SubjectRef) { forall w | w in ws :: w.DeleteSubject? ==> w.ref != ref }

  lemma {:induction false} SparedStaysOpen(db: Tables, ws: seq<Write>, ref: SubjectRef)
    requires Open(db, ref) && Spares(ws, ref) && ApplyAll(db, ws).Ok?
    ensures Open(ApplyAll(db, ws).value, ref)
    decreases |ws|
  {
    hide Apply;
    if ws != [] {
      StaysOpen(db, ws[0], ref);
      SparedStaysOpen(Apply(db, ws[0]).value, ws[1..], ref);
    }
  }

  lemma StaysOpen(db: Tables, w: Write, ref: SubjectRef)
    requires Open(db, ref) && (w.DeleteSubject? ==> w.ref != ref) && Apply(db, w).Ok?
    ensures Open(Apply(db, w).value, ref)
  {
    hide Refusal;
  }

  /** A conflict once stored is there for good. */
  lemma ConflictStays(before: Tables, after: Tables, ref: SubjectRef, x: Incoming)
    requires FactsKept(before, after) && Conflicts(before.events, ref, x)
    requires Consistent(after)
    ensures Conflicts(after.events, ref, x)
  {
    hide Consistent, Holder, FactsKept;
    FirstWriterWins(before, after, ref, x);
  }

  /** An ingestion deletes no subject. */
  lemma PlanKeepsOpen(read: Tables, now: Tables, ref: SubjectRef, x: Incoming, f: Fresh)
    requires CallPlan(read, ref, x, f).Ok? && ApplyAll(now, CallPlan(read, ref, x, f).value.writes).Ok?
    ensures Open(now, ref) ==> Open(ApplyAll(now, CallPlan(read, ref, x, f).value.writes).value, ref)
  {
    hide ApplyAll, CallPlan, Open;
    PlansIngestWrites(read, ref, x, f);
    if Open(now, ref) { SparedStaysOpen(now, CallPlan(read, ref, x, f).value.writes, ref); }
  }

  lemma PlanRefusedAsInvalid(read: Tables, now: Tables, ref: SubjectRef, x: Incoming, f: Fresh)
    requires CallPlan(read, ref, x, f).Ok? && ApplyAll(now, CallPlan(read, ref, x, f).value.writes).Err?
    ensures ApplyAll(now, CallPlan(read, ref, x, f).value.writes) == Err(InvalidArgument)
  {
    hide ApplyAll, CallPlan, IngestWrite;
    PlansIngestWrites(read, ref, x, f);
    RefusedAsInvalid(now, CallPlan(read, ref, x, f).value.writes);
  }

  lemma AnsweredAgrees(t: map<Id, Event>, ref: SubjectRef, x: Incoming, answer: Ingested)
    requires Answered(t, ref, x, answer)
    ensures !Conflicts(t, ref, x)
  {
    hide Holder;
  }

  lemma RetryKeepsOpen(db: Tables, ref: SubjectRef, x: Incoming, f: Fresh)
    requires Retry(db, ref, x, f, InvalidArgument).Ok?
    ensures Open(Retry(db, ref, x, f, InvalidArgument).value.0, ref)
  {
    hide Holder, EvidenceFor, EnsuredSubject, ApplyAll, Open, IngestWrite;
    hide FeatureEngine.EvidenceForEvent;
    var d := EnsuredSubject(db, ref).value;
    assert Open(d, ref) by { EnsuredParts(db, ref); EnsuredIffOpen(d, ref); }
    var plan := ReplayOrConflict(d, ref, x, Holder(d.events, ref, x).value, f).value;
    SparedStaysOpen(d, plan.writes, ref);
  }

  /** A retry meets the same promises. */
  lemma RetryMeansStored(db: Tables, ref: SubjectRef, x: Incoming, f: Fresh)
    requires Consistent(db)
    ensures Retry(db, ref, x, f, InvalidArgument).Ok? ==>
              var (after, answer) := Retry(db, ref, x, f, InvalidArgument).value;
              && Consistent(after) && FactsKept(db, after)
              && Answered(after.events, ref, x, answer) && Evidenced(after.evidence, answer)
                 && answer.status == Replayed
    ensures Retry(db, ref, x, f, InvalidArgument) == Err(IdempotencyConflict) <==>
              EnsuredSubject(db, ref).Ok? && Conflicts(db.events, ref, x)
  {
    hide Consistent, Holder, EnsuredSubject, EvidencePlanned, Extends, Evidenced, ReplayOrConflict, ApplyAll;
    if EnsuredSubject(db, ref).Ok? {
      EnsuredParts(db, ref);
      var d := EnsuredSubject(db, ref).value;
      EnsuredConsistent(db, ref);
      var existing := Holder(d.events, ref, x);
      if existing.Some? {
        ReplayPlan(d, ref, x, existing.value, f);
        ConsistentEvents(d);
        ReplayHasEvidence(d, ref, x, existing.value, f);
        if Classify(existing.value, ref, x) == Replay {
          var plan := ReplayOrConflict(d, ref, x, existing.value, f).value;
          NeverConflicts(d, plan.writes);
          if ApplyAll(d, plan.writes).Ok? {
            var after := ApplyAll(d, plan.writes).value;
            WritesKeepConsistency(d, plan.writes);
            WritesKeepEvents(d, plan.writes);
            NothingLost(d);
            PlannedIsStored(d, d, plan);
            FirstWriterWins(d, after, ref, x);
          }
        }
      }
    } else {
      NoConflictYet(db, ref);
    }
  }

  lemma NoConflictYet(db: Tables, ref: SubjectRef)
    ensures EnsuredSubject(db, ref) != Err(IdempotencyConflict)
  {
  }

  lemma ReplayPlan(db: Tables, ref: SubjectRef, x: Incoming, existing: Event, f: Fresh)
    requires HasEventKey(existing, ref, x.source, x.idempotencyKey)
    ensures match ReplayOrConflict(db, ref, x, existing, f)
            case Ok(p) => p.answer.event == existing && p.answer.status == Replayed && existing.content == x.content
            case Err(e) => e == IdempotencyConflict && existing.content != x.content
  {
  }

  lemma EnsuredConsistent(db: Tables, ref: SubjectRef)
    requires EnsuredSubject(db, ref).Ok? && Consistent(db)
    ensures Consistent(EnsuredSubject(db, ref).value)
  {
    hide Consistent;
    if ref !in db.subjects {
      WritesKeepConsistency(db, [AddSubject(ref)]);
      ApplyOne(db, AddSubject(ref));
    }
  }

  /* ---- serial ingestion ---- */

  /** ingest_event with nobody else writing. */
  function Ingest(db: Tables, ref: SubjectRef, x: Incoming, f: Fresh): Result<(Tables, Ingested)> {
    IngestEvent(db, db, db, ref, x, f)
  }

  /** _ingest_one_in_uow in a transaction that has already made sure of the subject. */
  function IngestOne(db: Tables, ref: SubjectRef, x: Incoming, f: Fresh): Result<(Tables, Ingested)> {
    var plan :- IngestPlan(db, ref, x, f);
    var after :- ApplyAll(db, plan.writes);
    Ok((after, plan.answer))
  }

  /** Alone, the retry after an invalid argument finds nothing new: a call is one ensured ingestion. */
  lemma RetryIsIdle(db: Tables, ref: SubjectRef, x: Incoming, f: Fresh)
    ensures Ingest(db, ref, x, f) == if EnsuredSubject(db, ref).Err? then Err(EnsuredSubject(db, ref).error)
                                     else IngestOne(EnsuredSubject(db, ref).value, ref, x, f)
  {
    hide Holder, ReplayOrConflict, ApplyAll, EnsuredSubject;
    AttemptIsIngestion(db, ref, x, f);
    if EnsuredSubject(db, ref).Ok? {
      var d := EnsuredSubject(db, ref).value;
      var existing := Holder(d.events, ref, x);
    }
  }

  lemma AttemptIsIngestion(db: Tables, ref: SubjectRef, x: Incoming, f: Fresh)
    ensures Attempt(db, db, ref, x, f) == if EnsuredSubject(db, ref).Err? then Err(EnsuredSubject(db, ref).error)
                                          else IngestOne(EnsuredSubject(db, ref).value, ref, x, f)
  {
    hide IngestPlan;
    if EnsuredSubject(db, ref).Ok? {
      var d := EnsuredSubject(db, ref).value;
      var plan := IngestPlan(d, ref, x, f);
      if plan.Ok? {
        if ref in db.subjects {
          assert [] + plan.value.writes == plan.value.writes;
        } else {
          ApplyOne(db, AddSubject(ref));
          ApplyAllConcat(db, [AddSubject(ref)], plan.value.writes);
        }
      }
    }
  }

  /* ---- batches ---- */

  datatype Item = Done(result: Ingested) | Refused(error: Error)

  /** The items one after another in one transaction. */
  function IngestAll(db: Tables, ref: SubjectRef, xs: seq<Incoming>, fs: seq<Fresh>): Result<(Tables, seq<Item>)>
    requires |fs| == |xs|
  {
    if xs == [] then Ok((db, [])) else
      var n := |xs| - 1;
      var (d, items) :- IngestAll(db, ref, xs[..n], fs[..n]);
      var (e, result) :- IngestOne(d, ref, xs[n], fs[n]);
      Ok((e, items + [Done(result)]))
  }

  function Atomic(db: Tables, ref: SubjectRef, xs: seq<Incoming>, fs: seq<Fresh>): Result<(Tables, seq<Item>)>
    requires |fs| == |xs|
  {
    if xs == [] then Ok((db, [])) else
      var d :- EnsuredSubject(db, ref);
      IngestAll(d, ref, xs, fs)
  }

  /** One ingestion after another, each on its own; a failing one leaves nothing behind. */
  function BestEffort(db: Tables, ref: SubjectRef, xs: seq<Incoming>, fs: seq<Fresh>): (r: (Tables, seq<Item>))
    requires |fs| == |xs|
    ensures |r.1| == |xs|
  {
    if xs == [] then (db, []) else
      var n := |xs| - 1;
      var (d, items) := BestEffort(db, ref, xs[..n], fs[..n]);
      match Ingest(d, ref, xs[n], fs[n])
      case Ok(done) => (done.0, items + [Done(done.1)])
      case Err(e) => (d, items + [Refused(e)])
  }

  function CountOf(items: seq<Item>, p: Item -> bool): nat {
    if items == [] then 0 else CountOf(items[..|items| - 1], p) + if p(items[|items| - 1]) then 1 else 0
  }

  predicate IsFailed(i: Item) { i.Refused? }
  predicate IsCreated(i: Item) { i.Done? && i.result.status == Created }
  predicate IsReplayed(i: Item) { i.Done? && i.result.status == Replayed }

  /** The counts of a batch result partition its items. */
  lemma {:induction false} CountsPartition(items: seq<Item>)
    ensures CountOf(items, IsCreated) + CountOf(items, IsReplayed) + CountOf(items, IsFailed) == |items|
  {
    if items != [] { CountsPartition(items[..|items| - 1]); }
  }

  lemma IngestKeepsSubject(db: Tables, ref: SubjectRef, x: Incoming, f: Fresh)
    requires IngestOne(db, ref, x, f).Ok? && Live(db, ref)
    ensures IngestOne(db, ref, x, f).value.0.subjects == db.subjects
  {
    hide Holder, EvidenceFor;
    hide FeatureEngine.EvidenceForEvent;
    var ws := IngestPlan(db, ref, x, f).value.writes;
    FactWritesKeepSubjects(db, ws);
  }

  lemma {:induction false} FactWritesKeepSubjects(db: Tables, ws: seq<Write>)
    requires (forall w | w in ws :: w.AddEvent? || w.AddEvidence?) && ApplyAll(db, ws).Ok?
    ensures ApplyAll(db, ws).value.subjects == db.subjects
    decreases |ws|
  {
    hide Apply;
    if ws != [] {
      assert ws[0] in ws;
      FactWriteKeepsSubjects(db, ws[0]);
      FactWritesKeepSubjects(Apply(db, ws[0]).value, ws[1..]);
    }
  }

  lemma FactWriteKeepsSubjects(db: Tables, w: Write)
    requires (w.AddEvent? || w.AddEvidence?) && Apply(db, w).Ok?
    ensures Apply(db, w).value.subjects == db.subjects
  {
    hide Refusal;
  }

  /** As long as nothing fails, both modes do the same; the first failure is where they part. */
  lemma {:induction false} BatchesAgreeFrom(db: Tables, ref: SubjectRef, xs: seq<Incoming>, fs: seq<Fresh>)
    requires |fs| == |xs| && xs != [] && EnsuredSubject(db, ref).Ok?
    ensures var r := BestEffort(db, ref, xs, fs);
            var a := IngestAll(EnsuredSubject(db, ref).value, ref, xs, fs);
            && (a.Ok? <==> CountOf(r.1, IsFailed) == 0)
            && (a.Ok? ==> a.value == r && Live(r.0, ref))
  {
    hide IngestOne, EnsuredSubject, Ingest;
    var n := |xs| - 1;
    var d := EnsuredSubject(db, ref).value;
    EnsuredParts(db, ref);
    if n == 0 {
      assert xs[..n] == [] && fs[..n] == [];
      assert IngestAll(d, ref, xs[..n], fs[..n]) == Ok((d, []));
      assert BestEffort(db, ref, xs[..n], fs[..n]) == (db, []);
      RetryIsIdle(db, ref, xs[n], fs[n]);
      if IngestOne(d, ref, xs[n], fs[n]).Ok? { IngestKeepsSubject(d, ref, xs[n], fs[n]); }
    } else {
      BatchesAgreeFrom(db, ref, xs[..n], fs[..n]);
      var (e, items) := BestEffort(db, ref, xs[..n], fs[..n]);
      if IngestAll(d, ref, xs[..n], fs[..n]).Ok? {
        EnsuredLive(e, ref);
        RetryIsIdle(e, ref, xs[n], fs[n]);
        if IngestOne(e, ref, xs[n], fs[n]).Ok? { IngestKeepsSubject(e, ref, xs[n], fs[n]); }
      }
    }
  }

  lemma EnsuredLive(db: Tables, ref: SubjectRef)
    requires Live(db, ref)
    ensures EnsuredSubject(db, ref) == Ok(db)
  {
  }

  lemma {:induction false} NobodyWithoutSubject(db: Tables, ref: SubjectRef, xs: seq<Incoming>, fs: seq<Fresh>)
    requires |fs| == |xs| && xs != [] && EnsuredSubject(db, ref).Err?
    ensures CountOf(BestEffort(db, ref, xs, fs).1, IsFailed) == |xs|
  {
    hide EnsuredSubject, IngestOne, Ingest;
    var n := |xs| - 1;
    if n > 0 { NobodyWithoutSubject(db, ref, xs[..n], fs[..n]); }
    OnlyFailures(db, ref, xs[..n], fs[..n]);
    RetryIsIdle(db, ref, xs[n], fs[n]);
  }

  lemma {:induction false} OnlyFailures(db: Tables, ref: SubjectRef, xs: seq<Incoming>, fs: seq<Fresh>)
    requires |fs| == |xs| && EnsuredSubject(db, ref).Err?
    ensures BestEffort(db, ref, xs, fs).0 == db
  {
    hide EnsuredSubject, IngestOne, Ingest;
    if xs != [] {
      var n := |xs| - 1;
      OnlyFailures(db, ref, xs[..n], fs[..n]);
      RetryIsIdle(db, ref, xs[n], fs[n]);
    }
  }

  /** An atomic batch succeeds exactly when the best-effort batch has no failure, and then leaves the
      same tables and returns the same items. */
  lemma BatchesAgree(db: Tables, ref: SubjectRef, xs: seq<Incoming>, fs: seq<Fresh>)
    requires |fs| == |xs|
    ensures Atomic(db, ref, xs, fs).Ok? <==> CountOf(BestEffort(db, ref, xs, fs).1, IsFailed) == 0
    ensures Atomic(db, ref, xs, fs).Ok? ==> Atomic(db, ref, xs, fs).value == BestEffort(db, ref, xs, fs)
  {
    hide EnsuredSubject, IngestAll;
    if xs != [] {
      if EnsuredSubject(db, ref).Ok? {
        BatchesAgreeFrom(db, ref, xs, fs);
      } else {
        NobodyWithoutSubject(db, ref, xs, fs);
      }
    }
  }
}
