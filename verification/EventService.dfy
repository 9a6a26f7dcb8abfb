/** The event service among other writers, and the client that retries over a lossy connection
    (event_service.py, remote_client.py). */
module EventService {
  import opened Domain
  import opened Records
  import opened Database
  import opened MemoryInvariants
  import opened Events
  import MemoryService

  datatype Mode = AtomicMode | BestEffortMode

  class Service {
    const store: MemoryService.Store

    constructor (store: MemoryService.Store)
      ensures this.store == store
    {
      this.store := store;
    }

    /** Other transactions commit `others`, whatever they are; what the tables refuse changes nothing. */
    method Interfere(others: seq<Write>)
      requires Consistent(store.tables)
      modifies store
      ensures Consistent(store.tables) && FactsKept(old(store.tables), store.tables)
      ensures forall ref | Spares(others, ref) && Open(old(store.tables), ref) :: Open(store.tables, ref)
    {
      hide Consistent, Open, Spares;
      var after := ApplyAll(store.tables, others);
      if after.Ok? {
        forall ref | Spares(others, ref) && Open(store.tables, ref) ensures Open(after.value, ref) {
          SparedStaysOpen(store.tables, others, ref);
        }
        WritesKeepConsistency(store.tables, others);
        WritesKeepEvents(store.tables, others);
        store.tables := after.value;
      }
    }

    /** ingest_event, with other writers between the reads and the commit and again before the retry. */
    method IngestEvent(ref: SubjectRef, x: Incoming, f: Fresh, others: seq<Write>, more: seq<Write>)
      returns (r: Result<Ingested>)
      requires Consistent(store.tables)
      modifies store
      ensures Consistent(store.tables) && FactsKept(old(store.tables), store.tables)
      ensures r.Ok? ==> Answered(store.tables.events, ref, x, r.value) && Evidenced(store.tables.evidence, r.value)
                        && StatusRight(old(store.tables).events, r.value)
      ensures r == Err(IdempotencyConflict) <==> Open(store.tables, ref) && Conflicts(store.tables.events, ref, x)
      ensures Spares(others, ref) && Spares(more, ref) && Open(old(store.tables), ref) ==> Open(store.tables, ref)
    {
      hide Consistent, FactsKept, Holder, CallPlan, Answered, Evidenced, Conflicts, Retry, StatusRight, Open, Spares;
      hide IngestWrite, ApplyAll, EnsuredSubject;
      ghost var start := store.tables;
      NothingLost(start);
      var plan := CallPlan(store.tables, ref, x, f);
      EnsuredIffOpen(start, ref);
      CallAgrees(start, ref, x, f);
      if plan.Err? && plan.error != InvalidArgument { return Err(plan.error); }
      Interfere(others);
      ghost var middle := store.tables;
      var outcome := if plan.Ok? then ApplyAll(store.tables, plan.value.writes) else Err(InvalidArgument);
      if outcome.Ok? {
        SuccessMeansStored(start, middle, ref, x, f) by { assert Attempt(start, middle, ref, x, f).Ok?; }
        PlanKeepsOpen(start, middle, ref, x, f);
        AnsweredAgrees(outcome.value.events, ref, x, plan.value.answer);
        StatusEarlier(start, middle, plan.value.answer);
        KeptThrough(start, middle, outcome.value);
        store.tables := outcome.value;
        return Ok(plan.value.answer);
      }
      // What the tables refuse here is an invalid argument, and those are retried.
      assert outcome == Err(InvalidArgument) by { if plan.Ok? { PlanRefusedAsInvalid(start, middle, ref, x, f); } }
      Interfere(more);
      ghost var later := store.tables;
      KeptThrough(start, middle, later);
      RetryMeansStored(later, ref, x, f);
      EnsuredIffOpen(later, ref);
      var again := Retry(store.tables, ref, x, f, outcome.error);
      if again.Err? { return Err(again.error); }
      RetryKeepsOpen(later, ref, x, f);
      store.tables := again.value.0;
      AnsweredAgrees(again.value.0.events, ref, x, again.value.1);
      KeptThrough(start, later, again.value.0);
      ReplayIsRight(start.events, again.value.1);
      r := Ok(again.value.1);
    }

    /** ingest_batch with nobody else writing: all or nothing, or each event for itself. */
    method IngestBatch(ref: SubjectRef, xs: seq<Incoming>, fs: seq<Fresh>, mode: Mode) returns (r: Result<Batch>)
      requires |fs| == |xs|
      modifies store
      ensures match mode
              case BestEffortMode =>
                && store.tables == BestEffort(old(store.tables), ref, xs, fs).0
                && r == Ok(Counted(BestEffort(old(store.tables), ref, xs, fs).1))
              case AtomicMode =>
                match Atomic(old(store.tables), ref, xs, fs)
                case Ok(done) => store.tables == done.0 && r == Ok(Counted(done.1))
                case Err(e) => store.tables == old(store.tables) && r == Err(e)
    {
      hide IngestAll, Ingest, EnsuredSubject;
      if xs == [] { return Ok(Counted([])); }
      if mode == BestEffortMode {
        var items := IngestEach(ref, xs, fs);
        return Ok(Counted(items));
      }
      r := IngestTogether(ref, xs, fs);
    }

    method IngestEach(ref: SubjectRef, xs: seq<Incoming>, fs: seq<Fresh>) returns (items: seq<Item>)
      requires |fs| == |xs|
      modifies store
      ensures BestEffort(old(store.tables), ref, xs, fs) == (store.tables, items)
    {
      hide Ingest;
      items := [];
      for k := 0 to |xs|
        invariant BestEffort(old(store.tables), ref, xs[..k], fs[..k]) == (store.tables, items)
      {
        assert xs[..k + 1][..k] == xs[..k] && fs[..k + 1][..k] == fs[..k];
        var done := Ingest(store.tables, ref, xs[k], fs[k]);
        match done
        case Ok(result) =>
          store.tables := result.0;
          items := items + [Done(result.1)];
        case Err(e) =>
          items := items + [Item.Refused(e)];
      }
      assert xs[..|xs|] == xs && fs[..|fs|] == fs;
    }

    method IngestTogether(ref: SubjectRef, xs: seq<Incoming>, fs: seq<Fresh>) returns (r: Result<Batch>)
      requires |fs| == |xs| && xs != []
      modifies store
      ensures match Atomic(old(store.tables), ref, xs, fs)
              case Ok(done) => store.tables == done.0 && r == Ok(Counted(done.1))
              case Err(e) => store.tables == old(store.tables) && r == Err(e)
    {
      hide IngestOne, EnsuredSubject;
      var items: seq<Item> := [];
      var work :- EnsuredSubject(store.tables, ref);
      ghost var start := work;
      for k := 0 to |xs|
        invariant store.tables == old(store.tables)
        invariant IngestAll(start, ref, xs[..k], fs[..k]) == Ok((work, items))
      {
        assert xs[..k + 1][..k] == xs[..k] && fs[..k + 1][..k] == fs[..k];
        var done := IngestOne(work, ref, xs[k], fs[k]);
        if done.Err? {
          BatchStops(start, ref, xs, fs, k + 1);
          return Err(done.error);
        }
        work := done.value.0;
        items := items + [Done(done.value.1)];
      }
      assert xs[..|xs|] == xs && fs[..|fs|] == fs;
      store.tables := work;
      r := Ok(Counted(items));
    }
  }

  datatype Batch = Batch(items: seq<Item>, created: nat, replayed: nat, failed: nat)

  /** _make_batch_result */
  function Counted(items: seq<Item>): Batch {
    Batch(items, CountOf(items, IsCreated), CountOf(items, IsReplayed), CountOf(items, IsFailed))
  }

  /** A failing item ends an atomic batch with its error. */
  lemma {:induction false} BatchStops(db: Tables, ref: SubjectRef, xs: seq<Incoming>, fs: seq<Fresh>, k: nat)
    requires |fs| == |xs| && k <= |xs| && IngestAll(db, ref, xs[..k], fs[..k]).Err?
    ensures IngestAll(db, ref, xs, fs) == IngestAll(db, ref, xs[..k], fs[..k])
    decreases |xs| - k
  {
    hide IngestOne;
    if k == |xs| {
      assert xs[..k] == xs && fs[..k] == fs;
    } else {
      assert xs[..k + 1][..k] == xs[..k] && fs[..k + 1][..k] == fs[..k];
      BatchStops(db, ref, xs, fs, k + 1);
    }
  }

  /* ---- the remote client ---- */

  datatype Verb = Get | Head | Options | Post | Put | Delete

  predicate CanRetry(verb: Verb, retryable: bool, hasKey: bool) {
    verb in {Get, Head, Options} || (retryable && verb == Post && hasKey)
  }

  /** What becomes of one request: whether the server processes it, and what the client sees. */
  datatype Fate = Fate(processed: bool, seen: Seen)
  datatype Seen =
    | Nothing      // timeout or transport error
    | Unavailable  // status 502, 503 or 504
    | Response

  datatype Answer = Success(result: Ingested) | Declined(error: Error) | NoAnswer | StillUnavailable | BadKey

  /** One request on its way and what others write meanwhile. */
  datatype Trip = Trip(fate: Fate, ids: Fresh, others: seq<Write>, more: seq<Write>)

  /** Nobody deletes the subject while these requests are on their way. */
  ghost predicate Undisturbed(trips: seq<Trip>, ref: SubjectRef) {
    forall t | t in trips :: Spares(t.others, ref) && Spares(t.more, ref)
  }

  lemma TripsUndisturbed(trips: seq<Trip>, n: nat, ref: SubjectRef)
    requires n < |trips|
    ensures Undisturbed(trips[..n + 1], ref) ==>
              Undisturbed(trips[..n], ref) && Spares(trips[n].others, ref) && Spares(trips[n].more, ref)
  {
    assert trips[..n + 1] == trips[..n] + [trips[n]];
  }

  /** The retry loop of _request around one ingestion. */
  method Request(server: Service, ref: SubjectRef, x: Incoming, canRetry: bool, maxRetries: nat, trips: seq<Trip>)
    returns (answer: Answer, sent: nat)
    requires |trips| == maxRetries + 1
    requires Consistent(server.store.tables)
    modifies server.store
    ensures Consistent(server.store.tables) && FactsKept(old(server.store.tables), server.store.tables)
    ensures answer != BadKey && 1 <= sent <= if canRetry then maxRetries + 1 else 1
    ensures answer.Success? ==> Answered(server.store.tables.events, ref, x, answer.result)
                                && Evidenced(server.store.tables.evidence, answer.result)
    ensures answer.Success? || answer.Declined? ==>
              (answer == Declined(IdempotencyConflict) <==>
                 Open(server.store.tables, ref) && Conflicts(server.store.tables.events, ref, x))
    ensures Open(old(server.store.tables), ref) && Conflicts(old(server.store.tables).events, ref, x)
            && Undisturbed(trips[..sent], ref) ==>
              answer in {NoAnswer, StillUnavailable, Declined(IdempotencyConflict)}
    ensures answer in {NoAnswer, StillUnavailable} <==>
              sent == (if canRetry then maxRetries + 1 else 1) && forall k | 0 <= k < sent ::
                trips[k].fate.seen != Response
    ensures forall k | 0 <= k < sent - 1 :: trips[k].fate.seen != Response
  {
    hide Consistent, FactsKept, Answered, Evidenced, Conflicts, Open, Undisturbed;
    var attempts := if canRetry then maxRetries else 0;
    NothingLost(server.store.tables);
    sent := 0;
    while true
      invariant Consistent(server.store.tables) && FactsKept(old(server.store.tables), server.store.tables)
      invariant sent <= attempts
      invariant Undisturbed(trips[..sent], ref) && Open(old(server.store.tables), ref) ==>
                  Open(server.store.tables, ref)
      invariant forall k | 0 <= k < sent :: trips[k].fate.seen != Response
      decreases attempts - sent
    {
      var trip := trips[sent];
      ghost var before := server.store.tables;
      TripsUndisturbed(trips, sent, ref);
      sent := sent + 1;
      var result: Result<Ingested> := Err(InvalidArgument);
      if trip.fate.processed || trip.fate.seen == Response {
        result := server.IngestEvent(ref, x, trip.ids, trip.others, trip.more);
      } else {
        server.Interfere(trip.others);
      }
      KeptThrough(old(server.store.tables), before, server.store.tables);
      if Conflicts(old(server.store.tables).events, ref, x) {
        ConflictStays(old(server.store.tables), server.store.tables, ref, x);
      }
      if trip.fate.seen == Response {
        return if result.Ok? then Success(result.value) else Declined(result.error), sent;
      }
      if sent <= attempts { continue; }
      return if trip.fate.seen == Nothing then NoAnswer else StillUnavailable, sent;
    }
  }

  /** EventRemoteOperations.ingest_event: the key, if given, must be the event's own. */
  method IngestRemotely(server: Service, ref: SubjectRef, x: Incoming, key: Option<string>, maxRetries: nat,
                        trips: seq<Trip>)
    returns (answer: Answer, sent: nat)
    requires |trips| == maxRetries + 1
    requires Consistent(server.store.tables)
    modifies server.store
    ensures Consistent(server.store.tables) && FactsKept(old(server.store.tables), server.store.tables)
    ensures answer == BadKey <==> key.Some? && key.value != x.idempotencyKey
    ensures answer == BadKey ==> sent == 0 && server.store.tables == old(server.store.tables)
    ensures sent <= maxRetries + 1
    ensures answer.Success? ==> Answered(server.store.tables.events, ref, x, answer.result)
                                && Evidenced(server.store.tables.evidence, answer.result)
    ensures answer.Success? || answer.Declined? ==>
              (answer == Declined(IdempotencyConflict) <==>
                 Open(server.store.tables, ref) && Conflicts(server.store.tables.events, ref, x))
    ensures answer != BadKey && Open(old(server.store.tables), ref)
            && Conflicts(old(server.store.tables).events, ref, x)
            && Undisturbed(trips[..sent], ref) ==>
              answer in {NoAnswer, StillUnavailable, Declined(IdempotencyConflict)}
  {
    hide Consistent, FactsKept, Answered, Evidenced, Conflicts, Open, Undisturbed;
    NothingLost(server.store.tables);
    if key.Some? && key.value != x.idempotencyKey { return BadKey, 0; }
    answer, sent := Request(server, ref, x, CanRetry(Post, true, true), maxRetries, trips);
  }

  lemma StatusEarlier(a: Tables, b: Tables, answer: Ingested)
    requires FactsKept(a, b) && StatusRight(b.events, answer)
    ensures StatusRight(a.events, answer)
  {
  }

  lemma ReplayIsRight(t: map<Id, Event>, answer: Ingested)
    requires answer.status == Replayed
    ensures StatusRight(t, answer)
  {
  }
}
