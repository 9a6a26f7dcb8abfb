/** Any number of clients, each reading the tables, deciding what to write, and committing later;
    a commit executes the statements on the tables as they are then, or changes nothing. Meanwhile the
    other services write, and subjects are purged. */
module MemoryProtocol {
  import opened Domain
  import opened Memory
  import opened Database
  import opened MemoryPlans
  import opened MemoryInvariants
  import opened MemoryTransactions
  import opened PurgeInvariants

  datatype Request =
    | Add(input: CreateInput, memoryId: Id, evidenceId: Id)
    | Edit(id: Id, patch: Patch, expected: int)
    | Confirm(id: Id, expected: int, policyAccepts: bool)
    | Remove(id: Id, expected: int)
    | Restore(id: Id, expected: int)
    | Extract(extractions: seq<Extraction>)

  datatype Call = Call(ref: SubjectRef, request: Request, actor: string, reason: string)

  /** The statements a call decides on, having read `db`. */
  function Plan(db: Tables, call: Call, now: Time): Result<seq<Step>> {
    var s, note := Session(db, []), Note(call.actor, call.reason, now);
    match call.request
    case Add(input, memoryId, evidenceId) =>
           var (t, _) :- AddPlan(s, call.ref, input, memoryId, evidenceId, note); Ok(t.steps)
    case Edit(id, patch, expected) => var (t, _) :- PatchPlan(s, call.ref, id, patch, expected, note); Ok(t.steps)
    case Confirm(id, expected, accepts) =>
           var (t, _) :- ConfirmPlan(s, call.ref, id, expected, accepts, note); Ok(t.steps)
    case Remove(id, expected) => var (t, _) :- DeletePlan(s, call.ref, id, expected, note); Ok(t.steps)
    case Restore(id, expected) => var (t, _) :- RestorePlan(s, call.ref, id, expected, note); Ok(t.steps)
    case Extract(xs) => var (t, _) :- ExtractPlan(s, call.ref, xs, note); Ok(t.steps)
  }

  /** A call over `read` succeeds only with a sound plan that leaves no evidence unbound. */
  lemma PlanIsSound(db: Tables, call: Call, now: Time)
    requires Plan(db, call, now).Ok? && StoreOk(db, {}) && ClockOk(db, now)
    ensures PlanOk(db, Plan(db, call, now).value) && PendingAll({}, Plan(db, call, now).value) == {}
    ensures InTime(Plan(db, call, now).value, now)
  {
    hide StoreOk, ClockOk, InTime, PlanOk, AddPlan, PatchPlan, ConfirmPlan, DeletePlan, RestorePlan, ExtractAll;
    var s, note := Session(db, []), Note(call.actor, call.reason, now);
    EmptySessionOk(db, now);
    match call.request
    case Add(input, memoryId, evidenceId) =>
      AddOk(db, s, call.ref, input, memoryId, evidenceId, note);
    case Edit(id, patch, expected) => PatchOk(db, s, call.ref, id, patch, expected, note);
    case Confirm(id, expected, accepts) => ConfirmOk(db, s, call.ref, id, expected, accepts, note);
    case Remove(id, expected) => DeleteOk(db, s, call.ref, id, expected, note);
    case Restore(id, expected) => RestoreOk(db, s, call.ref, id, expected, note);
    case Extract(xs) => ExtractAllOk(db, s, call.ref, xs, note);
  }

  lemma EmptySessionOk(db: Tables, now: Time)
    requires StoreOk(db, {}) && ClockOk(db, now)
    ensures SessionOk(db, Session(db, []), {}, now)
  {
  }

  /* ---- the system ---- */

  /** A transaction that has read the tables and a clock and not yet committed. */
  datatype Client = Client(call: Call, read: Tables, at: Time)
  datatype Committed = Committed(call: Call, steps: seq<Step>)
  /** `used` holds every memory id ever given out: UUIDs are not given out twice. */
  datatype System = System(db: Tables, clock: Time, clients: map<nat, Client>, history: seq<Committed>, used: set<Id>)

  ghost predicate Init(s: System) { s.db == EMPTY && s.clients == map[] && s.history == [] && s.used == {} }

  /** The ids of the memories a plan creates. */
  function Created(steps: seq<Step>): set<Id> { set step | step in steps && step.Create? :: step.memory.id }

  ghost predicate Begin(s: System, s': System, c: nat, call: Call) {
    c !in s.clients && s' == s.(clients := s.clients[c := Client(call, s.db, s.clock)])
  }

  ghost predicate Commit(s: System, s': System, c: nat) {
    c in s.clients
    && var plan := Plan(s.clients[c].read, s.clients[c].call, s.clients[c].at);
    plan.Ok? && Run(s.db, plan.value).Ok? && Created(plan.value) !! s.used
    && s' == s.(db := Run(s.db, plan.value).value, clients := s.clients - {c}, used := s.used + Created(plan.value),
                history := s.history + [Committed(s.clients[c].call, plan.value)])
  }

  ghost predicate Abandon(s: System, s': System, c: nat) { s' == s.(clients := s.clients - {c}) }

  ghost predicate Tick(s: System, s': System) { s.clock <= s'.clock && s' == s.(clock := s'.clock) }

  /** The other services write their own tables; their evidence belongs to an event. */
  predicate Foreign(w: Write) {
    match w
    case AddEvidence(e) => e.eventId.Some?
    case AddMemory(_) => false
    case UpdateMemory(_, _) => false
    case BindEvidence(_, _, _) => false
    case AddRevision(_) => false
    case _ => true
  }

  ghost predicate Elsewhere(s: System, s': System, w: Write) {
    Foreign(w) && Apply(s.db, w).Ok? && s' == s.(db := Apply(s.db, w).value)
  }

  /** A subject goes with everything it owns; transactions that have read it go on. */
  ghost predicate Purging(s: System, s': System, ref: SubjectRef) { s' == s.(db := Purged(s.db, ref)) }

  ghost predicate Next(s: System, s': System) {
    || (exists c: nat, call :: Begin(s, s', c, call))
    || (exists c: nat :: Commit(s, s', c))
    || (exists c: nat :: Abandon(s, s', c))
    || Tick(s, s')
    || (exists w :: Elsewhere(s, s', w))
    || (exists ref :: Purging(s, s', ref))
  }

  ghost predicate IsRun(run: seq<System>) {
    run != [] && Init(run[0]) && forall i | 0 <= i < |run| - 1 :: Next(run[i], run[i + 1])
  }

  /* ---- the invariant ---- */

  ghost predicate ClientOk(s: System, k: Client) {
    && StoreOk(k.read, {}) && Trails(k.read, s.db) && ClockOk(k.read, k.at) && k.at <= s.clock
    && k.read.memories.Keys <= s.used
  }

  ghost predicate Overwrites(steps: seq<Step>, id: Id, revision: int) {
    exists k :: 0 <= k < |steps| && Overwriting(steps[k], id, revision)
  }

  predicate Overwriting(step: Step, id: Id, revision: int) {
    step.Revise? && step.before.id == id && step.before.revision == revision
  }

  /** The revision is past: the memory has a later one, or has been purged. */
  ghost predicate Passed(db: Tables, used: set<Id>, id: Id, revision: int) {
    id in used && (id in db.memories ==> revision < db.memories[id].revision)
  }

  /** Each revision of each memory was replaced by one commit. */
  ghost predicate HistoryOk(history: seq<Committed>, db: Tables, used: set<Id>) {
    && (forall i, id, r | 0 <= i < |history| && Overwrites(history[i].steps, id, r) :: Passed(db, used, id, r))
    && (forall i, j, id,
        r | 0 <= i < j < |history| && Overwrites(history[i].steps, id, r) :: !Overwrites(history[j].steps, id, r))
  }

  /** The call names the revision it expects the memory to have. */
  predicate Expects(call: Call, id: Id, expected: int) {
    match call.request
    case Edit(i, _, e) => i == id && e == expected
    case Confirm(i, e, _) => i == id && e == expected
    case Remove(i, e) => i == id && e == expected
    case Restore(i, e) => i == id && e == expected
    case _ => false
  }

  ghost predicate Faithful(c: Committed) {
    forall id, e | Expects(c.call, id, e) && c.steps != [] :: Overwrites(c.steps, id, e)
  }

  ghost predicate AllFaithful(history: seq<Committed>) { forall i | 0 <= i < |history| :: Faithful(history[i]) }

  ghost predicate SystemOk(s: System) {
    && StoreOk(s.db, {}) && ClockOk(s.db, s.clock) && s.db.memories.Keys <= s.used
    && (forall c | c in s.clients :: ClientOk(s, s.clients[c]))
    && HistoryOk(s.history, s.db, s.used) && AllFaithful(s.history)
  }

  lemma PlanFaithful(db: Tables, call: Call, now: Time)
    requires Plan(db, call, now).Ok? && MemoriesKeyed(db.memories)
    ensures Faithful(Committed(call, Plan(db, call, now).value))
  {
    hide ApplyAll, Writes, Patched;
    var steps := Plan(db, call, now).value;
    forall id, e | Expects(call, id, e) && steps != [] ensures Overwrites(steps, id, e) {
      assert Overwriting(steps[0], id, e);
    }
  }

  /** No memory id comes back: what is new in `b` has never been used. */
  ghost predicate NothingReturns(a: Tables, b: Tables, used: set<Id>) {
    forall id | id in b.memories && id !in a.memories :: id !in used
  }

  lemma HistoryMoves(history: seq<Committed>, a: Tables, used: set<Id>, b: Tables, more: set<Id>)
    requires HistoryOk(history, a, used) && Trails(a, b) && NothingReturns(a, b, used) && used <= more
    ensures HistoryOk(history, b, more)
  {
    hide Overwrites;
    forall i, id, r | 0 <= i < |history| && Overwrites(history[i].steps, id, r) ensures Passed(b, more, id, r) {
      assert Passed(a, used, id, r);
      if id in a.memories && id in b.memories { assert SameOrLater(a, b, id); }
    }
  }

  lemma CommitHistory(history: seq<Committed>, used: set<Id>, w: Tables, r: Tables, c: Committed)
    requires HistoryOk(history, r, used) && r.memories.Keys <= used && Created(c.steps) !! used && Run(r, c.steps).Ok?
    requires StoreOk(w, {}) && StoreOk(r, {}) && Trails(w, r) && PlanOk(w, c.steps)
    ensures HistoryOk(history + [c], Run(r, c.steps).value, used + Created(c.steps))
  {
    hide StoreOk, PlanOk, Evolves, Trails, Overwrites, Created;
    var after, more := Run(r, c.steps).value, used + Created(c.steps);
    PlanKeeps(w, {}, r, {}, c.steps);
    EvolvesTrails(r, after);
    RunAddsCreated(r, c.steps);
    assert NothingReturns(r, after, used);
    HistoryMoves(history, r, used, after, more);
    forall id, rev | Overwrites(c.steps, id, rev)
      ensures Passed(after, more, id, rev) && (id in r.memories ==> r.memories[id].revision <= rev)
      ensures id in r.memories || id !in used
    {
      OverwritePasses(w, r, c.steps, id, rev);
    }
    var all := history + [c];
    forall i, j, id, rev | 0 <= i < j < |all| && Overwrites(all[i].steps, id, rev)
      ensures !Overwrites(all[j].steps, id, rev)
    {
      assert all[i] == history[i];
      assert Passed(r, used, id, rev);
      if j < |history| { assert all[j] == history[j]; }
    }
    forall i, id, rev | 0 <= i < |all| && Overwrites(all[i].steps, id, rev) ensures Passed(after, more, id, rev) {
      if i < |history| { assert all[i] == history[i]; }
    }
  }

  /** A plan adds the memories it creates and no others. */
  lemma {:induction false} RunAddsCreated(r: Tables, steps: seq<Step>)
    requires Run(r, steps).Ok?
    ensures Run(r, steps).value.memories.Keys == r.memories.Keys + Created(steps)
    decreases |steps|
  {
    hide ApplyAll, Writes;
    if steps != [] {
      StepAddsCreated(r, steps[0]);
      RunAddsCreated(ApplyAll(r, Writes(steps[0])).value, steps[1..]);
      CreatedFirst(steps);
    }
  }

  lemma CreatedFirst(steps: seq<Step>)
    requires steps != []
    ensures Created(steps) == Created([steps[0]]) + Created(steps[1..])
  {
    assert steps == [steps[0]] + steps[1..];
  }

  lemma StepAddsCreated(r: Tables, step: Step)
    requires ApplyAll(r, Writes(step)).Ok?
    ensures ApplyAll(r, Writes(step)).value.memories.Keys == r.memories.Keys + Created([step])
  {
    hide ApplyAll;
    AllAddTheirs(r, Writes(step));
    assert Added(Writes(step)) == Created([step]) by { hide *; AddsInStep(step); }
  }

  /** The memories inserted by some statements. */
  function Added(ws: seq<Write>): set<Id> { set w | w in ws && w.AddMemory? :: w.memory.id }

  lemma AddsInStep(step: Step)
    ensures Added(Writes(step)) == Created([step])
  {
    if step.Create? { assert AddMemory(step.memory) in Writes(step); }
  }

  lemma {:induction false} AllAddTheirs(db: Tables, ws: seq<Write>)
    requires ApplyAll(db, ws).Ok?
    ensures ApplyAll(db, ws).value.memories.Keys == db.memories.Keys + Added(ws)
    decreases |ws|
  {
    hide Apply;
    if ws != [] {
      OneAddsIts(db, ws[0]);
      AllAddTheirs(Apply(db, ws[0]).value, ws[1..]);
      assert ws == [ws[0]] + ws[1..];
    }
  }

  lemma OneAddsIts(db: Tables, w: Write)
    requires Apply(db, w).Ok?
    ensures Apply(db, w).value.memories.Keys == db.memories.Keys + Added([w])
  {
    hide Apply, Refusal, Relinked;
    Applied(db, w);
    match w
    case AddMemory(m) => assert w in [w];
    case UpdateMemory(m, expected) => MemoryChecked(db, m, expected);
    case _ =>
  }

  /** A plan overwrites what it finds or what it has created itself. */
  lemma OverwritePasses(w: Tables, r: Tables, steps: seq<Step>, id: Id, rev: int)
    requires Run(r, steps).Ok? && Overwrites(steps, id, rev)
    requires StoreOk(w, {}) && StoreOk(r, {}) && Trails(w, r) && PlanOk(w, steps)
    ensures id in Run(r, steps).value.memories && rev < Run(r, steps).value.memories[id].revision
    ensures id in r.memories ==> r.memories[id].revision <= rev
  {
    hide StoreOk, PlanOk, Trails;
    var k :| 0 <= k < |steps| && Overwriting(steps[k], id, rev);
    PlanOverwrites(w, {}, r, {}, steps, k);
  }

  lemma ForeignKeeps(db: Tables, w: Write)
    requires Foreign(w) && Apply(db, w).Ok?
    requires StoreOk(db, {})
    ensures StoreOk(Apply(db, w).value, {}) && Evolves(db, Apply(db, w).value)
    ensures Apply(db, w).value.memories == db.memories
  {
    hide Consistent, RecordsOk, LogsOk, CountsOk, Apply;
    ForeignEffect(db, w);
    assert Consistent(db);
    WritesKeepConsistency(db, [w]);
    ApplyOne(db, w);
  }

  lemma ForeignEffect(db: Tables, w: Write)
    requires Foreign(w) && Apply(db, w).Ok?
    ensures var after := Apply(db, w).value;
            && after.memories == db.memories && after.bindings == db.bindings && after.revisions == db.revisions
            && Extends(db.evidence, after.evidence)
            && forall e | e in after.evidence && e !in db.evidence :: after.evidence[e].eventId.Some?
  {
    hide EventKeyFree, SourceFree, IdentityFree, SlotFree, Relinked;
  }

  /** Neither moving the tables forward nor purging from them disturbs the transactions in progress. */
  lemma ClientsStay(s: System, s': System)
    requires Trails(s.db, s'.db) && NothingReturns(s.db, s'.db, s.used) && s.clock <= s'.clock && s.used <= s'.used
    requires forall c | c in s'.clients :: c in s.clients && s'.clients[c] == s.clients[c]
    requires forall c | c in s.clients :: ClientOk(s, s.clients[c])
    ensures forall c | c in s'.clients :: ClientOk(s', s'.clients[c])
  {
    hide StoreOk, Trails, ClockOk;
    forall c | c in s'.clients ensures ClientOk(s', s'.clients[c]) {
      assert ClientOk(s, s.clients[c]);
      TrailsChain(s.clients[c].read, s.db, s'.db);
    }
  }

  lemma LaterClock(db: Tables, a: Time, b: Time)
    requires ClockOk(db, a) && a <= b
    ensures ClockOk(db, b)
  {
  }

  lemma CommitKeeps(s: System, s': System, c: nat)
    requires SystemOk(s) && Commit(s, s', c)
    ensures SystemOk(s')
  {
    hide StoreOk, Evolves, Trails, ClockOk, HistoryOk, PlanOk, Run, Plan, Faithful, Created;
    var k := s.clients[c];
    assert ClientOk(s, k);
    var steps := Plan(k.read, k.call, k.at).value;
    PlanIsSound(k.read, k.call, k.at);
    PlanKeeps(k.read, {}, s.db, {}, steps);
    EvolvesTrails(s.db, s'.db);
    RunAddsCreated(s.db, steps);
    LaterInTime(steps, k.at, s.clock);
    PlanInTime(k.read, {}, s.db, {}, steps, s.clock);
    CommitHistory(s.history, s.used, k.read, s.db, Committed(k.call, steps));
    StoreParts(k.read, {});
    PlanFaithful(k.read, k.call, k.at);
    ClientsStay(s, s');
  }

  lemma LaterInTime(steps: seq<Step>, a: Time, b: Time)
    requires InTime(steps, a) && a <= b
    ensures InTime(steps, b)
  {
  }

  lemma BeginKeeps(s: System, s': System, c: nat, call: Call)
    requires SystemOk(s) && Begin(s, s', c, call)
    ensures SystemOk(s')
  {
    hide StoreOk, Trails, ClockOk, HistoryOk, AllFaithful;
    NothingMoves(s.db);
    forall d | d in s'.clients ensures ClientOk(s', s'.clients[d]) {
      if d != c { assert ClientOk(s, s.clients[d]); }
    }
  }

  lemma NothingMoves(db: Tables)
    ensures Trails(db, db)
  {
  }

  lemma ForeignStep(s: System, s': System, w: Write)
    requires SystemOk(s) && Elsewhere(s, s', w)
    ensures SystemOk(s')
  {
    hide StoreOk, Trails, ClockOk, HistoryOk, AllFaithful, Foreign, Apply;
    ForeignKeeps(s.db, w);
    EvolvesTrails(s.db, s'.db);
    HistoryMoves(s.history, s.db, s.used, s'.db, s.used);
    ClientsStay(s, s');
    FewerMemoriesClock(s.db, s'.db, s.clock);
  }

  lemma PurgeMoves(db: Tables, ref: SubjectRef)
    requires StoreOk(db, {})
    ensures Trails(db, Purged(db, ref)) && Purged(db, ref).memories.Keys <= db.memories.Keys
    ensures forall id | id in Purged(db, ref).memories :: Purged(db, ref).memories[id] == db.memories[id]
  {
    hide Purged, Bound;
    StoreDetails(db);
    OthersStay(db, ref);
  }

  lemma PurgeStep(s: System, s': System, ref: SubjectRef)
    requires SystemOk(s) && Purging(s, s', ref)
    ensures SystemOk(s')
  {
    hide StoreOk, Trails, ClockOk, HistoryOk, AllFaithful, Purged;
    PurgeKeepsStore(s.db, ref);
    PurgeMoves(s.db, ref);
    HistoryMoves(s.history, s.db, s.used, s'.db, s.used);
    ClientsStay(s, s');
    FewerMemoriesClock(s.db, s'.db, s.clock);
  }

  lemma TickKeeps(s: System, s': System)
    requires SystemOk(s) && s' == s.(clock := s'.clock, clients := s'.clients) && s.clock <= s'.clock
    requires forall c | c in s'.clients :: c in s.clients && s'.clients[c] == s.clients[c]
    ensures SystemOk(s')
  {
    hide StoreOk, Trails, ClockOk, HistoryOk, AllFaithful;
    NothingMoves(s.db);
    LaterClock(s.db, s.clock, s'.clock);
    ClientsStay(s, s');
  }

  lemma NextKeeps(s: System, s': System)
    requires SystemOk(s) && Next(s, s')
    ensures SystemOk(s')
  {
    hide SystemOk, Begin, Commit, Elsewhere, Purging;
    if c: nat, call :| Begin(s, s', c, call) {
      BeginKeeps(s, s', c, call);
    } else if c: nat :| Commit(s, s', c) {
      CommitKeeps(s, s', c);
    } else if w :| Elsewhere(s, s', w) {
      ForeignStep(s, s', w);
    } else if ref :| Purging(s, s', ref) {
      PurgeStep(s, s', ref);
    } else {
      TickKeeps(s, s');
    }
  }

  lemma FewerMemoriesClock(a: Tables, b: Tables, now: Time)
    requires ClockOk(a, now) && forall id | id in b.memories :: id in a.memories && b.memories[id] == a.memories[id]
    ensures ClockOk(b, now)
  {
  }

  lemma InitOk(s: System)
    requires Init(s)
    ensures SystemOk(s)
  {
    EmptyStoreOk();
  }

  /** Whatever the clients do and however their transactions interleave, every state reached keeps the invariant. */
  lemma {:induction false} RunsAreSafe(run: seq<System>, i: nat)
    requires IsRun(run) && i < |run|
    ensures SystemOk(run[i])
  {
    if i == 0 {
      InitOk(run[0]);
    } else {
      RunsAreSafe(run, i - 1);
      assert Next(run[i - 1], run[i - 1 + 1]);
      NextKeeps(run[i - 1], run[i]);
    }
  }

  /** Of all the calls that name the same revision of the same memory, one commits a change. */
  lemma OneWinner(run: seq<System>, n: nat, i: nat, j: nat, id: Id, expected: int)
    requires IsRun(run) && n < |run| && i < |run[n].history| && j < |run[n].history|
    requires Expects(run[n].history[i].call, id, expected) && run[n].history[i].steps != []
    requires Expects(run[n].history[j].call, id, expected) && run[n].history[j].steps != []
    ensures i == j
  {
    hide StoreOk, ClockOk, ClientOk, Expects;
    RunsAreSafe(run, n);
    var h := run[n].history;
    assert Faithful(h[i]) && Faithful(h[j]);
    assert Overwrites(h[i].steps, id, expected) && Overwrites(h[j].steps, id, expected);
  }
}
