/** The memory record and its lifecycle (domain/memory.py). */
module Memory {
  import opened Domain

  datatype Kind = Preference | Constraint | Goal | Fact | Instruction
  datatype Authority = Explicit | Confirmed | Inferred
  datatype Scope = Global | UseCase | Topic | Entity
  datatype State = Candidate | Active | Superseded | Expired | Deleted
  datatype TransitionType = Confirm | Supersede | Expire | Delete | Restore

  datatype Target = Target(dimension: string, valueKey: string)

  datatype MemoryRecord = MemoryRecord(
    id: Id, subject: SubjectRef, key: string, kind: Kind,
    content: string, structured: Option<string>, target: Option<Target>,
    authority: Authority, polarity: Polarity, scope: Scope, scopeValue: Option<string>,
    confidence: real, state: State, validFrom: Option<Time>, validUntil: Option<Time>,
    evidenceCount: nat, revision: nat,
    createdAt: Time, updatedAt: Time, deletedAt: Option<Time>)

  /** What a model proposes; it carries no authority and no state. */
  datatype MemoryCandidate = MemoryCandidate(
    key: string, kind: Kind, content: string, structured: Option<string>, target: Option<Target>,
    polarity: Polarity, scope: Scope, scopeValue: Option<string>,
    confidence: real, validFrom: Option<Time>, validUntil: Option<Time>)

  predicate ScopeValid(scope: Scope, value: Option<string>) {
    scope == Global <==> value.None?
  }

  predicate WindowValid(from: Option<Time>, until: Option<Time>) {
    from.Some? && until.Some? ==> from.value < until.value
  }

  /** The validators of MemoryRecord. */
  predicate RecordValid(m: MemoryRecord) {
    && ScopeValid(m.scope, m.scopeValue)
    && WindowValid(m.validFrom, m.validUntil)
    && 0.0 <= m.confidence <= 1.0
    && m.revision >= 1
    && m.createdAt <= m.updatedAt
    && (m.state == Deleted <==> m.deletedAt.Some?)
  }

  function Validated(m: MemoryRecord): Result<MemoryRecord> {
    if RecordValid(m) then Ok(m) else Err(Validation)
  }

  function ScopeKey(m: MemoryRecord): string {
    if m.scope == Global || m.scopeValue.None? then "" else m.scopeValue.value
  }

  /** The columns of the unique index on active rows. */
  predicate SameIndexKey(a: MemoryRecord, b: MemoryRecord) {
    a.subject == b.subject && a.key == b.key && a.scope == b.scope && ScopeKey(a) == ScopeKey(b)
  }

  predicate SameSlot(a: MemoryRecord, b: MemoryRecord) {
    a.subject == b.subject && a.key == b.key && a.scope == b.scope && a.scopeValue == b.scopeValue
  }

  function CreateInferred(subject: SubjectRef, c: MemoryCandidate, id: Id, evidenceCount: nat,
                          now: Time): MemoryRecord
  {
    MemoryRecord(id, subject, c.key, c.kind, c.content, c.structured, c.target,
                 Inferred, c.polarity, c.scope, c.scopeValue, c.confidence, Candidate,
                 c.validFrom, c.validUntil, evidenceCount, 1, now, now, None)
  }

  function CheckRevision(m: MemoryRecord, expected: int): Result<()> {
    Require(expected == m.revision, RevisionConflict(expected, m.revision))
  }

  function ConfirmMemory(m: MemoryRecord, expected: int, now: Time): Result<MemoryRecord> {
    var _ :- CheckRevision(m, expected);
    var _ :- Require(m.state == Candidate, MemoryTransition);
    var _ :- Require(m.authority == Inferred, MemoryTransition);
    Ok(m.(authority := Confirmed, state := Active, revision := m.revision + 1, updatedAt := now))
  }

  function SupersedeMemory(m: MemoryRecord, replacement: MemoryRecord, expected: int, now: Time): Result<MemoryRecord> {
    var _ :- CheckRevision(m, expected);
    var _ :- Require(m.state == Active, MemoryTransition);
    var _ :- Require(replacement.state == Active, MemoryTransition);
    var _ :- Require(m.id != replacement.id, MemoryTransition);
    var _ :- Require(m.subject == replacement.subject, MemoryTransition);
    var _ :- Require(SameSlot(m, replacement), MemoryTransition);
    var _ :- Require(m.authority == Explicit ==> replacement.authority == Explicit, MemoryProtection);
    var _ :- Require(replacement.authority != Inferred, MemoryProtection);
    Ok(m.(state := Superseded, revision := m.revision + 1, updatedAt := now))
  }

  function ExpireMemory(m: MemoryRecord, expected: int, now: Time): Result<MemoryRecord> {
    var _ :- CheckRevision(m, expected);
    var _ :- Require(m.state == Candidate || m.state == Active, MemoryTransition);
    Ok(m.(state := Expired, revision := m.revision + 1, updatedAt := now))
  }

  function SoftDeleteMemory(m: MemoryRecord, expected: int, now: Time): Result<MemoryRecord> {
    var _ :- CheckRevision(m, expected);
    var _ :- Require(m.state != Deleted, MemoryTransition);
    Ok(m.(state := Deleted, revision := m.revision + 1, updatedAt := now, deletedAt := Some(now)))
  }

  function RestoreMemory(m: MemoryRecord, target: State, expected: int, now: Time): Result<MemoryRecord> {
    var _ :- CheckRevision(m, expected);
    var _ :- Require(m.state == Deleted, MemoryTransition);
    var _ :- Require(target != Deleted, MemoryTransition);
    var _ :- Require(!(target == Active && m.authority == Inferred), MemoryProtection);
    Ok(m.(state := target, revision := m.revision + 1, updatedAt := now, deletedAt := None))
  }

  /** The transitions copy the record without validating it: the copy is valid exactly when the clock
      has not gone back behind the record's creation. */
  lemma TransitionsNeedTheClock(m: MemoryRecord, replacement: MemoryRecord, target: State, expected: int, now: Time)
    requires RecordValid(m)
    ensures forall r | r in {ConfirmMemory(m, expected, now), SupersedeMemory(m, replacement, expected, now),
                             ExpireMemory(m, expected, now), SoftDeleteMemory(m, expected, now),
                             RestoreMemory(m, target, expected, now)} && r.Ok? ::
              && expected == m.revision && r.value.revision == m.revision + 1
              && (RecordValid(r.value) <==> m.createdAt <= now)
  {
  }

  predicate InWindow(m: MemoryRecord, at: Time) {
    && (m.validFrom.Some? ==> m.validFrom.value <= at)
    && (m.validUntil.Some? ==> at < m.validUntil.value)
  }

  predicate IsEffective(m: MemoryRecord, at: Time) {
    m.state == Active && m.deletedAt.None? && InWindow(m, at)
  }

  /** The states each authority can be in: an inferred memory is never in force. */
  predicate Lawful(m: MemoryRecord) {
    if m.authority == Inferred then m.state in {Candidate, Deleted} else m.state in {Active, Superseded, Deleted}
  }

  /** What one revision may do to a record. */
  datatype Change = Confirming | Superseding | Deleting | Restoring | Patching | Evidencing

  function TransitionOf(c: Change): Option<TransitionType> {
    match c
    case Confirming => Some(Confirm)
    case Superseding => Some(Supersede)
    case Deleting => Some(Delete)
    case Restoring => Some(Restore)
    case Patching => None
    case Evidencing => None
  }

  predicate Changes(c: Change, b: MemoryRecord, a: MemoryRecord) {
    && a.revision == b.revision + 1
    && match c
       case Confirming =>
         && b.state == Candidate && b.authority == Inferred
         && a == b.(authority := Confirmed, state := Active, revision := a.revision, updatedAt := a.updatedAt)
       case Superseding =>
         b.state == Active && a == b.(state := Superseded, revision := a.revision, updatedAt := a.updatedAt)
       case Deleting =>
         && b.state != Deleted
         && a == b.(state := Deleted, revision := a.revision, updatedAt := a.updatedAt, deletedAt := Some(a.updatedAt))
       case Restoring =>
         && b.state == Deleted && a.state != Deleted
         && a == b.(state := a.state, revision := a.revision, updatedAt := a.updatedAt, deletedAt := None)
       case Patching =>
         a == b.(content := a.content, structured := a.structured, target := a.target, polarity := a.polarity,
                 scope := a.scope, scopeValue := a.scopeValue, confidence := a.confidence,
                 validFrom := a.validFrom, validUntil := a.validUntil,
                 revision := a.revision, updatedAt := a.updatedAt)
       case Evidencing =>
         && a == b.(confidence := a.confidence, evidenceCount := a.evidenceCount,
                    revision := a.revision, updatedAt := a.updatedAt)
         && b.confidence <= a.confidence
         && (a.confidence != b.confidence ==> b.authority == Inferred && b.state == Candidate)
         && b.evidenceCount <= a.evidenceCount <= b.evidenceCount + 1
  }

  /** From a lawful record the transitions the service uses make the changes they are named for and lead
      to lawful records; expiring, which it never calls, would leave the lifecycle. */
  lemma TransitionsFollowLifecycle(m: MemoryRecord, replacement: MemoryRecord, target: State, expected: int, now: Time)
    requires RecordValid(m) && Lawful(m)
    ensures var r := ConfirmMemory(m, expected, now); r.Ok? ==> Changes(Confirming, m, r.value) && Lawful(r.value)
    ensures var r := SupersedeMemory(m, replacement, expected, now); r.Ok? ==>
              Changes(Superseding, m, r.value) && Lawful(r.value)
    ensures var r := SoftDeleteMemory(m, expected, now); r.Ok? ==> Changes(Deleting, m, r.value) && Lawful(r.value)
    ensures var r := RestoreMemory(m, target, expected, now);
            r.Ok? ==> Changes(Restoring, m, r.value) && (Lawful(r.value) <==> Lawful(m.(state := target)))
    ensures var r := ExpireMemory(m, expected, now); r.Ok? ==> !Lawful(r.value)
  {
  }
}
