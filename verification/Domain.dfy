/** Identifiers, enumerations and errors shared by every component. */
module Domain {
  import opened Sorting

  /** A UUID. UUIDs print with a fixed width, so their string order is this numeric order. */
  type Id = nat
  /** A UTC instant in microseconds. */
  type Time = int

  datatype Option<+T> = None | Some(value: T)

  datatype Error =
    | InvalidArgument
    | Validation
    | ConstraintViolation  // an IntegrityError that no repository call translates
    | SubjectNotFound
    | SubjectDeleted
    | EntityNotFound
    | MemoryNotFound
    | MemoryProtection
    | MemoryTransition
    | RevisionConflict(expected: int, actual: int)
    | IdempotencyConflict
    | TenantScopeViolation
    | ProviderInvalidResponse

  /** A value, or the exception that ended the call. */
  datatype Result<+T> = Ok(value: T) | Err(error: Error) {
    predicate IsFailure() { Err? }
    function PropagateFailure<U>(): Result<U> requires Err? { Err(error) }
    function Extract(): T requires Ok? { value }
  }

  function Require(condition: bool, error: Error): Result<()> {
    if condition then Ok(()) else Err(error)
  }

  datatype SubjectRef = SubjectRef(tenant: string, namespace: string, subject: string)

  datatype Polarity = Positive | Neutral | Negative | Unknown
  datatype SourceType = Conversation | EventSource | User | System | Import

  datatype Evidence = Evidence(
    id: Id, subject: SubjectRef, sourceType: SourceType, sourceRef: string, eventId: Option<Id>,
    excerpt: Option<string>, metadata: string, occurredAt: Time, createdAt: Time)

  function Max(a: int, b: int): int { if a < b then b else a }
  function Min(a: int, b: int): int { if a < b then a else b }

  function MaxReal(a: real, b: real): real { if a < b then b else a }
  function MinReal(a: real, b: real): real { if a < b then a else b }
  function AbsReal(a: real): real { if a < 0.0 then -a else a }

  predicate IsLeast(s: set<Id>, x: Id) { x in s && forall y | y in s :: x <= y }

  function Least(s: set<Id>): (x: Id)
    requires s != {}
    ensures IsLeast(s, x)
  {
    SomeLeast(s);
    var x :| IsLeast(s, x);
    x
  }

  lemma {:induction false} LeastExists(s: set<Id>) returns (x: Id)
    requires s != {}
    ensures IsLeast(s, x)
    decreases |s|
  {
    x :| x in s;
    var first, rest := x, s - {x};
    if rest != {} {
      var z := LeastExists(rest);
      if z < x { x := z; }
    }
    forall y | y in s ensures x <= y {
      assert y == first || y in rest;
    }
  }

  lemma SomeLeast(s: set<Id>)
    requires s != {}
    ensures exists x :: IsLeast(s, x)
  {
    var x := LeastExists(s);
  }

  function LeastFirst(s: set<Id>): seq<Id> {
    if s == {} then [] else [Least(s)] + LeastFirst(s - {Least(s)})
  }

  lemma {:induction false} LeastFirstAscends(s: set<Id>)
    ensures forall x :: x in LeastFirst(s) <==> x in s
    ensures forall i, j | 0 <= i < j < |LeastFirst(s)| :: LeastFirst(s)[i] < LeastFirst(s)[j]
    ensures |LeastFirst(s)| == |s|
  {
    hide Least;
    if s != {} {
      var x, rest := Least(s), LeastFirst(s - {Least(s)});
      LeastFirstAscends(s - {x});
      assert LeastFirst(s) == [x] + rest;
      forall j | 0 <= j < |rest| ensures x < rest[j] { assert rest[j] in s - {x}; }
    }
  }

  /** The ids of a table, in increasing order. */
  function SortedIds(s: set<Id>): (r: seq<Id>)
    ensures forall x :: x in r <==> x in s
    ensures forall i, j | 0 <= i < j < |r| :: r[i] < r[j]
    ensures |r| == |s|
  {
    LeastFirstAscends(s);
    LeastFirst(s)
  }

  /** Everything in `a` is in `b`, unchanged. */
  ghost predicate Extends<K, V>(a: map<K, V>, b: map<K, V>) { forall k | k in a :: k in b && b[k] == a[k] }

  ghost predicate Stores<V>(t: map<Id, V>, v: V) { exists id :: id in t && t[id] == v }

  lemma StillStores<V>(a: map<Id, V>, b: map<Id, V>, v: V)
    requires Extends(a, b) && Stores(a, v)
    ensures Stores(b, v)
  {
    var id :| id in a && a[id] == v;
    assert b[id] == v;
  }

  /** The rows of a table in id order. */
  function Rows<V(!new)>(t: map<Id, V>): (r: seq<V>)
    ensures forall id | id in t :: t[id] in r
    ensures forall v | v in r :: Stores(t, v)
    ensures |r| == |t|
  {
    RowsAt(t, SortedIds(t.Keys))
  }

  function RowsAt<V(!new)>(t: map<Id, V>, ids: seq<Id>): (r: seq<V>)
    requires forall id | id in ids :: id in t
    ensures |r| == |ids| && forall i | 0 <= i < |r| :: r[i] == t[ids[i]]
    ensures forall id | id in ids :: t[id] in r
    ensures forall v | v in r :: Stores(t, v)
  {
    if ids == [] then [] else
      var rest := RowsAt(t, ids[1..]);
      assert Stores(t, t[ids[0]]);
      [t[ids[0]]] + rest
  }

  /** Rows that carry their own key appear once. */
  lemma RowsAreDistinct<V(!new)>(t: map<Id, V>, id: V -> Id)
    requires forall k | k in t :: id(t[k]) == k
    ensures Distinct(Rows(t))
  {
    var ids := SortedIds(t.Keys);
    var rows := Rows(t);
    forall i, j | 0 <= i < j < |rows| ensures rows[i] != rows[j] {
      assert id(rows[i]) == ids[i] && id(rows[j]) == ids[j];
    }
  }

  /** The row a unique lookup finds, if any. */
  function FindRow<V(!new)>(t: map<Id, V>, p: V -> bool): (r: Option<V>)
    ensures r.Some? ==> p(r.value) && Stores(t, r.value)
    ensures r.None? ==> forall id | id in t :: !p(t[id])
  {
    var rows := Filter(Rows(t), p);
    if rows == [] then
      assert forall id | id in t :: t[id] in Rows(t);
      None
    else
      assert rows[0] in rows;
      Some(rows[0])
  }
}
