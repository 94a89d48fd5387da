/**
 * The value a NETCONF server operation handler returns to say whether, and how
 * eagerly, it can service a request: either the "cannot handle" sentinel, which
 * carries no number, or a Java `int` priority. The Java class is immutable (its
 * field is set only by the private constructors), so it is modelled as a datatype.
 */
module HandlingPriorities {
  import opened Wrappers
  import opened Int32

  datatype HandlingPriority = CannotHandle | Value(priority: int32)

  /** The failures of `increasePriority`: Guava's `checkState` throws an
      IllegalStateException, its `checkArgument` an IllegalArgumentException. */
  datatype PriorityError = IllegalState | IllegalArgument(problem: ArgumentProblem)

  /** Which `checkArgument` rejected the increase. */
  datatype ArgumentProblem = NegativeIncrease | ResultTooHigh

  /** The exceptions `compareTo` can throw: a NullPointerException when the
      argument is null, and its own IllegalStateException at the end of the cascade. */
  datatype CompareError = NullArgument | UnexpectedState

  /** The three canonical instances. */
  const CANNOT_HANDLE: HandlingPriority := CannotHandle
  const HANDLE_WITH_DEFAULT_PRIORITY: HandlingPriority := Value(MIN_VALUE as int32)
  const HANDLE_WITH_MAX_PRIORITY: HandlingPriority := Value(MAX_VALUE as int32)

  /** `getPriority()`: the number, or empty for the sentinel; a present number rebuilds the same priority. */
  function GetPriority(h: HandlingPriority): (r: Option<int32>)
    ensures r.None? <==> h == CANNOT_HANDLE
    ensures r.Some? ==> h == Value(r.value)
  {
    match h
    case CannotHandle => None
    case Value(p) => Some(p)
  }

  /** `getHandlingPriority(p)`: a handler's priority that always carries `p`. */
  function GetHandlingPriority(priority: int32): (r: HandlingPriority)
    ensures GetPriority(r) == Some(priority)
    ensures !IsCannotHandle(r)
  {
    Value(priority)
  }

  /**
   * `equals(Object)`. `obj` is None when the Java argument is null or not a
   * HandlingPriority. The identity shortcut `this == obj` is subsumed: an object
   * has the same priority as itself. Equality is by the optional priority's value.
   */
  function Equals(h: HandlingPriority, obj: Option<HandlingPriority>): (r: bool)
    ensures r <==> obj == Some(h)
  {
    obj.Some? && GetPriority(h) == GetPriority(obj.value)
  }

  /** `hashCode()`: `Integer.hashCode` of the priority (the value itself), 0 for the sentinel. */
  function HashCode(h: HandlingPriority): (r: int32)
    ensures IsCannotHandle(h) ==> r == 0
    ensures GetPriority(h).Some? ==> r == GetPriority(h).value
  {
    match h
    case CannotHandle => 0
    case Value(p) => p
  }

  /** `isCannotHandle()`: `equals(CANNOT_HANDLE)`. */
  function IsCannotHandle(h: HandlingPriority): (r: bool)
    ensures r <==> GetPriority(h).None?
    ensures r <==> h == CANNOT_HANDLE
  {
    Equals(h, Some(CANNOT_HANDLE))
  }

  /**
   * `increasePriority(d)`: the state check, then the sign check, then the
   * overflow check (computed on `long`, so without wrap-around), and finally a
   * fresh instance holding the Java `int` sum.
   */
  function IncreasePriority(h: HandlingPriority, priorityIncrease: int32): (r: Result<HandlingPriority, PriorityError>)
    ensures r == Failure(IllegalState) <==> h.CannotHandle?
    ensures r == Failure(IllegalArgument(NegativeIncrease)) <==> h.Value? && priorityIncrease <= 0
    ensures r == Failure(IllegalArgument(ResultTooHigh))
            <==> h.Value? && priorityIncrease > 0 && h.priority as int + priorityIncrease as int >= MAX_VALUE
    ensures r.Success? ==> r.value.Value? && r.value.priority as int == h.priority as int + priorityIncrease as int
    ensures r.Success? ==> r.value.priority as int < MAX_VALUE && CompareTo(r.value, h) == 1
  {
    if h.CannotHandle? then Failure(IllegalState)
    else if !(priorityIncrease > 0) then Failure(IllegalArgument(NegativeIncrease))
    else if !(h.priority as int + priorityIncrease as int < MAX_VALUE) then Failure(IllegalArgument(ResultTooHigh))
    else Success(GetHandlingPriority(Add(h.priority, priorityIncrease)))
  }

  /** Where a priority sits on the integer line: the sentinel one below `Integer.MIN_VALUE`. */
  function Rank(h: HandlingPriority): int
  {
    match h
    case CannotHandle => MIN_VALUE - 1
    case Value(p) => p as int
  }

  /**
   * The intended order, as a reference definition: compare the ranks. This is
   * the tag first (sentinel least), then the signed integer value.
   */
  function CompareTo(a: HandlingPriority, b: HandlingPriority): (r: int)
    ensures r == -1 || r == 0 || r == 1
    ensures r == 0 <==> Equals(a, Some(b))
  {
    if Rank(a) < Rank(b) then -1 else if Rank(a) == Rank(b) then 0 else 1
  }

  /**
   * `compareTo(o)` exactly as its rule cascade is written, with the final
   * IllegalStateException as a Failure. `o` is None for a null argument, which
   * the sentinel never dereferences and a numeric priority dereferences at
   * `o.isCannotHandle()`. `identical` is the reference test `this == o`. The
   * private no-argument constructor is called only for CANNOT_HANDLE, so two
   * sentinels are always the same object.
   */
  function CompareCascade(a: HandlingPriority, o: Option<HandlingPriority>, identical: bool): (r: Result<int, CompareError>)
    requires identical ==> o == Some(a)
    requires a.CannotHandle? && o == Some(CannotHandle) ==> identical
    ensures r != Failure(UnexpectedState)
    ensures o.None? ==> r == if a.CannotHandle? then Success(-1) else Failure(NullArgument)
    ensures o.Some? ==> r == Success(CompareTo(a, o.value))
  {
    if identical then Success(0)
    else if IsCannotHandle(a) then Success(-1)
    else if o.None? then Failure(NullArgument)
    else if IsCannotHandle(o.value) then Success(1)
    else if a.priority > o.value.priority then Success(1)
    else if a.priority == o.value.priority then Success(0)
    else if a.priority < o.value.priority then Success(-1)
    else Failure(UnexpectedState)
  }

  /** The sentinel is strictly below every numeric priority, `Integer.MIN_VALUE` included. */
  lemma CannotHandleIsLeast(h: HandlingPriority)
    requires !IsCannotHandle(h)
    ensures CompareTo(CANNOT_HANDLE, h) == -1 && CompareTo(h, CANNOT_HANDLE) == 1
    ensures CompareTo(CANNOT_HANDLE, HANDLE_WITH_DEFAULT_PRIORITY) == -1
  {
  }

  /** Two numeric priorities compare as signed integers. */
  lemma ValuesCompareBySignedValue(x: int32, y: int32)
    ensures CompareTo(GetHandlingPriority(x), GetHandlingPriority(y)) < 0 <==> x < y
    ensures CompareTo(GetHandlingPriority(x), GetHandlingPriority(y)) == 0 <==> x == y
    ensures CompareTo(GetHandlingPriority(x), GetHandlingPriority(y)) > 0 <==> x > y
  {
  }

  /** HANDLE_WITH_MAX_PRIORITY is the greatest value and HANDLE_WITH_DEFAULT_PRIORITY the least numeric one. */
  lemma CanonicalBounds(h: HandlingPriority)
    requires !IsCannotHandle(h)
    ensures CompareTo(h, HANDLE_WITH_MAX_PRIORITY) <= 0
    ensures CompareTo(HANDLE_WITH_DEFAULT_PRIORITY, h) <= 0
    ensures GetPriority(CANNOT_HANDLE).None?
    ensures GetPriority(HANDLE_WITH_DEFAULT_PRIORITY) == Some(MIN_VALUE as int32)
    ensures GetPriority(HANDLE_WITH_MAX_PRIORITY) == Some(MAX_VALUE as int32)
  {
  }

  /** `compareTo` is a total order: reflexive, antisymmetric (with the sign flipped), transitive and total. */
  lemma CompareToIsTotalOrder(a: HandlingPriority, b: HandlingPriority, c: HandlingPriority)
    ensures CompareTo(a, a) == 0
    ensures CompareTo(a, b) == -CompareTo(b, a)
    ensures CompareTo(a, b) <= 0 && CompareTo(b, a) <= 0 ==> a == b
    ensures CompareTo(a, b) <= 0 && CompareTo(b, c) <= 0 ==> CompareTo(a, c) <= 0
    ensures CompareTo(a, b) < 0 && CompareTo(b, c) < 0 ==> CompareTo(a, c) < 0
    ensures CompareTo(a, b) <= 0 || CompareTo(b, a) <= 0
  {
  }

  /** Equality is consistent with the order, and equal priorities hash alike. */
  lemma EqualsConsistentWithCompareTo(a: HandlingPriority, b: HandlingPriority)
    ensures CompareTo(a, b) == 0 <==> Equals(a, Some(b))
    ensures Equals(a, Some(b)) <==> Equals(b, Some(a))
    ensures Equals(a, Some(b)) ==> HashCode(a) == HashCode(b)
    ensures !Equals(a, None)
  {
  }

  /** No increase lands on `Integer.MAX_VALUE`, and every increase of the maximum fails. */
  lemma IncreaseNeverReachesMax(h: HandlingPriority, d: int32)
    ensures IncreasePriority(h, d).Success? ==> IncreasePriority(h, d).value != HANDLE_WITH_MAX_PRIORITY
    ensures IncreasePriority(HANDLE_WITH_MAX_PRIORITY, d).Failure?
    ensures d > 0 ==> IncreasePriority(HANDLE_WITH_MAX_PRIORITY, d) == Failure(IllegalArgument(ResultTooHigh))
    ensures IncreasePriority(CANNOT_HANDLE, d) == Failure(IllegalState)
  {
  }
}
