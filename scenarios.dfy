/**
 * Whole-container behaviours that test/main.cpp pins down, stated for every
 * payload type and proved from the contracts of `LibOptional.Optional`.
 */
module Scenarios {
  import opened Wrappers
  import opened Events
  import opened LibOptional

  /** A container built from a value holds it: `value()` yields it. */
  method ConstructedHoldsValue<T>(v: T, how: Passing) returns (r: Result<T, BadOptionalAccess>)
    ensures r == Success(v)
  {
    var o := new Optional<T>.FromValue(v, how);
    r := o.Value();
  }

  /** Default-constructed and `NullOptional`-constructed containers are empty; `value()` raises. */
  method EmptyRaises<T>() returns (a: Result<T, BadOptionalAccess>, b: Result<T, BadOptionalAccess>)
    ensures a == Failure(BadOptionalAccess) && b == Failure(BadOptionalAccess)
  {
    var x := new Optional<T>();
    var y := new Optional<T>.FromNull();
    a := x.Value();
    b := y.Value();
  }

  /** Copy construction leaves the source engaged with its value; the copy holds the same value. */
  method CopyKeepsSource<T>(v: T) returns (source: Option<T>, copy: Option<T>)
    ensures source == Some(v) && copy == Some(v)
  {
    var a := new Optional<T>.InPlace(v);
    var b := new Optional<T>.Copy(a);
    source := a.View();
    copy := b.View();
  }

  /** Move construction gives the target the value and leaves the source empty. */
  method MoveEmptiesSource<T>(v: T) returns (source: Option<T>, target: Option<T>)
    ensures source == None && target == Some(v)
  {
    var a := new Optional<T>.InPlace(v);
    var b := new Optional<T>.Move(a);
    source := a.View();
    target := b.View();
  }

  /** The converting move constructor leaves its source engaged. */
  method ConvertingMoveKeepsSource<U, T>(u: U, conv: U -> T) returns (source: Option<U>, target: Option<T>)
    ensures source == Some(u) && target == Some(conv(u))
  {
    var a := new Optional<U>.InPlace(u);
    var b := new Optional<T>.ConvertMove(a, conv);
    source := a.View();
    target := b.View();
  }

  /** `x = std::move(x)` on an engaged container leaves it empty. */
  method SelfMoveAssignEmpties<T>(v: T) returns (after: Option<T>)
    ensures after == None
  {
    var a := new Optional<T>.InPlace(v);
    a.AssignMove(a);
    after := a.View();
  }

  /** `std::swap` of two engaged containers exchanges their payloads (test/main.cpp:288-297). */
  method SwapExchanges<T>(p: T, q: T) returns (a: Option<T>, b: Option<T>)
    ensures a == Some(q) && b == Some(p)
  {
    var x := new Optional<T>.InPlace(p);
    var y := new Optional<T>.InPlace(q);
    StdSwap(x, y);
    a := x.View();
    b := y.View();
  }

  /**
   * `*x = w` on an engaged container assigns to the payload in place: the
   * container stays engaged and now holds `w`.
   */
  method AssignThroughDeref<T>(v: T, w: T) returns (before: Option<T>, after: Option<T>)
    ensures before == Some(v) && after == Some(w)
  {
    var x := new Optional<T>.InPlace(v);
    before := x.View();
    x.AssignThroughRef(w, Copied);
    after := x.View();
  }

  /** Swapping twice restores both containers' payloads, and nothing is released. */
  method SwapTwice<T>(x: Optional<T>, y: Optional<T>)
    requires x.Valid() && y.Valid()
    modifies x, y
    ensures x.Valid() && y.Valid()
    ensures x.slot == old(x.slot) && y.slot == old(y.slot)
    ensures x.released == old(x.released) && y.released == old(y.released)
  {
    x.Swap(y);
    x.Swap(y);
  }

  /** `reset()` is idempotent: a second call destroys nothing more. */
  method ResetTwice<T>(o: Optional<T>)
    requires o.Valid()
    modifies o
    ensures o.Valid() && !o.initialized
    ensures o.log == old(o.log) + (if old(o.initialized) then [Dtor] else [])
  {
    o.Reset();
    o.Reset();
  }

  /** `valueOr` on `Optional<int>(5)` and after `= NullOptional` (test/main.cpp:322-327). */
  method ValueOrFallback() returns (engaged: int, empty: int)
    ensures engaged == 5 && empty == 3
  {
    var a := new Optional<int>.FromValue(5, Moved);
    engaged := a.ValueOr(3);
    a.AssignNull();
    empty := a.ValueOr(3);
  }

  /**
   * `hasValue()` before and after `v = 1` (test/main.cpp:299-304). For a
   * scalar payload assigned a value of its own type the raw-value
   * `operator=` is disabled, so `v = 1` converts 1 to a temporary container
   * and move-assigns it.
   */
  method HasValueAfterAssignment() returns (before: bool, after: bool, value: int)
    ensures !before && after && value == 1
  {
    var v := new Optional<int>();
    before := v.HasValue();
    var temporary := new Optional<int>.FromValue(1, Moved);
    v.AssignMove(temporary);
    temporary.Destroy();
    after := v.HasValue();
    value := v.Deref();
  }

  /**
   * Moving an engaged container and then destroying both: two payloads are
   * constructed and only one destructor runs, because the move releases the
   * source's payload without destroying it.
   */
  method MoveThenDestroyBoth<T>(v: T) returns (ghost sourceLog: seq<Event>, ghost targetLog: seq<Event>)
    ensures sourceLog == [Ctor] && targetLog == [MoveCtor, Dtor]
    ensures Balance(sourceLog + targetLog) == 1
  {
    var a := new Optional<T>.InPlace(v);
    var b := new Optional<T>.Move(a);
    a.Destroy();
    b.Destroy();
    sourceLog, targetLog := a.log, b.log;
    BalanceAppend(sourceLog, targetLog);
  }
}
