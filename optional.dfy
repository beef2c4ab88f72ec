/**
 * The container `libOptional::Optional<T>` (include/lib-optional/optional.hpp).
 *
 * A container is the flag `mInitialized` and a slot `mValue` that holds a
 * payload exactly when the flag is set. Every constructor, assignment,
 * `emplace`, `reset` and `swap` is a case analysis on the flags of the
 * containers involved, and each case runs one payload special member
 * function. The ghost `log` of a container records the special members that
 * ran on its slot, in the vocabulary of the test fixture `Aware`.
 *
 * Moves clear the flag of the moved-from container without running the
 * destructor of its payload. The ghost counter `released` counts those
 * payloads, so the accounting invariant
 *   Balance(log) == released + (1 if engaged else 0)
 * holds for every container: constructions and destructions pair up exactly
 * for a container that was never moved from while engaged.
 */
module LibOptional {
  import opened Wrappers
  import opened Events

  /** The error the checked accessor `value()` raises on an empty container. */
  datatype BadOptionalAccess = BadOptionalAccess

  /** The events a container's slot sees when it swaps payloads with another container's slot. */
  function SwapEvents(mine: bool, theirs: bool): (es: seq<Event>)
    ensures Balance(es) == (if theirs then 1 else 0) - (if mine then 1 else 0)
  {
    if mine && theirs then [MoveAssign]
    else if mine then [Dtor]
    else if theirs then [MoveCtor]
    else []
  }

  class Optional<T> {
    /** `mInitialized`: whether the slot holds a payload. */
    var initialized: bool
    /** `mValue`: the payload, when one is constructed in the slot. */
    var slot: Option<T>
    /** The payload special members that ran on this slot, oldest first. */
    ghost var log: seq<Event>
    /** Payloads this container gave up by a move, whose destructor it never ran. */
    ghost var released: nat

    /** The flag tells whether the slot holds a payload; the log accounts for every payload. */
    ghost predicate Valid()
      reads this
    {
      (initialized <==> slot.Some?) &&
      Balance(log) == released + (if initialized then 1 else 0)
    }

    // ----- Constructors (optional.hpp:149-274) -----

    /** `Optional()`: empty; no payload is constructed. */
    constructor ()
      ensures Valid() && !initialized
      ensures log == [] && released == 0
    {
      initialized, slot, log, released := false, None, [], 0;
    }

    /** `Optional(NullOptionalT)`: empty; no payload is constructed. */
    constructor FromNull()
      ensures Valid() && !initialized
      ensures log == [] && released == 0
    {
      initialized, slot, log, released := false, None, [], 0;
    }

    /** Copy constructor: copy-constructs the source's payload, if any; the source is untouched. */
    constructor Copy(other: Optional<T>)
      requires other.Valid()
      ensures Valid() && slot == other.slot
      ensures log == (if other.initialized then [CopyCtor] else []) && released == 0
    {
      initialized, slot, log, released := false, None, [], 0;
      new;
      if other.initialized {
        Construct(other.slot.value, CopyCtor);
      }
    }

    /**
     * Move constructor: move-constructs the source's payload, if any, and
     * then clears the source's flag without destroying its payload.
     */
    constructor Move(other: Optional<T>)
      requires other.Valid()
      modifies other
      ensures Valid() && slot == old(other.slot)
      ensures log == (if old(other.initialized) then [MoveCtor] else []) && released == 0
      ensures other.Valid() && !other.initialized && other.log == old(other.log)
      ensures other.released == old(other.released) + (if old(other.initialized) then 1 else 0)
    {
      initialized, slot, log, released := false, None, [], 0;
      new;
      if other.initialized {
        Construct(other.slot.value, MoveCtor);
        other.ClearMovedFrom();
      }
    }

    /**
     * Converting copy constructor from `const Optional<U>&`: when the source
     * is engaged, emplaces the conversion of its payload. The conversion
     * `conv` stands for T's constructor from a `const U&`.
     */
    constructor ConvertCopy<U>(other: Optional<U>, conv: U -> T)
      requires other.Valid()
      ensures Valid() && initialized == other.initialized
      ensures initialized ==> slot == Some(conv(other.slot.value))
      ensures log == (if other.initialized then [CopyCtor] else []) && released == 0
    {
      initialized, slot, log, released := false, None, [], 0;
      new;
      if other.initialized {
        Construct(conv(other.slot.value), CopyCtor);
      }
    }

    /**
     * Converting move constructor from `Optional<U>&&`: when the source is
     * engaged, emplaces the conversion of its moved payload. Unlike the
     * same-type move constructor, it leaves the source engaged.
     */
    constructor ConvertMove<U>(other: Optional<U>, conv: U -> T)
      requires other.Valid()
      ensures Valid() && initialized == other.initialized
      ensures initialized ==> slot == Some(conv(other.slot.value))
      ensures log == (if other.initialized then [MoveCtor] else []) && released == 0
    {
      initialized, slot, log, released := false, None, [], 0;
      new;
      if other.initialized {
        Construct(conv(other.slot.value), MoveCtor);
      }
    }

    /**
     * `Optional(InPlace, args...)`: constructs the payload directly from the
     * arguments; `v` is what T's constructor builds from them. A value
     * argument of a type other than T constructs the same way.
     */
    constructor InPlace(v: T)
      ensures Valid() && slot == Some(v)
      ensures log == [Ctor] && released == 0
    {
      initialized, slot, log, released := false, None, [], 0;
      new;
      Construct(v, Ctor);
    }

    /** `Optional(TOther&& value)` with a payload argument: copy- or move-constructs it. */
    constructor FromValue(v: T, how: Passing)
      ensures Valid() && slot == Some(v)
      ensures log == [Constructed(how)] && released == 0
    {
      initialized, slot, log, released := false, None, [], 0;
      new;
      Construct(v, Constructed(how));
    }

    /**
     * `~Optional()`: resets an engaged container. Afterwards every payload
     * constructed in the slot has been destroyed, except those the container
     * gave up by a move.
     */
    method Destroy()
      requires Valid()
      modifies this
      ensures Valid() && !initialized
      ensures log == old(log) + (if old(initialized) then [Dtor] else [])
      ensures released == old(released) && Balance(log) == released
    {
      if initialized {
        Reset();
      }
    }

    // ----- Assignment (optional.hpp:284-378) -----

    /** `operator=(NullOptionalT)`: resets. */
    method AssignNull()
      requires Valid()
      modifies this
      ensures Valid() && !initialized
      ensures log == old(log) + (if old(initialized) then [Dtor] else [])
      ensures released == old(released)
    {
      Reset();
    }

    /**
     * Copy assignment. Both engaged: the payload is copy-assigned. Only the
     * source engaged: the payload is copy-constructed. Source empty: the
     * target is reset. The target ends with the source's state; the source
     * is not changed.
     */
    method AssignCopy(other: Optional<T>)
      requires Valid() && other.Valid()
      modifies this
      ensures Valid() && slot == old(other.slot)
      ensures other.slot == old(other.slot)
      ensures log == old(log) +
        (if old(initialized) && old(other.initialized) then [CopyAssign]
         else if old(other.initialized) then [CopyCtor]
         else if old(initialized) then [Dtor]
         else [])
      ensures released == old(released)
    {
      if initialized && other.initialized {
        slot := other.slot;
        BalanceSnoc(log, CopyAssign);
        log := log + [CopyAssign];
      } else if other.initialized {
        Construct(other.slot.value, CopyCtor);
      } else {
        Reset();
      }
    }

    /**
     * Move assignment. Both engaged: the payload is move-assigned. Only the
     * source engaged: the payload is move-constructed. Source empty: the
     * target is reset. An engaged source ends empty, its payload released
     * without a destructor. Self move-assignment of an engaged container
     * move-assigns the payload to itself and then leaves the container empty.
     */
    method AssignMove(other: Optional<T>)
      requires Valid() && other.Valid()
      modifies this, other
      ensures Valid() && other.Valid()
      ensures !other.initialized
      ensures other != this ==> slot == old(other.slot)
      ensures log == old(log) +
        (if old(initialized) && old(other.initialized) then [MoveAssign]
         else if old(other.initialized) then [MoveCtor]
         else if old(initialized) then [Dtor]
         else [])
      ensures other != this ==> other.log == old(other.log)
      ensures other != this ==> released == old(released)
      ensures other.released == old(other.released) + (if old(other.initialized) then 1 else 0)
    {
      if initialized && other.initialized {
        slot := other.slot;
        BalanceSnoc(log, MoveAssign);
        log := log + [MoveAssign];
        other.ClearMovedFrom();
      } else if other.initialized {
        Construct(other.slot.value, MoveCtor);
        other.ClearMovedFrom();
      } else {
        Reset();
      }
    }

    /**
     * `operator=(TOther&& value)` with a payload argument: an engaged
     * container assigns it to its payload in place; an empty one constructs
     * the payload from it. Either way the container ends holding `v`. For a
     * scalar payload and an argument of that same type this overload is
     * disabled: the argument becomes a temporary container that is then
     * move-assigned.
     */
    method AssignValue(v: T, how: Passing)
      requires Valid()
      modifies this
      ensures Valid() && slot == Some(v)
      ensures log == old(log) + [if old(initialized) then Assigned(how) else Constructed(how)]
      ensures released == old(released)
    {
      if initialized {
        slot := Some(v);
        BalanceSnoc(log, Assigned(how));
        log := log + [Assigned(how)];
      } else {
        Construct(v, Constructed(how));
      }
    }

    /**
     * Converting copy assignment from `const Optional<U>&`, by the same four
     * cases as the copy assignment; `conv` stands for T's construction and
     * assignment from a `const U&`. The source is not changed.
     */
    method AssignConvertedCopy<U>(other: Optional<U>, conv: U -> T)
      requires Valid() && other.Valid()
      requires other as object != this
      modifies this
      ensures Valid() && initialized == other.initialized
      ensures initialized ==> slot == Some(conv(other.slot.value))
      ensures log == old(log) +
        (if old(initialized) && other.initialized then [CopyAssign]
         else if other.initialized then [CopyCtor]
         else if old(initialized) then [Dtor]
         else [])
      ensures released == old(released)
    {
      if initialized && other.initialized {
        slot := Some(conv(other.slot.value));
        BalanceSnoc(log, CopyAssign);
        log := log + [CopyAssign];
      } else if other.initialized {
        Construct(conv(other.slot.value), CopyCtor);
      } else {
        Reset();
      }
    }

    /**
     * Converting move assignment from `Optional<U>&&`, by the same four cases
     * as the move assignment; an engaged source ends empty, its payload
     * released without a destructor.
     */
    method AssignConvertedMove<U>(other: Optional<U>, conv: U -> T)
      requires Valid() && other.Valid()
      requires other as object != this
      modifies this, other
      ensures Valid() && other.Valid()
      ensures initialized == old(other.initialized) && !other.initialized
      ensures initialized ==> slot == Some(conv(old(other.slot).value))
      ensures log == old(log) +
        (if old(initialized) && old(other.initialized) then [MoveAssign]
         else if old(other.initialized) then [MoveCtor]
         else if old(initialized) then [Dtor]
         else [])
      ensures released == old(released) && other.log == old(other.log)
      ensures other.released == old(other.released) + (if old(other.initialized) then 1 else 0)
    {
      if initialized && other.initialized {
        slot := Some(conv(other.slot.value));
        BalanceSnoc(log, MoveAssign);
        log := log + [MoveAssign];
        other.ClearMovedFrom();
      } else if other.initialized {
        Construct(conv(other.slot.value), MoveCtor);
        other.ClearMovedFrom();
      } else {
        Reset();
      }
    }

    // ----- Modifiers (optional.hpp:381-421) -----

    /**
     * `emplace(args...)`: resets, then constructs the payload from the
     * arguments (`v` is what T's constructor builds from them), and returns
     * the new payload.
     */
    method Emplace(v: T) returns (r: T)
      requires Valid()
      modifies this
      ensures Valid() && slot == Some(v) && r == v
      ensures log == old(log) + (if old(initialized) then [Dtor, Ctor] else [Ctor])
      ensures released == old(released)
    {
      Reset();
      Construct(v, Ctor);
      r := slot.value;
    }

    /**
     * `*x = v` or `x.value() = v` on an engaged container with a value
     * payload: `operator*`, `value()` and `emplace` hand out a writable
     * reference into the slot, and assigning a T through it runs T's copy or
     * move assignment on the live payload. The flag is not touched.
     */
    method AssignThroughRef(v: T, how: Passing)
      requires Valid() && initialized
      modifies this
      ensures Valid() && initialized && slot == Some(v)
      ensures log == old(log) + [Assigned(how)]
      ensures released == old(released)
    {
      BalanceSnoc(log, Assigned(how));
      slot := Some(v);
      log := log + [Assigned(how)];
    }

    /**
     * `swap(other)`: both engaged, the payloads are exchanged (by the
     * generic `std::swap`, whose two move-assignments act on the slots);
     * exactly one engaged, its payload is move-constructed into the other
     * slot and then reset; both empty, nothing happens. Engagement and
     * payloads are exchanged in every case and nothing is released.
     */
    method Swap(other: Optional<T>)
      requires Valid() && other.Valid()
      modifies this, other
      ensures Valid() && other.Valid()
      ensures slot == old(other.slot) && other.slot == old(slot)
      ensures other != this ==> log == old(log) + SwapEvents(old(initialized), old(other.initialized))
      ensures other != this ==> other.log == old(other.log) + SwapEvents(old(other.initialized), old(initialized))
      ensures other == this ==> log == old(log) + (if old(initialized) then [MoveAssign, MoveAssign] else [])
      ensures released == old(released) && other.released == old(other.released)
    {
      if initialized && other.initialized {
        var mine := slot;
        slot := other.slot;
        other.slot := mine;
        BalanceSnoc(log, MoveAssign);
        log := log + [MoveAssign];
        BalanceSnoc(other.log, MoveAssign);
        other.log := other.log + [MoveAssign];
      } else if initialized {
        other.Construct(slot.value, MoveCtor);
        Reset();
      } else if other.initialized {
        Construct(other.slot.value, MoveCtor);
        other.Reset();
      }
    }

    /** `reset()`: destroys the payload of an engaged container; a no-op on an empty one. */
    method Reset()
      requires Valid()
      modifies this
      ensures Valid() && !initialized
      ensures log == old(log) + (if old(initialized) then [Dtor] else [])
      ensures released == old(released)
      ensures !old(initialized) ==> unchanged(this)
    {
      if initialized {
        initialized := false;
        slot := None;
        BalanceSnoc(log, Dtor);
        log := log + [Dtor];
      }
    }

    /** `construct(args...)`: builds a payload in the empty slot, then sets the flag. */
    method Construct(v: T, e: Event)
      requires Valid() && !initialized && e.IsConstruction()
      modifies this
      ensures Valid() && slot == Some(v)
      ensures log == old(log) + [e] && released == old(released)
    {
      slot := Some(v);
      initialized := true;
      BalanceSnoc(log, e);
      log := log + [e];
    }

    /**
     * `other.mInitialized = false` after a move: the container becomes empty
     * and its moved-from payload is released without a destructor.
     */
    method ClearMovedFrom()
      requires Valid() && initialized
      modifies this
      ensures Valid() && !initialized
      ensures log == old(log) && released == old(released) + 1
    {
      initialized := false;
      slot := None;
      released := released + 1;
    }

    // ----- Observers (optional.hpp:424-521) -----

    /** `operator bool` and `hasValue()`: whether a payload is held. */
    predicate HasValue()
      reads this
      requires Valid()
      ensures HasValue() <==> slot.Some?
    {
      initialized
    }

    /** `operator!`: whether the container is empty. */
    predicate IsEmpty()
      reads this
      requires Valid()
      ensures IsEmpty() <==> slot == None
    {
      !initialized
    }

    /** `operator*` and `operator->`: unchecked access, which the source only asserts in debug builds. */
    function Deref(): (r: T)
      reads this
      requires Valid() && initialized
      ensures slot == Some(r)
    {
      slot.value
    }

    /** `value()`: raises BadOptionalAccess exactly when empty, and otherwise yields the payload. */
    function Value(): (r: Result<T, BadOptionalAccess>)
      reads this
      requires Valid()
      ensures r.Failure? <==> slot == None
      ensures r.Success? ==> slot == Some(r.value)
    {
      if !initialized then Failure(BadOptionalAccess) else Success(slot.value)
    }

    /**
     * `valueOr(fallback)`: the payload when engaged, the fallback otherwise.
     * For a reference payload this is the selected object itself.
     */
    function ValueOr(fallback: T): (r: T)
      reads this
      requires Valid()
      ensures slot.Some? ==> r == slot.value
      ensures slot.None? ==> r == fallback
    {
      if initialized then slot.value else fallback
    }

    /** The observable state of the container: its payload, if any. */
    function View(): (v: Option<T>)
      reads this
      requires Valid()
      ensures v.Some? <==> initialized
      ensures v.Some? ==> Value() == Success(v.value)
    {
      slot
    }
  }

  /** The `std::swap` specialisation (optional.hpp:709-712): delegates to the member swap. */
  method StdSwap<T>(lhs: Optional<T>, rhs: Optional<T>)
    requires lhs.Valid() && rhs.Valid()
    modifies lhs, rhs
    ensures lhs.Valid() && rhs.Valid()
    ensures lhs.slot == old(rhs.slot) && rhs.slot == old(lhs.slot)
    ensures lhs.released == old(lhs.released) && rhs.released == old(rhs.released)
  {
    lhs.Swap(rhs);
  }
}
