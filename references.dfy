/**
 * `Optional<U&>`: a container whose payload is a reference. Its storage type
 * is `std::reference_wrapper<U>` (include/lib-optional/optional.hpp:65-67),
 * a rebindable handle, so the container is the same class template with a
 * handle in its slot. Here the handle is a `Cell` reference held in
 * `Optional<Cell>`: assigning to the container rebinds the handle and
 * writes into no object, which the frames below make checkable.
 */
module References {
  import opened Wrappers
  import opened Events
  import opened LibOptional
  import Comparisons

  /** An external `int` object that a reference payload can refer to. */
  class Cell {
    var v: int

    constructor (v: int)
      ensures this.v == v
    {
      this.v := v;
    }
  }

  /**
   * What the free operators of an `Optional<int&>` compare: `*x` is an
   * `int&`, so they see the referent's value at the time of the comparison.
   * The container-against-container and `NullOptional` predicates of
   * `Comparisons` apply to this with `Comparisons.IntOps()`.
   */
  function Referent(o: Optional<Cell>): (r: Option<int>)
    reads o, if o.slot.Some? then {o.slot.value} else {}
    requires o.Valid()
    ensures r.Some? <==> o.initialized
    ensures r.Some? ==> r.value == o.Deref().v
  {
    if o.initialized then Some(o.slot.value.v) else None
  }

  /**
   * `ov = c` on an `Optional<int&>`, engaged or not: afterwards the
   * container refers to `c`, and neither `c` nor the object it referred to
   * before has changed.
   */
  method Rebind(o: Optional<Cell>, c: Cell)
    requires o.Valid()
    modifies o
    ensures o.Valid() && o.View() == Some(c)
    ensures c.v == old(c.v)
    ensures old(o.initialized) ==> old(o.slot).value.v == old(o.slot.value.v)
    ensures o.released == old(o.released)
  {
    o.AssignValue(c, Copied);
  }

  /**
   * A write to the referenced object is seen through `*ov` and `value()`
   * without assigning the container again.
   */
  method WriteReferent(o: Optional<Cell>, c: Cell, x: int)
    requires o.Valid() && o.View() == Some(c)
    modifies c
    ensures o.Valid() && o.Deref().v == x && o.Value() == Success(c)
    ensures Referent(o) == Some(x)
  {
    c.v := x;
  }

  /**
   * `valueOr(fallback)` on an `Optional<int&>` returns the selected object
   * itself: a write through the result changes the referent when engaged and
   * the fallback otherwise, and no other object.
   */
  method WriteThroughValueOr(o: Optional<Cell>, fallback: Cell, x: int) returns (selected: Cell)
    requires o.Valid()
    modifies if o.initialized then o.slot.value else fallback
    ensures selected == (if o.initialized then o.slot.value else fallback)
    ensures selected.v == x
  {
    selected := o.ValueOr(fallback);
    selected.v := x;
  }

  /**
   * The scenario of test/main.cpp:377-393, for both ways of binding: what
   * `*ov` reads before and after the referent is set to 3.
   */
  method ReferenceScenario() returns (assignedBefore: int, assignedAfter: int, constructedBefore: int, constructedAfter: int)
    ensures assignedBefore == 1 && assignedAfter == 3
    ensures constructedBefore == 1 && constructedAfter == 3
  {
    var v := new Cell(1);
    var ov := new Optional<Cell>();
    Rebind(ov, v);
    assignedBefore := ov.Deref().v;
    WriteReferent(ov, v, 3);
    assignedAfter := ov.Deref().v;

    var w := new Cell(1);
    var ow := new Optional<Cell>.FromValue(w, Copied);
    constructedBefore := ow.Deref().v;
    WriteReferent(ow, w, 3);
    constructedAfter := ow.Deref().v;
  }

  /**
   * The comparisons of two `Optional<int&>` containers follow their
   * referents: bound to two objects both holding 1 they are equal, and after
   * the first referent is set to 3 the first container is greater and no
   * longer equal, without either container being assigned.
   */
  method ReferenceComparisons() returns (equalBefore: bool, greaterAfter: bool, equalAfter: bool)
    ensures equalBefore && greaterAfter && !equalAfter
  {
    var v := new Cell(1);
    var w := new Cell(1);
    var ov := new Optional<Cell>.FromValue(v, Copied);
    var ow := new Optional<Cell>.FromValue(w, Copied);
    var ops := Comparisons.IntOps();
    equalBefore := Comparisons.Eq(ops, Referent(ov), Referent(ow));
    WriteReferent(ov, v, 3);
    greaterAfter := Comparisons.Gt(ops, Referent(ov), Referent(ow));
    equalAfter := Comparisons.Eq(ops, Referent(ov), Referent(ow));
  }
}
