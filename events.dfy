/**
 * The payload special member functions that a container can run, as the
 * test fixture `Aware` (test/main.cpp:39-70) records them, and the
 * accounting of payload lifetimes that follows from a log of them.
 */
module Events {

  /** One run of a special member function of the payload type. */
  datatype Event =
    | Ctor        // a constructor from arguments that are not a payload (in-place, emplace)
    | CopyCtor    // construction from a const reference: a payload, or a U converted by T(const U&)
    | MoveCtor    // construction from an rvalue: a payload, or a U converted by T(U&&)
    | CopyAssign  // assignment from a const reference: a payload, or a U by T's converting operator=
    | MoveAssign  // assignment from an rvalue: a payload, or a U by T's converting operator=
    | Dtor        // destruction
  {
    /** True of the events that bring a payload to life. */
    predicate IsConstruction() {
      Ctor? || CopyCtor? || MoveCtor?
    }
  }

  /** How an argument reaches a payload: as an lvalue (copied) or an rvalue (moved). */
  datatype Passing = Copied | Moved

  /** The constructor that runs when a payload is built from an argument passed `how`. */
  function Constructed(how: Passing): (e: Event)
    ensures e.IsConstruction() && e != Ctor
    ensures (e == CopyCtor) <==> how.Copied?
  {
    if how.Copied? then CopyCtor else MoveCtor
  }

  /** The assignment operator that runs when a payload is assigned an argument passed `how`. */
  function Assigned(how: Passing): (e: Event)
    ensures !e.IsConstruction() && e != Dtor
    ensures (e == CopyAssign) <==> how.Copied?
  {
    if how.Copied? then CopyAssign else MoveAssign
  }

  /** How one event changes the number of live payloads. */
  function Delta(e: Event): int {
    if e.IsConstruction() then 1 else if e.Dtor? then -1 else 0
  }

  /** Constructions minus destructions recorded in `log`. */
  function Balance(log: seq<Event>): int {
    if log == [] then 0 else Delta(log[0]) + Balance(log[1..])
  }

  /** The balance of a log is the sum of the balances of its parts. */
  lemma {:induction false} BalanceAppend(a: seq<Event>, b: seq<Event>)
    ensures Balance(a + b) == Balance(a) + Balance(b)
  {
    if a != [] {
      assert (a + b)[0] == a[0];
      assert (a + b)[1..] == a[1..] + b;
      BalanceAppend(a[1..], b);
    } else {
      assert a + b == b;
    }
  }

  /** Appending one event changes the balance by that event's delta. */
  lemma BalanceSnoc(log: seq<Event>, e: Event)
    ensures Balance(log + [e]) == Balance(log) + Delta(e)
  {
    BalanceAppend(log, [e]);
    assert [e][1..] == [];
  }
}
