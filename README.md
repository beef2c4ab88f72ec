# lib-optional in Dafny

A model of `libOptional::Optional<T>`, the C++ container that holds either nothing or exactly one payload of type `T`, with its constructors, assignments, modifiers, observers, free comparison operators and `std::hash`/`std::swap` specialisations (`include/lib-optional/optional.hpp`).

- `wrappers.dfy` (module `Wrappers`): `Option` and `Result`.
- `events.dfy` (module `Events`): the payload special members the test fixture `Aware` records (construct, copy/move construct, copy/move assign, destroy), and `Balance`, the number of constructions minus destructions in a log of them.
- `optional.dfy` (module `LibOptional`): the class `Optional<T>`. Its fields are the flag `initialized` (`mInitialized`) and the slot `slot` (`mValue`). Each container also has a ghost `log` of the special members run on its slot, and a ghost count `released` of payloads it gave up by a move without destroying them. The invariant `Valid()` says two things. The flag is set exactly when the slot holds a payload. And `Balance(log) == released + (1 if engaged)`. Every constructor, assignment, `emplace`, `swap` and `reset` states the new state of every container it touches and the exact events appended to each log.
- `comparisons.dfy` (module `Comparisons`): the 30 free comparison operators as predicates over a container's observable state (`Option<T>`, see `Optional.View`), parameterised by T's own `==`, `!=`, `<`, `>`, `<=`, `>=` (`Ops<T>`). The operators are plain predicates named after the operator and its argument kinds: `Eq`, `Lt`, … for two containers; `EqOptVal`, `LtValOpt`, … against a value; `EqOptNull`, `LtNullOpt`, … against `NullOptional`. The lemmas below state what they mean.
- `hash.dfy` (module `Hashing`): the `std::hash` specialisation, with `std::size_t` taken to be 64 bits wide and T's hash a parameter.
- `references.dfy` (module `References`): `Optional<U&>`. The C++ template stores a `std::reference_wrapper`, a rebindable handle. The model is the same class holding a `Cell` reference (`Optional<Cell>`), so "rebind, do not write through" becomes a frame condition. A write through `*ov` writes the referent (`WriteReferent`), not the slot, so `AssignThroughRef` is not the reference form. The free operators of `Optional<int&>` compare referent values; `Referent` gives that int view of the container, to which the container-against-container and `NullOptional` predicates of `Comparisons` apply with `IntOps()`.
- `scenarios.dfy` (module `Scenarios`): whole-container behaviours that `test/main.cpp` pins down, stated for every payload type.

Two behaviours of the code are not what a reader of the interface would expect. The model follows the code:
- Moves (the move constructor and both move assignments) clear the source's flag without running the destructor of its moved-from payload (`optional.hpp:174, 312, 316, 372`). So construction and destruction pair up exactly only for a container that was never moved from while engaged. `reset` and `swap` do destroy (`optional.hpp:409, 412, 418-419`).
- Self move-assignment of an engaged container is not guarded. It move-assigns the payload to itself and then clears the flag, so the container ends empty (`optional.hpp:310-312`).

## Model

| member | source | states |
|---|---|---|
| Events.BalanceAppend | test/main.cpp:39-70 | the lifetime balance of a concatenation of event logs is the sum of their balances |
| Events.BalanceSnoc | test/main.cpp:39-70 | recording one more special member changes the balance by +1 for a constructor, -1 for the destructor, 0 for an assignment |
| LibOptional.Optional.constructor | include/lib-optional/optional.hpp:149-151 | the default constructor yields an empty container and runs no payload member |
| LibOptional.Optional.FromNull | include/lib-optional/optional.hpp:153 | construction from `NullOptional` yields an empty container and runs no payload member |
| LibOptional.Optional.Copy | include/lib-optional/optional.hpp:158-164 | the copy holds the source's payload, if any, by exactly one copy-construct; the source is untouched |
| LibOptional.Optional.Move | include/lib-optional/optional.hpp:169-176 | the target gets the source's payload, if any, by one move-construct; the source ends empty and its payload is released without a destructor |
| LibOptional.Optional.ConvertCopy | include/lib-optional/optional.hpp:182-206 | the target is engaged iff the source is, holding the conversion of its payload, built by one copy-flavoured construction |
| LibOptional.Optional.ConvertMove | include/lib-optional/optional.hpp:212-237 | as the converting copy, by one move-construct, and the source stays engaged |
| LibOptional.Optional.InPlace | include/lib-optional/optional.hpp:240-245 | in-place construction holds the value T's constructor builds, with exactly one constructor run |
| LibOptional.Optional.FromValue | include/lib-optional/optional.hpp:257-274 | construction from a payload holds it, by one copy- or move-construct as the argument is an lvalue or an rvalue |
| LibOptional.Optional.Destroy | include/lib-optional/optional.hpp:277-281 | the destructor destroys the payload of an engaged container exactly once; afterwards every payload built in the slot has been destroyed except those released by moves |
| LibOptional.Optional.AssignNull | include/lib-optional/optional.hpp:284-287 | assigning `NullOptional` ends empty, destroying the payload exactly once if there was one |
| LibOptional.Optional.AssignCopy | include/lib-optional/optional.hpp:289-304 | both engaged: one copy-assign; only the source engaged: one copy-construct; source empty: reset; the target ends with the source's state and the source is unchanged |
| LibOptional.Optional.AssignMove | include/lib-optional/optional.hpp:306-322 | both engaged: one move-assign; only the source engaged: one move-construct; source empty: reset; the source always ends empty, an engaged one's payload released; self move-assign empties |
| LibOptional.Optional.AssignValue | include/lib-optional/optional.hpp:324-338 | raw-value assignment assigns in place when engaged and constructs when empty, and ends engaged with that value |
| LibOptional.Optional.AssignConvertedCopy | include/lib-optional/optional.hpp:340-357 | the four cases of the copy assignment with the converted payload; the source is unchanged |
| LibOptional.Optional.AssignConvertedMove | include/lib-optional/optional.hpp:359-378 | the four cases of the move assignment with the converted payload; the source ends empty |
| LibOptional.Optional.AssignThroughRef | include/lib-optional/optional.hpp:445-448 | `*x = v` (and `x.value() = v`) on an engaged container runs one copy- or move-assign on the live payload; the container stays engaged and holds the new value |
| LibOptional.Optional.Emplace | include/lib-optional/optional.hpp:381-388 | `emplace` destroys any old payload, then constructs the new one, ends engaged holding it and returns it |
| LibOptional.Optional.Swap | include/lib-optional/optional.hpp:402-414 | engagement and payloads are exchanged in all four cases, with the events each slot sees; nothing is released |
| LibOptional.Optional.Reset | include/lib-optional/optional.hpp:416-421 | `reset` ends empty, destroys an engaged payload exactly once, and changes nothing on an empty container |
| LibOptional.Optional.Construct | include/lib-optional/optional.hpp:524-528 | placement construction fills the empty slot with the payload and sets the flag, with one constructor run |
| LibOptional.Optional.ClearMovedFrom | include/lib-optional/optional.hpp:172-175 | clearing a moved-from container's flag empties it and releases its payload, with no destructor run |
| LibOptional.Optional.HasValue | include/lib-optional/optional.hpp:424-428 | `operator bool` and `hasValue()` report whether the slot holds a payload |
| LibOptional.Optional.IsEmpty | include/lib-optional/optional.hpp:426 | `operator!` reports whether the slot is empty |
| LibOptional.Optional.Deref | include/lib-optional/optional.hpp:430-455 | unchecked access, allowed only on an engaged container, yields the payload |
| LibOptional.Optional.Value | include/lib-optional/optional.hpp:457-495 | `value()` raises BadOptionalAccess exactly when the container is empty and otherwise yields the payload |
| LibOptional.Optional.ValueOr | include/lib-optional/optional.hpp:497-521 | `valueOr(f)` yields the payload when engaged and `f` otherwise |
| LibOptional.Optional.View | include/lib-optional/optional.hpp:531-536 | the observable state is engaged exactly when the flag is set, and then holds what `value()` yields |
| LibOptional.StdSwap | include/lib-optional/optional.hpp:709-712 | `std::swap` of two containers exchanges their engagement and payloads |
| LibOptional.SwapEvents | include/lib-optional/optional.hpp:404-413 | the special members a slot sees in a swap change its balance by exactly the change in its engagement |
| Comparisons.Eq | include/lib-optional/optional.hpp:543-546 | false when exactly one side is engaged, true when both are empty, otherwise T's `==` on the payloads |
| Comparisons.Ne | include/lib-optional/optional.hpp:548-551 | the negation of the containers' `==` |
| Comparisons.Lt | include/lib-optional/optional.hpp:553-556 | false when y is empty, true when only y is engaged, otherwise T's `<` on the payloads |
| Comparisons.Gt | include/lib-optional/optional.hpp:558-561 | `x > y` is `y < x` |
| Comparisons.Le | include/lib-optional/optional.hpp:563-566 | `x <= y` is not `y < x` |
| Comparisons.Ge | include/lib-optional/optional.hpp:568-571 | `x >= y` is not `x < y` |
| Comparisons.EqOptVal | include/lib-optional/optional.hpp:574-577 | `x == v`: T's `==` on the payload when engaged, false when empty |
| Comparisons.EqValOpt | include/lib-optional/optional.hpp:579-582 | `v == x`: T's `==` with the payload when engaged, false when empty |
| Comparisons.NeOptVal | include/lib-optional/optional.hpp:584-587 | `x != v`: T's `!=` on the payload when engaged, true when empty |
| Comparisons.NeValOpt | include/lib-optional/optional.hpp:589-592 | `v != x`: T's `!=` with the payload when engaged, true when empty |
| Comparisons.LtOptVal | include/lib-optional/optional.hpp:594-597 | `x < v`: T's `<` on the payload when engaged, true when empty |
| Comparisons.GtValOpt | include/lib-optional/optional.hpp:599-602 | `v > x`: T's `>` with the payload when engaged, true when empty |
| Comparisons.GtOptVal | include/lib-optional/optional.hpp:604-607 | `x > v`: T's `>` on the payload when engaged, false when empty |
| Comparisons.LtValOpt | include/lib-optional/optional.hpp:609-612 | `v < x`: T's `<` with the payload when engaged, false when empty |
| Comparisons.GeOptVal | include/lib-optional/optional.hpp:614-617 | `x >= v`: T's `>=` on the payload when engaged, false when empty |
| Comparisons.LeValOpt | include/lib-optional/optional.hpp:619-622 | `v <= x`: T's `<=` with the payload when engaged, false when empty |
| Comparisons.LeOptVal | include/lib-optional/optional.hpp:624-627 | `x <= v`: T's `<=` on the payload when engaged, true when empty |
| Comparisons.GeValOpt | include/lib-optional/optional.hpp:629-632 | `v >= x`: T's `>=` with the payload when engaged, true when empty |
| Comparisons.EqOptNull | include/lib-optional/optional.hpp:635-638 | `x == NullOptional` holds exactly when x is empty |
| Comparisons.EqNullOpt | include/lib-optional/optional.hpp:640-643 | `NullOptional == x` holds exactly when x is empty |
| Comparisons.NeOptNull | include/lib-optional/optional.hpp:645-648 | `x != NullOptional` holds exactly when x is engaged |
| Comparisons.NeNullOpt | include/lib-optional/optional.hpp:650-653 | `NullOptional != x` holds exactly when x is engaged |
| Comparisons.LtOptNull | include/lib-optional/optional.hpp:655-658 | `x < NullOptional` never holds |
| Comparisons.LtNullOpt | include/lib-optional/optional.hpp:660-663 | `NullOptional < x` holds exactly when x is engaged |
| Comparisons.LeOptNull | include/lib-optional/optional.hpp:665-668 | `x <= NullOptional` holds exactly when x is empty |
| Comparisons.LeNullOpt | include/lib-optional/optional.hpp:670-673 | `NullOptional <= x` always holds |
| Comparisons.GtOptNull | include/lib-optional/optional.hpp:675-678 | `x > NullOptional` holds exactly when x is engaged |
| Comparisons.GtNullOpt | include/lib-optional/optional.hpp:680-683 | `NullOptional > x` never holds |
| Comparisons.GeOptNull | include/lib-optional/optional.hpp:685-688 | `x >= NullOptional` always holds |
| Comparisons.GeNullOpt | include/lib-optional/optional.hpp:690-693 | `NullOptional >= x` holds exactly when x is empty |
| Comparisons.EmptySortsFirst | include/lib-optional/optional.hpp:543-556 | containers are ordered lexicographically by (engaged, payload): empty sorts first, two empties are equal, engaged ones compare payloads |
| Comparisons.LtIsStrictWeakOrder | include/lib-optional/optional.hpp:553-556 | if T's `<` is a strict weak order, so is the containers' `<` |
| Comparisons.EqIsEquivalence | include/lib-optional/optional.hpp:543-546 | if T's `==` is an equivalence, so is the containers' `==` |
| Comparisons.Trichotomy | include/lib-optional/optional.hpp:543-571 | for a totally ordered T exactly one of `<`, `==`, `>` holds between containers, and `<=`, `>=` are `<` or `==`, `>` or `==` |
| Comparisons.EmptyAgainstValue | include/lib-optional/optional.hpp:573-632 | an empty container is unequal to every value, `<` and `<=` every value, never `>` or `>=` one, in both argument orders |
| Comparisons.ValueComparisonsAgree | include/lib-optional/optional.hpp:573-632 | with consistent operators on T, each of the 12 container-against-value operators equals comparing with an engaged container holding the value |
| Comparisons.NullIsEmpty | include/lib-optional/optional.hpp:634-693 | each of the 12 operators against `NullOptional` equals comparing with an empty container, whatever T's operators |
| Comparisons.IntOps | test/main.cpp:329-375 | `int`'s operators are a consistent total order |
| Comparisons.IntExamples | test/main.cpp:329-375 | all 36 outcomes of the tests' comparisons of an empty, a 0 and a 1 container with 0 and 1, plus a few more `int` outcomes, including that an empty container is below 0 |
| Hashing.Hash | include/lib-optional/optional.hpp:704-706 | the hash of an engaged container is T's hash of its payload, and of an empty one the sentinel `size_t(-23)` |
| Hashing.HashValues | include/lib-optional/optional.hpp:704-706 | an engaged container hashes like its payload, an empty one to `size_t(-23)`; a payload hashing to the sentinel collides with empty |
| Hashing.HashRespectsEquality | include/lib-optional/optional.hpp:704-706 | if T's hash agrees with T's `==`, equal containers hash equally |
| References.Rebind | include/lib-optional/optional.hpp:331-336 | assigning an object to an `Optional<int&>`, engaged or not, makes it refer to that object and writes into no object |
| References.WriteReferent | include/lib-optional/optional.hpp:481-487 | a later write to the referenced object is seen through `*` and `value()` without reassigning |
| References.Referent | include/lib-optional/optional.hpp:543-556 | the operators of an `Optional<int&>` compare `*x`, the referent's current value: engaged exactly when the container is, and then the value read through `*` |
| References.WriteThroughValueOr | include/lib-optional/optional.hpp:506-512 | `valueOr` on a reference container yields the selected object itself, so a write through it changes that object only |
| References.ReferenceScenario | test/main.cpp:377-393 | an `Optional<int&>` bound by assignment or by construction reads 1 from its referent, and 3 after the referent is set to 3 |
| References.ReferenceComparisons | include/lib-optional/optional.hpp:543-571 | comparisons of two `Optional<int&>` containers see a write to a referent: bound to two objects holding 1 they are `==`; after the first is set to 3 they are `>` and no longer `==` |
| Scenarios.AssignThroughDeref | include/lib-optional/optional.hpp:445-448 | `*x = w` on an engaged container leaves it engaged and holding `w` |
| Scenarios.ConstructedHoldsValue | test/main.cpp:306-309 | a container built from a value yields that value from `value()` |
| Scenarios.EmptyRaises | test/main.cpp:311-314 | `value()` raises on a default-constructed and on a `NullOptional`-constructed container |
| Scenarios.CopyKeepsSource | test/main.cpp:104-118 | after copy construction both source and copy hold the value |
| Scenarios.MoveEmptiesSource | test/main.cpp:120-132 | after move construction the target holds the value and the source is empty |
| Scenarios.ConvertingMoveKeepsSource | test/main.cpp:204-210 | after converting move construction the source is still engaged and the target holds the converted value |
| Scenarios.SelfMoveAssignEmpties | include/lib-optional/optional.hpp:310-312 | `x = std::move(x)` on an engaged container leaves it empty |
| Scenarios.SwapExchanges | test/main.cpp:288-297 | `std::swap` of two engaged containers exchanges their payloads |
| Scenarios.SwapTwice | include/lib-optional/optional.hpp:402-414 | swapping twice restores both containers |
| Scenarios.ResetTwice | include/lib-optional/optional.hpp:416-421 | `reset` is idempotent: a second call destroys nothing more |
| Scenarios.ValueOrFallback | test/main.cpp:322-327 | `valueOr(3)` gives 5 on `Optional<int>(5)` and 3 after assigning `NullOptional` |
| Scenarios.HasValueAfterAssignment | test/main.cpp:299-304 | `hasValue()` is false on a default container and true after `v = 1`, which for a scalar payload goes through a temporary container and the move assignment |
| Scenarios.MoveThenDestroyBoth | include/lib-optional/optional.hpp:169-176 | moving an engaged container and destroying both runs two constructors but one destructor |

## Left out

- Compile-time overload selection (`enable_if` gating, `static_assert`s, the copyable/movable base classes, explicit versus implicit constructors, `noexcept`): these are type-level rules with no run-time behaviour. One of them appears as a precondition: the converting assignments require a source distinct from the target, because the source's payload type differs from T.
- `emplace` is disabled for reference payloads at compile time. The generic `Emplace` does not exclude `Optional<Cell>`.
- AssignThroughRef models value payloads only. On `Optional<Cell>` it would rebind the handle, whereas `*ov = x` on an `Optional<int&>` writes the referent; that write is `WriteReferent`.
- The 12 container-against-value operators cannot be called on `Optional<U&>`: their template deduces `T` as `U&` from the container and as `U` from the value. For reference containers only the container-against-container and `NullOptional` operators apply, through `Referent`.
- Placement new and the union: the slot is an `Option<T>` field rather than raw memory. The private `construct` must not run placement new over a live payload, so `Construct` requires an empty slot, which every caller ensures. The debug `assert` that `operator*` and `operator->` make on the flag is `Deref`'s precondition that the container is engaged.
- The initializer-list overloads of in-place construction and `emplace`: they behave as the variadic forms.
- Constructor arguments, conversions, T's comparison operators and T's hash are foreign code. The value T's constructor builds from in-place arguments is a parameter `v`. A conversion from U to T is a function parameter `conv`. T's operators are `Ops<T>`, and T's hash is `h`.
- Construction from a value of a type other than T (`Optional<Aware>(state)`) runs a converting constructor. It is modelled by `InPlace`.
- Assignment of a raw value of a type other than T is not modelled: `AssignValue` takes a T.
- Emplace: `emplace` with a T argument runs T's copy or move constructor, but the model always logs the constructor from arguments (`Ctor`). The balance is the same either way.
- The converting constructors and assignments run T's converting constructor or converting `operator=` from a U. The model logs them as the copy or move form of the same kind (`CopyCtor`, `MoveCtor`, `CopyAssign`, `MoveAssign`). The one function `conv` stands for both T's converting construction and T's converting assignment. So when both containers are engaged, `AssignConvertedCopy` and `AssignConvertedMove` assume the assignment leaves the same value that the construction would build.
- The payload exchange in `swap` when both containers are engaged is modelled as the generic `std::swap`: its two move-assignments act on the slots, and its temporary's construction and destruction are not logged. A swap for T found by argument-dependent lookup is not modelled.
- Converting moves from `Optional<U>&&`: the model treats the payload handed over as the conversion of the source's value. The moved-from state of the source's payload belongs to U and is not modelled; the converting move constructor leaves the source's value as it was.
- Exceptions thrown by payload special members, and the resulting state of `emplace`: not modelled.
- `Deref`, `Value`, `ValueOr` and `Emplace` return the payload by value rather than a reference into the slot. A write through the writable reference that the non-const `operator*`, `operator->`, `value()` and `emplace` return is modelled separately by `AssignThroughRef`, as one assignment to the payload. Writes into a member of the payload (through `operator->`) run no special member of T and are not modelled; `AssignThroughRef` is `*x = v` / `x.value() = v` only. The rvalue-qualified overloads only add a `std::move` of the result.
- `BadOptionalAccess::what()`'s fixed message is not modelled.
- `std::size_t` is taken to be 64 bits wide, so the empty sentinel is 2^64 - 23.
- The end of a container's scope is an explicit call of `Destroy`.
- `test/main.cpp` is a gtest harness. Its assertions appear only as the scenarios and examples above.
