/**
 * The free comparison operators of include/lib-optional/optional.hpp:542-693.
 *
 * Each operator reads only whether its containers are engaged and their
 * payloads, so a container is represented here by its observable state, an
 * `Option<T>` (`Optional.View()`). The payload type's own operators are
 * parameters: `Ops` bundles T's `==`, `!=`, `<`, `>`, `<=` and `>=`.
 */
module Comparisons {
  import opened Wrappers

  /** The comparison operators of the payload type. */
  datatype Ops<!T> = Ops(
    eq: (T, T) -> bool,
    ne: (T, T) -> bool,
    lt: (T, T) -> bool,
    gt: (T, T) -> bool,
    le: (T, T) -> bool,
    ge: (T, T) -> bool)

  /** T's `!=`, `>`, `<=` and `>=` agree with its `==` and `<`. */
  ghost predicate Consistent<T(!new)>(ops: Ops<T>) {
    forall a, b ::
      (ops.ne(a, b) == !ops.eq(a, b)) &&
      (ops.gt(a, b) == ops.lt(b, a)) &&
      (ops.le(a, b) == !ops.lt(b, a)) &&
      (ops.ge(a, b) == !ops.lt(a, b))
  }

  /** T's `<` is a strict weak order. */
  ghost predicate StrictWeakOrder<T(!new)>(lt: (T, T) -> bool) {
    (forall a :: !lt(a, a)) &&
    (forall a, b, c :: lt(a, b) && lt(b, c) ==> lt(a, c)) &&
    (forall a, b, c :: !lt(a, b) && !lt(b, a) && !lt(b, c) && !lt(c, b) ==> !lt(a, c) && !lt(c, a))
  }

  /** T's `==` is an equivalence relation. */
  ghost predicate Equivalence<T(!new)>(eq: (T, T) -> bool) {
    (forall a :: eq(a, a)) &&
    (forall a, b :: eq(a, b) ==> eq(b, a)) &&
    (forall a, b, c :: eq(a, b) && eq(b, c) ==> eq(a, c))
  }

  /** T's `<` is a strict total order whose equivalence is T's `==`. */
  ghost predicate TotalOrder<T(!new)>(ops: Ops<T>) {
    StrictWeakOrder(ops.lt) &&
    forall a, b :: ops.eq(a, b) == (!ops.lt(a, b) && !ops.lt(b, a))
  }

  // ----- Optional<T> against Optional<T> (optional.hpp:543-571) -----

  predicate Eq<T>(ops: Ops<T>, x: Option<T>, y: Option<T>) {
    if x.Some? != y.Some? then false else if x.None? then true else ops.eq(x.value, y.value)
  }

  predicate Ne<T>(ops: Ops<T>, x: Option<T>, y: Option<T>) {
    !Eq(ops, x, y)
  }

  predicate Lt<T>(ops: Ops<T>, x: Option<T>, y: Option<T>) {
    if y.None? then false else if x.None? then true else ops.lt(x.value, y.value)
  }

  predicate Gt<T>(ops: Ops<T>, x: Option<T>, y: Option<T>) {
    Lt(ops, y, x)
  }

  predicate Le<T>(ops: Ops<T>, x: Option<T>, y: Option<T>) {
    !Lt(ops, y, x)
  }

  predicate Ge<T>(ops: Ops<T>, x: Option<T>, y: Option<T>) {
    !Lt(ops, x, y)
  }

  // ----- Optional<T> against a payload value (optional.hpp:573-632) -----

  predicate EqOptVal<T>(ops: Ops<T>, x: Option<T>, v: T) {
    if x.Some? then ops.eq(x.value, v) else false
  }

  predicate EqValOpt<T>(ops: Ops<T>, v: T, x: Option<T>) {
    if x.Some? then ops.eq(v, x.value) else false
  }

  predicate NeOptVal<T>(ops: Ops<T>, x: Option<T>, v: T) {
    if x.Some? then ops.ne(x.value, v) else true
  }

  predicate NeValOpt<T>(ops: Ops<T>, v: T, x: Option<T>) {
    if x.Some? then ops.ne(v, x.value) else true
  }

  predicate LtOptVal<T>(ops: Ops<T>, x: Option<T>, v: T) {
    if x.Some? then ops.lt(x.value, v) else true
  }

  predicate GtValOpt<T>(ops: Ops<T>, v: T, x: Option<T>) {
    if x.Some? then ops.gt(v, x.value) else true
  }

  predicate GtOptVal<T>(ops: Ops<T>, x: Option<T>, v: T) {
    if x.Some? then ops.gt(x.value, v) else false
  }

  predicate LtValOpt<T>(ops: Ops<T>, v: T, x: Option<T>) {
    if x.Some? then ops.lt(v, x.value) else false
  }

  predicate GeOptVal<T>(ops: Ops<T>, x: Option<T>, v: T) {
    if x.Some? then ops.ge(x.value, v) else false
  }

  predicate LeValOpt<T>(ops: Ops<T>, v: T, x: Option<T>) {
    if x.Some? then ops.le(v, x.value) else false
  }

  predicate LeOptVal<T>(ops: Ops<T>, x: Option<T>, v: T) {
    if x.Some? then ops.le(x.value, v) else true
  }

  predicate GeValOpt<T>(ops: Ops<T>, v: T, x: Option<T>) {
    if x.Some? then ops.ge(v, x.value) else true
  }

  // ----- Optional<T> against NullOptional (optional.hpp:635-693) -----

  predicate EqOptNull<T>(x: Option<T>) { x.None? }
  predicate EqNullOpt<T>(x: Option<T>) { x.None? }
  predicate NeOptNull<T>(x: Option<T>) { x.Some? }
  predicate NeNullOpt<T>(x: Option<T>) { x.Some? }
  predicate LtOptNull<T>(x: Option<T>) { false }
  predicate LtNullOpt<T>(x: Option<T>) { x.Some? }
  predicate LeOptNull<T>(x: Option<T>) { x.None? }
  predicate LeNullOpt<T>(x: Option<T>) { true }
  predicate GtOptNull<T>(x: Option<T>) { x.Some? }
  predicate GtNullOpt<T>(x: Option<T>) { false }
  predicate GeOptNull<T>(x: Option<T>) { true }
  predicate GeNullOpt<T>(x: Option<T>) { x.None? }

  // ----- Properties -----

  /** 0 for an empty container, 1 for an engaged one. */
  function Rank<T>(x: Option<T>): nat {
    if x.Some? then 1 else 0
  }

  /**
   * Containers are ordered lexicographically by (engaged, payload): empty
   * sorts first, two empties are equal, and two engaged containers compare
   * by their payloads.
   */
  lemma EmptySortsFirst<T>(ops: Ops<T>, x: Option<T>, y: Option<T>)
    ensures Lt(ops, x, y) <==>
      Rank(x) < Rank(y) || (x.Some? && y.Some? && ops.lt(x.value, y.value))
    ensures Eq(ops, x, y) <==>
      Rank(x) == Rank(y) && (x.Some? ==> ops.eq(x.value, y.value))
  {
  }

  /** When T's `<` is a strict weak order, so is the containers' `<`. */
  lemma LtIsStrictWeakOrder<T(!new)>(ops: Ops<T>)
    requires StrictWeakOrder(ops.lt)
    ensures StrictWeakOrder((x, y) => Lt(ops, x, y))
  {
  }

  /** When T's `==` is an equivalence, so is the containers' `==`. */
  lemma EqIsEquivalence<T(!new)>(ops: Ops<T>)
    requires Equivalence(ops.eq)
    ensures Equivalence((x, y) => Eq(ops, x, y))
  {
  }

  /**
   * When T's `<` is a total order with `==` as its equivalence, exactly one
   * of `x < y`, `x == y`, `x > y` holds, and `<=`, `>=` are `<` or `==`,
   * `>` or `==`.
   */
  lemma Trichotomy<T(!new)>(ops: Ops<T>, x: Option<T>, y: Option<T>)
    requires TotalOrder(ops)
    ensures Lt(ops, x, y) || Eq(ops, x, y) || Gt(ops, x, y)
    ensures !(Lt(ops, x, y) && Eq(ops, x, y))
    ensures !(Lt(ops, x, y) && Gt(ops, x, y))
    ensures !(Eq(ops, x, y) && Gt(ops, x, y))
    ensures Le(ops, x, y) <==> Lt(ops, x, y) || Eq(ops, x, y)
    ensures Ge(ops, x, y) <==> Gt(ops, x, y) || Eq(ops, x, y)
  {
  }

  /**
   * An empty container is unequal to every value, less than and less or
   * equal to every value, and never greater or greater or equal, in both
   * argument orders, whatever T's operators are.
   */
  lemma EmptyAgainstValue<T>(ops: Ops<T>, v: T)
    ensures !EqOptVal(ops, None, v) && !EqValOpt(ops, v, None)
    ensures NeOptVal(ops, None, v) && NeValOpt(ops, v, None)
    ensures LtOptVal(ops, None, v) && LeOptVal(ops, None, v)
    ensures !GtOptVal(ops, None, v) && !GeOptVal(ops, None, v)
    ensures GtValOpt(ops, v, None) && GeValOpt(ops, v, None)
    ensures !LtValOpt(ops, v, None) && !LeValOpt(ops, v, None)
  {
  }

  /**
   * When T's operators are consistent, comparing a container with a value
   * `v` gives the same answer as comparing it with an engaged container
   * holding `v`.
   */
  lemma ValueComparisonsAgree<T(!new)>(ops: Ops<T>, x: Option<T>, v: T)
    requires Consistent(ops)
    ensures EqOptVal(ops, x, v) == Eq(ops, x, Some(v))
    ensures EqValOpt(ops, v, x) == Eq(ops, Some(v), x)
    ensures NeOptVal(ops, x, v) == Ne(ops, x, Some(v))
    ensures NeValOpt(ops, v, x) == Ne(ops, Some(v), x)
    ensures LtOptVal(ops, x, v) == Lt(ops, x, Some(v))
    ensures LtValOpt(ops, v, x) == Lt(ops, Some(v), x)
    ensures GtOptVal(ops, x, v) == Gt(ops, x, Some(v))
    ensures GtValOpt(ops, v, x) == Gt(ops, Some(v), x)
    ensures LeOptVal(ops, x, v) == Le(ops, x, Some(v))
    ensures LeValOpt(ops, v, x) == Le(ops, Some(v), x)
    ensures GeOptVal(ops, x, v) == Ge(ops, x, Some(v))
    ensures GeValOpt(ops, v, x) == Ge(ops, Some(v), x)
  {
  }

  /**
   * `NullOptional` compares exactly like an empty container, whatever T's
   * operators are.
   */
  lemma NullIsEmpty<T>(ops: Ops<T>, x: Option<T>)
    ensures EqOptNull(x) == Eq(ops, x, None) && EqNullOpt(x) == Eq(ops, None, x)
    ensures NeOptNull(x) == Ne(ops, x, None) && NeNullOpt(x) == Ne(ops, None, x)
    ensures LtOptNull(x) == Lt(ops, x, None) && LtNullOpt(x) == Lt(ops, None, x)
    ensures LeOptNull(x) == Le(ops, x, None) && LeNullOpt(x) == Le(ops, None, x)
    ensures GtOptNull(x) == Gt(ops, x, None) && GtNullOpt(x) == Gt(ops, None, x)
    ensures GeOptNull(x) == Ge(ops, x, None) && GeNullOpt(x) == Ge(ops, None, x)
  {
  }

  /** The operators of `int`. */
  function IntOps(): (ops: Ops<int>)
    ensures TotalOrder(ops) && Consistent(ops)
  {
    Ops((a, b) => a == b, (a, b) => a != b, (a, b) => a < b,
        (a, b) => a > b, (a, b) => a <= b, (a, b) => a >= b)
  }

  /**
   * Outcomes for `int` payloads: an empty container sorts below every
   * integer. The last six groups are the comparisons of `oN` (empty), `o0`
   * and `o1` with 0 and 1 in test/main.cpp:334-374.
   */
  lemma IntExamples()
    ensures Lt(IntOps(), Some(3), Some(5)) && Lt(IntOps(), None, Some(0))
    ensures Eq(IntOps(), None, None)
    ensures EqOptVal(IntOps(), Some(3), 3) && !EqOptVal(IntOps(), Some(3), 4)
    // oN < 0, oN < 1, o0 < 0, o0 < 1, o1 < 0, o1 < 1
    ensures LtOptVal(IntOps(), None, 0) && LtOptVal(IntOps(), None, 1)
    ensures !LtOptVal(IntOps(), Some(0), 0) && LtOptVal(IntOps(), Some(0), 1)
    ensures !LtOptVal(IntOps(), Some(1), 0) && !LtOptVal(IntOps(), Some(1), 1)
    // oN >= 0, oN >= 1, o0 >= 0, o0 >= 1, o1 >= 0, o1 >= 1
    ensures !GeOptVal(IntOps(), None, 0) && !GeOptVal(IntOps(), None, 1)
    ensures GeOptVal(IntOps(), Some(0), 0) && !GeOptVal(IntOps(), Some(0), 1)
    ensures GeOptVal(IntOps(), Some(1), 0) && GeOptVal(IntOps(), Some(1), 1)
    // oN > 0, oN > 1, o0 > 0, o0 > 1, o1 > 0, o1 > 1
    ensures !GtOptVal(IntOps(), None, 0) && !GtOptVal(IntOps(), None, 1)
    ensures !GtOptVal(IntOps(), Some(0), 0) && !GtOptVal(IntOps(), Some(0), 1)
    ensures GtOptVal(IntOps(), Some(1), 0) && !GtOptVal(IntOps(), Some(1), 1)
    // oN <= 0, oN <= 1, o0 <= 0, o0 <= 1, o1 <= 0, o1 <= 1
    ensures LeOptVal(IntOps(), None, 0) && LeOptVal(IntOps(), None, 1)
    ensures LeOptVal(IntOps(), Some(0), 0) && LeOptVal(IntOps(), Some(0), 1)
    ensures !LeOptVal(IntOps(), Some(1), 0) && LeOptVal(IntOps(), Some(1), 1)
    // 0 > oN, 1 > oN, 0 > o0, 1 > o0, 0 > o1, 1 > o1
    ensures GtValOpt(IntOps(), 0, None) && GtValOpt(IntOps(), 1, None)
    ensures !GtValOpt(IntOps(), 0, Some(0)) && GtValOpt(IntOps(), 1, Some(0))
    ensures !GtValOpt(IntOps(), 0, Some(1)) && !GtValOpt(IntOps(), 1, Some(1))
    // 0 <= oN, 1 <= oN, 0 <= o0, 1 <= o0, 0 <= o1, 1 <= o1
    ensures !LeValOpt(IntOps(), 0, None) && !LeValOpt(IntOps(), 1, None)
    ensures LeValOpt(IntOps(), 0, Some(0)) && !LeValOpt(IntOps(), 1, Some(0))
    ensures LeValOpt(IntOps(), 0, Some(1)) && LeValOpt(IntOps(), 1, Some(1))
  {
  }
}
