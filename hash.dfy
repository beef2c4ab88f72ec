/**
 * The `std::hash<libOptional::Optional<T>>` specialisation
 * (include/lib-optional/optional.hpp:699-707), with `std::size_t` taken to be
 * 64 bits wide. The payload's own `std::hash<T>` is the parameter `h`.
 */
module Hashing {
  import opened Wrappers
  import Comparisons

  /** `std::size_t(-23)`, the hash of every empty container. */
  const EmptyHash: bv64 := 0xFFFF_FFFF_FFFF_FFE9

  /** The hash of a container: its payload's hash, or the sentinel when empty. */
  function Hash<T>(h: T -> bv64, x: Option<T>): bv64 {
    if x.Some? then h(x.value) else EmptyHash
  }

  /**
   * An engaged container hashes like its payload and an empty one to
   * -23 wrapped to 64 bits; a payload whose own hash is that sentinel
   * collides with the empty container.
   */
  lemma HashValues<T>(h: T -> bv64, v: T)
    ensures Hash(h, Some(v)) == h(v)
    ensures Hash(h, None) == 0 - 23
    ensures h(v) == 0 - 23 <==> Hash(h, Some(v)) == Hash(h, None)
  {
  }

  /**
   * When T's hash agrees with T's `==`, the containers' hash agrees with the
   * containers' `==`.
   */
  lemma HashRespectsEquality<T(!new)>(ops: Comparisons.Ops<T>, h: T -> bv64, x: Option<T>, y: Option<T>)
    requires forall a, b :: ops.eq(a, b) ==> h(a) == h(b)
    ensures Comparisons.Eq(ops, x, y) ==> Hash(h, x) == Hash(h, y)
  {
  }
}
