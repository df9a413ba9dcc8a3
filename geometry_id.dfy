/**
 * The geometry identifier of the engine: a `u64` newtype with a derived
 * default and structural equality, and the successor operation `next` that
 * the identifier pool uses to mint fresh identifiers.
 */
module GeometryIds {

  /** The largest value of Rust's `u64`. */
  const U64_MAX: int := 0xFFFF_FFFF_FFFF_FFFF

  /** Rust's `u64`: integers in [0, 2^64 - 1]. */
  newtype U64 = x: int | 0 <= x <= U64_MAX

  /** `GeometryId(pub u64)`; equality is Dafny's structural equality. */
  datatype GeometryId = GeometryId(value: U64)

  /** The derived `Default`: the identifier wrapping 0. */
  function Default(): (d: GeometryId)
    ensures d.value == 0
  {
    GeometryId(0)
  }

  /** Derived equality: two identifiers are equal exactly when their integers are. */
  lemma EqualIffSameValue(a: GeometryId, b: GeometryId)
    ensures a == b <==> a.value == b.value
  {
  }

  /**
   * `PoolId::next`: the identifier one above the input. Defined only below
   * `u64::MAX`, where `self.0 + 1` does not overflow.
   */
  function Next(id: GeometryId): (r: GeometryId)
    requires id.value as int < U64_MAX
    ensures r.value as int == id.value as int + 1
    ensures id.value < r.value && r != id
  {
    GeometryId(id.value + 1)
  }

  /** `next` is injective: distinct identifiers have distinct successors. */
  lemma NextInjective(a: GeometryId, b: GeometryId)
    requires a.value as int < U64_MAX && b.value as int < U64_MAX
    ensures Next(a) == Next(b) <==> a == b
  {
  }

  /** `next` is strictly monotone: it preserves and reflects the order of identifiers. */
  lemma NextMonotone(a: GeometryId, b: GeometryId)
    requires a.value as int < U64_MAX && b.value as int < U64_MAX
    ensures a.value < b.value <==> Next(a).value < Next(b).value
  {
  }

  /** Outcome of `self.0 + 1` in a debug build: a value, or a panic on overflow. */
  datatype DebugOutcome = Returned(id: GeometryId) | OverflowPanic

  /** `next` as a debug build runs it: the addition panics at `u64::MAX`. */
  function NextDebug(id: GeometryId): (o: DebugOutcome)
    ensures o.OverflowPanic? <==> id.value as int == U64_MAX
    ensures o.Returned? ==> id.value as int < U64_MAX && o.id == Next(id)
  {
    if id.value as int == U64_MAX then OverflowPanic else Returned(GeometryId(id.value + 1))
  }

  /**
   * `next` as a release build runs it: the addition wraps modulo 2^64, so at
   * `u64::MAX` the successor is the default identifier, below its input.
   */
  function NextRelease(id: GeometryId): (r: GeometryId)
    ensures id.value as int < U64_MAX ==> r == Next(id)
    ensures id.value as int == U64_MAX ==> r == Default() && r.value < id.value
  {
    GeometryId(((id.value as int + 1) % (U64_MAX + 1)) as U64)
  }

  /** `next` applied `k` times to `id`; every step stays below the overflow boundary. */
  function Iterate(id: GeometryId, k: nat): (r: GeometryId)
    requires id.value as int + k <= U64_MAX
    ensures r.value as int == id.value as int + k
    decreases k
  {
    if k == 0 then id else Next(Iterate(id, k - 1))
  }

  /** Applying `next` k times to the default identifier yields `GeometryId(k)`. */
  lemma IterateFromDefault(k: nat)
    requires k <= U64_MAX
    ensures Iterate(Default(), k) == GeometryId(k as U64)
  {
  }

  /**
   * The identifiers `id, next(id), next(next(id)), ...`, `n` of them: what
   * `n` successive allocations starting at `id` hand out.
   */
  function Chain(id: GeometryId, n: nat): (c: seq<GeometryId>)
    requires n == 0 || id.value as int + n - 1 <= U64_MAX
    ensures |c| == n
    ensures forall i :: 0 <= i < n ==> c[i].value as int == id.value as int + i
    decreases n
  {
    if n == 0 then []
    else if n == 1 then [id]
    else [id] + Chain(Next(id), n - 1)
  }

  /** The i-th element of a chain is `next` applied i times to its start. */
  lemma ChainAt(id: GeometryId, n: nat, i: nat)
    requires n == 0 || id.value as int + n - 1 <= U64_MAX
    requires i < n
    ensures Chain(id, n)[i] == Iterate(id, i)
  {
  }

  /** A chain is strictly increasing in order. */
  lemma ChainStrictlyIncreasing(id: GeometryId, n: nat)
    requires n == 0 || id.value as int + n - 1 <= U64_MAX
    ensures forall i, j :: 0 <= i < j < n ==> Chain(id, n)[i].value < Chain(id, n)[j].value
  {
  }

  /** A chain is pairwise distinct: no identifier is handed out twice. */
  lemma ChainDistinct(id: GeometryId, n: nat)
    requires n == 0 || id.value as int + n - 1 <= U64_MAX
    ensures forall i, j :: 0 <= i < n && 0 <= j < n && i != j ==> Chain(id, n)[i] != Chain(id, n)[j]
  {
  }

  /** The chain from the default identifier is `GeometryId(0), ..., GeometryId(n - 1)`. */
  lemma ChainFromDefault(n: nat)
    requires n <= U64_MAX + 1
    ensures forall i :: 0 <= i < n ==> Chain(Default(), n)[i] == GeometryId(i as U64)
  {
  }

  /**
   * Allocating `m` identifiers and then `n` more from where the first run
   * stopped hands out exactly the chain of `m + n`.
   */
  lemma ChainSplit(id: GeometryId, m: nat, n: nat)
    requires id.value as int + m <= U64_MAX
    requires id.value as int + m + n <= U64_MAX + 1
    ensures Chain(id, m + n) == Chain(id, m) + Chain(Iterate(id, m), n)
  {
  }

  /**
   * The identifier reached after a chain is above every identifier in the
   * chain, so it is fresh: it was not handed out before.
   */
  lemma ChainThenFresh(id: GeometryId, n: nat)
    requires id.value as int + n <= U64_MAX
    ensures forall i :: 0 <= i < n ==> Chain(id, n)[i].value < Iterate(id, n).value
    ensures Iterate(id, n) !in Chain(id, n)
  {
  }
}
