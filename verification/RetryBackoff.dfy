/**
 * The retry delay shared by every backend, with Go's wrapping 64-bit integers
 * written out.
 */
module RetryBackoff {

  newtype int64 = x: int | -0x8000_0000_0000_0000 <= x < 0x8000_0000_0000_0000

  /** Durations are counts of nanoseconds. */
  const SECOND: int64 := 1_000_000_000
  const DEFAULT_BACKOFF_BASE: int64 := 10 * SECOND
  const DEFAULT_BACKOFF_MAX: int64 := 600 * SECOND
  const DEFAULT_CONCURRENCY: int64 := 10

  /** Two's complement truncation of an unbounded integer to 64 bits. */
  function Wrap(x: int): (r: int64)
    ensures (r as int - x) % 0x1_0000_0000_0000_0000 == 0
  {
    var m := x % 0x1_0000_0000_0000_0000;
    if m < 0x8000_0000_0000_0000 then m as int64 else (m - 0x1_0000_0000_0000_0000) as int64
  }

  function Pow2(n: nat): nat {
    if n == 0 then 1 else 2 * Pow2(n - 1)
  }

  function Min(a: int, b: int): int { if a < b then a else b }

  function ClampBase(base: int64): int64 { if base <= 0 then DEFAULT_BACKOFF_BASE else base }

  function ClampMax(base: int64, max: int64): int64 { if max < ClampBase(base) then ClampBase(base) else max }

  /**
   * The documented delay before the attempt-th retry, over unbounded integers:
   * min(base * 2^(attempt-1), max) on the clamped arguments.
   */
  function Delay(base: int64, max: int64, attempt: int): int {
    Min(ClampBase(base) as int * Pow2(if attempt < 1 then 0 else attempt - 1), ClampMax(base, max) as int)
  }

  /** b doubled k times; the proofs use it to stay within linear arithmetic. */
  ghost function Doubled(b: int, k: nat): int {
    if k == 0 then b else 2 * Doubled(b, k - 1)
  }

  lemma {:induction false} DoubledIsScaled(b: int, k: nat)
    ensures Doubled(b, k) == b * Pow2(k)
  {
    if k > 0 {
      DoubledIsScaled(b, k - 1);
    }
  }

  lemma {:induction false} DoubledMonotone(b: int, j: nat, k: nat)
    requires 0 < b && j <= k
    ensures 0 < Doubled(b, j) <= Doubled(b, k)
    decreases k
  {
    if j < k {
      DoubledMonotone(b, j, k - 1);
    } else if k > 0 {
      DoubledMonotone(b, k - 1, k - 1);
    }
  }

  lemma {:induction false} DoubledInBase(a: int, b: int, k: nat)
    requires a <= b
    ensures Doubled(a, k) <= Doubled(b, k)
  {
    if k > 0 {
      DoubledInBase(a, b, k - 1);
    }
  }

  lemma {:induction false} DoubledSplit(b: int, j: nat, k: nat)
    ensures Doubled(b, j + k) == Doubled(Doubled(b, j), k)
  {
    if k > 0 {
      DoubledSplit(b, j, k - 1);
    }
  }

  lemma Doubled7(b: int)
    ensures Doubled(b, 7) == 128 * b
  {
    assert Doubled(b, 1) == 2 * b;
    assert Doubled(b, 3) == 2 * Doubled(b, 2);
    assert Doubled(b, 5) == 2 * Doubled(b, 4);
    assert Doubled(b, 7) == 2 * Doubled(b, 6);
  }

  lemma Doubled21(b: int)
    ensures Doubled(b, 21) == 0x20_0000 * b
  {
    DoubledSplit(b, 7, 7);
    DoubledSplit(b, 14, 7);
    Doubled7(b);
    Doubled7(Doubled(b, 7));
    Doubled7(Doubled(b, 14));
  }

  lemma OneDoubled63Times()
    ensures Doubled(1, 63) == 0x8000_0000_0000_0000
  {
    DoubledSplit(1, 21, 21);
    DoubledSplit(1, 42, 21);
    Doubled21(1);
    Doubled21(Doubled(1, 21));
    Doubled21(Doubled(1, 42));
  }

  lemma FewDoublings(b: int, k: nat)
    requires 0 < b && Doubled(b, k) < 0x8000_0000_0000_0000
    ensures k <= 62
  {
    OneDoubled63Times();
    DoubledInBase(1, b, 63);
    if k >= 63 {
      DoubledMonotone(b, 63, k);
    }
  }

  /** Doubling either is exact or wraps to a negative number. */
  lemma DoublingDetectsOverflow(d: int64)
    requires 0 < d
    ensures Wrap(2 * d as int) < 0 || Wrap(2 * d as int) as int == 2 * d as int
  {
  }

  /** The formula, case by case. */
  lemma DelayCases(base: int64, max: int64, attempt: int)
    ensures 0 < base <= max && 1 <= attempt ==>
              Delay(base, max, attempt) == Min(base as int * Pow2(attempt - 1), max as int)
    ensures 0 < base && max < base ==> Delay(base, max, attempt) == base as int
    ensures base <= 0 && DEFAULT_BACKOFF_BASE <= max && 1 <= attempt ==>
              Delay(base, max, attempt) == Min(DEFAULT_BACKOFF_BASE as int * Pow2(attempt - 1), max as int)
    ensures base <= 0 && max < DEFAULT_BACKOFF_BASE ==> Delay(base, max, attempt) == DEFAULT_BACKOFF_BASE as int
    ensures attempt < 1 ==> Delay(base, max, attempt) == if base <= 0 then DEFAULT_BACKOFF_BASE as int else base as int
  {
    var k := if attempt < 1 then 0 else attempt - 1;
    DoubledIsScaled(ClampBase(base) as int, k);
    DoubledMonotone(ClampBase(base) as int, 0, k);
  }

  /** The wrapping loop on clamped arguments; it doubles at most 63 times however large the attempt is. */
  method DoubleUpTo(b: int64, m: int64, n: int64) returns (d: int64, ghost doublings: nat)
    requires 0 < b <= m && 1 <= n
    ensures d as int == Min(Doubled(b as int, n as nat - 1), m as int)
    ensures doublings <= 63
  {
    d := b;
    doublings := 0;
    var i: int64 := 1;
    while i < n
      invariant 1 <= i <= n
      invariant 0 < d <= m
      invariant d as int == Doubled(b as int, i as int - 1)
      invariant i > 1 ==> d < m
      invariant doublings == i as nat - 1 <= 62
    {
      DoublingDetectsOverflow(d);
      DoubledMonotone(b as int, i as nat, n as nat - 1);
      d := Wrap(2 * d as int);
      doublings := doublings + 1;
      if d >= m || d < 0 { // d < 0 guards overflow
        return m, doublings;
      }
      FewDoublings(b as int, i as nat);
      i := i + 1;
    }
    if d > m {
      return m, doublings;
    }
  }

  /**
   * The delay before a retry is the exact formula for every argument: a base of at
   * most 0 is the default, a cap below the base is the base, and an attempt below 1
   * is 1.
   */
  method Compute(base: int64, max: int64, attempt: int64) returns (d: int64, ghost doublings: nat)
    ensures d as int == Delay(base, max, attempt as int)
    ensures 0 < base <= max && 1 <= attempt ==> d as int == Min(base as int * Pow2(attempt as nat - 1), max as int)
    ensures 0 < base && max < base ==> d == base
    ensures base <= 0 && DEFAULT_BACKOFF_BASE <= max && 1 <= attempt ==>
              d as int == Min(DEFAULT_BACKOFF_BASE as int * Pow2(attempt as nat - 1), max as int)
    ensures base <= 0 && max < DEFAULT_BACKOFF_BASE ==> d == DEFAULT_BACKOFF_BASE
    ensures attempt < 1 ==> d == if base <= 0 then DEFAULT_BACKOFF_BASE else base
    ensures doublings <= 63
  {
    var b := base;
    if b <= 0 {
      b := DEFAULT_BACKOFF_BASE;
    }
    var m := max;
    if m < b {
      m := b;
    }
    var n := attempt;
    if n < 1 {
      n := 1;
    }
    d, doublings := DoubleUpTo(b, m, n);
    DoubledIsScaled(b as int, n as nat - 1);
    DelayCases(base, max, attempt as int);
  }

  /** Later retries never wait less, and every wait lies between base and max. */
  lemma DelayMonotone(base: int64, max: int64, a: int, b: int)
    requires a <= b
    ensures ClampBase(base) as int <= Delay(base, max, a) <= Delay(base, max, b) <= ClampMax(base, max) as int
  {
    var m, n := if a < 1 then 0 else a - 1, if b < 1 then 0 else b - 1;
    DoubledIsScaled(ClampBase(base) as int, m);
    DoubledIsScaled(ClampBase(base) as int, n);
    DoubledMonotone(ClampBase(base) as int, 0, m);
    DoubledMonotone(ClampBase(base) as int, m, n);
  }

  /** Each retry doubles the wait until the cap is reached, and stays there. */
  lemma DelayDoubles(base: int64, max: int64, attempt: nat)
    requires 1 <= attempt
    ensures Delay(base, max, 1) == ClampBase(base) as int
    ensures Delay(base, max, attempt + 1) == Min(2 * Delay(base, max, attempt), ClampMax(base, max) as int)
  {
  }

  /** ConsumeOptions with the fields the backends read. */
  datatype ConsumeOptions = ConsumeOptions(concurrency: int64, backoffBase: int64, backoffMax: int64)

  datatype ConsumeOption =
    | WithConcurrency(n: int64)
    | WithRetryBackoff(base: int64, max: int64)

  /** Among the options before end, option i is the last of its kind. */
  predicate IsLastBackoff(opts: seq<ConsumeOption>, i: int, end: int) {
    && 0 <= i < end <= |opts| && opts[i].WithRetryBackoff?
    && forall j :: i < j < end ==> !opts[j].WithRetryBackoff?
  }

  predicate IsLastConcurrency(opts: seq<ConsumeOption>, i: int, end: int) {
    && 0 <= i < end <= |opts| && opts[i].WithConcurrency?
    && forall j :: i < j < end ==> !opts[j].WithConcurrency?
  }

  /**
   * Options apply in order, so the last of each kind wins, and a kind that is not
   * given has its default; afterwards at least one worker runs and
   * 0 < backoffBase <= backoffMax. The clamps agree with those of Compute:
   * resolving the options first changes no delay.
   */
  method NewConsumeOptions(opts: seq<ConsumeOption>) returns (o: ConsumeOptions)
    ensures forall i :: IsLastConcurrency(opts, i, |opts|) ==> o.concurrency == if opts[i].n < 1 then 1 else opts[i].n
    ensures (forall i :: 0 <= i < |opts| ==> !opts[i].WithConcurrency?) ==> o.concurrency == 10
    ensures forall i :: IsLastBackoff(opts, i, |opts|) ==>
              && o.backoffBase == (if opts[i].base <= 0 then DEFAULT_BACKOFF_BASE else opts[i].base)
              && o.backoffMax == (if opts[i].max < o.backoffBase then o.backoffBase else opts[i].max)
    ensures (forall i :: 0 <= i < |opts| ==> !opts[i].WithRetryBackoff?) ==>
              o.backoffBase == 10_000_000_000 && o.backoffMax == 600_000_000_000
    ensures o.concurrency >= 1 && 0 < o.backoffBase <= o.backoffMax
    ensures forall i, n :: IsLastBackoff(opts, i, |opts|) ==>
              Delay(o.backoffBase, o.backoffMax, n) == Delay(opts[i].base, opts[i].max, n)
  {
    o := ConsumeOptions(DEFAULT_CONCURRENCY, DEFAULT_BACKOFF_BASE, DEFAULT_BACKOFF_MAX);
    var i := 0;
    while i < |opts|
      invariant 0 <= i <= |opts|
      invariant forall k :: IsLastConcurrency(opts, k, i) ==> o.concurrency == opts[k].n
      invariant (forall k :: 0 <= k < i ==> !opts[k].WithConcurrency?) ==> o.concurrency == DEFAULT_CONCURRENCY
      invariant forall k :: IsLastBackoff(opts, k, i) ==> o.backoffBase == opts[k].base && o.backoffMax == opts[k].max
      invariant (forall k :: 0 <= k < i ==> !opts[k].WithRetryBackoff?) ==>
                  o.backoffBase == DEFAULT_BACKOFF_BASE && o.backoffMax == DEFAULT_BACKOFF_MAX
    {
      assert forall k :: k != i && IsLastConcurrency(opts, k, i + 1) ==> IsLastConcurrency(opts, k, i);
      assert forall k :: k != i && IsLastBackoff(opts, k, i + 1) ==> IsLastBackoff(opts, k, i);
      match opts[i] {
        case WithConcurrency(n) => o := o.(concurrency := n);
        case WithRetryBackoff(b, m) => o := o.(backoffBase := b, backoffMax := m);
      }
      i := i + 1;
    }
    if o.concurrency < 1 {
      o := o.(concurrency := 1);
    }
    if o.backoffBase <= 0 {
      o := o.(backoffBase := DEFAULT_BACKOFF_BASE);
    }
    if o.backoffMax < o.backoffBase {
      o := o.(backoffMax := o.backoffBase);
    }
  }
}
