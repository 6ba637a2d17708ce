/** Retry policy of a job: how many attempts it gets and how long to wait between
    them (internal/retry/retry.go). Durations are nanoseconds; the float64 arithmetic
    of the source is modelled over the reals. */
module Retry {
  import opened Prelude

  const DEFAULT_MAX_ATTEMPTS := 3
  const DEFAULT_INITIAL := 1_000_000_000.0
  const DEFAULT_MAX := 30_000_000_000.0
  const DEFAULT_MULTIPLIER := 2.0
  const DEFAULT_JITTER := 0.2

  /** A protobuf int32 field. */
  type Int32 = x: int | -0x8000_0000 <= x <= 0x7fff_ffff

  datatype Policy = Policy(maxAttempts: Int32, initial: int, max: int, multiplier: real, jitter: real)

  function MaxAttempts(p: Option<Policy>): (n: int)
    ensures 1 <= n <= 0x7fff_ffff
  {
    if p.None? || p.value.maxAttempts <= 0 then DEFAULT_MAX_ATTEMPTS else p.value.maxAttempts
  }

  /** The parameters a backoff uses once absent and non-positive fields have their defaults. */
  datatype Effective = Effective(initial: real, max: real, multiplier: real, jitter: real)

  function Resolve(p: Option<Policy>): (e: Effective)
    ensures 0.0 < e.initial && 0.0 < e.max && 0.0 < e.multiplier && 0.0 < e.jitter
  {
    if p.None? then
      Effective(DEFAULT_INITIAL, DEFAULT_MAX, DEFAULT_MULTIPLIER, DEFAULT_JITTER)
    else
      Effective(
        if p.value.initial > 0 then p.value.initial as real else DEFAULT_INITIAL,
        if p.value.max > 0 then p.value.max as real else DEFAULT_MAX,
        if p.value.multiplier > 0.0 then p.value.multiplier else DEFAULT_MULTIPLIER,
        if p.value.jitter > 0.0 then p.value.jitter else DEFAULT_JITTER)
  }

  ghost function Pow(m: real, n: nat): real {
    if n == 0 then 1.0 else m * Pow(m, n - 1)
  }

  /** The uncapped wait after the given (1-indexed) attempt. */
  ghost function Raw(e: Effective, attempt: int): real
    requires attempt >= 1
  {
    e.initial * Pow(e.multiplier, attempt - 1)
  }

  /** The documented wait before jitter. */
  ghost function Documented(e: Effective, attempt: int): real
    requires attempt >= 1
  {
    if Raw(e, attempt) < e.max then Raw(e, attempt) else e.max
  }

  /** What the early-exit loop computes: the raw wait while every scaled wait stayed below
      the cap, and the cap as soon as one reached it. The first wait is never compared. */
  ghost function Looped(e: Effective, attempt: int): real
    requires attempt >= 1
  {
    if exists k :: 2 <= k <= attempt && Raw(e, k) >= e.max then e.max else Raw(e, attempt)
  }

  /** A caller can tell from the policy and the attempt whether the documented formula holds. */
  ghost predicate FormulaApplies(e: Effective, attempt: int)
    requires attempt >= 1
  {
    || e.initial <= e.max
    || (attempt >= 2 && (e.initial * e.multiplier < e.max || Raw(e, attempt) >= e.max))
  }

  lemma {:induction false} RawStep(e: Effective, k: int)
    requires k >= 1
    ensures Raw(e, k + 1) == Raw(e, k) * e.multiplier
  {
    var p := Pow(e.multiplier, k - 1);
    assert Pow(e.multiplier, k) == e.multiplier * p;
    assert e.initial * (e.multiplier * p) == (e.initial * p) * e.multiplier;
  }

  lemma {:induction false} RawPositive(e: Effective, k: int)
    requires k >= 1 && 0.0 < e.initial && 0.0 < e.multiplier
    ensures 0.0 < Raw(e, k)
  {
    if k == 1 {
      assert Raw(e, 1) == e.initial * 1.0;
    } else {
      RawPositive(e, k - 1);
      RawStep(e, k - 1);
    }
  }

  lemma Times(a: real, b: real, c: real)
    requires a <= b && 0.0 < c
    ensures a * c <= b * c
  {
    assert 0.0 <= (b - a) * c;
  }

  lemma TimesStrictly(a: real, b: real, c: real)
    requires a < b && 0.0 < c
    ensures a * c < b * c
  {
    assert 0.0 < (b - a) * c;
  }

  /** One more factor moves the raw wait up or down. */
  lemma RawMoves(e: Effective, k: int)
    requires k >= 1 && 0.0 < e.initial && 0.0 < e.multiplier
    ensures e.multiplier >= 1.0 ==> Raw(e, k) <= Raw(e, k + 1)
    ensures e.multiplier < 1.0 ==> Raw(e, k + 1) < Raw(e, k)
  {
    var x, m := Raw(e, k), e.multiplier;
    RawPositive(e, k);
    RawStep(e, k);
    if m >= 1.0 { Times(1.0, m, x); } else { TimesStrictly(m, 1.0, x); }
  }

  /** With a multiplier of at least one the raw wait never shrinks. */
  lemma {:induction false} RawGrows(e: Effective, k: int, n: int)
    requires 1 <= k <= n && 0.0 < e.initial && 1.0 <= e.multiplier
    ensures Raw(e, k) <= Raw(e, n)
    decreases n - k
  {
    if k < n {
      RawGrows(e, k, n - 1);
      RawMoves(e, n - 1);
    }
  }

  /** With a multiplier below one the raw wait never grows. */
  lemma {:induction false} RawShrinks(e: Effective, k: int, n: int)
    requires 1 <= k <= n && 0.0 < e.initial && 0.0 < e.multiplier < 1.0
    ensures Raw(e, n) <= Raw(e, k)
    decreases n - k
  {
    if k < n {
      RawShrinks(e, k, n - 1);
      RawMoves(e, n - 1);
    }
  }

  /** The loop computes the documented formula exactly when FormulaApplies says so. */
  lemma LoopedIsDocumentedIff(e: Effective, attempt: int)
    requires attempt >= 1 && 0.0 < e.initial && 0.0 < e.max && 0.0 < e.multiplier
    ensures Looped(e, attempt) == Documented(e, attempt) <==> FormulaApplies(e, attempt)
  {
    assert Raw(e, 1) == e.initial * 1.0;
    RawStep(e, 1);
    if attempt >= 2 {
      if e.multiplier >= 1.0 { LoopedGrowing(e, attempt); } else { LoopedShrinking(e, attempt); }
    }
  }

  /** A wait that does not shrink reaches the cap at the end or never. */
  lemma LoopedGrowing(e: Effective, attempt: int)
    requires attempt >= 2 && 0.0 < e.initial && 1.0 <= e.multiplier
    ensures Looped(e, attempt) == Documented(e, attempt)
    ensures Raw(e, 2) <= Raw(e, attempt)
  {
    RawGrows(e, 2, attempt);
    forall k | 2 <= k <= attempt ensures Raw(e, k) <= Raw(e, attempt) {
      RawGrows(e, k, attempt);
    }
  }

  /** A wait that shrinks reaches the cap with the second attempt or never. */
  lemma LoopedShrinking(e: Effective, attempt: int)
    requires attempt >= 2 && 0.0 < e.initial && 0.0 < e.multiplier < 1.0
    ensures Looped(e, attempt) == if Raw(e, 2) >= e.max then e.max else Raw(e, attempt)
    ensures Raw(e, attempt) <= Raw(e, 2) < Raw(e, 1)
  {
    RawMoves(e, 1);
    RawShrinks(e, 2, attempt);
    forall k | 2 <= k <= attempt ensures Raw(e, k) <= Raw(e, 2) {
      RawShrinks(e, 2, k);
    }
  }

  /** The first wait is not capped: with initial above max it exceeds the documented bound. */
  lemma FirstWaitUncapped()
    ensures var e := Effective(60.0, 30.0, 2.0, 0.2);
            Looped(e, 1) == 60.0 && Documented(e, 1) == 30.0
  {
    var e := Effective(60.0, 30.0, 2.0, 0.2);
    assert Raw(e, 1) == 60.0 * 1.0;
  }

  /** The bounds that (1 +/- jitter) puts on a wait. */
  ghost function Low(wait: real, jitter: real): real { (1.0 - jitter) * wait }
  ghost function High(wait: real, jitter: real): real { (1.0 + jitter) * wait }

  /** The whole nanoseconds that jitter may turn the wait after `attempt` into. A jitter above
      one would reach below zero, where the delay is clamped. */
  ghost predicate InRange(p: Option<Policy>, attempt: int, delay: int) {
    var e := Resolve(p);
    var wait := Looped(e, if attempt < 1 then 1 else attempt);
    0 <= delay && Low(wait, e.jitter) - 1.0 < delay as real < High(wait, e.jitter)
  }

  /** The delay before jitter: a loop that multiplies and stops at the cap. */
  method Grown(e: Effective, attempt: int) returns (base: real)
    requires attempt >= 1 && e.initial > 0.0 && e.max > 0.0 && e.multiplier > 0.0
    ensures base == Looped(e, attempt) && base > 0.0
  {
    base := e.initial;
    var i := 1;
    assert Raw(e, 1) == e.initial * 1.0;
    while i < attempt
      invariant 1 <= i <= attempt
      invariant base == Raw(e, i)
      invariant forall k :: 2 <= k <= i ==> Raw(e, k) < e.max
      invariant base > 0.0
    {
      RawStep(e, i);
      RawPositive(e, i + 1);
      base := base * e.multiplier;
      i := i + 1;
      if base >= e.max { return e.max; }
    }
  }

  /** The jittered delay; `unit` is the random draw from [0, 1). */
  method Backoff(p: Option<Policy>, attempt: int, unit: real) returns (delay: int)
    requires 0.0 <= unit < 1.0
    ensures InRange(p, attempt, delay)
  {
    var e := Resolve(p);
    var base := Grown(e, if attempt < 1 then 1 else attempt);
    delay := Jitter(base, e.jitter, unit);
  }

  method Jitter(wait: real, jitter: real, unit: real) returns (delay: int)
    requires 0.0 <= unit < 1.0 && 0.0 < wait && 0.0 < jitter
    ensures 0 <= delay && Low(wait, jitter) - 1.0 < delay as real < High(wait, jitter)
  {
    var swing := unit * 2.0 - 1.0;
    JitterBounds(wait, swing, jitter);
    var base := wait * (1.0 + swing * jitter);
    if base < 0.0 {
      base := 0.0;
    }
    delay := base.Floor;
  }

  lemma JitterBounds(wait: real, swing: real, jitter: real)
    requires wait > 0.0 && jitter > 0.0 && -1.0 <= swing < 1.0
    ensures Low(wait, jitter) <= wait * (1.0 + swing * jitter) < High(wait, jitter)
    ensures 0.0 < High(wait, jitter)
  {
    Times(-1.0, swing, jitter);
    TimesStrictly(swing, 1.0, jitter);
    var f := 1.0 + swing * jitter;
    Times(1.0 - jitter, f, wait);
    TimesStrictly(f, 1.0 + jitter, wait);
    TimesStrictly(0.0, 1.0 + jitter, wait);
  }
}
