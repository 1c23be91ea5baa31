/** Bounded retry delays with optional jitter. */
module RetryPolicy {
  import opened Tables

  const MAX_SUPPORTED_ATTEMPTS := 20

  datatype Policy = Policy(maxAttempts: int, delays: seq<int>, jitter: real)

  const DEFAULT_POLICY :=
    Policy(5, [0, 10_000_000_000, 30_000_000_000, 120_000_000_000, 600_000_000_000], 0.2)

  /** A policy is usable when its bounds hold and its delays never decrease. */
  predicate Valid(p: Policy) {
    && 1 <= p.maxAttempts <= MAX_SUPPORTED_ATTEMPTS
    && 1 <= |p.delays| <= p.maxAttempts
    && 0.0 <= p.jitter <= 0.5
    && (forall i | 0 <= i < |p.delays| :: 0 <= p.delays[i])
    && (forall i, k | 0 <= i <= k < |p.delays| :: p.delays[i] <= p.delays[k])
  }

  method Validate(p: Policy) returns (ok: bool)
    ensures ok <==> Valid(p)
  {
    if p.maxAttempts < 1 || p.maxAttempts > MAX_SUPPORTED_ATTEMPTS || |p.delays| == 0 || |p.delays| > p.maxAttempts
       || p.jitter < 0.0 || p.jitter > 0.5 {
      return false;
    }
    var previous := -1;
    for i := 0 to |p.delays|
      invariant if i == 0 then previous == -1 else previous == p.delays[i - 1]
      invariant forall k | 0 <= k < i :: 0 <= p.delays[k]
      invariant forall k, l | 0 <= k <= l < i :: p.delays[k] <= p.delays[l]
    {
      var delay := p.delays[i];
      if delay < 0 || delay < previous {
        return false;
      }
      previous := delay;
    }
    return true;
  }

  /** The configured delay before attempt `next`; the last one serves every later attempt. */
  function BaseDelay(p: Policy, next: int): int
    requires |p.delays| >= 1 && next >= 2
  {
    p.delays[if next - 1 >= |p.delays| then |p.delays| - 1 else next - 1]
  }

  /**
   * The delay before attempt `next`. `draw` is the random source, absent when the caller passes none;
   * `None` is the error return.
   */
  function Delay(p: Policy, next: int, draw: Option<nat>): (d: Option<int>)
  {
    if !Valid(p) || next < 2 || next > p.maxAttempts then None
    else
      var base := BaseDelay(p, next);
      var maximum := Share(base, p.jitter).Floor;
      if base == 0 || p.jitter == 0.0 || draw.None? || maximum < 1 then Some(base)
      else Some(Jittered(base, maximum, draw.value))
  }

  function Share(base: int, jitter: real): real {
    base as real * jitter
  }

  /** A delay lengthened by at most `maximum`. */
  function Jittered(base: int, maximum: int, draw: nat): int
    requires maximum >= 1
  {
    base + draw % (maximum + 1)
  }

  /** The callers' adjustment: a job's own limit may raise the policy's. */
  function Widened(p: Policy, jobMaxAttempts: int): Policy {
    if p.maxAttempts < jobMaxAttempts then p.(maxAttempts := jobMaxAttempts) else p
  }

  /** A retry of a job within its limit always gets a delay, whatever valid policy is configured. */
  lemma DelayNeverErrs(p: Policy, jobMaxAttempts: int, next: int, draw: Option<nat>)
    requires Valid(p) && jobMaxAttempts <= MAX_SUPPORTED_ATTEMPTS && 2 <= next <= jobMaxAttempts
    ensures Delay(Widened(p, jobMaxAttempts), next, draw).Some?
  {
  }

  lemma ShareIsLess(b: real, jitter: real)
    requires 0.0 <= b && 0.0 <= jitter <= 0.5
    ensures 0.0 <= b * jitter <= b * 0.5
    ensures jitter == 0.0 ==> b * jitter == 0.0
  {
  }

  lemma ShareIsHalf(base: int, jitter: real)
    requires 0 <= base && 0.0 <= jitter <= 0.5
    ensures 0.0 <= Share(base, jitter) <= base as real * 0.5
    ensures Share(base, jitter) == base as real * jitter
    ensures jitter == 0.0 ==> Share(base, jitter) == 0.0
  {
    ShareIsLess(base as real, jitter);
  }

  lemma FloorBounds(x: real, base: int, k: int)
    requires 0.0 <= x <= base as real * 0.5
    ensures 0 <= x.Floor && 2 * x.Floor <= base
    ensures k <= x.Floor <==> k as real <= x
  {
  }

  /** The jitter's share of a delay, in whole nanoseconds. */
  lemma ShareBounds(base: int, jitter: real, k: int)
    requires 0 <= base && 0.0 <= jitter <= 0.5
    ensures 0 <= Share(base, jitter).Floor && 2 * Share(base, jitter).Floor <= base
    ensures jitter == 0.0 ==> Share(base, jitter).Floor == 0
    ensures k <= Share(base, jitter).Floor <==> k as real <= base as real * jitter
  {
    hide Share;
    ShareIsHalf(base, jitter);
    FloorBounds(Share(base, jitter), base, k);
  }

  lemma JitteredReaches(base: int, maximum: int, d: int)
    requires maximum >= 1 && base <= d <= base + maximum
    ensures Jittered(base, maximum, d - base) == d
  {
  }

  /**
   * A delay is given exactly for a valid policy and an attempt within its limit. It is never shorter than the
   * list says and longer by at most the jitter's share of it; without a draw it is what the list says.
   */
  lemma DelayBounds(p: Policy, next: int, draw: Option<nat>)
    ensures Delay(p, next, draw).Some? <==> Valid(p) && 2 <= next <= p.maxAttempts
    ensures Delay(p, next, draw).Some? ==>
      var d := Delay(p, next, draw).value;
      var listed := if next <= |p.delays| then p.delays[next - 1] else p.delays[|p.delays| - 1];
      && 0 <= listed <= d
      && (d - listed) as real <= listed as real * p.jitter
      && 2 * d <= 3 * listed
      && (draw.None? ==> d == listed)
  {
    hide Share;
    if Delay(p, next, draw).Some? {
      var base, d := BaseDelay(p, next), Delay(p, next, draw).value;
      ShareBounds(base, p.jitter, d - base);
      assert d - base <= Share(base, p.jitter).Floor;
    }
  }

  /** Conversely every delay within those bounds is given for some draw. */
  lemma EveryDelayOccurs(p: Policy, next: int, d: int)
    requires Valid(p) && 2 <= next <= p.maxAttempts
    requires
      var listed := if next <= |p.delays| then p.delays[next - 1] else p.delays[|p.delays| - 1];
      listed <= d && (d - listed) as real <= listed as real * p.jitter
    ensures exists draw :: Delay(p, next, Some(draw)) == Some(d)
  {
    hide Jittered, Share;
    var base := BaseDelay(p, next);
    assert 0 <= base;
    ShareBounds(base, p.jitter, d - base);
    var maximum := Share(base, p.jitter).Floor;
    if maximum >= 1 {
      JitteredReaches(base, maximum, d);
    }
    assert Delay(p, next, Some(d - base)) == Some(d);
  }
}
