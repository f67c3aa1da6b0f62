/**
 * The time helpers of kerberos/src/client/util.rs. Durations and instants
 * are natural numbers in one unit (the callers use microseconds); the
 * random nonce of `generate_nonce` is an input of the callers instead.
 */
module ClientUtil {
  import opened KerberosTypes

  /** Microseconds per second. */
  const MicrosPerSecond: nat := 1000000

  /** `is_within_clock_skew(time, reference, skew)`. */
  predicate IsWithinClockSkew(time: nat, reference: nat, skew: nat) {
    reference <= time + skew && time <= reference + skew
  }

  /** The distance between two instants. */
  function Distance(a: nat, b: nat): (d: nat)
    ensures d == a - b || d == b - a
    ensures a <= b + d && b <= a + d
  {
    if a >= b then a - b else b - a
  }

  /** The check holds exactly when the two instants are at most `skew` apart, in either order. */
  lemma ClockSkewIsDistance(time: nat, reference: nat, skew: nat)
    ensures IsWithinClockSkew(time, reference, skew) <==> Distance(time, reference) <= skew
    ensures IsWithinClockSkew(time, reference, skew) <==> IsWithinClockSkew(reference, time, skew)
  {
  }

  /** An instant is always within any skew of itself. */
  lemma ClockSkewReflexive(time: nat, skew: nat)
    ensures IsWithinClockSkew(time, time, skew)
  {
  }

  /** Widening the allowed skew never turns an accepted pair into a rejected one. */
  lemma ClockSkewMonotone(time: nat, reference: nat, skew: nat, wider: nat)
    requires IsWithinClockSkew(time, reference, skew) && skew <= wider
    ensures IsWithinClockSkew(time, reference, wider)
  {
  }

  /** `is_zero_time(t)`: the KerberosTime is the epoch. */
  predicate IsZeroTime(t: Time) {
    t == ZeroKerberosTime
  }

  /** A KerberosTime as an instant in microseconds (`to_unix_duration`). */
  function TimeToMicros(t: Time): (m: nat)
    ensures m / MicrosPerSecond == t
  {
    t * MicrosPerSecond
  }
}
