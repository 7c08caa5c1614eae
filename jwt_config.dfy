/**
 * The signing configuration (JWTConfig): the shared secret, the token
 * lifetime as an amount and a unit, and the lifetime converted to whole
 * seconds, which is `Duration.of(expiry, expiryUnit).getSeconds()`.
 */
module Config {
  import opened Wrappers

  /** A Java `int`: 32-bit two's complement. */
  type Int32 = x: int | -0x8000_0000 <= x < 0x8000_0000

  /** Bounds of a Java `long`, the type `getSeconds()` returns. */
  const MinLong: int := -0x8000_0000_0000_0000
  const MaxLong: int := 0x7fff_ffff_ffff_ffff

  const NanosPerSecond: nat := 1_000_000_000

  /** The constants of `java.time.temporal.ChronoUnit`, shortest first. */
  datatype ChronoUnit =
    | Nanos | Micros | Millis | Seconds | Minutes | Hours | HalfDays | Days
    | Weeks | Months | Years | Decades | Centuries | Millennia | Eras | Forever

  /** `ChronoUnit.isDurationEstimated()`: DAYS and every longer unit. */
  predicate IsDurationEstimated(u: ChronoUnit) {
    !(u.Nanos? || u.Micros? || u.Millis? || u.Seconds? || u.Minutes? || u.Hours? || u.HalfDays?)
  }

  /**
   * The units `Duration.of` accepts: every unit with an exact length, and
   * DAYS, which `Duration.plus` treats as exactly 86400 seconds before it
   * rejects the estimated units.
   */
  predicate Accepted(u: ChronoUnit) {
    !IsDurationEstimated(u) || u.Days?
  }

  /** The exact length of an accepted unit in nanoseconds. */
  function UnitNanos(u: ChronoUnit): (n: nat)
    requires Accepted(u)
    ensures n > 0
  {
    match u
    case Nanos => 1
    case Micros => 1_000
    case Millis => 1_000_000
    case Seconds => NanosPerSecond
    case Minutes => 60 * NanosPerSecond
    case Hours => 3_600 * NanosPerSecond
    case HalfDays => 43_200 * NanosPerSecond
    case Days => 86_400 * NanosPerSecond
  }

  /** What `Duration.of` throws: a null amount or unit, or an estimated unit. */
  datatype DurationError = NullPointer | UnsupportedTemporalType

  /** `q` is the floor of `n / d`: the greatest integer whose multiple of `d` is at most `n`. */
  ghost predicate IsFloorQuotient(q: int, n: int, d: int) {
    q * d <= n < q * d + d
  }

  /** Division rounding toward negative infinity, as `Duration` normalises seconds and nanoseconds. */
  function FloorDiv(n: int, d: int): (q: int)
    requires d > 0
    ensures IsFloorQuotient(q, n, d)
  {
    n / d
  }

  /** The floor quotient is unique, so the contract of DurationSeconds fixes its value. */
  lemma FloorQuotientUnique(q1: int, q2: int, n: int, d: int)
    requires d > 0 && IsFloorQuotient(q1, n, d) && IsFloorQuotient(q2, n, d)
    ensures q1 == q2
  {
    if q1 < q2 {
      MultiplyMonotone(q1 + 1, q2, d);
    } else if q2 < q1 {
      MultiplyMonotone(q2 + 1, q1, d);
    }
  }

  lemma MultiplyMonotone(a: int, b: int, d: int)
    requires a <= b && d > 0
    ensures a * d <= b * d
  {
  }

  /**
   * `Duration.of(amount, unit).getSeconds()`, with the Java nulls as `None`.
   * The whole-second part of `amount` units of time: for units of a second
   * or more an exact product, for shorter units the floor of the total
   * nanoseconds divided by 10^9.
   */
  function DurationSeconds(amount: Option<Int32>, unit: Option<ChronoUnit>): (r: Result<int, DurationError>)
    ensures r.Ok? <==> amount.Some? && unit.Some? && Accepted(unit.value)
    ensures amount.None? || unit.None? ==> r == Err(NullPointer)
    ensures amount.Some? && unit.Some? && !Accepted(unit.value) ==> r == Err(UnsupportedTemporalType)
    ensures r.Ok? ==> IsFloorQuotient(r.value, amount.value * UnitNanos(unit.value), NanosPerSecond)
    ensures r.Ok? ==> MinLong <= r.value <= MaxLong
  {
    if amount.None? || unit.None? then Err(NullPointer)
    else
      var a: int := amount.value;
      match unit.value
      case Nanos => Ok(FloorDiv(a, 1_000_000_000))
      case Micros => Ok(FloorDiv(a, 1_000_000))
      case Millis => Ok(FloorDiv(a, 1_000))
      case Seconds => Ok(a)
      case Minutes => Ok(a * 60)
      case Hours => Ok(a * 3_600)
      case HalfDays => Ok(a * 43_200)
      case Days => Ok(a * 86_400)
      case _ => Err(UnsupportedTemporalType)
  }

  /** The configuration bean: Lombok's `@Data` gives each field a getter and a setter. */
  class JWTConfig {
    var secret: Option<string>
    var expiryUnit: Option<ChronoUnit>
    var expiry: Option<Int32>

    /** Every field starts as null. */
    constructor ()
      ensures secret.None? && expiryUnit.None? && expiry.None?
      ensures GetExpiryInSeconds() == Err(NullPointer)
    {
      secret, expiryUnit, expiry := None, None, None;
    }

    function GetSecret(): Option<string>
      reads this
    {
      secret
    }

    function GetExpiryUnit(): Option<ChronoUnit>
      reads this
    {
      expiryUnit
    }

    function GetExpiry(): Option<Int32>
      reads this
    {
      expiry
    }

    method SetSecret(s: Option<string>)
      modifies this`secret
      ensures GetSecret() == s
      ensures GetExpiryUnit() == old(GetExpiryUnit()) && GetExpiry() == old(GetExpiry())
      ensures GetExpiryInSeconds() == old(GetExpiryInSeconds())
    {
      secret := s;
    }

    method SetExpiryUnit(u: Option<ChronoUnit>)
      modifies this`expiryUnit
      ensures GetExpiryUnit() == u
      ensures GetSecret() == old(GetSecret()) && GetExpiry() == old(GetExpiry())
    {
      expiryUnit := u;
    }

    method SetExpiry(e: Option<Int32>)
      modifies this`expiry
      ensures GetExpiry() == e
      ensures GetSecret() == old(GetSecret()) && GetExpiryUnit() == old(GetExpiryUnit())
    {
      expiry := e;
    }

    /** `getExpiryInSeconds()`: reads the two lifetime fields and changes nothing. */
    function GetExpiryInSeconds(): Result<int, DurationError>
      reads this
    {
      DurationSeconds(expiry, expiryUnit)
    }
  }

  /** Two configurations with the same lifetime report the same seconds, whatever their secrets. */
  lemma ExpiryInSecondsIgnoresSecret(c1: JWTConfig, c2: JWTConfig)
    requires c1.expiry == c2.expiry && c1.expiryUnit == c2.expiryUnit
    ensures c1.GetExpiryInSeconds() == c2.GetExpiryInSeconds()
  {
  }

  /** SECONDS, MINUTES, HOURS, HALF_DAYS and DAYS multiply exactly. */
  lemma ExactUnitsMultiply(a: Int32)
    ensures DurationSeconds(Some(a), Some(Seconds)) == Ok(a)
    ensures DurationSeconds(Some(a), Some(Minutes)) == Ok(a * 60)
    ensures DurationSeconds(Some(a), Some(Hours)) == Ok(a * 3_600)
    ensures DurationSeconds(Some(a), Some(HalfDays)) == Ok(a * 43_200)
    ensures DurationSeconds(Some(a), Some(Days)) == Ok(a * 86_400)
  {
  }

  /**
   * NANOS, MICROS and MILLIS drop the fractional second, rounding toward
   * negative infinity: one millisecond short of a second is 0 seconds, and
   * minus one millisecond is -1 second.
   */
  lemma SubSecondUnitsFloor(a: Int32)
    ensures DurationSeconds(Some(a), Some(Nanos)).Ok?
    ensures IsFloorQuotient(DurationSeconds(Some(a), Some(Nanos)).value, a, 1_000_000_000)
    ensures IsFloorQuotient(DurationSeconds(Some(a), Some(Micros)).value, a, 1_000_000)
    ensures IsFloorQuotient(DurationSeconds(Some(a), Some(Millis)).value, a, 1_000)
    ensures DurationSeconds(Some(999), Some(Millis)) == Ok(0)
    ensures DurationSeconds(Some(-1), Some(Millis)) == Ok(-1)
  {
  }

  /** WEEKS and every longer unit are refused for every amount, zero included. */
  lemma EstimatedUnitsFail(a: Int32, u: ChronoUnit)
    requires u.Weeks? || u.Months? || u.Years? || u.Decades? || u.Centuries? || u.Millennia? || u.Eras? || u.Forever?
    ensures DurationSeconds(Some(a), Some(u)) == Err(UnsupportedTemporalType)
  {
  }

  /** A null amount or a null unit fails. */
  lemma NullFails(a: Option<Int32>, u: Option<ChronoUnit>)
    requires a.None? || u.None?
    ensures DurationSeconds(a, u) == Err(NullPointer)
  {
  }

  /** No validation: zero converts to zero, and a negative amount to a negative result. */
  lemma NoValidation(a: Int32, u: ChronoUnit)
    requires Accepted(u)
    ensures DurationSeconds(Some(0), Some(u)) == Ok(0)
    ensures a < 0 ==> DurationSeconds(Some(a), Some(u)).value < 0
  {
  }

  /** For a fixed accepted unit, a longer lifetime never converts to fewer seconds. */
  lemma MonotoneInAmount(a: Int32, b: Int32, u: ChronoUnit)
    requires a <= b && Accepted(u)
    ensures DurationSeconds(Some(a), Some(u)).value <= DurationSeconds(Some(b), Some(u)).value
  {
  }
}
