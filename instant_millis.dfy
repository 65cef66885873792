/**
 * `InstantMillisConverter`: instants are stored as epoch milliseconds in a
 * 64-bit column. An instant is a second count and a nanosecond adjustment in
 * [0, 10^9), as in `java.time.Instant`.
 */
module InstantMillis {
  import opened Wrappers
  import opened Domain

  const LONG_MIN: int := -0x8000_0000_0000_0000
  const LONG_MAX: int := 0x7FFF_FFFF_FFFF_FFFF
  /** `Instant.MIN` and `Instant.MAX`, in seconds. */
  const MIN_SECOND: int := -31557014167219200
  const MAX_SECOND: int := 31556889864403199
  const NANOS_PER_MILLI: int := 1_000_000
  const NANOS_PER_SECOND: int := 1_000_000_000

  predicate IsLong(v: int) {
    LONG_MIN <= v <= LONG_MAX
  }

  datatype Instant = Instant(seconds: int, nanos: int)

  predicate ValidInstant(i: Instant) {
    MIN_SECOND <= i.seconds <= MAX_SECOND && 0 <= i.nanos < NANOS_PER_SECOND
  }

  /** The exact millisecond count of an instant, rounded down. */
  function FloorMillis(i: Instant): int
    requires ValidInstant(i)
  {
    i.seconds * 1000 + i.nanos / NANOS_PER_MILLI
  }

  /** `toEpochMilli`, branch for branch: for a negative second count with a
      nanosecond part it works from the next second down; each step uses
      `multiplyExact` and `addExact`, which throw beyond 64 bits. */
  function ToEpochMilli(i: Instant): (r: Result<int, Failure>)
    requires ValidInstant(i)
    ensures r.Ok? <==> IsLong(FloorMillis(i))
    ensures r.Ok? ==> r.value == FloorMillis(i)
    ensures r.Err? ==> r.error == Unchecked("ArithmeticException")
  {
    if i.seconds < 0 && i.nanos > 0 then
      var millis := (i.seconds + 1) * 1000;
      var adjustment := i.nanos / NANOS_PER_MILLI - 1000;
      if !IsLong(millis) || !IsLong(millis + adjustment) then Err(Unchecked("ArithmeticException"))
      else Ok(millis + adjustment)
    else
      var millis := i.seconds * 1000;
      var sum := millis + i.nanos / NANOS_PER_MILLI;
      if !IsLong(millis) || !IsLong(sum) then Err(Unchecked("ArithmeticException"))
      else Ok(sum)
  }

  /** `Instant.ofEpochMilli`: `floorDiv` and `floorMod` by 1000, which on a
      positive divisor are Dafny's `/` and `%`. */
  function OfEpochMilli(ms: int): (i: Instant)
    requires IsLong(ms)
    ensures ValidInstant(i)
  {
    Instant(ms / 1000, (ms % 1000) * NANOS_PER_MILLI)
  }

  /** `convertToDatabaseColumn`: null stays null. */
  function ToColumn(attribute: Option<Instant>): (r: Result<Option<int>, Failure>)
    requires attribute.Some? ==> ValidInstant(attribute.value)
    ensures attribute.None? ==> r == Ok(None)
    ensures attribute.Some? ==> (r.Ok? <==> IsLong(FloorMillis(attribute.value)))
    ensures r.Ok? && attribute.Some? ==> r.value == Some(FloorMillis(attribute.value))
  {
    match attribute
    case None => Ok(None)
    case Some(i) =>
      match ToEpochMilli(i)
      case Err(e) => Err(e)
      case Ok(ms) => Ok(Some(ms))
  }

  /** `convertToEntityAttribute`: null stays null. */
  function FromColumn(dbData: Option<int>): (r: Option<Instant>)
    requires dbData.Some? ==> IsLong(dbData.value)
    ensures r.None? <==> dbData.None?
    ensures r.Some? ==> ValidInstant(r.value)
  {
    match dbData
    case None => None
    case Some(ms) => Some(OfEpochMilli(ms))
  }

  /** Column, instant, column: every long comes back. */
  lemma LongRoundTrip(v: Option<int>)
    requires v.Some? ==> IsLong(v.value)
    ensures ToColumn(FromColumn(v)) == Ok(v)
  {
    if v.Some? {
      var ms := v.value;
      assert ms == (ms / 1000) * 1000 + ms % 1000;
      assert ((ms % 1000) * NANOS_PER_MILLI) / NANOS_PER_MILLI == ms % 1000;
    }
  }

  /** The instant cut down to whole milliseconds. */
  function TruncatedToMillis(i: Instant): Instant {
    Instant(i.seconds, i.nanos / NANOS_PER_MILLI * NANOS_PER_MILLI)
  }

  /** Instant, column, instant: what fits in the column comes back cut down
      to the millisecond, and unchanged when it had no finer part. */
  lemma InstantRoundTrip(i: Instant)
    requires ValidInstant(i) && IsLong(FloorMillis(i))
    ensures ToColumn(Some(i)).Ok?
    ensures FromColumn(ToColumn(Some(i)).value) == Some(TruncatedToMillis(i))
    ensures i.nanos % NANOS_PER_MILLI == 0 ==> FromColumn(ToColumn(Some(i)).value) == Some(i)
  {
    var ms := FloorMillis(i);
    var q := i.nanos / NANOS_PER_MILLI;
    assert 0 <= q < 1000;
    assert ms == i.seconds * 1000 + q;
    assert ms / 1000 == i.seconds && ms % 1000 == q;
  }

  /** The column overflows only for instants beyond about 292 million years
      from the epoch: `Instant.MAX` is one of them. */
  lemma MaxInstantOverflows()
    ensures ToColumn(Some(Instant(MAX_SECOND, NANOS_PER_SECOND - 1))).Err?
  {
  }
}
