/** The scalar generators of `RandomBuilder`: bounded integers, shorts, longs and
    bytes, picking one of several values or enum constants, random decimals, byte
    arrays, and the offsets the date and time generators add to the clock. Each
    takes the generator state and returns what it drew with the state after. */
module RandomBuilder {
  import opened JavaLang
  import opened RandomUtils
  import opened BigDecimal

  const DEFAULT_MAX_ARRAY_SIZE: Int32 := 10
  const DEFAULT_MIN_ARRAY_SIZE: Int32 := 2
  const MINUTES_PER_HOUR: Int32 := 60
  const HOURS_PER_DAY: Int32 := 24
  const DAYS_PER_YEAR: Int32 := 365
  /** As the source computes it: minutes, not seconds, in a year. */
  const SECONDS_IN_A_YEAR: Int32 := MINUTES_PER_HOUR * HOURS_PER_DAY * DAYS_PER_YEAR
  /** As the source computes it: seconds in twelve minutes. */
  const SECONDS_IN_12_HOURS: Int32 := MINUTES_PER_HOUR * 12

  // ---------------------------------------------------------------------------
  // Bounded integers

  /** `aRandomInteger(min, max)`: `min` itself when the bounds are equal, with no
      draw; otherwise `min` plus one draw from `[0, max - min)`, so `max` is never
      returned. */
  function RandomInteger(min: Int32, max: Int32, g: Rng): (d: Drawn<Int32>)
    requires min <= max && max - min <= MAX_INT
    ensures min == max ==> d.value == min && d.rest == g
    ensures min < max ==> min <= d.value < max
    ensures min < max ==> d.rest.raw == g.raw && d.rest.pos == g.pos + 1
  {
    if min == max then Drawn(min, g)
    else
      var n := NextInt(0, max - min, g);
      Drawn(AddInt(min, n.value), n.rest)
  }

  /** Every value of `[min, max)` can come out of `aRandomInteger(min, max)`. */
  lemma RandomIntegerReachable(min: Int32, max: Int32, t: int)
    requires min <= t < max && max - min <= MAX_INT
    ensures exists g: Rng :: RandomInteger(min, max, g).value == t
  {
    NextIntReachable(0, max - min, t - min);
    var g: Rng :| NextInt(0, max - min, g).value == t - min;
    assert RandomInteger(min, max, g).value == t;
  }

  /** `aRandomInteger()`: one full draw of `nextInt()`. */
  function RandomIntegerAny(g: Rng): (d: Drawn<Int32>)
    ensures 0 <= d.value < MAX_INT && d.rest.raw == g.raw && d.rest.pos == g.pos + 1
  {
    NextIntAny(g)
  }

  /** `aRandomShort()`: `(short) nextInt(0, Short.MAX_VALUE)`; the cast never
      wraps, so the value lies in `[0, 32767)`. */
  function RandomShort(g: Rng): (d: Drawn<Int16>)
    ensures 0 <= d.value < MAX_SHORT && d.rest.raw == g.raw && d.rest.pos == g.pos + 1
  {
    var n := NextInt(0, MAX_SHORT, g);
    Drawn(ToShort(n.value), n.rest)
  }

  /** `aRandomShort(min, max)`: the same short-circuit and range as
      `aRandomInteger`, computed in `int` and cast back to `short`. */
  function RandomShortIn(min: Int16, max: Int16, g: Rng): (d: Drawn<Int16>)
    requires min <= max
    ensures min == max ==> d.value == min && d.rest == g
    ensures min < max ==> min <= d.value < max && d.rest.raw == g.raw && d.rest.pos == g.pos + 1
  {
    if min == max then Drawn(min, g)
    else
      var n := NextInt(0, max - min, g);
      Drawn(ToShort(AddInt(min, n.value)), n.rest)
  }

  /** Every short of `[0, 32767)` can come out of `aRandomShort()`. */
  lemma RandomShortReachable(t: int)
    requires 0 <= t < MAX_SHORT
    ensures exists g: Rng :: RandomShort(g).value == t
  {
    NextIntReachable(0, MAX_SHORT, t);
    var g: Rng :| NextInt(0, MAX_SHORT, g).value == t;
    assert RandomShort(g).value == t;
  }

  /** Every short of `[min, max)` can come out of `aRandomShort(min, max)`. */
  lemma RandomShortInReachable(min: Int16, max: Int16, t: int)
    requires min <= t < max
    ensures exists g: Rng :: RandomShortIn(min, max, g).value == t
  {
    NextIntReachable(0, max - min, t - min);
    var g: Rng :| NextInt(0, max - min, g).value == t - min;
    assert RandomShortIn(min, max, g).value == t;
  }

  /** `aRandomLong(min, max)` with `int` bounds: the `int` sum widened to `long`. */
  function RandomLongIn(min: Int32, max: Int32, g: Rng): (d: Drawn<int>)
    requires min <= max && max - min <= MAX_INT
    ensures min == max ==> d.value == min && d.rest == g
    ensures min < max ==> min <= d.value < max && d.rest.raw == g.raw && d.rest.pos == g.pos + 1
  {
    if min == max then Drawn(min as int, g)
    else
      var n := NextInt(0, max - min, g);
      Drawn(AddInt(min, n.value) as int, n.rest)
  }

  /** `aRandomByte()`: `(byte) nextInt(0, Byte.MAX_VALUE)`, in `[0, 127)`. */
  function RandomByte(g: Rng): (d: Drawn<Int8>)
    ensures 0 <= d.value < MAX_BYTE
    ensures d.rest.raw == g.raw && d.rest.pos == g.pos + 1
  {
    var n := NextInt(0, MAX_BYTE, g);
    Drawn(ToByte(n.value), n.rest)
  }

  /** Every value of `[min, max)` can come out of `aRandomLong(min, max)`. */
  lemma RandomLongInReachable(min: Int32, max: Int32, t: int)
    requires min <= t < max && max - min <= MAX_INT
    ensures exists g: Rng :: RandomLongIn(min, max, g).value == t
  {
    NextIntReachable(0, max - min, t - min);
    var g: Rng :| NextInt(0, max - min, g).value == t - min;
    assert RandomLongIn(min, max, g).value == t;
  }

  /** Every byte of `[0, 127)` can come out of `aRandomByte()`. */
  lemma RandomByteReachable(t: int)
    requires 0 <= t < MAX_BYTE
    ensures exists g: Rng :: RandomByte(g).value == t
  {
    NextIntReachable(0, MAX_BYTE, t);
    var g: Rng :| NextInt(0, MAX_BYTE, g).value == t;
    assert RandomByte(g).value == t;
  }

  // ---------------------------------------------------------------------------
  // Picking one of several values

  /** `oneOf(rangeOfValues...)`: `null` for a null array (no draw); otherwise the
      element at a drawn index. An empty array draws index 0 (an empty range does
      not touch the generator) and the access fails. */
  function OneOf<T>(rangeOfValues: Option<seq<T>>, g: Rng): (d: Drawn<Result<Option<T>>>)
    requires rangeOfValues.Some? ==> |rangeOfValues.value| <= MAX_INT
    ensures rangeOfValues.None? ==> d.value == Success(None) && d.rest == g
    ensures rangeOfValues == Some([]) ==>
      d.value == Failure(ArrayIndexOutOfBoundsException(0)) && d.rest == g
    ensures rangeOfValues.Some? && rangeOfValues.value != [] ==>
      d.value.Success? && d.value.value.Some? &&
      d.value.value.value in rangeOfValues.value && d.rest.raw == g.raw && d.rest.pos == g.pos + 1
  {
    match rangeOfValues
    case None => Drawn(Success(None), g)
    case Some(values) =>
      var i := NextInt(0, |values|, g);
      if i.value < |values| then Drawn(Success(Some(values[i.value])), i.rest)
      else Drawn(Failure(ArrayIndexOutOfBoundsException(i.value)), i.rest)
  }

  /** Every element of a non-empty array can be the one `oneOf` returns. */
  lemma OneOfReachable<T>(values: seq<T>, k: nat)
    requires k < |values| <= MAX_INT
    ensures exists g: Rng :: OneOf(Some(values), g).value == Success(Some(values[k]))
  {
    NextIntReachable(0, |values|, k);
    var g: Rng :| NextInt(0, |values|, g).value == k;
    assert OneOf(Some(values), g).value == Success(Some(values[k]));
  }

  /** As written, `oneOf()` with no arguments fails, where the intended result
      is `null`, since there is nothing to pick. */
  lemma OneOfNoArgumentsFails<T>(g: Rng)
    ensures OneOf<T>(Some([]), g).value == Failure(ArrayIndexOutOfBoundsException(0))
    ensures OneOfOrNull<T>(Some([]), g).value == Success(None)
  {
  }

  /** `oneOf` as intended: `null` when there is nothing to pick from, with no
      draw; otherwise the pick `OneOf` makes. It never fails. */
  function OneOfOrNull<T>(rangeOfValues: Option<seq<T>>, g: Rng): (d: Drawn<Result<Option<T>>>)
    requires rangeOfValues.Some? ==> |rangeOfValues.value| <= MAX_INT
    ensures d.value.Success?
    ensures d.value.value.None? <==> rangeOfValues.None? || rangeOfValues.value == []
    ensures rangeOfValues.Some? && d.value.value.Some? ==> d.value.value.value in rangeOfValues.value
    ensures rangeOfValues.None? || rangeOfValues.value == [] ==> d.rest == g
    ensures rangeOfValues.Some? && rangeOfValues.value != [] ==> d == OneOf(rangeOfValues, g)
  {
    if rangeOfValues.None? || rangeOfValues.value == [] then Drawn(Success(None), g)
    else OneOf(rangeOfValues, g)
  }

  /** An enum class and what `getEnumConstants()` returns for it. `aRandomEnum`
      needs the constants themselves; elsewhere (`ValueFactories.EnumValues`) an
      enum is only named, because the factory that picks its constants is not
      part of this model. */
  datatype EnumClass<E> = EnumClass(name: string, constants: seq<E>)

  /** `aRandomEnum(enumType)`: fails with a `RandomBuilderException` exactly when
      the enum declares no constants (without drawing); otherwise one of its
      constants, chosen by a drawn index. */
  function RandomEnum<E>(enumType: EnumClass<E>, g: Rng): (d: Drawn<Result<E>>)
    requires |enumType.constants| <= MAX_INT
    ensures d.value.Failure? <==> enumType.constants == []
    ensures d.value.Failure? ==>
      d.rest == g &&
      d.value.error == RandomBuilderException("Enumeration " + enumType.name + "has no values", None)
    ensures d.value.Success? ==>
      d.value.value in enumType.constants && d.rest.raw == g.raw && d.rest.pos == g.pos + 1
  {
    var values := enumType.constants;
    if |values| == 0 then
      Drawn(Failure(RandomBuilderException("Enumeration " + enumType.name + "has no values", None)), g)
    else
      var i := NextInt(0, |values|, g);
      Drawn(Success(values[i.value]), i.rest)
  }

  /** Every declared constant can be the one `aRandomEnum` returns. */
  lemma RandomEnumReachable<E>(enumType: EnumClass<E>, k: nat)
    requires k < |enumType.constants| <= MAX_INT
    ensures exists g: Rng :: RandomEnum(enumType, g).value == Success(enumType.constants[k])
  {
    NextIntReachable(0, |enumType.constants|, k);
    var g: Rng :| NextInt(0, |enumType.constants|, g).value == k;
    assert RandomEnum(enumType, g).value == Success(enumType.constants[k]);
  }

  // ---------------------------------------------------------------------------
  // Decimals

  /** `aRandomDecimal()`: `BigDecimal.valueOf(nextInt())`, rounded to ten
      significant digits HALF_UP, then its point moved left by a draw from
      `[0, 5)`. The rounding never changes an `int`, so the drawn integer is the
      unscaled value and the second draw is the scale. */
  function RandomDecimal(g: Rng): (d: Drawn<Decimal>)
    ensures d.value.unscaled == NextIntAny(g).value
    ensures d.value.scale == NextInt(0, 5, NextIntAny(g).rest).value
    ensures 0 <= d.value.scale < 5 && Precision(d.value) <= 10
    ensures d.rest.raw == g.raw && d.rest.pos == g.pos + 2
  {
    var x := NextIntAny(g);
    var shift := NextInt(0, 5, x.rest);
    RoundIntIsIdentity(x.value);
    Drawn(MovePointLeft(Round(Decimal(x.value, 0), 10), shift.value), shift.rest)
  }

  // ---------------------------------------------------------------------------
  // Byte arrays

  /** `n` successive `aRandomByte()` draws, in order. */
  function RandomBytes(n: nat, g: Rng): (d: Drawn<seq<Int8>>)
    ensures |d.value| == n
    ensures forall i :: 0 <= i < n ==> 0 <= d.value[i] < MAX_BYTE
    ensures d.rest.raw == g.raw && d.rest.pos == g.pos + n
  {
    if n == 0 then Drawn([], g)
    else
      var front := RandomBytes(n - 1, g);
      var last := RandomByte(front.rest);
      Drawn(front.value + [last.value], last.rest)
  }

  /** `aRandomByteArray()`: an array whose length is drawn by
      `aRandomInteger(2, 1000)`, filled index by index with `aRandomByte()`. */
  method RandomByteArray(g: Rng) returns (bytes: array<Int8>, g': Rng)
    ensures fresh(bytes)
    ensures 2 <= bytes.Length < 1000
    ensures forall i :: 0 <= i < bytes.Length ==> 0 <= bytes[i] < MAX_BYTE
    ensures bytes.Length == RandomInteger(2, 1000, g).value
    ensures bytes[..] == RandomBytes(bytes.Length, RandomInteger(2, 1000, g).rest).value
    ensures g'.raw == g.raw && g'.pos == g.pos + 1 + bytes.Length
  {
    var length := RandomInteger(2, 1000, g);
    bytes := new Int8[length.value];
    g' := length.rest;
    for i := 0 to bytes.Length
      invariant bytes[..i] == RandomBytes(i, length.rest).value
      invariant g' == RandomBytes(i, length.rest).rest
    {
      var b := RandomByte(g');
      bytes[i] := b.value;
      g' := b.rest;
      assert bytes[..i + 1] == bytes[..i] + [b.value];
    }
    assert bytes[..] == bytes[..bytes.Length];
  }

  // ---------------------------------------------------------------------------
  // Date and time offsets (the clock itself is not modelled)

  /** The offset, in seconds, that `aRandomDate`, `aRandomLocalDateTime`,
      `aRandomZonedDateTime` and `aRandomInstant` add to the current time, as
      the source computes it: `nextInt(0, SECONDS_IN_A_YEAR)`. */
  function YearOffsetAsWritten(g: Rng): (d: Drawn<Int32>)
    ensures 0 <= d.value < SECONDS_IN_A_YEAR
  {
    NextInt(0, SECONDS_IN_A_YEAR, g)
  }

  /** The "year" window holds 525600 seconds: no offset reaches even a week. */
  lemma YearOffsetAsWrittenUnderAWeek(g: Rng)
    ensures SECONDS_IN_A_YEAR == 525_600
    ensures YearOffsetAsWritten(g).value < 7 * 24 * 60 * 60
  {
  }

  /** The offset `aRandomLocalTime` adds, as the source computes it. */
  function TimeOffsetAsWritten(g: Rng): (d: Drawn<Int32>)
    ensures 0 <= d.value < SECONDS_IN_12_HOURS
  {
    NextInt(0, SECONDS_IN_12_HOURS, g)
  }

  /** The "12 hours" window holds 720 seconds: no offset reaches a quarter of
      an hour. */
  lemma TimeOffsetAsWrittenUnderFifteenMinutes(g: Rng)
    ensures SECONDS_IN_12_HOURS == 720
    ensures TimeOffsetAsWritten(g).value < 15 * 60
  {
  }

  const SECONDS_PER_MINUTE: Int32 := 60
  /** The windows the names promise. */
  const INTENDED_SECONDS_IN_A_YEAR: Int32 := SECONDS_PER_MINUTE * MINUTES_PER_HOUR * HOURS_PER_DAY * DAYS_PER_YEAR
  const INTENDED_SECONDS_IN_12_HOURS: Int32 := SECONDS_PER_MINUTE * MINUTES_PER_HOUR * 12

  /** The year offset with the window the name promises. */
  function YearOffset(g: Rng): (d: Drawn<Int32>)
    ensures 0 <= d.value < DAYS_PER_YEAR * 24 * 60 * 60
  {
    NextInt(0, INTENDED_SECONDS_IN_A_YEAR, g)
  }

  /** Every second of a 365-day year can be drawn. */
  lemma YearOffsetCoversYear(t: int)
    requires 0 <= t < 365 * 24 * 60 * 60
    ensures exists g: Rng :: YearOffset(g).value == t
  {
    NextIntReachable(0, INTENDED_SECONDS_IN_A_YEAR, t);
    var g: Rng :| NextInt(0, INTENDED_SECONDS_IN_A_YEAR, g).value == t;
    assert YearOffset(g).value == t;
  }

  /** The time-of-day offset with the window the name promises. */
  function TimeOffset(g: Rng): (d: Drawn<Int32>)
    ensures 0 <= d.value < 12 * 60 * 60
  {
    NextInt(0, INTENDED_SECONDS_IN_12_HOURS, g)
  }

  /** Every second of twelve hours can be drawn. */
  lemma TimeOffsetCoversTwelveHours(t: int)
    requires 0 <= t < 12 * 60 * 60
    ensures exists g: Rng :: TimeOffset(g).value == t
  {
    NextIntReachable(0, INTENDED_SECONDS_IN_12_HOURS, t);
    var g: Rng :| NextInt(0, INTENDED_SECONDS_IN_12_HOURS, g).value == t;
    assert TimeOffset(g).value == t;
  }

  /** The offset `aRandomLocalDate` adds, in days: `nextInt(0, DAYS_PER_YEAR)`,
      whose window is a year as intended. */
  function DayOffset(g: Rng): (d: Drawn<Int32>)
    ensures 0 <= d.value < 365
  {
    NextInt(0, DAYS_PER_YEAR, g)
  }
}
