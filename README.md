# RandomBuilder, modelled in Dafny

`RandomBuilder` (exparity-stub) is a static facade for random test data. It has three parts:

- scalar generators: bounded integers, shorts, longs and bytes, byte arrays, one-of-several picks, enum constants and decimals;
- a registry of the nineteen scalar classes it can generate directly;
- `aRandomInstanceOf`, which builds any other class through a configured `BeanBuilder` and maps that builder's failures.

The model treats the random source as an oracle. An `Rng` is an arbitrary stream of raw numbers plus a cursor. `RandomUtils.NextInt(lo, hi, g)` follows commons-lang3 `RandomUtils.nextInt(lo, hi)`:

- The bounds must satisfy `0 <= lo <= hi`.
- An empty range returns `lo` and consumes nothing.
- Any other range consumes one draw and lands in `[lo, hi)`.

Every generator except `RandomBuilder.RandomByteArray` is a function that takes the generator state and returns a `Drawn` value holding what it drew and the state afterwards. `RandomByteArray` fills a new array in a loop, so it is a method that returns the array together with the state afterwards. This lets a contract say "no draw was made" as `d.rest == g`. Reachability lemmas show the oracle is no narrower than its contract: every value of a range can be drawn.

Modules:

- `JavaLang`: Java `int`/`short`/`byte`, with `+` and the narrowing casts written out as two's-complement wrap. It also holds class tokens, exceptions, `Option` (for `null`) and `Result` (for a thrown exception).
- `RandomUtils`: the oracle.
- `BigDecimal`: decimals as unscaled integer and scale, HALF_UP rounding to a precision, and `movePointLeft`.
- `RandomBuilder`: the scalar generators and the date/time offset draws.
- `ValueFactories`: values, value factories, `createValue` for a fixed-value factory, and the creation of an array's elements one after another. Any other factory's `createValue` is a parameter.
- `ScalarRegistry`: `RANDOM_FACTORIES` as the fold of its nineteen `put` calls.
- `Restrictions`:
  - the restriction constructors as a datatype;
  - which configuration scope each restriction targets;
  - "last applied wins";
  - a `BeanBuilder` class whose state is the ordered log of applied restrictions.
- `RandomInstances`: `instanceFactoryFor`, the `aRandomInstanceOf` overloads and their error mapping, and the size selection of random arrays, lists and collections.

Behaviour that follows the code and departs from the method's documentation:

- `oneOf` on an empty (non-null) array has no argument to return. `nextInt(0, 0)` returns 0 without drawing, index 0 is out of bounds, and the call fails with `ArrayIndexOutOfBoundsException`. `RandomBuilder.OneOf` models that failure. The intended result is `null`, since there is nothing to pick; see "## Findings".
- The date and time generators only ever add their offset to the current time. Their Javadoc says "either side", but the offset never goes into the past.
- The message of the empty-enum failure is `"Enumeration " + name + "has no values"`, without a space before "has". It is kept as written.

## Model

| member | source | states |
|---|---|---|
| `JavaLang.AddInt` | src/main/java/org/exparity/stub/random/RandomBuilder.java:141 | Java `int` addition: an `int`, and the exact sum whenever that sum fits in an `int` |
| `JavaLang.ToShort` | src/main/java/org/exparity/stub/random/RandomBuilder.java:173 | the `(short)` cast yields a `short`, and leaves a value already in `short` range unchanged |
| `JavaLang.ToByte` | src/main/java/org/exparity/stub/random/RandomBuilder.java:365 | the `(byte)` cast yields a `byte`, and leaves a value already in `byte` range unchanged |
| `RandomUtils.NextInt` | src/main/java/org/exparity/stub/random/RandomBuilder.java:141 | the oracle `nextInt(lo, hi)`: `lo` with no draw when `lo == hi`; otherwise a value in `[lo, hi)` and exactly one draw consumed |
| `RandomUtils.NextIntAny` | src/main/java/org/exparity/stub/random/RandomBuilder.java:123 | `nextInt()` is a value in `[0, Integer.MAX_VALUE)` with one draw consumed |
| `RandomUtils.NextIntReachable` | src/main/java/org/exparity/stub/random/RandomBuilder.java:141 | every value of a non-empty range `[lo, hi)` is what some generator draws |
| `RandomBuilder.RandomInteger` | src/main/java/org/exparity/stub/random/RandomBuilder.java:137-143 | equal bounds return `min` with no draw; otherwise the result lies in `[min, max)`, so `max` is never returned, and one draw is consumed |
| `RandomBuilder.RandomIntegerReachable` | src/main/java/org/exparity/stub/random/RandomBuilder.java:141 | every value of `[min, max)` can be returned by `aRandomInteger(min, max)` |
| `RandomBuilder.RandomIntegerAny` | src/main/java/org/exparity/stub/random/RandomBuilder.java:122-124 | `aRandomInteger()` is a non-negative `int` below `Integer.MAX_VALUE`, from one draw |
| `RandomBuilder.RandomShort` | src/main/java/org/exparity/stub/random/RandomBuilder.java:154-156 | `aRandomShort()` lies in `[0, 32767)`, so the cast never wraps |
| `RandomBuilder.RandomShortReachable` | src/main/java/org/exparity/stub/random/RandomBuilder.java:155 | every short of `[0, 32767)` can be returned by `aRandomShort()` |
| `RandomBuilder.RandomShortIn` | src/main/java/org/exparity/stub/random/RandomBuilder.java:169-175 | equal bounds return `min` with no draw; otherwise a short in `[min, max)` from one draw |
| `RandomBuilder.RandomShortInReachable` | src/main/java/org/exparity/stub/random/RandomBuilder.java:173 | every short of `[min, max)` can be returned by `aRandomShort(min, max)` |
| `RandomBuilder.RandomLongIn` | src/main/java/org/exparity/stub/random/RandomBuilder.java:201-207 | equal bounds return `(long) min` with no draw; otherwise a value in `[min, max)` from one draw |
| `RandomBuilder.RandomLongInReachable` | src/main/java/org/exparity/stub/random/RandomBuilder.java:205 | every value of `[min, max)` can be returned by `aRandomLong(min, max)` |
| `RandomBuilder.RandomByte` | src/main/java/org/exparity/stub/random/RandomBuilder.java:364-366 | `aRandomByte()` lies in `[0, 127)` and consumes one draw |
| `RandomBuilder.RandomByteReachable` | src/main/java/org/exparity/stub/random/RandomBuilder.java:365 | every byte of `[0, 127)` can be returned by `aRandomByte()` |
| `RandomBuilder.OneOf` | src/main/java/org/exparity/stub/random/RandomBuilder.java:247-249 | a `null` array gives `null` with no draw; an empty array fails with an index-out-of-bounds at 0 with no draw; otherwise the result is a member of the array, from one draw |
| `RandomBuilder.OneOfReachable` | src/main/java/org/exparity/stub/random/RandomBuilder.java:248 | every element of a non-empty array can be the one `oneOf` returns |
| `RandomBuilder.OneOfNoArgumentsFails` | src/main/java/org/exparity/stub/random/RandomBuilder.java:247-249 | as written, `oneOf()` with no arguments fails with an index-out-of-bounds at 0, where the intended result is `null` |
| `RandomBuilder.OneOfOrNull` | src/main/java/org/exparity/stub/random/RandomBuilder.java:247-249 | `oneOf` as intended: never fails; `null` exactly when the array is null or empty, with no draw; otherwise a member of the array, as `OneOf` picks it |
| `RandomBuilder.RandomEnum` | src/main/java/org/exparity/stub/random/RandomBuilder.java:408-415 | fails with a `RandomBuilderException` exactly when the enum has no constants, with the source's message and no draw; otherwise returns one of the declared constants |
| `RandomBuilder.RandomEnumReachable` | src/main/java/org/exparity/stub/random/RandomBuilder.java:413 | every declared constant can be the one `aRandomEnum` returns |
| `BigDecimal.HalfUpQuotient` | src/main/java/org/exparity/stub/random/RandomBuilder.java:352 | `m / p` rounded HALF_UP: `q * p` lies within half of `p` of `m`, and an exact half rounds up (away from zero, `m` being a magnitude) |
| `BigDecimal.DropDigits` | src/main/java/org/exparity/stub/random/RandomBuilder.java:352 | dropping `k` digits lowers the scale by `k`, rounds the magnitude HALF_UP and keeps the sign |
| `BigDecimal.Round` | src/main/java/org/exparity/stub/random/RandomBuilder.java:352 | rounding to `prec` digits HALF_UP: a number that already fits is returned unchanged; otherwise exactly `prec` digits remain, the scale drops, and the magnitude is the HALF_UP rounding of the original to the new unit, with the sign kept |
| `BigDecimal.DropKeepsPrecision` | src/main/java/org/exparity/stub/random/RandomBuilder.java:352 | dropping the excess digits of a number leaves at least `prec` digits, so rounding never goes below the requested precision |
| `BigDecimal.CarryStep` | src/main/java/org/exparity/stub/random/RandomBuilder.java:352 | when dropping the excess digits carries into one digit too many, the result is a power of ten and dropping one more digit loses nothing, so the second pass of the rounding loop is exact |
| `BigDecimal.DigitsWithin` | src/main/java/org/exparity/stub/random/RandomBuilder.java:352 | a number has at most `k` digits exactly when it is below `10^k` |
| `BigDecimal.MovePointLeft` | src/main/java/org/exparity/stub/random/RandomBuilder.java:352 | moving the point left by `n` keeps the unscaled value and adds `n` to the scale when the new scale is non-negative |
| `BigDecimal.RoundIntIsIdentity` | src/main/java/org/exparity/stub/random/RandomBuilder.java:352 | rounding any `int` to ten digits HALF_UP changes nothing |
| `RandomBuilder.RandomDecimal` | src/main/java/org/exparity/stub/random/RandomBuilder.java:351-353 | the unscaled value is the drawn `int` itself, the scale is the second draw in `[0, 5)`, precision is at most ten, two draws are consumed |
| `RandomBuilder.RandomBytes` | src/main/java/org/exparity/stub/random/RandomBuilder.java:379-381 | `n` successive byte draws: `n` bytes, each in `[0, 127)`, `n` draws consumed |
| `RandomBuilder.RandomByteArray` | src/main/java/org/exparity/stub/random/RandomBuilder.java:377-383 | a new array whose length is `aRandomInteger(2, 1000)`, so in `[2, 1000)`; its contents are the successive byte draws in index order, each in `[0, 127)`; one draw for the length and one per byte |
| `RandomBuilder.YearOffsetAsWritten` | src/main/java/org/exparity/stub/random/RandomBuilder.java:273-275 | the offset added to the clock by the date generators lies in `[0, SECONDS_IN_A_YEAR)` |
| `RandomBuilder.YearOffsetAsWrittenUnderAWeek` | src/main/java/org/exparity/stub/random/RandomBuilder.java:84 | `SECONDS_IN_A_YEAR` is 525600, so no offset reaches a week of seconds |
| `RandomBuilder.TimeOffsetAsWritten` | src/main/java/org/exparity/stub/random/RandomBuilder.java:312-314 | the offset `aRandomLocalTime` adds lies in `[0, SECONDS_IN_12_HOURS)` |
| `RandomBuilder.TimeOffsetAsWrittenUnderFifteenMinutes` | src/main/java/org/exparity/stub/random/RandomBuilder.java:85 | `SECONDS_IN_12_HOURS` is 720, so no offset reaches fifteen minutes |
| `RandomBuilder.YearOffset` | src/main/java/org/exparity/stub/random/RandomBuilder.java:84 | the corrected year offset lies within 365 days of seconds |
| `RandomBuilder.YearOffsetCoversYear` | src/main/java/org/exparity/stub/random/RandomBuilder.java:84 | every second of a 365-day year can be the corrected offset |
| `RandomBuilder.TimeOffset` | src/main/java/org/exparity/stub/random/RandomBuilder.java:85 | the corrected time offset lies within twelve hours of seconds |
| `RandomBuilder.TimeOffsetCoversTwelveHours` | src/main/java/org/exparity/stub/random/RandomBuilder.java:85 | every second of twelve hours can be the corrected offset |
| `RandomBuilder.DayOffset` | src/main/java/org/exparity/stub/random/RandomBuilder.java:286-288 | `aRandomLocalDate` adds fewer than 365 days |
| `ScalarRegistry.PutAll` | src/main/java/org/exparity/stub/random/RandomBuilder.java:53-76 | a class is a key of the map exactly when some `put` used it |
| `ScalarRegistry.PutAllLastWins` | src/main/java/org/exparity/stub/random/RandomBuilder.java:53-76 | a key maps to the factory of the last `put` of that key |
| `ScalarRegistry.PutAllSize` | src/main/java/org/exparity/stub/random/RandomBuilder.java:53-76 | with no class put twice, the map has one entry per `put` |
| `ScalarRegistry.PutsInOrder` | src/main/java/org/exparity/stub/random/RandomBuilder.java:56-74 | the initialiser makes nineteen puts, each class at its own position, each primitive or wrapper class with the generator of its kind |
| `ScalarRegistry.PutsDistinct` | src/main/java/org/exparity/stub/random/RandomBuilder.java:56-74 | no class is put twice |
| `ScalarRegistry.Registered` | src/main/java/org/exparity/stub/random/RandomBuilder.java:53-76 | every scalar class is a key, a primitive or wrapper class mapped to the generator of its kind |
| `ScalarRegistry.RegistryContents` | src/main/java/org/exparity/stub/random/RandomBuilder.java:53-76 | `RANDOM_FACTORIES` holds exactly nineteen classes; a class is a key exactly when it is a primitive, a wrapper, `String`, `BigDecimal` or `Date`; each key maps to its default generator |
| `ScalarRegistry.RegistryValues` | src/main/java/org/exparity/stub/random/RandomBuilder.java:56-74 | a primitive class and its wrapper both map to their kind's generator; `String`, `BigDecimal` and `Date` map to the string, decimal and date generators |
| `ScalarRegistry.RegistrySize` | src/main/java/org/exparity/stub/random/RandomBuilder.java:53-76 | the nineteen distinct puts give a map of nineteen entries |
| `ScalarRegistry.Unregistered` | src/main/java/org/exparity/stub/random/RandomBuilder.java:804-805 | any other class is not a key, so the registry lookup returns `null` for it |
| `Restrictions.LastFor` | src/main/java/org/exparity/stub/random/RandomBuilder.java:807-809 | the position of the last applied restriction on a scope: it targets that scope, nothing later does, and there is none exactly when no restriction targets it |
| `Restrictions.LaterRestrictionWins` | src/main/java/org/exparity/stub/random/RandomBuilder.java:807-809 | of two restrictions on one scope, the one in force is applied no earlier than the later one |
| `Restrictions.ApplyOverrides` | src/main/java/org/exparity/stub/random/RandomBuilder.java:42-50 | a restriction just applied is the one in force for its scope |
| `Restrictions.ApplyKeepsOtherScopes` | src/main/java/org/exparity/stub/random/RandomBuilder.java:42-50 | applying a restriction leaves every other scope's restriction as it was |
| `Restrictions.ExcludeThenAssignPath` | src/main/java/org/exparity/stub/random/RandomBuilder.java:689-712 | `excludePath(p)` then `path(p, v)` leaves the assignment in force |
| `Restrictions.BeanBuilder.ARandomInstanceOf` | src/main/java/org/exparity/stub/random/RandomBuilder.java:806 | a fresh builder for the type, with nothing applied and not yet built |
| `Restrictions.BeanBuilder.Apply` | src/main/java/org/exparity/stub/random/RandomBuilder.java:640-799 | each restriction constructor's `applyTo` appends one configuration call to the log; it is then in force for its scope and no other scope changes |
| `Restrictions.BeanBuilder.Build` | src/main/java/org/exparity/stub/random/RandomBuilder.java:810 | `build()` consumes the builder and returns what population makes of exactly the applied configuration |
| `RandomInstances.InstanceFactoryFor` | src/main/java/org/exparity/stub/random/RandomBuilder.java:802-813 | a registry class gets its registry factory; any other class gets a fixed-value factory of what a fresh builder builds after every restriction is applied once, in argument order, or the build's failure |
| `RandomInstances.ScalarsIgnoreRestrictions` | src/main/java/org/exparity/stub/random/RandomBuilder.java:804-805 | for a registry class neither the restrictions nor the bean population make any difference |
| `RandomInstances.RandomInstanceOfList` | src/main/java/org/exparity/stub/random/RandomBuilder.java:626-628 | a failure to resolve the factory (the build) reaches the caller as raised, after the population's draws; otherwise the result is the factory's `createValue`, made from the state the build left |
| `RandomInstances.RandomInstanceOf` | src/main/java/org/exparity/stub/random/RandomBuilder.java:583-592 | never lets a `BeanBuilderException` or `ValueFactoryException` escape; succeeds exactly when the `List` overload does, with the same value |
| `RandomInstances.RandomInstanceOfType` | src/main/java/org/exparity/stub/random/RandomBuilder.java:550-552 | `aRandomInstanceOf(type)` succeeds exactly when the `List` overload with no restrictions does, with the same value and the same draws; a builder or factory failure becomes a `RandomBuilderException` naming the type with the original as cause; any other failure passes through |
| `RandomInstances.ErrorMapping` | src/main/java/org/exparity/stub/random/RandomBuilder.java:586-590 | a builder or factory failure reaches the varargs caller as a `RandomBuilderException` naming the type and carrying the original as cause; any other failure passes through unchanged |
| `RandomInstances.BuildFailureMapping` | src/main/java/org/exparity/stub/random/RandomBuilder.java:626-628 | a build failure reaches the `List` caller unwrapped and the varargs caller wrapped |
| `RandomInstances.BuiltInstanceReturned` | src/main/java/org/exparity/stub/random/RandomBuilder.java:810-811 | the instance returned for a non-registry class is the one the builder built from the caller's restrictions |
| `RandomInstances.RandomArrayOf` | src/main/java/org/exparity/stub/random/RandomBuilder.java:474-476 | the element factory is resolved first, and its failure escapes unwrapped with only the population's draws made; then the length is `aRandomInteger(min, max)` and that many elements are created in order; for a non-registry type every element is the one built instance |
| `RandomInstances.RandomListOf` | src/main/java/org/exparity/stub/random/RandomBuilder.java:534-536 | the list has the random array's length and elements, in order |
| `RandomInstances.RandomCollectionOf` | src/main/java/org/exparity/stub/random/RandomBuilder.java:504-506 | the collection is the random array's elements, in order; a success means the element factory resolved, and for a non-registry type it succeeds exactly when the build does; its size is `min` when the bounds are equal and otherwise lies in `[min, max)` |
| `RandomInstances.DefaultSizes` | src/main/java/org/exparity/stub/random/RandomBuilder.java:458-460 | without bounds, arrays and collections hold 2 to 9 elements |
| `RandomInstances.RandomArrayOfEnum` | src/main/java/org/exparity/stub/random/RandomBuilder.java:443-446 | the length is `aRandomInteger(min, max)` and that many elements are created in order by the enum factory; size within the bounds |
| `ValueFactories.CreateValue` | src/main/java/org/exparity/stub/random/RandomBuilder.java:585 | a fixed-value factory returns its value without drawing; any other factory's value and draws are those of its own `createValue` |
| `ValueFactories.CreateValues` | src/main/java/org/exparity/stub/random/RandomBuilder.java:475 | a success holds `n` values; a fixed-value factory fills every slot with its value and draws nothing |
| `ValueFactories.CreateValuesPrefix` | src/main/java/org/exparity/stub/random/RandomBuilder.java:475 | elements are created in index order, each independent of how many follow: the first `k` of `n` successful creations are what creating `k` gives |
| `RandomInstances.ArrayOfBeansSharesOneInstance` | src/main/java/org/exparity/stub/random/RandomBuilder.java:810 | even when every build makes a new object, an array of a bean type holds one instance in all slots |
| `RandomInstances.SeparateBuildsDiffer` | src/main/java/org/exparity/stub/random/RandomBuilder.java:474-476 | `n` separate builds, each making a new object, succeed and give objects in build order, all different |
| `RandomInstances.RandomArrayOfSeparateBuilds` | src/main/java/org/exparity/stub/random/RandomBuilder.java:474-476 | the array with each element built separately: unchanged for a registry type, size within the bounds |
| `RandomInstances.SeparateBuildsGiveDistinctElements` | src/main/java/org/exparity/stub/random/RandomBuilder.java:474-476 | with separate builds, every two elements of an array of a bean type are different objects |

## Left out

- The random source itself: it is an oracle, so no distribution is claimed, only ranges, draw counts and reachability. `nextInt()` is taken as commons-lang3's `nextInt(0, Integer.MAX_VALUE)`.
- `aRandomString`, `aRandomChar`, `aRandomDouble`, `aRandomFloat`, `aRandomBoolean`, `aRandomLong()`: pass-throughs to commons-lang's `RandomStringUtils` and `RandomUtils`, or floating point. Neither library is part of this model.
- The clock: the date and time generators add their offset to `new Date()` or `now()`. Only the offset draws are modelled.
- `BeanBuilder` internals (reflective population, path-versus-property precedence, subtype choice, exclusions) are not part of this model. Building is the parameter `populate`, applied to the type and the ordered log of restrictions. "Last applied wins" is stated per scope as an ordering property of that log.
- `ValueFactories` internals (`aRandomArrayOf`, `aRandomEnum`, `theValue`, and the scalar generators the registry points at) are not part of this model:
  - `createValue` of a non-fixed factory is the parameter `external`, which also passes on the generator state;
  - `ValueFactories.aRandomArrayOf(factory).createValue(type, n)` is taken to call the element factory `n` times, in index order, and to fail on the first failure.
- Scope granularity: a collection-size restriction and its range variant count as the same scope, and so do `subtype` and its varargs form. Whether `BeanBuilder` really treats them as overriding one another is not part of this model.
- `RandomBuilder.RandomInteger`: requires `min <= max` with `max - min` fitting in an `int`. With `min > max`, commons-lang3 throws `IllegalArgumentException`. When the difference overflows, the wrapped negative bound makes it throw too. Neither exception is modelled.
- `RandomBuilder.RandomLongIn`: same precondition as `RandomInteger`, for the same reason.
- `RandomBuilder.RandomShortIn`: requires `min <= max`; the `min > max` exception is not modelled.
- `RandomInstances.RandomArrayOf`, `RandomInstances.RandomListOf`, `RandomInstances.RandomCollectionOf` and `RandomInstances.RandomArrayOfEnum` require `0 <= min <= max`. A negative drawn length fails inside `ValueFactories` (negative array size), which is not part of this model.
- `RandomInstances.RandomArrayOfEnum`: Java evaluates `ValueFactories.aRandomArrayOf(ValueFactories.aRandomEnum(enumType))` before the length argument. Making those factories is taken to draw nothing and never to fail, so the length draw is the first draw the model makes.
- Caller-written restrictions: `RandomRestriction` is a public functional interface, so a caller may pass a lambda whose `applyTo` makes any number of builder calls or throws inside the `try`. The `Restriction` datatype covers only the library's own restriction constructors, each of which makes one configuration call.
- Class identity: a `Named` class token is assumed to name a class other than the primitives, their wrappers, `String`, `BigDecimal` and `Date`, which have their own constructors.

## Findings

| source | as written | input that shows it | evidently intended | confidence | as-written member | corrected member |
|---|---|---|---|---|---|---|
| src/main/java/org/exparity/stub/random/RandomBuilder.java:84 | `SECONDS_IN_A_YEAR = MINUTES_PER_HOUR * HOURS_PER_DAY * DAYS_PER_YEAR` is 525600, the minutes in a year; used as a count of seconds | any generator state: `aRandomDate()` and the other year-window generators add at most 525599 seconds, about six days | 31536000 seconds, so that the offset can reach a year | not executed | `RandomBuilder.YearOffsetAsWrittenUnderAWeek` | `RandomBuilder.YearOffsetCoversYear` |
| src/main/java/org/exparity/stub/random/RandomBuilder.java:85 | `SECONDS_IN_12_HOURS = MINUTES_PER_HOUR * 12` is 720, twelve minutes of seconds | any generator state: `aRandomLocalTime()` adds at most 719 seconds | 43200 seconds, twelve hours | not executed | `RandomBuilder.TimeOffsetAsWrittenUnderFifteenMinutes` | `RandomBuilder.TimeOffsetCoversTwelveHours` |
| src/main/java/org/exparity/stub/random/RandomBuilder.java:810 | `theValue(builder.build())` builds one instance, and `aRandomArrayOf(type, min, max)` hands that factory to the array, so every element of an array of a bean type is the same object | `aRandomArrayOf(Person.class, 3, 3)` with any bean population that makes a new object per build | each element built separately, giving independent elements | not executed | `RandomInstances.ArrayOfBeansSharesOneInstance` | `RandomInstances.SeparateBuildsGiveDistinctElements` |
| src/main/java/org/exparity/stub/random/RandomBuilder.java:248 | `rangeOfValues[nextInt(0, rangeOfValues.length)]` with no arguments is `rangeOfValues[0]` on an empty array | `oneOf()`: `nextInt(0, 0)` returns 0 and the access throws `ArrayIndexOutOfBoundsException` | `null` when there is nothing to pick, for a null or an empty argument list | not executed | `RandomBuilder.OneOfNoArgumentsFails` | `RandomBuilder.OneOfOrNull` |
