/** Random instances of arbitrary types: the choice between a registry default and
    a configured bean builder (`instanceFactoryFor`), the `aRandomInstanceOf`
    entry points with their different error mapping, and random arrays, lists and
    collections. Every step that may draw (the bean population, a factory's
    `createValue`, the length draw) passes the generator state on, so the order of
    the draws is part of each contract. */
module RandomInstances {
  import opened JavaLang
  import opened RandomUtils
  import opened ValueFactories
  import opened Restrictions
  import opened ScalarRegistry
  import RandomBuilder

  /** What `instanceFactoryFor(type, restrictions)` returns: the registry
      default for a scalar class, with no draw; otherwise a fixed-value factory
      holding the instance the bean builder builds from exactly `restrictions`,
      or the builder's failure. */
  function FactoryFor(target: Class, restrictions: seq<Restriction>, populate: Population, g: Rng)
    : Drawn<Result<ValueFactory>>
  {
    if target in RandomFactories then Drawn(Success(Scalar(RandomFactories[target])), g)
    else
      var built := populate(target, restrictions, g);
      match built.value
      case Success(instance) => Drawn(Success(TheValue(instance)), built.rest)
      case Failure(e) => Drawn(Failure(e), built.rest)
  }

  /** `instanceFactoryFor(type, restrictions...)`: a registry hit returns the
      default without creating a builder; otherwise a fresh builder receives every
      restriction once, in argument order, and is then built. */
  method InstanceFactoryFor(target: Class, restrictions: seq<Restriction>, populate: Population, g: Rng)
    returns (factory: Drawn<Result<ValueFactory>>)
    ensures factory == FactoryFor(target, restrictions, populate, g)
    ensures target in RandomFactories ==> factory == Drawn(Success(Scalar(RandomFactories[target])), g)
    ensures target !in RandomFactories ==>
      var built := populate(target, restrictions, g);
      factory.rest == built.rest &&
      (factory.value.Success? <==> built.value.Success?) &&
      (factory.value.Success? ==> factory.value.value == TheValue(built.value.value)) &&
      (factory.value.Failure? ==> factory.value.error == built.value.error)
  {
    if target in RandomFactories {
      return Drawn(Success(Scalar(RandomFactories[target])), g);
    }
    var builder := new BeanBuilder.ARandomInstanceOf(target);
    for i := 0 to |restrictions|
      invariant builder.beanType == target && !builder.consumed
      invariant builder.applied == restrictions[..i]
    {
      builder.Apply(restrictions[i]);
      assert restrictions[..i + 1] == restrictions[..i] + [restrictions[i]];
    }
    assert restrictions[..|restrictions|] == restrictions;
    var built := builder.Build(populate, g);
    match built.value
    case Success(instance) => factory := Drawn(Success(TheValue(instance)), built.rest);
    case Failure(e) => factory := Drawn(Failure(e), built.rest);
  }

  /** A registry class is produced by its default generator: the restrictions
      and the bean builder play no part, and nothing is drawn to find it. */
  lemma ScalarsIgnoreRestrictions(target: Class, restrictions: seq<Restriction>, populate: Population,
                                  other: Population, g: Rng)
    requires target in RandomFactories
    ensures FactoryFor(target, restrictions, populate, g) == FactoryFor(target, [], other, g)
    ensures FactoryFor(target, restrictions, populate, g).value.Success?
    ensures FactoryFor(target, restrictions, populate, g).rest == g
  {
  }

  /** `aRandomInstanceOf(type, List<RandomRestriction>)`: the factory's value.
      Whatever fails (the bean builder, or the factory's `createValue`) reaches
      the caller as it was raised. */
  function RandomInstanceOfList(target: Class, restrictions: seq<Restriction>, populate: Population,
                                external: ExternalFactories, g: Rng): (d: Drawn<Result<Value>>)
    ensures var f := FactoryFor(target, restrictions, populate, g);
      f.value.Failure? ==> d == Drawn(Failure(f.value.error), f.rest)
    ensures var f := FactoryFor(target, restrictions, populate, g);
      f.value.Success? ==> d == CreateValue(f.value.value, external, f.rest)
  {
    var f := FactoryFor(target, restrictions, populate, g);
    match f.value
    case Failure(e) => Drawn(Failure(e), f.rest)
    case Success(factory) => CreateValue(factory, external, f.rest)
  }

  /** The message `aRandomInstanceOf` gives the exception it wraps. */
  function FailureMessage(target: Class): string {
    "Failed to create a random instance of " + ClassName(target)
  }

  /** `aRandomInstanceOf(type, restrictions...)`: the same computation inside a
      `try` that turns a `BeanBuilderException` or a `ValueFactoryException` into
      a `RandomBuilderException` naming the type and carrying the original as
      its cause. Other failures escape unchanged. */
  function RandomInstanceOf(target: Class, restrictions: seq<Restriction>, populate: Population,
                            external: ExternalFactories, g: Rng): (d: Drawn<Result<Value>>)
    ensures d.value.Failure? ==> !d.value.error.BeanBuilderException? && !d.value.error.ValueFactoryException?
    ensures d.value.Success? <==> RandomInstanceOfList(target, restrictions, populate, external, g).value.Success?
    ensures d.value.Success? ==> d == RandomInstanceOfList(target, restrictions, populate, external, g)
    ensures d.rest == RandomInstanceOfList(target, restrictions, populate, external, g).rest
  {
    var attempt := RandomInstanceOfList(target, restrictions, populate, external, g);
    match attempt.value
    case Failure(e) =>
      if e.BeanBuilderException? || e.ValueFactoryException? then
        Drawn(Failure(RandomBuilderException(FailureMessage(target), Some(e))), attempt.rest)
      else attempt
    case Success(_) => attempt
  }

  /** `aRandomInstanceOf(type)`: no restrictions, and the builder's and the
      factories' failures wrapped as in the varargs form. */
  function RandomInstanceOfType(target: Class, populate: Population, external: ExternalFactories, g: Rng)
    : (d: Drawn<Result<Value>>)
    ensures d.value.Failure? ==> !d.value.error.BeanBuilderException? && !d.value.error.ValueFactoryException?
    ensures var l := RandomInstanceOfList(target, [], populate, external, g);
      d.rest == l.rest && (d.value.Success? <==> l.value.Success?) && (l.value.Success? ==> d.value == l.value)
    ensures var l := RandomInstanceOfList(target, [], populate, external, g);
      l.value.Failure? && (l.value.error.BeanBuilderException? || l.value.error.ValueFactoryException?) ==>
        d.value == Failure(RandomBuilderException(FailureMessage(target), Some(l.value.error)))
    ensures var l := RandomInstanceOfList(target, [], populate, external, g);
      l.value.Failure? && !(l.value.error.BeanBuilderException? || l.value.error.ValueFactoryException?) ==>
        d.value == l.value
  {
    RandomInstanceOf(target, [], populate, external, g)
  }

  /** The two entry points see the same failures; the varargs one wraps the
      builder's and the factories' in a `RandomBuilderException`, the list one
      does not. */
  lemma ErrorMapping(target: Class, restrictions: seq<Restriction>, populate: Population,
                     external: ExternalFactories, g: Rng, e: Exception)
    requires RandomInstanceOfList(target, restrictions, populate, external, g).value == Failure(e)
    ensures e.BeanBuilderException? || e.ValueFactoryException? ==>
      RandomInstanceOf(target, restrictions, populate, external, g).value
        == Failure(RandomBuilderException(FailureMessage(target), Some(e)))
    ensures !(e.BeanBuilderException? || e.ValueFactoryException?) ==>
      RandomInstanceOf(target, restrictions, populate, external, g).value == Failure(e)
  {
  }

  /** A build failure of a non-scalar class reaches the list caller unwrapped
      and the varargs caller wrapped. */
  lemma BuildFailureMapping(target: Class, restrictions: seq<Restriction>, populate: Population,
                            external: ExternalFactories, g: Rng, message: string)
    requires target !in RandomFactories
    requires populate(target, restrictions, g).value == Failure(BeanBuilderException(message))
    ensures RandomInstanceOfList(target, restrictions, populate, external, g).value
      == Failure(BeanBuilderException(message))
    ensures RandomInstanceOf(target, restrictions, populate, external, g).value
      == Failure(RandomBuilderException(FailureMessage(target), Some(BeanBuilderException(message))))
  {
  }

  /** A successfully built non-scalar instance is exactly what the bean builder
      produced from the caller's restrictions, through either entry point, and
      only the population's draws are made. */
  lemma BuiltInstanceReturned(target: Class, restrictions: seq<Restriction>, populate: Population,
                              external: ExternalFactories, g: Rng, instance: Value)
    requires target !in RandomFactories
    requires populate(target, restrictions, g).value == Success(instance)
    ensures RandomInstanceOf(target, restrictions, populate, external, g)
      == Drawn(Success(instance), populate(target, restrictions, g).rest)
    ensures RandomInstanceOfList(target, restrictions, populate, external, g)
      == Drawn(Success(instance), populate(target, restrictions, g).rest)
  {
  }

  // ---------------------------------------------------------------------------
  // Arrays, lists and collections

  /** `aRandomArrayOf(type, min, max)`: the element factory is resolved first
      (`instanceFactoryFor(type)` with no restrictions, whose failure escapes
      unwrapped before the length is drawn); then the length is drawn by
      `aRandomInteger(min, max)` and that many elements are created, in order.
      For a non-scalar type the factory is `theValue` of one built instance, so
      every element is that instance. */
  function RandomArrayOf(target: Class, min: Int32, max: Int32, populate: Population,
                         external: ExternalFactories, g: Rng): (d: Drawn<Result<seq<Value>>>)
    requires 0 <= min <= max
    ensures var f := FactoryFor(target, [], populate, g);
      f.value.Failure? ==> d == Drawn(Failure(f.value.error), f.rest)
    ensures var f := FactoryFor(target, [], populate, g);
      f.value.Success? && min == max ==> d == CreateValues(f.value.value, min, external, f.rest)
    ensures var f := FactoryFor(target, [], populate, g);
      f.value.Success? && min < max ==>
        var n := RandomBuilder.RandomInteger(min, max, f.rest);
        min <= n.value < max && d == CreateValues(f.value.value, n.value, external, n.rest)
    ensures d.value.Success? ==> min <= |d.value.value| && (min == max || |d.value.value| < max)
    ensures target !in RandomFactories && d.value.Success? ==>
      forall i :: 0 <= i < |d.value.value| ==> d.value.value[i] == populate(target, [], g).value.value
  {
    var f := FactoryFor(target, [], populate, g);
    match f.value
    case Failure(e) => Drawn(Failure(e), f.rest)
    case Success(factory) =>
      var n := RandomBuilder.RandomInteger(min, max, f.rest);
      CreateValues(factory, n.value, external, n.rest)
  }

  /** `aRandomListOf(type, min, max)`: `Arrays.asList` of the random array, so
      the same elements in the same order. */
  function RandomListOf(target: Class, min: Int32, max: Int32, populate: Population,
                        external: ExternalFactories, g: Rng): (d: Drawn<Result<seq<Value>>>)
    requires 0 <= min <= max
    ensures d == RandomArrayOf(target, min, max, populate, external, g)
  {
    var drawn := RandomArrayOf(target, min, max, populate, external, g);
    match drawn.value
    case Failure(e) => Drawn(Failure(e), drawn.rest)
    case Success(elements) => Drawn(Success(elements[..]), drawn.rest)
  }

  /** `aRandomCollectionOf(type, min, max)`: the random list, so the random
      array's elements, in its order. */
  function RandomCollectionOf(target: Class, min: Int32, max: Int32, populate: Population,
                              external: ExternalFactories, g: Rng): (d: Drawn<Result<seq<Value>>>)
    requires 0 <= min <= max
    ensures d == RandomArrayOf(target, min, max, populate, external, g)
    ensures d.value.Success? ==> FactoryFor(target, [], populate, g).value.Success?
    ensures target !in RandomFactories ==>
      (d.value.Success? <==> FactoryFor(target, [], populate, g).value.Success?)
    ensures d.value.Success? && min == max ==> |d.value.value| == min
    ensures d.value.Success? && min < max ==> min <= |d.value.value| < max
  {
    RandomListOf(target, min, max, populate, external, g)
  }

  /** Without bounds, arrays and collections hold 2 to 9 elements. */
  lemma DefaultSizes(target: Class, populate: Population, external: ExternalFactories, g: Rng)
    ensures var a := RandomArrayOf(target, RandomBuilder.DEFAULT_MIN_ARRAY_SIZE,
                                   RandomBuilder.DEFAULT_MAX_ARRAY_SIZE, populate, external, g).value;
            a.Success? ==> 2 <= |a.value| < 10
    ensures var c := RandomCollectionOf(target, RandomBuilder.DEFAULT_MIN_ARRAY_SIZE,
                                        RandomBuilder.DEFAULT_MAX_ARRAY_SIZE, populate, external, g).value;
            c.Success? ==> 2 <= |c.value| < 10
  {
  }

  /** `aRandomArrayOfEnum(enumType, min, max)`: the length is drawn by
      `aRandomInteger(min, max)` and the enum factory creates each element,
      in order. Making the enum factory itself is taken to draw nothing and
      not to fail. */
  function RandomArrayOfEnum(enumType: Class, min: Int32, max: Int32, external: ExternalFactories, g: Rng)
    : (d: Drawn<Result<seq<Value>>>)
    requires 0 <= min <= max
    ensures min == max ==> d == CreateValues(EnumValues(enumType), min, external, g)
    ensures min < max ==>
      var n := RandomBuilder.RandomInteger(min, max, g);
      min <= n.value < max && d == CreateValues(EnumValues(enumType), n.value, external, n.rest)
    ensures d.value.Success? ==> min <= |d.value.value| && (min == max || |d.value.value| < max)
  {
    var n := RandomBuilder.RandomInteger(min, max, g);
    CreateValues(EnumValues(enumType), n.value, external, n.rest)
  }

  // ---------------------------------------------------------------------------
  // Arrays of beans: one shared instance, and separate builds

  /** A bean population that makes a new object on every build: the object's
      token is the draw position the build starts at, and the build draws. */
  ghost predicate NumbersBuilds(populate: Population, target: Class) {
    forall g: Rng ::
      populate(target, [], g).value.Success? &&
      populate(target, [], g).value.value.token == g.pos &&
      populate(target, [], g).rest.pos > g.pos
  }

  /** As written, an array of a bean type holds one instance in every slot,
      even when every build makes a new object. */
  lemma ArrayOfBeansSharesOneInstance(target: Class, min: Int32, max: Int32, populate: Population,
                                      external: ExternalFactories, g: Rng)
    requires target !in RandomFactories && NumbersBuilds(populate, target)
    requires 2 <= min <= max
    ensures var d := RandomArrayOf(target, min, max, populate, external, g).value;
      d.Success? && |d.value| >= 2 && d.value[0] == d.value[1]
  {
    var f := FactoryFor(target, [], populate, g);
    assert f.value == Success(TheValue(populate(target, [], g).value.value));
  }

  /** `n` separate builds of `target`, one after another. */
  function BuildEach(target: Class, n: nat, populate: Population, g: Rng): (d: Drawn<Result<seq<Value>>>)
    ensures d.value.Success? ==> |d.value.value| == n
  {
    if n == 0 then Drawn(Success([]), g)
    else
      var front := BuildEach(target, n - 1, populate, g);
      match front.value
      case Failure(e) => Drawn(Failure(e), front.rest)
      case Success(values) =>
        var next := populate(target, [], front.rest);
        match next.value
        case Failure(e) => Drawn(Failure(e), next.rest)
        case Success(v) => Drawn(Success(values + [v]), next.rest)
  }

  /** Tokens that lie in `[lo, hi)` and strictly increase along the sequence. */
  predicate TokensIncreasing(values: seq<Value>, lo: nat, hi: nat) {
    (forall i :: 0 <= i < |values| ==> lo <= values[i].token < hi) &&
    (forall i, j :: 0 <= i < j < |values| ==> values[i].token < values[j].token)
  }

  /** Appending a value whose token is past all earlier ones keeps the order. */
  lemma AppendIncreasing(values: seq<Value>, v: Value, lo: nat, hi: nat, hi': nat)
    requires TokensIncreasing(values, lo, hi)
    requires lo <= hi <= v.token < hi'
    ensures TokensIncreasing(values + [v], lo, hi')
  {
    var extended := values + [v];
    forall i | 0 <= i < |values|
      ensures extended[i] == values[i]
    {
    }
  }

  /** Separate builds that each make a new object give pairwise different
      elements, in increasing token order. */
  lemma {:induction false} SeparateBuildsDiffer(target: Class, n: nat, populate: Population, g: Rng)
    requires NumbersBuilds(populate, target)
    ensures var d := BuildEach(target, n, populate, g);
      d.value.Success? && g.pos <= d.rest.pos && TokensIncreasing(d.value.value, g.pos, d.rest.pos)
  {
    if n > 0 {
      SeparateBuildsDiffer(target, n - 1, populate, g);
      var front := BuildEach(target, n - 1, populate, g);
      var next := populate(target, [], front.rest);
      assert next.value.Success? && next.value.value.token == front.rest.pos && next.rest.pos > front.rest.pos;
      AppendIncreasing(front.value.value, next.value.value, g.pos, front.rest.pos, next.rest.pos);
    }
  }

  /** `aRandomArrayOf` with a bean type built once per element, as the array
      contract intends; scalar types are unchanged. */
  function RandomArrayOfSeparateBuilds(target: Class, min: Int32, max: Int32, populate: Population,
                                       external: ExternalFactories, g: Rng): (d: Drawn<Result<seq<Value>>>)
    requires 0 <= min <= max
    ensures target in RandomFactories ==> d == RandomArrayOf(target, min, max, populate, external, g)
    ensures d.value.Success? ==> min <= |d.value.value| && (min == max || |d.value.value| < max)
  {
    if target in RandomFactories then RandomArrayOf(target, min, max, populate, external, g)
    else
      var n := RandomBuilder.RandomInteger(min, max, g);
      BuildEach(target, n.value, populate, n.rest)
  }

  /** With separate builds, every element of an array of beans is a different
      object. */
  lemma SeparateBuildsGiveDistinctElements(target: Class, min: Int32, max: Int32, populate: Population,
                                           external: ExternalFactories, g: Rng)
    requires target !in RandomFactories && NumbersBuilds(populate, target)
    requires 0 <= min <= max
    ensures var d := RandomArrayOfSeparateBuilds(target, min, max, populate, external, g).value;
      d.Success? && forall i, j :: 0 <= i < j < |d.value| ==> d.value[i] != d.value[j]
  {
    var n := RandomBuilder.RandomInteger(min, max, g);
    SeparateBuildsDiffer(target, n.value, populate, n.rest);
    var d := BuildEach(target, n.value, populate, n.rest).value.value;
    assert TokensIncreasing(d, n.rest.pos, BuildEach(target, n.value, populate, n.rest).rest.pos);
  }
}
