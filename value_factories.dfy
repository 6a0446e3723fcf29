/** Values and value factories as the random builder sees them. How a scalar
    generator, an enum factory or a caller's own factory produces its value lives
    outside the builder, so `CreateValue` takes that behaviour as a parameter; only
    the fixed-value factory (`ValueFactories.theValue`) is defined here. Creating a
    value may draw from the random source, so the generator state is passed
    through every creation. */
module ValueFactories {
  import opened JavaLang
  import opened RandomUtils

  /** An object the builder hands back: its class and an identity token. */
  datatype Value = Value(ofClass: Class, token: nat)

  /** The default generators the scalar registry points at. */
  datatype ScalarGenerator =
    | ShortValues | IntegerValues | LongValues | DoubleValues | FloatValues
    | BooleanValues | ByteValues | CharValues | StringValues | DecimalValues | DateValues

  datatype ValueFactory =
    | Scalar(generator: ScalarGenerator)  // a registry default
    | TheValue(value: Value)              // always returns the value it was built from
    | EnumValues(enumType: Class)         // a random constant of an enum, named only: its constants are not modelled here
    | Supplied(name: string)              // a factory supplied by the caller

  /** What running a factory's `createValue()` does outside this model: a value
      or a failure, and the generator state after its draws. */
  type ExternalFactories = (ValueFactory, Rng) -> Drawn<Result<Value>>

  /** `ValueFactory.createValue()`: a fixed-value factory returns its value,
      cannot fail and draws nothing; any other factory does what `external`
      says. */
  function CreateValue(factory: ValueFactory, external: ExternalFactories, g: Rng): (d: Drawn<Result<Value>>)
    ensures factory.TheValue? ==> d.value == Success(factory.value) && d.rest == g
    ensures !factory.TheValue? ==> d == external(factory, g)
  {
    match factory
    case TheValue(v) => Drawn(Success(v), g)
    case _ => external(factory, g)
  }

  /** `ValueFactories.aRandomArrayOf(factory).createValue(type, n)`: `n` values
      created one after another by the element factory, each creation starting
      from the state the previous one left; the first failure ends the array.
      A fixed-value factory fills every slot with its one value. */
  function CreateValues(factory: ValueFactory, n: nat, external: ExternalFactories, g: Rng)
    : (d: Drawn<Result<seq<Value>>>)
    ensures d.value.Success? ==> |d.value.value| == n
    ensures factory.TheValue? ==>
      d.value.Success? && d.rest == g && forall i :: 0 <= i < n ==> d.value.value[i] == factory.value
  {
    if n == 0 then Drawn(Success([]), g)
    else
      var front := CreateValues(factory, n - 1, external, g);
      match front.value
      case Failure(e) => Drawn(Failure(e), front.rest)
      case Success(values) =>
        var next := CreateValue(factory, external, front.rest);
        match next.value
        case Failure(e) => Drawn(Failure(e), next.rest)
        case Success(v) => Drawn(Success(values + [v]), next.rest)
  }

  /** Elements are created in index order and each depends only on the ones
      before it: when `n` creations succeed, the first `k` of them are exactly
      what creating `k` values gives. */
  lemma {:induction false} CreateValuesPrefix(factory: ValueFactory, k: nat, n: nat,
                                               external: ExternalFactories, g: Rng)
    requires k <= n
    requires CreateValues(factory, n, external, g).value.Success?
    ensures CreateValues(factory, k, external, g).value.Success?
    ensures CreateValues(factory, k, external, g).value.value
      == CreateValues(factory, n, external, g).value.value[..k]
  {
    var all := CreateValues(factory, n, external, g).value.value;
    if k == n {
      assert all[..k] == all;
    } else {
      var front := CreateValues(factory, n - 1, external, g);
      assert front.value.Success?;
      var next := CreateValue(factory, external, front.rest);
      assert all == front.value.value + [next.value.value];
      CreateValuesPrefix(factory, k, n - 1, external, g);
      assert all[..k] == front.value.value[..k];
    }
  }
}
