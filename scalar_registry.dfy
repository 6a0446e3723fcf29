/** The registry of scalar classes: the classes `RandomBuilder` generates
    directly, with the default generator for each. */
module ScalarRegistry {
  import opened JavaLang
  import opened ValueFactories

  /** One `put(class, factory)` call. */
  type Entry = (Class, ScalarGenerator)

  /** The `put` calls of the `RANDOM_FACTORIES` initialiser, in the order they
      are made. */
  const Puts: seq<Entry> := [
    (WrapperClass(Short), ShortValues),
    (PrimitiveClass(Short), ShortValues),
    (WrapperClass(Int), IntegerValues),
    (PrimitiveClass(Int), IntegerValues),
    (WrapperClass(Long), LongValues),
    (PrimitiveClass(Long), LongValues),
    (WrapperClass(Double), DoubleValues),
    (PrimitiveClass(Double), DoubleValues),
    (WrapperClass(Float), FloatValues),
    (PrimitiveClass(Float), FloatValues),
    (WrapperClass(Boolean), BooleanValues),
    (PrimitiveClass(Boolean), BooleanValues),
    (WrapperClass(Byte), ByteValues),
    (PrimitiveClass(Byte), ByteValues),
    (WrapperClass(Char), CharValues),
    (PrimitiveClass(Char), CharValues),
    (StringClass, StringValues),
    (BigDecimalClass, DecimalValues),
    (DateClass, DateValues)
  ]

  /** A `HashMap` after the given `put` calls on an empty one. */
  function PutAll(entries: seq<Entry>): (m: map<Class, ScalarGenerator>)
    ensures forall c :: c in m <==> exists i :: 0 <= i < |entries| && entries[i].0 == c
  {
    if entries == [] then map[]
    else
      var prefix := entries[..|entries| - 1];
      var last := entries[|entries| - 1];
      assert forall i :: 0 <= i < |prefix| ==> prefix[i] == entries[i];
      PutAll(prefix)[last.0 := last.1]
  }

  /** `RANDOM_FACTORIES`: never changed after initialisation. */
  const RandomFactories: map<Class, ScalarGenerator> := PutAll(Puts)

  /** No class is put twice. */
  predicate DistinctKeys(entries: seq<Entry>) {
    forall i, j :: 0 <= i < j < |entries| ==> entries[i].0 != entries[j].0
  }

  /** A key maps to the value of the last `put` of that key. */
  lemma {:induction false} PutAllLastWins(entries: seq<Entry>, i: nat)
    requires i < |entries|
    requires forall j :: i < j < |entries| ==> entries[j].0 != entries[i].0
    ensures entries[i].0 in PutAll(entries) && PutAll(entries)[entries[i].0] == entries[i].1
    decreases |entries|
  {
    if i < |entries| - 1 {
      var prefix := entries[..|entries| - 1];
      assert prefix[i] == entries[i];
      PutAllLastWins(prefix, i);
    }
  }

  /** With no key put twice, the map has one entry per `put`. */
  lemma {:induction false} PutAllSize(entries: seq<Entry>)
    requires DistinctKeys(entries)
    ensures |PutAll(entries)| == |entries|
    decreases |entries|
  {
    if entries != [] {
      var prefix := entries[..|entries| - 1];
      var last := entries[|entries| - 1];
      assert DistinctKeys(prefix) by {
        forall i, j | 0 <= i < j < |prefix| ensures prefix[i].0 != prefix[j].0 {
          assert prefix[i] == entries[i] && prefix[j] == entries[j];
        }
      }
      PutAllSize(prefix);
      assert last.0 !in PutAll(prefix) by {
        forall i | 0 <= i < |prefix| ensures prefix[i].0 != last.0 {
          assert prefix[i] == entries[i];
        }
      }
    }
  }

  /** The place of each primitive kind in the put order. */
  function Ordinal(k: Primitive): nat {
    match k
    case Short => 0
    case Int => 1
    case Long => 2
    case Double => 3
    case Float => 4
    case Boolean => 5
    case Byte => 6
    case Char => 7
  }

  /** Where a class is put in the initialiser; -1 for a class never put. */
  function Position(c: Class): int {
    match c
    case WrapperClass(k) => 2 * Ordinal(k)
    case PrimitiveClass(k) => 2 * Ordinal(k) + 1
    case StringClass => 16
    case BigDecimalClass => 17
    case DateClass => 18
    case Named(_) => -1
  }

  /** The default generator for a class of each kind. */
  function KindGenerator(k: Primitive): ScalarGenerator {
    match k
    case Short => ShortValues
    case Int => IntegerValues
    case Long => LongValues
    case Double => DoubleValues
    case Float => FloatValues
    case Boolean => BooleanValues
    case Byte => ByteValues
    case Char => CharValues
  }

  /** The generator each scalar class is put with: its kind's for a primitive
      or wrapper class, and the string, decimal and date generators. */
  function DefaultGenerator(c: Class): ScalarGenerator
    requires !c.Named?
  {
    match c
    case PrimitiveClass(k) => KindGenerator(k)
    case WrapperClass(k) => KindGenerator(k)
    case StringClass => StringValues
    case BigDecimalClass => DecimalValues
    case DateClass => DateValues
  }

  lemma PutsInOrder()
    ensures |Puts| == 19
    ensures forall i :: 0 <= i < |Puts| ==> Position(Puts[i].0) == i
    ensures forall i :: 0 <= i < |Puts| ==> !Puts[i].0.Named? && Puts[i].1 == DefaultGenerator(Puts[i].0)
  {
  }

  lemma PositionInjective(a: Class, b: Class)
    requires Position(a) == Position(b) >= 0
    ensures a == b
  {
  }

  lemma PutsDistinct()
    ensures DistinctKeys(Puts)
  {
    PutsInOrder();
    forall i, j | 0 <= i < j < |Puts| ensures Puts[i].0 != Puts[j].0 {
      assert Position(Puts[i].0) == i && Position(Puts[j].0) == j;
    }
  }

  /** Each class with a place in the put order is registered with its default
      generator. */
  lemma Registered(c: Class)
    requires Position(c) >= 0
    ensures c in RandomFactories && RandomFactories[c] == DefaultGenerator(c)
  {
    PutsInOrder();
    PutsDistinct();
    var i := Position(c);
    PositionInjective(Puts[i].0, c);
    PutAllLastWins(Puts, i);
  }

  /** No other class is registered. */
  lemma Unregistered(name: string)
    ensures Named(name) !in RandomFactories
  {
    PutsInOrder();
  }

  /** One entry per `put`: nineteen. */
  lemma RegistrySize()
    ensures |RandomFactories| == 19
  {
    PutsInOrder();
    PutsDistinct();
    PutAllSize(Puts);
  }

  /** The registry holds nineteen classes: exactly the primitive classes, their
      wrappers, `String`, `BigDecimal` and `Date`, each with its default
      generator. */
  lemma RegistryContents()
    ensures |RandomFactories| == 19
    ensures forall c :: c in RandomFactories <==> !c.Named?
    ensures forall c :: c in RandomFactories ==> RandomFactories[c] == DefaultGenerator(c)
  {
    RegistrySize();
    forall c
      ensures c in RandomFactories <==> !c.Named?
      ensures c in RandomFactories ==> RandomFactories[c] == DefaultGenerator(c)
    {
      if c.Named? {
        Unregistered(c.name);
      } else {
        Registered(c);
      }
    }
  }

  /** Each primitive class and its wrapper share their kind's generator; the
      other three classes have the string, decimal and date generators. */
  lemma RegistryValues(k: Primitive)
    ensures PrimitiveClass(k) in RandomFactories && WrapperClass(k) in RandomFactories
    ensures RandomFactories[PrimitiveClass(k)] == RandomFactories[WrapperClass(k)] == KindGenerator(k)
    ensures StringClass in RandomFactories && RandomFactories[StringClass] == StringValues
    ensures BigDecimalClass in RandomFactories && RandomFactories[BigDecimalClass] == DecimalValues
    ensures DateClass in RandomFactories && RandomFactories[DateClass] == DateValues
  {
    Registered(PrimitiveClass(k));
    Registered(WrapperClass(k));
    Registered(StringClass);
    Registered(BigDecimalClass);
    Registered(DateClass);
  }
}
