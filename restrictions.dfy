/** Restrictions: the declarative overrides a caller passes to `aRandomInstanceOf`,
    and the bean builder configuration they are applied to. Each restriction,
    applied, makes exactly one configuration call on the builder; the builder keeps
    those calls in order. Where two restrictions target the same scope, the one
    applied last is the one in force. */
module Restrictions {
  import opened JavaLang
  import opened RandomUtils
  import opened ValueFactories

  /** One case per restriction constructor of `RandomBuilder`. */
  datatype Restriction =
    | Property(property: string, value: Value)                    // property(name, value)
    | PropertyFactory(property: string, factory: ValueFactory)    // property(name, factory)
    | Factory(forType: Class, factory: ValueFactory)              // factory(type, factory)
    | ExcludeProperty(property: string)                           // excludeProperty(name)
    | Path(path: string, value: Value)                            // path(path, value)
    | PathFactory(path: string, factory: ValueFactory)            // path(path, factory)
    | ExcludePath(path: string)                                   // excludePath(path)
    | Subtype(superType: Class, subType: Class)                   // subtype(super, sub)
    | Subtypes(superType: Class, subTypes: seq<Class>)            // subtype(super, subs...)
    | CollectionSize(size: int)                                   // collectionSize(size)
    | CollectionSizeRange(min: int, max: int)                     // collectionSize(min, max)
    | CollectionSizeForPath(path: string, size: int)              // collectionSizeForPath(path, size)
    | CollectionSizeRangeForPath(path: string, min: int, max: int)
    | CollectionSizeForProperty(property: string, size: int)      // collectionSizeForProperty(name, size)
    | CollectionSizeRangeForProperty(property: string, min: int, max: int)

  /** What a restriction configures: the value of a property name or of a path
      (assigned or excluded), the factory for a type, the subtypes of a type, or a
      collection size (everywhere, at a path, or for a property name). */
  datatype Scope =
    | PropertyScope(property: string)
    | PathScope(path: string)
    | TypeScope(forType: Class)
    | SubtypeScope(superType: Class)
    | AllCollections
    | CollectionAtPath(path: string)
    | CollectionAtProperty(property: string)

  function ScopeOf(r: Restriction): Scope {
    match r
    case Property(p, _) => PropertyScope(p)
    case PropertyFactory(p, _) => PropertyScope(p)
    case ExcludeProperty(p) => PropertyScope(p)
    case Path(p, _) => PathScope(p)
    case PathFactory(p, _) => PathScope(p)
    case ExcludePath(p) => PathScope(p)
    case Factory(t, _) => TypeScope(t)
    case Subtype(t, _) => SubtypeScope(t)
    case Subtypes(t, _) => SubtypeScope(t)
    case CollectionSize(_) => AllCollections
    case CollectionSizeRange(_, _) => AllCollections
    case CollectionSizeForPath(p, _) => CollectionAtPath(p)
    case CollectionSizeRangeForPath(p, _, _) => CollectionAtPath(p)
    case CollectionSizeForProperty(p, _) => CollectionAtProperty(p)
    case CollectionSizeRangeForProperty(p, _, _) => CollectionAtProperty(p)
  }

  /** The position of the last restriction in `log` that targets `s`, if any. */
  function LastFor(log: seq<Restriction>, s: Scope): (k: Option<nat>)
    ensures k.Some? ==> k.value < |log| && ScopeOf(log[k.value]) == s
    ensures k.Some? ==> forall j :: k.value < j < |log| ==> ScopeOf(log[j]) != s
    ensures k.None? <==> forall j :: 0 <= j < |log| ==> ScopeOf(log[j]) != s
  {
    if log == [] then None
    else if ScopeOf(log[|log| - 1]) == s then Some(|log| - 1)
    else LastFor(log[..|log| - 1], s)
  }

  /** The restriction in force for scope `s` once `log` has been applied. */
  function InForce(log: seq<Restriction>, s: Scope): Option<Restriction> {
    match LastFor(log, s)
    case None => None
    case Some(k) => Some(log[k])
  }

  /** Of two restrictions on the same scope, the later one is what is in force
      unless a third, still later one overrides both. */
  lemma LaterRestrictionWins(log: seq<Restriction>, i: nat, j: nat)
    requires i < j < |log| && ScopeOf(log[i]) == ScopeOf(log[j])
    ensures LastFor(log, ScopeOf(log[j])).Some?
    ensures LastFor(log, ScopeOf(log[j])).value >= j > i
    ensures InForce(log, ScopeOf(log[j])) != None
  {
  }

  /** Applying a restriction puts it in force for its scope ... */
  lemma {:induction false} ApplyOverrides(log: seq<Restriction>, r: Restriction)
    ensures InForce(log + [r], ScopeOf(r)) == Some(r)
  {
    assert (log + [r])[|log|] == r;
  }

  /** ... and leaves every other scope as it was. */
  lemma {:induction false} ApplyKeepsOtherScopes(log: seq<Restriction>, r: Restriction, s: Scope)
    requires s != ScopeOf(r)
    ensures InForce(log + [r], s) == InForce(log, s)
  {
    assert (log + [r])[..|log|] == log;
  }

  /** `excludePath("person.name")` followed by `path("person.name", v)` leaves the
      assignment in force: apply order is precedence. */
  lemma ExcludeThenAssignPath(v: Value)
    ensures InForce([ExcludePath("person.name"), Path("person.name", v)], PathScope("person.name"))
      == Some(Path("person.name", v))
  {
    ApplyOverrides([ExcludePath("person.name")], Path("person.name", v));
  }

  /** What populating an instance from a finished configuration yields: the
      reflective bean population, outside this model. It draws from the random
      source, so it takes the generator state and returns the state after. */
  type Population = (Class, seq<Restriction>, Rng) -> Drawn<Result<Value>>

  /** `BeanBuilder`, as far as the random builder uses it: created for one type,
      configured by restrictions while accumulating, then built exactly once. */
  class BeanBuilder {
    const beanType: Class
    /** The configuration calls made so far, in order. */
    var applied: seq<Restriction>
    /** Set once `build()` has consumed the configuration. */
    var consumed: bool

    /** `BeanBuilder.aRandomInstanceOf(type)`: a fresh, empty configuration. */
    constructor ARandomInstanceOf(beanType: Class)
      ensures this.beanType == beanType && applied == [] && !consumed
    {
      this.beanType := beanType;
      applied := [];
      consumed := false;
    }

    /** `restriction.applyTo(builder)`: the one configuration call the
        restriction makes, recorded after those before it. */
    method Apply(restriction: Restriction)
      requires !consumed
      modifies this
      ensures applied == old(applied) + [restriction] && !consumed
      ensures InForce(applied, ScopeOf(restriction)) == Some(restriction)
      ensures forall s :: s != ScopeOf(restriction) ==> InForce(applied, s) == InForce(old(applied), s)
    {
      applied := applied + [restriction];
      ApplyOverrides(old(applied), restriction);
      forall s | s != ScopeOf(restriction)
        ensures InForce(applied, s) == InForce(old(applied), s)
      {
        ApplyKeepsOtherScopes(old(applied), restriction, s);
      }
    }

    /** `build()`: hands the configuration to the bean population, which may
        fail; afterwards the configuration is consumed. */
    method Build(populate: Population, g: Rng) returns (instance: Drawn<Result<Value>>)
      requires !consumed
      modifies this
      ensures consumed && applied == old(applied)
      ensures instance == populate(beanType, applied, g)
    {
      consumed := true;
      instance := populate(beanType, applied, g);
    }
  }
}
