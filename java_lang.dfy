/** The few pieces of the Java platform the random builder relies on: fixed-width
    integers and the narrowing casts between them, class tokens, exceptions, and
    the Option/Result wrappers used for `null` and for thrown exceptions. */
module JavaLang {

  const MIN_INT: int := -0x8000_0000
  const MAX_INT: int := 0x7FFF_FFFF
  const MAX_SHORT: int := 0x7FFF
  const MAX_BYTE: int := 0x7F

  /** Java `int`, `short` and `byte` values. */
  type Int32 = x: int | MIN_INT <= x <= MAX_INT
  type Int16 = x: int | -0x8000 <= x <= 0x7FFF
  type Int8 = x: int | -0x80 <= x <= 0x7F

  // Java's integer arithmetic and narrowing casts wrap around in two's
  // complement: the result is the value congruent to the exact one modulo 2^bits
  // that lies in the target range.

  /** `int + int` in Java. */
  function AddInt(a: Int32, b: Int32): (r: Int32)
    ensures MIN_INT <= a + b <= MAX_INT ==> r == a + b
  {
    (a + b + 0x8000_0000) % 0x1_0000_0000 - 0x8000_0000
  }

  /** The cast `(short) x` of an `int`. */
  function ToShort(x: Int32): (r: Int16)
    ensures -0x8000 <= x <= 0x7FFF ==> r == x
  {
    (x + 0x8000) % 0x1_0000 - 0x8000
  }

  /** The cast `(byte) x` of an `int`. */
  function ToByte(x: Int32): (r: Int8)
    ensures -0x80 <= x <= 0x7F ==> r == x
  {
    (x + 0x80) % 0x100 - 0x80
  }

  /** The eight primitive types of Java. */
  datatype Primitive = Short | Int | Long | Double | Float | Boolean | Byte | Char

  /** A Java class token: a primitive class (`int.class`), its wrapper class
      (`Integer.class`), one of the three other library classes the builder
      knows by name, or any other class, by its binary name. */
  datatype Class =
    | PrimitiveClass(kind: Primitive)
    | WrapperClass(kind: Primitive)
    | StringClass
    | BigDecimalClass
    | DateClass
    | Named(name: string)

  /** `Class.getName()`. */
  function ClassName(c: Class): string {
    match c
    case PrimitiveClass(k) => PrimitiveName(k)
    case WrapperClass(k) => "java.lang." + WrapperName(k)
    case StringClass => "java.lang.String"
    case BigDecimalClass => "java.math.BigDecimal"
    case DateClass => "java.util.Date"
    case Named(n) => n
  }

  function PrimitiveName(k: Primitive): string {
    match k
    case Short => "short"
    case Int => "int"
    case Long => "long"
    case Double => "double"
    case Float => "float"
    case Boolean => "boolean"
    case Byte => "byte"
    case Char => "char"
  }

  function WrapperName(k: Primitive): string {
    match k
    case Short => "Short"
    case Int => "Integer"
    case Long => "Long"
    case Double => "Double"
    case Float => "Float"
    case Boolean => "Boolean"
    case Byte => "Byte"
    case Char => "Character"
  }

  /** The exceptions the modelled code raises or lets through. */
  datatype Exception =
    | RandomBuilderException(message: string, cause: Option<Exception>)
    | BeanBuilderException(message: string)
    | ValueFactoryException(message: string)
    | ArrayIndexOutOfBoundsException(index: int)
    | OtherRuntimeException(name: string)

  /** A possibly-null reference. */
  datatype Option<+T> = None | Some(value: T)

  /** A value, or the exception thrown instead of returning one. */
  datatype Result<+T> = Success(value: T) | Failure(error: Exception)
}
