/**
  NumberType: the numeric type of the range values, derived from the runtime
  class of the absolute minimum.
 */
module NumberTypes {
  import opened Wrappers

  /**
    The runtime class of a java.lang.Number value, as far as the instanceof
    tests of fromNumber can tell classes apart. Long, Double, Integer, Float,
    Short and Byte are final; BigDecimal is not, so a value may belong to a
    named subclass of it. OtherNumber is any class outside all seven.
   */
  datatype NumberClass =
    | JavaLong | JavaDouble | JavaInteger | JavaFloat | JavaShort | JavaByte | JavaBigDecimal
    | BigDecimalSubclass(subclassName: string)
    | OtherNumber(className: string)

  /** The supported numeric types. */
  datatype NumberType = Long | Double | Integer | Float | Short | Byte | BigDecimal

  /** The Java class whose values have numeric type t. */
  function ClassOf(t: NumberType): NumberClass
  {
    match t
    case Long => JavaLong
    case Double => JavaDouble
    case Integer => JavaInteger
    case Float => JavaFloat
    case Short => JavaShort
    case Byte => JavaByte
    case BigDecimal => JavaBigDecimal
  }

  /** `value instanceof` the Java class of type t, for a value of class c. */
  predicate InstanceOf(c: NumberClass, t: NumberType)
  {
    c == ClassOf(t) || (t == BigDecimal && c.BigDecimalSubclass?)
  }

  /** The message of the IllegalArgumentException thrown for an unsupported class. */
  function UnsupportedMessage(className: string): string
  {
    "Number class '" + className + "' is not supported"
  }

  /**
    NumberType.fromNumber: the first type in the order Long, Double, Integer,
    Float, Short, Byte, BigDecimal that the value is an instance of; a value
    of none of them fails with an IllegalArgumentException naming its class.
   */
  function FromNumber(c: NumberClass): (r: Result<NumberType, string>)
    ensures r.Success? <==> !c.OtherNumber?
    ensures r.Success? ==> InstanceOf(c, r.value)
    ensures forall t :: InstanceOf(c, t) ==> r == Success(t)
    ensures c.OtherNumber? ==> r == Failure(UnsupportedMessage(c.className))
  {
    if c == JavaLong then Success(Long)
    else if c == JavaDouble then Success(Double)
    else if c == JavaInteger then Success(Integer)
    else if c == JavaFloat then Success(Float)
    else if c == JavaShort then Success(Short)
    else if c == JavaByte then Success(Byte)
    else if c == JavaBigDecimal || c.BigDecimalSubclass? then Success(BigDecimal)
    else Failure(UnsupportedMessage(c.className))
  }

  /** Every supported type is recovered from its own class. */
  lemma FromNumberOfClass(t: NumberType)
    ensures FromNumber(ClassOf(t)) == Success(t)
  {
  }

  /** A value of any subclass of BigDecimal is tagged BigDecimal. */
  lemma FromNumberOfBigDecimalSubclass(name: string)
    ensures FromNumber(BigDecimalSubclass(name)) == Success(BigDecimal)
  {
  }
}
