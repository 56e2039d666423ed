/** The few pieces of the Java language the pattern demos rely on:
    fixed-width integers, null references, string conversion of null,
    and exceptions as a return value. */
module JavaLang {

  /** Java `int`. */
  type Int32 = x: int | -0x8000_0000 <= x <= 0x7fff_ffff

  /** Java `long`. */
  type Int64 = x: int | -0x8000_0000_0000_0000 <= x <= 0x7fff_ffff_ffff_ffff

  /** A Java reference that may be `null`. */
  datatype Nullable<+T> = Null | Ref(value: T)

  /** What string concatenation (`"..." + s`) inserts for a possibly-null
      string: the string itself, or the four letters "null". */
  function Text(s: Nullable<string>): (r: string)
    ensures s.Ref? ==> r == s.value
    ensures s.Null? ==> r == "null"
  {
    match s
    case Null => "null"
    case Ref(v) => v
  }

  /** The outcome of a Java call that may throw. */
  datatype Outcome<+T> = Returned(value: T) | Thrown(exception: string)

  /** A state change together with the lines it printed, one element per
      `System.out.println` call (the element is the call's argument). */
  datatype Printed<+S> = Printed(after: S, lines: seq<string>)
}
