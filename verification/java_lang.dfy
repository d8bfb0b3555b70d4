/** The few pieces of the Java runtime the book tracker leans on: nullable
    references, the exceptions that escape its methods, 32-bit `int`
    arithmetic, string concatenation with `null`, and the hash codes of
    `String` and `java.util.Objects.hash`. */
module JavaLang {

  /** A Java reference that may be `null` (`None`). */
  datatype Option<+T> = None | Some(value: T)

  /** The unchecked exceptions that can leave the core's methods. */
  datatype JavaException =
    | NullPointer       // java.lang.NullPointerException
    | IllegalArgument   // java.lang.IllegalArgumentException, from Enum.valueOf
    | NumberFormat      // java.lang.NumberFormatException, from Integer.parseInt

  const MinInt: int := -0x8000_0000
  const MaxInt: int := 0x7fff_ffff

  /** A Java `int`. */
  type Int32 = x: int | -0x8000_0000 <= x <= 0x7fff_ffff

  /** Two's-complement wrap-around of Java `int` arithmetic. */
  function Wrap32(x: int): (r: Int32)
    ensures MinInt <= x <= MaxInt ==> r == x
    ensures (x - r) % 0x1_0000_0000 == 0
  {
    (x + 0x8000_0000) % 0x1_0000_0000 - 0x8000_0000
  }

  /** `String.valueOf(s)`, which is what `"..." + s` appends: `"null"` for null. */
  function JavaStr(s: Option<string>): (r: string)
    ensures s.Some? ==> r == s.value
    ensures s.None? ==> r == "null"
  {
    match s
    case None => "null"
    case Some(v) => v
  }

  /** `String.hashCode()`: h = 31 * h + c over the characters, in `int`. */
  function StringHash(s: string): Int32
  {
    if s == [] then 0
    else Wrap32(31 * StringHash(s[..|s| - 1]) + s[|s| - 1] as int)
  }

  /** `java.util.Objects.hash(x)` for a single string argument:
      `31 * 1 + (x == null ? 0 : x.hashCode())`. */
  function ObjectsHash(x: Option<string>): Int32
  {
    Wrap32(31 + match x { case None => 0 case Some(s) => StringHash(s) })
  }
}
