/** `BookStatus`: the reading state of a book. The file stores the constant
    name (`Enum.name()`, read back with `Enum.valueOf`); the interface shows
    the display name (`toString()`). */
module Status {
  import opened JavaLang

  datatype BookStatus = ToRead | Reading | Read

  /** The constants in declaration order (`BookStatus.values()`). */
  const Values: seq<BookStatus> := [ToRead, Reading, Read]

  /** `Enum.name()`: the constant's identifier. */
  function Name(s: BookStatus): string
  {
    match s
    case ToRead => "TO_READ"
    case Reading => "READING"
    case Read => "READ"
  }

  /** `toString()`: the Portuguese label shown to the user. */
  function DisplayName(s: BookStatus): string
  {
    match s
    case ToRead => "A Ler"
    case Reading => "Lendo"
    case Read => "Lido"
  }

  /** `BookStatus.valueOf(text)`; `None` where Java throws
      `IllegalArgumentException`. */
  function ValueOf(text: string): (r: Option<BookStatus>)
    ensures r.Some? ==> Name(r.value) == text
    ensures r.None? ==> forall s :: Name(s) != text
  {
    if text == "TO_READ" then Some(ToRead)
    else if text == "READING" then Some(Reading)
    else if text == "READ" then Some(Read)
    else None
  }

  /** `valueOf` inverts `name()`. */
  lemma ValueOfName(s: BookStatus)
    ensures ValueOf(Name(s)) == Some(s)
  {
  }

  /** Every status is listed exactly once, in the order TO_READ, READING, READ. */
  lemma ValuesListsEachOnce(s: BookStatus)
    ensures s in Values
    ensures forall i, j :: 0 <= i < j < |Values| ==> Values[i] != Values[j]
  {
  }

  /** Different statuses are shown differently, and differently from their
      constant names. */
  lemma DisplayNameInjective(a: BookStatus, b: BookStatus)
    ensures DisplayName(a) == DisplayName(b) ==> a == b
    ensures DisplayName(a) != Name(b)
  {
  }
}
