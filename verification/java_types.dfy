/** The few Java values and library behaviours the medicine-clash classes rely on:
    nullable references, 32-bit `int`, calendar dates, and `Collection.contains`. */
module JavaTypes {

  /** A Java reference that may be `null`. */
  datatype Option<+T> = None | Some(value: T)

  /** Java's `int`: every value a field or parameter of that type can hold. */
  newtype int32 = x: int | -0x8000_0000 <= x < 0x8000_0000

  /** A `java.time.LocalDate`, identified by its day number since the epoch.
      The model does no calendar arithmetic on it. */
  datatype Date = Date(epochDay: int)

  /** `ArrayList.indexOf`, which `ArrayList.contains` calls: the position of the first
      element of `s` equal to `x`, or -1 when there is none, where `null` compares equal
      only to `null`. The first-occurrence clauses describe `indexOf` itself; `Contains`
      uses only whether the result is -1. */
  function IndexOf<T(==)>(s: seq<T>, x: T): (i: int)
    ensures -1 <= i < |s|
    ensures 0 <= i ==> s[i] == x
    ensures forall j :: 0 <= j < i ==> s[j] != x
    ensures i == -1 <==> x !in s
  {
    if s == [] then -1
    else if s[0] == x then 0
    else
      var k := IndexOf(s[1..], x);
      if k == -1 then -1 else k + 1
  }

  /** `Collection.contains`: some element equals `x`. */
  function Contains<T(==)>(s: seq<T>, x: T): (b: bool)
    ensures b <==> exists j :: 0 <= j < |s| && s[j] == x
  {
    IndexOf(s, x) != -1
  }
}
