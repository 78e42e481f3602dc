/** Option and Result, used for the program's absent values and thrown errors. */
module Wrappers {
  datatype Option<+T> = None | Some(value: T)

  datatype Result<+T, +E> = Success(value: T) | Failure(error: E)
}

/**
 * JavaScript strings as the service sees them: sequences of UTF-16 code
 * units. Patterns without the `u` flag, `===` and `.length` all work on
 * code units, so one character outside the Basic Multilingual Plane is two
 * units here.
 */
module Text {
  import opened Wrappers

  /** One UTF-16 code unit. */
  type CodeUnit = x: int | 0 <= x < 0x1_0000

  type JsString = seq<CodeUnit>

  const Underscore: CodeUnit := '_' as int
  const Dot: CodeUnit := '.' as int

  /**
   * A literal of the program as code units. Every literal the service uses
   * lies in the Basic Multilingual Plane, where a character is one code unit
   * equal to its scalar value; anything else would be two units and is
   * shown here as U+FFFD.
   */
  function Lit(s: string): (r: JsString)
    ensures |r| == |s|
  {
    seq(|s|, i requires 0 <= i < |s| => if s[i] as int < 0x1_0000 then s[i] as int else 0xFFFD)
  }

  /**
   * JavaScript truthiness of a `string | undefined | null` value: absent
   * (undefined or null) and the empty string are falsy.
   */
  predicate Truthy(o: Option<JsString>) {
    o.Some? && o.value != []
  }
}
