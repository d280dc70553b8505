/** Small shared vocabulary: nullable values and string prefixes. */
module Prelude {

  /** A value the host may hand back as null. */
  datatype Option<+T> = None | Some(value: T)

  /** `s.startsWith(prefix)` on Java and Kotlin strings. */
  predicate StartsWith(s: string, prefix: string)
  {
    |prefix| <= |s| && s[..|prefix|] == prefix
  }
}
