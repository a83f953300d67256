/** Small things that several modules share. */
module Wrappers {
  /** A value that may be missing. */
  datatype Option<T> = None | Some(value: T)

  predicate StartsWith(s: string, prefix: string) { |prefix| <= |s| && s[..|prefix|] == prefix }
}
