/** What every module shares. */
module Prelude {

  datatype Option<+T> = None | Some(value: T)

  /** part occurs in s. */
  predicate Contains(s: string, part: string) { part <= s || (s != "" && Contains(s[1..], part)) }
}
