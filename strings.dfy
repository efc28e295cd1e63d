/** The one string primitive of Go's `strings` package that the crawler uses. */
module Strings {

  /** `strings.HasPrefix(s, prefix)`: character by character, case-sensitive (the same as Go's byte-wise test on the ASCII prefixes the crawler uses). */
  predicate HasPrefix(s: string, prefix: string)
  {
    |prefix| <= |s| && s[..|prefix|] == prefix
  }
}
