/** String tests shared by the prompter and the command. */
module Strings {

  /** `s.startsWith(prefix)`: `prefix` is a prefix of `s`. */
  predicate StartsWith(s: string, prefix: string)
  {
    prefix <= s
  }
}
