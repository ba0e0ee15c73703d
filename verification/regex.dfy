/**
 The regular-expression engine the obfuscation rules run on, left abstract.

 Compilation, unanchored searching and custom masking are fields of an `Engine`
 value that every operation takes as a parameter, so nothing in the model depends
 on how an actual regex library behaves. The only facts assumed about an engine
 are those the test scenarios rely on, collected in `KnowsTestPatterns`.
 */
module Regex {

  /** A regex engine as the obfuscation code uses it.
      - `compiles(p, ci)`: the pattern source `p` compiles, case-insensitively when `ci`;
      - `find(p, ci, s)`: the compiled `p` occurs somewhere in `s` (unanchored search);
      - `mask(p, ci, s)`: the value `s` after masking it with the custom replacement regex `p`. */
  datatype Engine = Engine(
    compiles: (string, bool) -> bool,
    find: (string, bool, string) -> bool,
    mask: (string, bool, string) -> string)

  /** The token an obfuscated value is replaced with. */
  const MaskToken: string := "***"

  /** The pattern sources the scenarios configure. */
  const Lower: string := "[a-z]+"
  const Digits: string := "[0-9]+"
  const FromB: string := "[b-z]+"
  const Malformed: string := "[[a-z]"

  /** What any faithful engine says about the scenarios' patterns and inputs:
      the three well-formed patterns compile and the unbalanced one does not,
      lower-case letters are found in "abc" but (case-sensitively) not in "ABC" or "DEF",
      case-insensitively also in "ABC", digits are found in "123" only, and masking
      "abc" with the replacement regex "[b-z]+" yields the mask token. */
  ghost predicate KnowsTestPatterns(e: Engine)
  {
    && e.compiles(Lower, false) && e.compiles(Lower, true)
    && e.compiles(Digits, false) && e.compiles(Digits, true)
    && e.compiles(FromB, false)
    && !e.compiles(Malformed, false) && !e.compiles(Malformed, true)
    && e.find(Lower, false, "abc") && !e.find(Lower, false, "ABC") && !e.find(Lower, false, "DEF")
    && e.find(Lower, true, "abc") && e.find(Lower, true, "ABC")
    && (forall ci: bool ::
          && !e.find(Digits, ci, "abc") && !e.find(Digits, ci, "ABC")
          && !e.find(Digits, ci, "DEF") && e.find(Digits, ci, "123"))
    && e.mask(FromB, false, "abc") == MaskToken
  }
}
