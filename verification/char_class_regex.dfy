/**
 A concrete regex engine for the one shape of pattern the obfuscation scenarios use:
 a single bracketed character class repeated one or more times, such as "[a-z]+".
 It shows that the facts `KnowsTestPatterns` assumes of an engine can all hold at once.
 Masking with a replacement regex masks the whole value once that regex is found in it.
 */
module CharClassRegex {
  import opened Results
  import opened Regex

  /** The characters `lo` through `hi`. */
  datatype CharRange = CharRange(lo: char, hi: char)

  /** Parses the inside of a character class: single characters and ranges `x-y` with
      `x <= y`; a bracket inside the class is not supported and fails the parse. */
  function ParseItems(s: string): (r: Option<seq<CharRange>>)
    ensures r.Some? ==> forall i :: 0 <= i < |r.value| ==> r.value[i].lo <= r.value[i].hi
    decreases |s|
  {
    if |s| == 0 then Some([])
    else if s[0] == '[' || s[0] == ']' then None
    else
      var (item, n) := if |s| >= 3 && s[1] == '-' then (CharRange(s[0], s[2]), 3) else (CharRange(s[0], s[0]), 1);
      if item.hi == '[' || item.hi == ']' || item.hi < item.lo then None
      else match ParseItems(s[n..])
        case None => None
        case Some(rest) => Some([item] + rest)
  }

  /** Parses a pattern of the shape "[" class "]+" with a non-empty class. */
  function Parse(p: string): Option<seq<CharRange>>
  {
    if |p| >= 4 && p[0] == '[' && p[|p| - 2] == ']' && p[|p| - 1] == '+' then ParseItems(p[1..|p| - 2])
    else None
  }

  /** `c` lies in one of the ranges. */
  predicate InClass(ranges: seq<CharRange>, c: char)
  {
    exists i :: 0 <= i < |ranges| && ranges[i].lo <= c <= ranges[i].hi
  }

  /** The ASCII letter `c` in the other case; any other character unchanged. */
  function OtherCase(c: char): char
  {
    if 'a' <= c <= 'z' then (c as int - 32) as char
    else if 'A' <= c <= 'Z' then (c as int + 32) as char
    else c
  }

  /** The class accepts `c`, ignoring the case of ASCII letters when `ci`. */
  predicate Accepts(ranges: seq<CharRange>, ci: bool, c: char)
  {
    InClass(ranges, c) || (ci && InClass(ranges, OtherCase(c)))
  }

  /** The pattern compiles when it parses. */
  function Compiles(p: string, ci: bool): bool
  {
    Parse(p).Some?
  }

  /** Unanchored search: some character of `s` is accepted by the class, which
      is exactly when "[class]+" matches some non-empty substring of `s`. */
  function Find(p: string, ci: bool, s: string): bool
  {
    match Parse(p)
    case None => false
    case Some(ranges) => exists k :: 0 <= k < |s| && Accepts(ranges, ci, s[k])
  }

  /** Masks the whole value when the replacement regex is found in it. */
  function MaskWith(p: string, ci: bool, s: string): string
  {
    if Find(p, ci, s) then MaskToken else s
  }

  /** The engine built from the functions above. */
  const CharClassEngine: Engine := Engine(Compiles, Find, MaskWith)

  /** The class of "[a-z]+" and the like. */
  lemma ParseSingleRange(p: string, lo: char, hi: char)
    requires |p| == 6 && p[0] == '[' && p[1] == lo && p[2] == '-' && p[3] == hi && p[4] == ']' && p[5] == '+'
    requires lo <= hi && hi != '[' && hi != ']' && lo != '[' && lo != ']'
    ensures Parse(p) == Some([CharRange(lo, hi)])
  {
    var inner := p[1..|p| - 2];
    assert inner == [lo, '-', hi];
    assert inner[3..] == [];
    assert ParseItems(inner[3..]) == Some([]);
    assert ParseItems(inner) == Some([CharRange(lo, hi)] + []);
    assert [CharRange(lo, hi)] + [] == [CharRange(lo, hi)];
  }

  /** A character within a single range is in its class. */
  lemma InSingleRange(lo: char, hi: char, c: char)
    requires lo <= c <= hi
    ensures InClass([CharRange(lo, hi)], c)
  {
    assert [CharRange(lo, hi)][0] == CharRange(lo, hi);
  }

  /** No character of "ABC" or "DEF" is a lower-case letter. */
  lemma NoLowerInUpper(s: string)
    requires s == "ABC" || s == "DEF"
    ensures !Find(Lower, false, s)
  {
    ParseSingleRange(Lower, 'a', 'z');
    forall k | 0 <= k < |s|
      ensures !Accepts([CharRange('a', 'z')], false, s[k])
    {
    }
  }

  /** No character of a letters-only string is a digit, in either case. */
  lemma NoDigitInLetters(s: string, ci: bool)
    requires s == "abc" || s == "ABC" || s == "DEF"
    ensures !Find(Digits, ci, s)
  {
    ParseSingleRange(Digits, '0', '9');
    forall k | 0 <= k < |s|
      ensures !Accepts([CharRange('0', '9')], ci, s[k])
    {
      forall c | c == s[k] || c == OtherCase(s[k])
        ensures !InClass([CharRange('0', '9')], c)
      {
        if InClass([CharRange('0', '9')], c) {
          var i :| 0 <= i < 1 && [CharRange('0', '9')][i].lo <= c <= [CharRange('0', '9')][i].hi;
          assert false;
        }
      }
    }
  }

  /** Which of the scenarios' patterns compile. */
  lemma CompileFacts()
    ensures Parse(Lower) == Some([CharRange('a', 'z')])
    ensures Parse(Digits) == Some([CharRange('0', '9')])
    ensures Parse(FromB) == Some([CharRange('b', 'z')])
    ensures Parse(Malformed) == None
  {
    ParseSingleRange(Lower, 'a', 'z');
    ParseSingleRange(Digits, '0', '9');
    ParseSingleRange(FromB, 'b', 'z');
  }

  /** The searches the scenarios expect to succeed. */
  lemma FoundFacts()
    ensures Find(Lower, false, "abc") && Find(Lower, true, "abc") && Find(Lower, true, "ABC")
    ensures Find(Digits, false, "123") && Find(Digits, true, "123")
    ensures Find(FromB, false, "abc")
  {
    CompileFacts();
    InSingleRange('a', 'z', 'a');
    InSingleRange('0', '9', '1');
    InSingleRange('b', 'z', 'b');
    assert Accepts([CharRange('a', 'z')], false, "abc"[0]);
    assert Accepts([CharRange('a', 'z')], true, "ABC"[0]);
    assert Accepts([CharRange('0', '9')], false, "123"[0]);
    assert Accepts([CharRange('b', 'z')], false, "abc"[1]);
  }

  /** The character-class engine knows every fact the scenarios rely on. */
  lemma CharClassEngineKnowsTestPatterns()
    ensures KnowsTestPatterns(CharClassEngine)
  {
    var e := CharClassEngine;
    CompileFacts();
    FoundFacts();
    NoLowerInUpper("ABC");
    NoLowerInUpper("DEF");
    assert e.compiles(Lower, false) && e.compiles(Lower, true);
    assert e.compiles(Digits, false) && e.compiles(Digits, true) && e.compiles(FromB, false);
    assert !e.compiles(Malformed, false) && !e.compiles(Malformed, true);
    assert e.find(Lower, false, "abc") && !e.find(Lower, false, "ABC") && !e.find(Lower, false, "DEF");
    assert e.find(Lower, true, "abc") && e.find(Lower, true, "ABC");
    forall ci: bool
      ensures && !e.find(Digits, ci, "abc") && !e.find(Digits, ci, "ABC")
              && !e.find(Digits, ci, "DEF") && e.find(Digits, ci, "123")
    {
      NoDigitInLetters("abc", ci);
      NoDigitInLetters("ABC", ci);
      NoDigitInLetters("DEF", ci);
    }
    assert e.mask(FromB, false, "abc") == MaskToken;
  }
}
