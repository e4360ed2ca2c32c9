/**
  Choice of the initial page language from the browser's language tag.
  A missing (undefined or null) tag is written as the empty string: both
  are false for the `||` fallback chain, exactly like an empty tag.
 */
module Language {

  /** The languages the page is translated into. */
  const Supported: seq<string> := ["it", "en", "fr", "de", "ru"]

  /** The page's own language, used whenever the browser's is not supported. */
  const Default: string := "it"

  function LowerChar(c: char): char
  {
    if 'A' <= c <= 'Z' then (c as int - 'A' as int + 'a' as int) as char else c
  }

  function UpperChar(c: char): char
  {
    if 'a' <= c <= 'z' then (c as int - 'a' as int + 'A' as int) as char else c
  }

  /** Letter-case folding of a string to lower case: no capital letter
      survives, each capital becomes the small letter at the same place in
      the alphabet, and every other character is kept. */
  function Lower(s: string): (r: string)
    ensures |r| == |s|
    ensures forall i :: 0 <= i < |r| ==> !('A' <= r[i] <= 'Z')
    ensures forall i :: 0 <= i < |s| && !('A' <= s[i] <= 'Z') ==> r[i] == s[i]
    ensures forall i :: 0 <= i < |s| && 'A' <= s[i] <= 'Z' ==>
      'a' <= r[i] <= 'z' && r[i] as int - 'a' as int == s[i] as int - 'A' as int
  {
    seq(|s|, i requires 0 <= i < |s| => LowerChar(s[i]))
  }

  /** Letter-case folding of a string to upper case: no small letter
      survives, each small letter becomes the capital at the same place in
      the alphabet, and every other character is kept. */
  function Upper(s: string): (r: string)
    ensures |r| == |s|
    ensures forall i :: 0 <= i < |r| ==> !('a' <= r[i] <= 'z')
    ensures forall i :: 0 <= i < |s| && !('a' <= s[i] <= 'z') ==> r[i] == s[i]
    ensures forall i :: 0 <= i < |s| && 'a' <= s[i] <= 'z' ==>
      'A' <= r[i] <= 'Z' && r[i] as int - 'A' as int == s[i] as int - 'a' as int
  {
    seq(|s|, i requires 0 <= i < |s| => UpperChar(s[i]))
  }

  /** Lower-casing twice is lower-casing once. */
  lemma LowerIdempotent(s: string)
    ensures Lower(Lower(s)) == Lower(s)
  {
  }

  /** Lower-casing an upper-cased string is lower-casing it directly. */
  lemma LowerOfUpper(s: string)
    ensures Lower(Upper(s)) == Lower(s)
  {
  }

  /** The first two characters, or the whole string when it is shorter. */
  function Prefix2(s: string): (r: string)
    ensures |r| == if |s| < 2 then |s| else 2
    ensures s == r + s[|r|..]
  {
    if |s| < 2 then s else s[..2]
  }

  /** The tag in effect: the standard one, else the legacy one, else the default. */
  function BrowserTag(language: string, userLanguage: string): (tag: string)
    ensures tag != ""
    ensures language != "" ==> tag == language
    ensures language == "" && userLanguage != "" ==> tag == userLanguage
    ensures language == "" && userLanguage == "" ==> tag == Default
  {
    if language != "" then language
    else if userLanguage != "" then userLanguage
    else Default
  }

  /** The lower-cased two-letter prefix of the browser's tag when the page
      supports it, the default language otherwise. */
  function DetectBrowserLanguage(language: string, userLanguage: string): (r: string)
    ensures r in Supported
    ensures Lower(Prefix2(BrowserTag(language, userLanguage))) in Supported ==>
      r == Lower(Prefix2(BrowserTag(language, userLanguage)))
    ensures Lower(Prefix2(BrowserTag(language, userLanguage))) !in Supported ==>
      r == Default
  {
    var code := Lower(Prefix2(BrowserTag(language, userLanguage)));
    if code in Supported then code else Default
  }

  /** Lower-casing a supported code leaves it unchanged. */
  lemma SupportedCodesAreLowerCase(code: string)
    requires code in Supported
    ensures Lower(code) == code
    ensures |code| == 2
    ensures forall i :: 0 <= i < |code| ==> 'a' <= code[i] <= 'z'
  {
  }

  /** A tag that starts with a supported code selects that code, whatever
      region or script subtags follow. */
  lemma DetectRecognisesSupportedTag(code: string, rest: string, userLanguage: string)
    requires code in Supported
    ensures DetectBrowserLanguage(code + rest, userLanguage) == code
  {
    SupportedCodesAreLowerCase(code);
    assert Prefix2(code + rest) == code;
  }

  /** The letter case of the tag does not matter: any mixed-case spelling
      selects what its lower-case spelling selects, and so does the
      upper-case one. */
  lemma DetectIgnoresCase(language: string, userLanguage: string)
    ensures DetectBrowserLanguage(language, userLanguage)
         == DetectBrowserLanguage(Lower(language), userLanguage)
    ensures DetectBrowserLanguage(Upper(language), userLanguage)
         == DetectBrowserLanguage(Lower(language), userLanguage)
  {
    var up := BrowserTag(Upper(language), userLanguage);
    var low := BrowserTag(Lower(language), userLanguage);
    if language != "" {
      LowerOfUpper(Prefix2(language));
      assert Lower(Prefix2(language)) == Lower(Prefix2(low));
      assert Lower(Prefix2(up)) == Lower(Prefix2(low));
    } else {
      assert Upper(language) == "" && Lower(language) == "";
    }
  }

  /** Feeding the detected language back in as the tag selects it again. */
  lemma DetectIdempotent(language: string, userLanguage: string, other: string)
    ensures var r := DetectBrowserLanguage(language, userLanguage);
      DetectBrowserLanguage(r, other) == r
  {
    var r := DetectBrowserLanguage(language, userLanguage);
    DetectRecognisesSupportedTag(r, "", other);
    assert r + "" == r;
  }

  /** Without any browser tag the page stays in its own language. */
  lemma NoTagSelectsDefault()
    ensures DetectBrowserLanguage("", "") == Default
  {
  }
}
