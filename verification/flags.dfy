/** The flag-code resolver: the code under which the flag image service
    files a country's flag. */
module Flags {
  import opened Text

  /** Country codes the flag service knows under another name, keyed by
      their upper-case spelling. */
  const FlagAliases: map<string, string> := map["UK" := "gb", "GB" := "gb"]

  /** `code` names the United Kingdom under one of its aliases, in any
      letter case. */
  predicate IsUkAlias(code: string) {
    Lower(code) == "uk" || Lower(code) == "gb"
  }

  /** `getFlagCode`: look the upper-cased code up in the alias table and
      fall back to the lower-cased code. */
  function GetFlagCode(code: string): (r: string)
    ensures IsLowerCase(r)
    ensures IsUkAlias(code) ==> r == "gb"
    ensures !IsUkAlias(code) ==> r == Lower(code)
  {
    CaseFoldAgree(code, "uk");
    CaseFoldAgree(code, "gb");
    LowerIsLowerCase(code);
    var up := Upper(code);
    assert Upper("uk") == "UK" && Upper("gb") == "GB";
    assert Lower("uk") == "uk" && Lower("gb") == "gb";
    if up in FlagAliases then FlagAliases[up] else Lower(code)
  }

  /** The resolver does not depend on the letter case of its input. */
  lemma FlagCodeIgnoresCase(code: string)
    ensures GetFlagCode(Lower(code)) == GetFlagCode(code)
  {
    LowerIsLowerCase(code);
  }
}
