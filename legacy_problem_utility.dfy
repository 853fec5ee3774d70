/** The Day04 backend's language table, an older mapping to a different set of judge ids. */
module LegacyProblemUtility {
  import opened Base
  import opened Text
  import ProblemUtility

  const LegacyLanguageIds: map<string, int> :=
    map["c++" := 105, "c" := 103, "java" := 91, "javascript" := 102, "python" := 109]

  /** Day04 `getLanguageById`: the table entry for the lower-cased name, or undefined. */
  function LegacyLanguageId(lang: string): Option<int> {
    var key := ToLower(lang);
    if key in LegacyLanguageIds then Some(LegacyLanguageIds[key]) else None
  }

  /** The Day04 lookup maps exactly the five lower-cased names, each to its own id. */
  lemma LegacyLanguageIdTable(lang: string)
    ensures LegacyLanguageId(lang) == Some(105) <==> ToLower(lang) == "c++"
    ensures LegacyLanguageId(lang) == Some(103) <==> ToLower(lang) == "c"
    ensures LegacyLanguageId(lang) == Some(91) <==> ToLower(lang) == "java"
    ensures LegacyLanguageId(lang) == Some(102) <==> ToLower(lang) == "javascript"
    ensures LegacyLanguageId(lang) == Some(109) <==> ToLower(lang) == "python"
    ensures LegacyLanguageId(lang).None? <==>
      ToLower(lang) != "c" && ToLower(lang) != "c++" && ToLower(lang) != "java"
      && ToLower(lang) != "javascript" && ToLower(lang) != "python"
  {
  }

  /** The Day04 lookup ignores case. */
  lemma LegacyLanguageIdCaseInsensitive(lang: string)
    ensures LegacyLanguageId(lang) == LegacyLanguageId(ToLower(lang))
  {
    LowerOfLower(lang);
  }

  /** Both tables know the same names, and no name gets the same id from both. */
  lemma TablesAgreeOnNamesOnly(lang: string)
    ensures LegacyLanguageId(lang).Some? <==> ProblemUtility.LanguageId(lang).Some?
    ensures LegacyLanguageId(lang).Some? ==> LegacyLanguageId(lang) != ProblemUtility.LanguageId(lang)
    ensures LegacyLanguageIds.Keys == ProblemUtility.LanguageIds.Keys
  {
  }
}
