/**
 * The Submission record of the Day05 backend: its fields, the closed sets of language and
 * status values, the defaults, and the validation Mongoose applies on every create and save.
 */
module SubmissionModel {
  import opened Base
  import opened Responses

  /** The language values the schema accepts. */
  const LanguageEnum: seq<string> := ["javascript", "python", "cpp", "java", "c"]

  /** The status values the schema accepts. */
  const StatusEnum: seq<string> := [
    "pending", "running", "accepted", "wrong_answer", "time_limit_exceeded",
    "memory_limit_exceeded", "runtime_error", "compilation_error", "error", "failed"]

  const DefaultStatus := "pending"

  /**
   * One submission. The ids are kept as their string form; `errorMessage` is `None` for null.
   * Timestamps and indexes are not modelled.
   */
  datatype SubmissionRecord = SubmissionRecord(
    userId: string,
    problemId: string,
    code: string,
    language: string,
    status: string,
    runtime: int,
    memory: int,
    errorMessage: Option<string>,
    testCasesPassed: int,
    testCasesTotal: int)

  /** A record created from the four required values, every other field at its default. */
  function WithDefaults(userId: string, problemId: string, code: string, language: string): (r: SubmissionRecord)
    ensures r.userId == userId && r.problemId == problemId && r.code == code && r.language == language
    ensures r.status == "pending" && r.runtime == 0 && r.memory == 0
    ensures r.errorMessage == Some("") && r.testCasesPassed == 0 && r.testCasesTotal == 0
  {
    SubmissionRecord(userId, problemId, code, language, DefaultStatus, 0, 0, Some(""), 0, 0)
  }

  /**
   * The schema paths that fail validation, in schema order: a required value that is empty,
   * a language or a status outside its enumeration.
   */
  function ValidationErrors(r: SubmissionRecord): (paths: seq<string>)
    ensures paths == [] <==>
      r.userId != "" && r.problemId != "" && r.code != ""
      && r.language in LanguageEnum && r.status in StatusEnum
    ensures "status" in paths <==> r.status !in StatusEnum
    ensures "language" in paths <==> r.language !in LanguageEnum
  {
    (if r.userId == "" then ["userId"] else [])
    + (if r.problemId == "" then ["problemId"] else [])
    + (if r.code == "" then ["code"] else [])
    + (if r.language !in LanguageEnum then ["language"] else [])
    + (if r.status !in StatusEnum then ["status"] else [])
  }

  predicate IsValid(r: SubmissionRecord) {
    ValidationErrors(r) == []
  }

  /** The defaults are valid as soon as the required values are present and the language is listed. */
  lemma DefaultsValid(userId: string, problemId: string, code: string, language: string)
    requires userId != "" && problemId != "" && code != ""
    ensures IsValid(WithDefaults(userId, problemId, code, language)) <==> language in LanguageEnum
  {
  }

  /** `c++`, which the resolver accepts, and upper-case spellings are not schema languages. */
  lemma LanguageEnumIsLowerCaseOnly()
    ensures "c++" !in LanguageEnum && "C++" !in LanguageEnum && "py" !in LanguageEnum
    ensures "js" !in LanguageEnum && "JavaScript" !in LanguageEnum
    ensures "cpp" in LanguageEnum
  {
  }

  /** The in-memory stand-in for the submission collection, keyed by document id. */
  class SubmissionStore {
    var records: map<string, SubmissionRecord>

    constructor ()
      ensures records == map[]
    {
      records := map[];
    }

    /**
     * `save` (and `create`, which builds a document and saves it): the record is validated
     * first; a valid one is written under its id, an invalid one is rejected and nothing is written.
     */
    method Save(id: string, r: SubmissionRecord) returns (error: Option<Fault>)
      modifies this
      ensures IsValid(r) ==> error.None? && records == old(records)[id := r]
      ensures !IsValid(r) ==> error == Some(Validation(ValidationErrors(r))) && records == old(records)
    {
      var paths := ValidationErrors(r);
      if paths != [] {
        return Some(Validation(paths));
      }
      records := records[id := r];
      error := None;
    }
  }
}
