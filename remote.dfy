/** The requests the client sends to the test-management service. URLs are
    abstracted to the resource they name; query strings that only select a
    page or filter a search are kept as fields. */
module Remote {
  import opened Json

  datatype Verb = GET | POST | PUT | DELETE

  /** The paged listings the client walks with a growing `startAt`. */
  datatype Listing =
    | Users                                // Jira user search, 200 per page
    | TestCases(query: string)             // /testcase/search
    | TestPlans(query: string)             // /testplan/search
    | TestRuns(query: string, fields: string)  // /testrun/search, 1000 per page
    | TestRunsNamed(name: string)          // Jira test run search by name, 10000 per page
    | ExecutionResults                     // Jira test result report, 10000 per page

  datatype Resource =
    | Page(listing: Listing, startAt: nat)
    | Projects
    | ProjectFolders(projectId: Value, folderType: string)  // folder tree of a project
    | FolderCollection
    | Environments
    | TestCase(key: string)
    | TestCaseCollection
    | TestPlan(key: string)
    | TestPlanCollection
    | TestRun(key: string)
    | TestRunCollection
    | TestRunResults(runKey: string)                // /testrun/{run}/testresults
    | TestResult(runKey: string, caseKey: string)   // /testrun/{run}/testcase/{case}/testresult

  datatype Request = Request(verb: Verb, resource: Resource, body: Value)

  /** One request and what came back: a payload, or None when the request
      failed. */
  datatype Exchange = Exchange(request: Request, answer: Option<Value>)

  function Fetch(r: Resource): Request
  {
    Request(GET, r, Null)
  }

  /** The request for one page of a listing. */
  function PageRequest(l: Listing, startAt: nat): Request
  {
    Fetch(Page(l, startAt))
  }

  /** Whether a listing's page carries its items under "results"
      (the Jira endpoints) rather than as the whole payload. */
  predicate WrappedInResults(l: Listing)
  {
    l.TestRunsNamed? || l.ExecutionResults?
  }

  /** The items one answer contributes to a listing; a failed request and a
      payload that is not a list both count as an empty page. */
  function PageItems(l: Listing, answer: Option<Value>): seq<Value>
  {
    match answer
    case None => []
    case Some(v) => if WrappedInResults(l) then ListOf(Get(Rec(v), "results")) else ListOf(v)
  }

  /** Whether a fetched entity exists: `if not response` on the record a
      GET yields, where a failed GET reads as `{}`. */
  predicate Found(answer: Option<Value>)
  {
    RecordOf(answer) != map[]
  }

  /** `request.json()["key"] if request else None` for a creating POST. */
  function CreatedField(answer: Option<Value>, key: string): Option<Value>
  {
    match answer
    case None => None
    case Some(v) => Some(Get(Rec(v), key))
  }
}
