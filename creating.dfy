/** The bodies create_environment, create_test_case, create_test_plan and
    create_test_run POST, built from the caller's arguments and their
    defaults. */
module Creating {
  import opened Json
  import opened Helper
  import opened Folders

  const StatusApproved := "Approved"
  const StepByStep := "STEP_BY_STEP"

  /** The keyword arguments of create_test_case; an absent string is "",
      an absent list [], and priority and status fall back to their
      defaults only when absent. */
  datatype TestCaseArgs = TestCaseArgs(
    folder: string,
    objective: string,
    precondition: string,
    priority: Option<string>,
    estimatedTime: int,
    status: Option<string>,
    labels: seq<string>,
    issueLinks: seq<string>,
    steps: seq<Value>)

  datatype TestPlanArgs = TestPlanArgs(
    folder: string,
    objective: string,
    status: Option<string>,
    labels: seq<string>,
    issueLinks: seq<string>,
    testRuns: seq<string>)

  datatype TestRunArgs = TestRunArgs(
    folder: string,
    issueKey: string,
    testPlanKey: string,
    testCases: seq<string>,
    environment: string)

  /** The folder field of a created entity is null exactly for the root
      folder, and the normalised path otherwise. */
  lemma FolderOfCreated(folder: string)
    ensures FolderField(FolderPath(folder)) == Null <==> folder == "" || folder == "/"
    ensures FolderField(FolderPath(folder)) != Null ==> FolderField(FolderPath(folder)) == Str(FolderPath(folder))
    ensures Rooted(FolderPath(folder))
  {
    RootFolderNames(folder);
    FolderPathRooted(folder);
  }

  function EnvironmentBody(projectKey: string, name: string, description: string): (body: map<string, Value>)
    ensures body.Keys == {"projectKey", "name", "description"}
    ensures body["projectKey"] == Str(projectKey) && body["name"] == Str(name) && body["description"] == Str(description)
  {
    map["projectKey" := Str(projectKey), "name" := Str(name), "description" := Str(description)]
  }

  /** `x or default` for an optional string keyword argument. */
  function OrDefault(x: Option<string>, default: string): string
  {
    if x.Some? then x.value else default
  }

  /** The body of create_test_case; `priorityNormal` is the default priority. */
  function TestCaseBody(projectKey: string, name: string, args: TestCaseArgs, priorityNormal: string): map<string, Value>
  {
    map["projectKey" := Str(projectKey),
        "name" := Str(name),
        "folder" := FolderField(FolderPath(args.folder)),
        "status" := Str(OrDefault(args.status, StatusApproved)),
        "objective" := Str(args.objective),
        "precondition" := Str(args.precondition),
        "priority" := Str(OrDefault(args.priority, priorityNormal)),
        "estimatedTime" := Or(Int(1000 * args.estimatedTime), Null),
        "labels" := Arr(StrList(args.labels)),
        "issueLinks" := Arr(StrList(args.issueLinks)),
        "testScript" := Obj(map["type" := Str(StepByStep), "steps" := Arr(args.steps)])]
  }

  /** The fields of a new test case: the root folder as null, a zero
      estimate as null, priority and status defaulted only when absent, and
      a step-by-step script holding the given steps. */
  lemma TestCaseBodyFields(projectKey: string, name: string, args: TestCaseArgs, priorityNormal: string)
    ensures var body := TestCaseBody(projectKey, name, args, priorityNormal);
            && body.Keys == {"projectKey", "name", "folder", "status", "objective", "precondition", "priority",
                             "estimatedTime", "labels", "issueLinks", "testScript"}
            && (body["folder"] == Null <==> args.folder == "" || args.folder == "/")
            && (body["folder"] != Null ==> body["folder"] == Str(FolderPath(args.folder)))
            && body["estimatedTime"] == (if args.estimatedTime == 0 then Null else Int(1000 * args.estimatedTime))
            && body["priority"] == Str(if args.priority.Some? then args.priority.value else priorityNormal)
            && body["status"] == Str(if args.status.Some? then args.status.value else StatusApproved)
            && body["testScript"] == Obj(map["type" := Str(StepByStep), "steps" := Arr(args.steps)])
            && body["labels"] == Arr(StrList(args.labels)) && body["issueLinks"] == Arr(StrList(args.issueLinks))
  {
    FolderOfCreated(args.folder);
  }

  /** The project key, the name, the objective and the precondition of a
      new test case are sent as given. */
  lemma TestCaseBodyGiven(projectKey: string, name: string, args: TestCaseArgs, priorityNormal: string)
    ensures var body := TestCaseBody(projectKey, name, args, priorityNormal);
            && "projectKey" in body && body["projectKey"] == Str(projectKey)
            && "name" in body && body["name"] == Str(name)
            && "objective" in body && body["objective"] == Str(args.objective)
            && "precondition" in body && body["precondition"] == Str(args.precondition)
  {
  }

  function TestPlanBody(projectKey: string, name: string, args: TestPlanArgs): (body: map<string, Value>)
    ensures body.Keys == {"projectKey", "name", "folder", "status", "objective", "labels", "issueLinks", "testRunKeys"}
    ensures body["folder"] == Null <==> args.folder == "" || args.folder == "/"
    ensures body["folder"] != Null ==> body["folder"] == Str(FolderPath(args.folder))
    ensures body["status"] == Str(if args.status.Some? then args.status.value else StatusApproved)
    ensures body["testRunKeys"] == Arr(StrList(args.testRuns))
    ensures body["projectKey"] == Str(projectKey) && body["name"] == Str(name) && body["objective"] == Str(args.objective)
    ensures body["labels"] == Arr(StrList(args.labels)) && body["issueLinks"] == Arr(StrList(args.issueLinks))
  {
    FolderOfCreated(args.folder);
    map["projectKey" := Str(projectKey),
        "name" := Str(name),
        "folder" := FolderField(FolderPath(args.folder)),
        "status" := Str(OrDefault(args.status, StatusApproved)),
        "objective" := Str(args.objective),
        "labels" := Arr(StrList(args.labels)),
        "issueLinks" := Arr(StrList(args.issueLinks)),
        "testRunKeys" := Arr(StrList(args.testRuns))]
  }

  /** One item of a new test run: a test case in the run's environment. */
  function RunItem(testCaseKey: string, environment: string): Value
  {
    Obj(map["testCaseKey" := Str(testCaseKey), "environment" := StrOrNull(environment)])
  }

  function RunItems(testCases: seq<string>, environment: string): (items: seq<Value>)
    ensures |items| == |testCases|
    ensures forall i :: 0 <= i < |testCases| ==> items[i] == RunItem(testCases[i], environment)
  {
    if testCases == [] then [] else [RunItem(testCases[0], environment)] + RunItems(testCases[1..], environment)
  }

  function TestRunBody(projectKey: string, name: string, args: TestRunArgs): (body: map<string, Value>)
    ensures body.Keys == {"projectKey", "testPlanKey", "name", "folder", "issueKey", "items"}
    ensures body["folder"] == Null <==> args.folder == "" || args.folder == "/"
    ensures body["folder"] != Null ==> body["folder"] == Str(FolderPath(args.folder))
    ensures body["testPlanKey"] == (if args.testPlanKey == "" then Null else Str(args.testPlanKey))
    ensures body["issueKey"] == (if args.issueKey == "" then Null else Str(args.issueKey))
    ensures body["items"].Arr? && |body["items"].items| == |args.testCases|
    ensures forall i :: 0 <= i < |args.testCases| ==>
              var item := Rec(body["items"].items[i]);
              item.Keys == {"testCaseKey", "environment"} && item["testCaseKey"] == Str(args.testCases[i])
              && item["environment"] == (if args.environment == "" then Null else Str(args.environment))
  {
    FolderOfCreated(args.folder);
    map["projectKey" := Str(projectKey),
        "testPlanKey" := StrOrNull(args.testPlanKey),
        "name" := Str(name),
        "folder" := FolderField(FolderPath(args.folder)),
        "issueKey" := StrOrNull(args.issueKey),
        "items" := Arr(RunItems(args.testCases, args.environment))]
  }
}
