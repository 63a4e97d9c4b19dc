/** The Adaptavist client: each operation of the source as a method that
    sends its requests through one transport, recorded in `log`. The remote
    is a script of answers taken in order; once it is exhausted every
    request fails. */
module Client {
  import opened Json
  import opened Remote
  import opened Helper
  import opened Paging
  import opened Folders
  import opened Editing
  import opened Links
  import opened Creating
  import opened Results

  /** `after` is `before` with exchanges appended. */
  predicate Extends(before: seq<Exchange>, after: seq<Exchange>)
  {
    |before| <= |after| && after[..|before|] == before
  }

  lemma ExtendsTrans(a: seq<Exchange>, b: seq<Exchange>, c: seq<Exchange>)
    requires Extends(a, b) && Extends(b, c)
    ensures Extends(a, c)
    ensures c[|a|..] == b[|a|..] + c[|b|..]
  {
    assert c[..|b|][..|a|] == c[..|a|];
  }

  /** One more exchange after `b` ends the suffix of `b` since `a`. */
  lemma SuffixSnoc(a: seq<Exchange>, b: seq<Exchange>, e: Exchange)
    requires Extends(a, b)
    ensures Extends(a, b + [e])
    ensures var t := (b + [e])[|a|..]; t == b[|a|..] + [e] && t[..|t| - 1] == b[|a|..]
  {
    SuffixAppend(a, b, [e]);
  }

  /** Exchanges appended after `b` extend the suffix of `b` since `a`. */
  lemma SuffixAppend(a: seq<Exchange>, b: seq<Exchange>, step: seq<Exchange>)
    requires Extends(a, b)
    ensures Extends(a, b + step)
    ensures (b + step)[|a|..] == b[|a|..] + step
  {
    assert (b + step)[..|a|] == b[..|a|];
  }

  /** One more test case of link/unlink, recorded after `b`: a successful
      step extends the walk, a failed one ends it with false. */
  lemma LinkedAfter(mode: Mode, issue: string, keys: seq<string>, i: nat, a: seq<Exchange>, b: seq<Exchange>, step: seq<Exchange>)
    requires Extends(a, b) && i < |keys|
    requires Linked(mode, issue, keys[..i], b[|a|..], true)
    requires LinkStep(mode, issue, keys[i], step)
    ensures Extends(a, b + step)
    ensures StepOk(step) ==> Linked(mode, issue, keys[..i + 1], (b + step)[|a|..], true)
    ensures !StepOk(step) ==> Linked(mode, issue, keys, (b + step)[|a|..], false)
  {
    SuffixAppend(a, b, step);
    if StepOk(step) {
      LinkedSnoc(mode, issue, keys[..i], b[|a|..], keys[i], step);
      assert keys[..i + 1] == keys[..i] + [keys[i]];
    } else {
      LinkedFail(mode, issue, keys[..i], b[|a|..], keys[i], step, keys[i + 1..]);
      assert keys[..i] + [keys[i]] + keys[i + 1..] == keys;
    }
  }

  /** One more non-empty page extends the walk recorded since `a`. */
  lemma WalkedAfter(l: Listing, a: seq<Exchange>, b: seq<Exchange>, e: Exchange, items: seq<Value>)
    requires Extends(a, b) && Walked(l, 0, b[|a|..], items, |items|)
    requires e.request == PageRequest(l, |items|) && PageItems(l, e.answer) != []
    ensures Extends(a, b + [e])
    ensures Walked(l, 0, (b + [e])[|a|..], items + PageItems(l, e.answer), |items + PageItems(l, e.answer)|)
  {
    SuffixSnoc(a, b, e);
    WalkedSnoc(l, 0, b[|a|..], items, |items|, e);
  }

  /** An empty or failed page ends the walk recorded since `a`. */
  lemma PagedAfter(l: Listing, a: seq<Exchange>, b: seq<Exchange>, e: Exchange, items: seq<Value>)
    requires Extends(a, b) && Walked(l, 0, b[|a|..], items, |items|)
    requires e.request == PageRequest(l, |items|) && PageItems(l, e.answer) == []
    ensures Extends(a, b + [e])
    ensures Paged(l, (b + [e])[|a|..], items)
    ensures items == PagedItems(l, (b + [e])[|a|..])
  {
    SuffixSnoc(a, b, e);
    PagedItemsDetermined(l, (b + [e])[|a|..], items);
  }

  /** The default search masks of get_test_cases, get_test_plans and
      get_test_runs, which select every entity. */
  const AllTestCases := "folder <= \"/\""
  const AllTestPlans := "folder <= \"/\""
  const AllTestRuns := "folder = \"/\""

  /** `get_executor() if x is None else x` */
  function Resolved(x: Option<string>, currentUser: string): string
  {
    if x.Some? then x.value else currentUser
  }

  /** What the edit of a script result sets its comment to: None is null. */
  function CommentValue(comment: Option<string>): Value
  {
    if comment.Some? then Str(comment.value) else Null
  }

  /** The results get_test_results returns for an answer. */
  function RunResults(answer: Option<Value>): seq<Value>
  {
    if answer.None? then [] else SortedResults(ListOf(answer.value))
  }

  /** A lone request of the given shape. */
  ghost predicate Single(ex: seq<Exchange>, request: Request)
  {
    |ex| == 1 && ex[0].request == request
  }

  /** The folder creation of a create_* operation, for the folder name it
      passes to create_folder, then its POST. */
  ghost predicate CreatedAfterFolder(projectKey: string, folderType: string, folderName: string, post: Request, ex: seq<Exchange>)
  {
    && |ex| >= 1
    && FolderCreation(projectKey, folderType, folderName, ex[..|ex| - 1])
    && ex[|ex| - 1].request == post
  }

  /** The requests of edit_test_case / edit_test_plan after a fetch that
      found `fetched`: nothing when a folder is given and the entity has no
      project key; otherwise the folder creation when a folder is given,
      then one PUT whose success is the result. */
  ghost predicate EditTail(resource: Resource, folder: Option<string>, folderType: string,
                           fetched: map<string, Value>, ex: seq<Exchange>, r: Result<bool>)
  {
    if folder.Some? && "projectKey" !in fetched then ex == [] && r == Failure(MissingKey("projectKey"))
    else
      && |ex| >= 1
      && (if folder.Some? then FolderCreation(StrOf(fetched["projectKey"]), folderType, FolderPath(folder.value), ex[..|ex| - 1])
          else |ex| == 1)
      && ex[|ex| - 1].request.verb == PUT
      && ex[|ex| - 1].request.resource == resource
      && ex[|ex| - 1].request.body.Obj?
      && r == Success(ex[|ex| - 1].answer.Some?)
  }

  /** The requests of edit_test_case / edit_test_plan and their result: the
      fetch, then nothing more when the entity is not found. */
  ghost predicate EditTrace(resource: Resource, folder: Option<string>, folderType: string, ex: seq<Exchange>, r: Result<bool>)
  {
    && |ex| >= 1
    && ex[0].request == Fetch(resource)
    && var fetched := RecordOf(ex[0].answer);
       if fetched == map[] then |ex| == 1 && r == Success(false)
       else EditTail(resource, folder, folderType, fetched, ex[1..], r)
  }

  /** The PUT of edit_test_case, if any, carries the edited body. */
  ghost predicate TestCaseBodySent(c: TestCaseChanges, ex: seq<Exchange>)
  {
    |ex| >= 2 && ex[|ex| - 1].request.body.Obj? ==> TestCaseEdited(RecordOf(ex[0].answer), c, ex[|ex| - 1].request.body.fields)
  }

  /** The PUT of edit_test_plan, if any, carries the edited body. */
  ghost predicate TestPlanBodySent(c: TestPlanChanges, ex: seq<Exchange>)
  {
    |ex| >= 2 && ex[|ex| - 1].request.body.Obj? ==> TestPlanEdited(RecordOf(ex[0].answer), c, ex[|ex| - 1].request.body.fields)
  }

  /** A fetch that found the entity, then the rest of an edit: `a` is the
      log before the edit, `g` after the fetch, `l` at its end. */
  lemma EditAfterFetch(resource: Resource, folder: Option<string>, folderType: string,
                       a: seq<Exchange>, g: seq<Exchange>, l: seq<Exchange>, r: Result<bool>)
    requires Extends(a, g) && Single(g[|a|..], Fetch(resource)) && RecordOf(g[|a|].answer) != map[]
    requires Extends(g, l) && EditTail(resource, folder, folderType, RecordOf(g[|a|].answer), l[|g|..], r)
    ensures Extends(a, l)
    ensures EditTrace(resource, folder, folderType, l[|a|..], r)
    ensures |l[|a|..]| >= 2 ==> l[|a|..][|l[|a|..]| - 1] == l[|l| - 1] && l[|a|..][0] == g[|a|]
  {
    ExtendsTrans(a, g, l);
    assert l[|a|..][1..] == l[|g|..];
  }

  /** The edit_test_case trace from its fetch and the rest of the edit. */
  lemma TestCaseEditAfterFetch(testCaseKey: string, c: TestCaseChanges, a: seq<Exchange>, g: seq<Exchange>, l: seq<Exchange>,
                               r: Result<bool>, body: map<string, Value>)
    requires Extends(a, g) && Single(g[|a|..], Fetch(TestCase(testCaseKey))) && RecordOf(g[|a|].answer) != map[]
    requires Extends(g, l) && EditTail(TestCase(testCaseKey), c.folder, TestCaseFolders, RecordOf(g[|a|].answer), l[|g|..], r)
    requires TestCaseEdited(RecordOf(g[|a|].answer), c, body)
    requires l[|g|..] != [] ==> l[|l| - 1].request.body == Obj(body)
    ensures Extends(a, l)
    ensures EditTrace(TestCase(testCaseKey), c.folder, TestCaseFolders, l[|a|..], r)
    ensures TestCaseBodySent(c, l[|a|..])
  {
    EditAfterFetch(TestCase(testCaseKey), c.folder, TestCaseFolders, a, g, l, r);
  }

  /** The edit_test_plan trace from its fetch and the rest of the edit. */
  lemma TestPlanEditAfterFetch(testPlanKey: string, c: TestPlanChanges, a: seq<Exchange>, g: seq<Exchange>, l: seq<Exchange>,
                               r: Result<bool>, body: map<string, Value>)
    requires Extends(a, g) && Single(g[|a|..], Fetch(TestPlan(testPlanKey))) && RecordOf(g[|a|].answer) != map[]
    requires Extends(g, l) && EditTail(TestPlan(testPlanKey), c.folder, TestCaseFolders, RecordOf(g[|a|].answer), l[|g|..], r)
    requires TestPlanEdited(RecordOf(g[|a|].answer), c, body)
    requires l[|g|..] != [] ==> l[|l| - 1].request.body == Obj(body)
    ensures Extends(a, l)
    ensures EditTrace(TestPlan(testPlanKey), c.folder, TestCaseFolders, l[|a|..], r)
    ensures TestPlanBodySent(c, l[|a|..])
  {
    EditAfterFetch(TestPlan(testPlanKey), c.folder, TestCaseFolders, a, g, l, r);
  }

  /** An edit sends exactly one PUT, as its last request, when the entity
      was found and, if a folder is given, carries its project key; it sends
      none otherwise, and it reports success only for an answered PUT. */
  lemma {:induction false} EditOutcome(resource: Resource, folder: Option<string>, folderType: string, ex: seq<Exchange>, r: Result<bool>)
    requires EditTrace(resource, folder, folderType, ex, r)
    ensures var fetched := RecordOf(ex[0].answer);
            (exists i :: 0 <= i < |ex| && ex[i].request.verb == PUT)
            <==> fetched != map[] && (folder.None? || "projectKey" in fetched)
    ensures forall i :: 0 <= i < |ex| - 1 ==> ex[i].request.verb != PUT
    ensures r == Success(true) <==> ex[|ex| - 1].request.verb == PUT && ex[|ex| - 1].answer.Some?
  {
    var fetched := RecordOf(ex[0].answer);
    if fetched != map[] && (folder.None? || "projectKey" in fetched) {
      EditTailPuts(resource, folder, folderType, fetched, ex[1..], r);
      forall i | 1 <= i < |ex| ensures ex[i] == ex[1..][i - 1] {
      }
    }
  }

  /** After the fetch, an edit that goes ahead sends one PUT, last. */
  lemma EditTailPuts(resource: Resource, folder: Option<string>, folderType: string,
                     fetched: map<string, Value>, tail: seq<Exchange>, r: Result<bool>)
    requires EditTail(resource, folder, folderType, fetched, tail, r)
    requires folder.None? || "projectKey" in fetched
    ensures |tail| >= 1 && tail[|tail| - 1].request.verb == PUT
    ensures forall i :: 0 <= i < |tail| - 1 ==> tail[i].request.verb != PUT
  {
    if folder.Some? {
      var creation := tail[..|tail| - 1];
      FolderCreationSendsNoPut(StrOf(fetched["projectKey"]), folderType, FolderPath(folder.value), creation);
      forall i | 0 <= i < |tail| - 1 ensures tail[i] == creation[i] {
      }
    }
  }

  /** The requests of create_test_results and the ids it returns. */
  ghost predicate ResultsCreated(runKey: string, results: seq<map<string, Value>>, exclude: bool, environment: string,
                                 assignee: string, executor: string, ex: seq<Exchange>, ids: seq<Value>)
  {
    && |ex| >= 1
    && ex[0].request == Fetch(TestRun(runKey))
    && var run := RecordOf(ex[0].answer);
       var existing := FieldValues(ListOf(Get(run, "items")), "testCaseKey");
       var prepared := StampedResults(ReportedResults(results, existing, exclude), assignee, executor, environment);
       if run == map[] || prepared == [] then |ex| == 1 && ids == []
       else
         && |ex| == 2
         && ex[1].request == Request(POST, TestRunResults(runKey), Arr(prepared))
         && ids == if ex[1].answer.None? then [] else FieldValues(ListOf(ex[1].answer.value), "id")
  }

  /** The requests of edit_test_script_status and its result. */
  ghost predicate ScriptStatusEdited(runKey: string, testCaseKey: string, step: int, status: string, comment: Option<string>,
                                     environment: Option<string>, assignee: Option<string>, executor: Option<string>,
                                     ex: seq<Exchange>, r: Result<bool>)
  {
    && |ex| >= 1
    && ex[0].request == Fetch(TestRunResults(runKey))
    && var result := ResultFor(RunResults(ex[0].answer), testCaseKey);
       if "status" !in result then |ex| == 1 && r == Failure(MissingKey("status"))
       else
         var scripts := RewrittenScripts(ListOf(Get(result, "scriptResults")), step, status, CommentValue(comment));
         && |ex| == 2
         && ex[1].request == Request(PUT, TestResult(runKey, testCaseKey),
                                     Obj(ScriptStatusBody(result["status"], scripts, environment, assignee, executor)))
         && r == Success(ex[1].answer.Some?)
  }

  class Adaptavist {
    /** PRIORITY_NORMAL and STATUS_NOT_EXECUTED: imported by the client but
        without a value in the constants module, so given at construction. */
    const priorityNormal: string
    const statusNotExecuted: string
    /** The user name get_executor reports for this process. */
    const currentUser: string
    /** The answers the remote still has to give, in order. */
    var pending: seq<Option<Value>>
    /** Every request sent, with its answer. */
    var log: seq<Exchange>

    constructor(priorityNormal: string, statusNotExecuted: string, currentUser: string, answers: seq<Option<Value>>)
      ensures this.priorityNormal == priorityNormal && this.statusNotExecuted == statusNotExecuted
      ensures this.currentUser == currentUser
      ensures pending == answers && log == []
    {
      this.priorityNormal := priorityNormal;
      this.statusNotExecuted := statusNotExecuted;
      this.currentUser := currentUser;
      pending := answers;
      log := [];
    }

    /** One request: the next scripted answer, or None (a failed request)
        once the script is exhausted. */
    method Send(request: Request) returns (answer: Option<Value>)
      modifies this
      ensures answer == if old(pending) == [] then None else old(pending)[0]
      ensures pending == if old(pending) == [] then [] else old(pending)[1..]
      ensures log == old(log) + [Exchange(request, answer)]
    {
      if pending == [] {
        answer := None;
      } else {
        answer := pending[0];
        pending := pending[1..];
      }
      log := log + [Exchange(request, answer)];
    }

    /** The loop shared by the paged listings: ask from offset 0, move on by
        the length of each page, stop at the first empty or failed page. */
    method Paginate(l: Listing) returns (items: seq<Value>)
      modifies this
      ensures Extends(old(log), log)
      ensures Paged(l, log[|old(log)|..], items)
      ensures items == PagedItems(l, log[|old(log)|..])
    {
      items := [];
      while true
        invariant Extends(old(log), log)
        invariant Walked(l, 0, log[|old(log)|..], items, |items|)
        decreases |pending|
      {
        ghost var before := log;
        var answer := Send(PageRequest(l, |items|));
        var page := PageItems(l, answer);
        if page == [] {
          PagedAfter(l, old(log), before, Exchange(PageRequest(l, |items|), answer), items);
          return;
        }
        WalkedAfter(l, old(log), before, Exchange(PageRequest(l, |items|), answer), items);
        items := items + page;
      }
    }

    /** get_users: the keys of every user listed. */
    method GetUsers() returns (users: seq<Value>)
      modifies this
      ensures Extends(old(log), log)
      ensures var ex := log[|old(log)|..]; ex != [] && Paged(Users, ex, PagedItems(Users, ex))
      ensures users == FieldValues(PagedItems(Users, log[|old(log)|..]), "key")
    {
      var items := Paginate(Users);
      users := FieldValues(items, "key");
    }

    method GetTestCases(searchMask: string) returns (testCases: seq<Value>)
      modifies this
      ensures Extends(old(log), log)
      ensures Paged(TestCases(searchMask), log[|old(log)|..], testCases)
    {
      testCases := Paginate(TestCases(searchMask));
    }

    method GetTestPlans(searchMask: string) returns (testPlans: seq<Value>)
      modifies this
      ensures Extends(old(log), log)
      ensures Paged(TestPlans(searchMask), log[|old(log)|..], testPlans)
    {
      testPlans := Paginate(TestPlans(searchMask));
    }

    /** get_test_runs, with `fields` its one keyword argument. */
    method GetTestRuns(searchMask: string, fields: string, unknown: map<string, Value>) returns (r: Result<seq<Value>>)
      modifies this
      ensures Extends(old(log), log)
      ensures unknown != map[] ==> r == Failure(UnknownArguments(unknown)) && log == old(log)
      ensures unknown == map[] ==> r.Success? && Paged(TestRuns(searchMask, fields), log[|old(log)|..], r.value)
    {
      var raised := RaiseOnKwargsNotEmpty(unknown);
      if raised.Some? {
        return Failure(raised.value);
      }
      var runs := Paginate(TestRuns(searchMask, fields));
      r := Success(runs);
    }

    /** get_test_run_by_name: key and name of the last run with that name. */
    method GetTestRunByName(name: string) returns (run: map<string, Value>)
      modifies this
      ensures Extends(old(log), log)
      ensures var ex := log[|old(log)|..]; ex != [] && Paged(TestRunsNamed(name), ex, PagedItems(TestRunsNamed(name), ex))
      ensures run == LastRunSummary(PagedItems(TestRunsNamed(name), log[|old(log)|..]))
    {
      var runs := Paginate(TestRunsNamed(name));
      run := LastRunSummary(runs);
    }

    method GetTestExecutionResults(lastResultOnly: bool) returns (rows: seq<map<string, Value>>)
      modifies this
      ensures Extends(old(log), log)
      ensures var ex := log[|old(log)|..]; ex != [] && Paged(ExecutionResults, ex, PagedItems(ExecutionResults, ex))
      ensures rows == ExecutionRows(PagedItems(ExecutionResults, log[|old(log)|..]), lastResultOnly)
    {
      var results := Paginate(ExecutionResults);
      rows := ExecutionRows(results, lastResultOnly);
    }

    method GetProjects() returns (projects: seq<map<string, Value>>)
      modifies this
      ensures Extends(old(log), log)
      ensures Single(log[|old(log)|..], Fetch(Projects))
      ensures projects == ProjectsOf(log[|old(log)|].answer)
    {
      var answer := Send(Fetch(Projects));
      projects := ProjectsOf(answer);
    }

    method GetFolders(projectKey: string, folderType: string) returns (folders: seq<string>)
      modifies this
      ensures Extends(old(log), log)
      ensures FoldersListed(projectKey, folderType, log[|old(log)|..])
      ensures folders == ListedFolders(log[|old(log)|..])
    {
      var projects := GetProjects();
      var id := ProjectId(projects, projectKey);
      if !Truthy(id) {
        return [];
      }
      var answer := Send(Fetch(ProjectFolders(id, folderType)));
      folders := FolderListing(answer);
    }

    method CreateFolder(projectKey: string, folderType: string, folderName: string) returns (id: Option<Value>)
      modifies this
      ensures Extends(old(log), log)
      ensures FolderCreation(projectKey, folderType, folderName, log[|old(log)|..])
      ensures id == FolderCreated(log[|old(log)|..])
    {
      var path := FolderPath(folderName);
      if path == "/" {
        return None;
      }
      var folders := GetFolders(projectKey, folderType);
      ghost var listed := log;
      if path in folders {
        FolderFoundCreation(projectKey, folderType, folderName, log[|old(log)|..]);
        return None;
      }
      var post := Request(POST, FolderCollection, FolderBody(projectKey, path, folderType));
      var answer := Send(post);
      SuffixSnoc(old(log), listed, Exchange(post, answer));
      FolderPostedCreation(projectKey, folderType, folderName, listed[|old(log)|..], Exchange(post, answer));
      id := CreatedField(answer, "id");
    }

    method CreateEnvironment(projectKey: string, name: string, description: string, unknown: map<string, Value>)
      returns (r: Result<Option<Value>>)
      modifies this
      ensures Extends(old(log), log)
      ensures unknown != map[] ==> r == Failure(UnknownArguments(unknown)) && log == old(log)
      ensures unknown == map[] ==> && Single(log[|old(log)|..], Request(POST, Environments, Obj(EnvironmentBody(projectKey, name, description))))
                                   && r == Success(CreatedField(log[|old(log)|].answer, "id"))
    {
      var raised := RaiseOnKwargsNotEmpty(unknown);
      if raised.Some? {
        return Failure(raised.value);
      }
      var answer := Send(Request(POST, Environments, Obj(EnvironmentBody(projectKey, name, description))));
      r := Success(CreatedField(answer, "id"));
    }

    method GetTestCase(testCaseKey: string) returns (testCase: map<string, Value>)
      modifies this
      ensures Extends(old(log), log)
      ensures Single(log[|old(log)|..], Fetch(TestCase(testCaseKey)))
      ensures testCase == RecordOf(log[|old(log)|].answer)
    {
      var answer := Send(Fetch(TestCase(testCaseKey)));
      testCase := RecordOf(answer);
    }

    method GetTestPlan(testPlanKey: string) returns (testPlan: map<string, Value>)
      modifies this
      ensures Extends(old(log), log)
      ensures Single(log[|old(log)|..], Fetch(TestPlan(testPlanKey)))
      ensures testPlan == RecordOf(log[|old(log)|].answer)
    {
      var answer := Send(Fetch(TestPlan(testPlanKey)));
      testPlan := RecordOf(answer);
    }

    method GetTestRun(testRunKey: string) returns (testRun: map<string, Value>)
      modifies this
      ensures Extends(old(log), log)
      ensures Single(log[|old(log)|..], Fetch(TestRun(testRunKey)))
      ensures testRun == RecordOf(log[|old(log)|].answer)
    {
      var answer := Send(Fetch(TestRun(testRunKey)));
      testRun := RecordOf(answer);
    }

    /** The folder creation of a create_* operation, then its POST. */
    method PostInFolder(projectKey: string, folderType: string, folderName: string, post: Request) returns (answer: Option<Value>)
      modifies this
      ensures Extends(old(log), log)
      ensures CreatedAfterFolder(projectKey, folderType, folderName, post, log[|old(log)|..])
      ensures answer == log[|log| - 1].answer
    {
      var _ := CreateFolder(projectKey, folderType, folderName);
      ghost var made := log;
      answer := Send(post);
      SuffixSnoc(old(log), made, Exchange(post, answer));
    }

    /** The folder creation and the PUT of an edit whose fetch found `fetched`. */
    method SendEdit(resource: Resource, folder: Option<string>, folderType: string,
                    fetched: map<string, Value>, body: map<string, Value>) returns (r: Result<bool>)
      modifies this
      ensures Extends(old(log), log)
      ensures EditTail(resource, folder, folderType, fetched, log[|old(log)|..], r)
      ensures log[|old(log)|..] != [] ==> log[|log| - 1].request.body == Obj(body)
    {
      if folder.Some? {
        if "projectKey" !in fetched {
          return Failure(MissingKey("projectKey"));
        }
        var _ := CreateFolder(StrOf(fetched["projectKey"]), folderType, FolderPath(folder.value));
      }
      ghost var made := log;
      var answer := Send(Request(PUT, resource, Obj(body)));
      SuffixSnoc(old(log), made, Exchange(Request(PUT, resource, Obj(body)), answer));
      r := Success(answer.Some?);
    }

    /** create_test_case: the folder is created first, then the test case. */
    method CreateTestCase(projectKey: string, name: string, args: TestCaseArgs, unknown: map<string, Value>)
      returns (r: Result<Option<Value>>)
      modifies this
      ensures Extends(old(log), log)
      ensures unknown != map[] ==> r == Failure(UnknownArguments(unknown)) && log == old(log)
      ensures unknown == map[] ==>
                && CreatedAfterFolder(projectKey, TestCaseFolders, FolderPath(args.folder),
                                      Request(POST, TestCaseCollection, Obj(TestCaseBody(projectKey, name, args, priorityNormal))),
                                      log[|old(log)|..])
                && r == Success(CreatedField(log[|log| - 1].answer, "key"))
    {
      var raised := RaiseOnKwargsNotEmpty(unknown);
      if raised.Some? {
        return Failure(raised.value);
      }
      var answer := PostInFolder(projectKey, TestCaseFolders, FolderPath(args.folder),
                                 Request(POST, TestCaseCollection, Obj(TestCaseBody(projectKey, name, args, priorityNormal))));
      r := Success(CreatedField(answer, "key"));
    }

    /** create_test_plan: the folder is created first, then the test plan. */
    method CreateTestPlan(projectKey: string, name: string, args: TestPlanArgs, unknown: map<string, Value>)
      returns (r: Result<Option<Value>>)
      modifies this
      ensures Extends(old(log), log)
      ensures unknown != map[] ==> r == Failure(UnknownArguments(unknown)) && log == old(log)
      ensures unknown == map[] ==>
                && CreatedAfterFolder(projectKey, TestPlanFolders, FolderPath(args.folder),
                                      Request(POST, TestPlanCollection, Obj(TestPlanBody(projectKey, name, args))),
                                      log[|old(log)|..])
                && r == Success(CreatedField(log[|log| - 1].answer, "key"))
    {
      var raised := RaiseOnKwargsNotEmpty(unknown);
      if raised.Some? {
        return Failure(raised.value);
      }
      var answer := PostInFolder(projectKey, TestPlanFolders, FolderPath(args.folder),
                                 Request(POST, TestPlanCollection, Obj(TestPlanBody(projectKey, name, args))));
      r := Success(CreatedField(answer, "key"));
    }

    /** create_test_run: the folder is created first, then the test run. */
    method CreateTestRun(projectKey: string, name: string, args: TestRunArgs, unknown: map<string, Value>)
      returns (r: Result<Option<Value>>)
      modifies this
      ensures Extends(old(log), log)
      ensures unknown != map[] ==> r == Failure(UnknownArguments(unknown)) && log == old(log)
      ensures unknown == map[] ==>
                && CreatedAfterFolder(projectKey, TestRunFolders, FolderPath(args.folder),
                                      Request(POST, TestRunCollection, Obj(TestRunBody(projectKey, name, args))),
                                      log[|old(log)|..])
                && r == Success(CreatedField(log[|log| - 1].answer, "key"))
    {
      var raised := RaiseOnKwargsNotEmpty(unknown);
      if raised.Some? {
        return Failure(raised.value);
      }
      var answer := PostInFolder(projectKey, TestRunFolders, FolderPath(args.folder),
                                 Request(POST, TestRunCollection, Obj(TestRunBody(projectKey, name, args))));
      r := Success(CreatedField(answer, "key"));
    }

    method EditTestCase(testCaseKey: string, c: TestCaseChanges, unknown: map<string, Value>) returns (r: Result<bool>)
      modifies this
      ensures Extends(old(log), log)
      ensures unknown != map[] ==> r == Failure(UnknownArguments(unknown)) && log == old(log)
      ensures unknown == map[] ==> && EditTrace(TestCase(testCaseKey), c.folder, TestCaseFolders, log[|old(log)|..], r)
                                   && TestCaseBodySent(c, log[|old(log)|..])
    {
      var raised := RaiseOnKwargsNotEmpty(unknown);
      if raised.Some? {
        return Failure(raised.value);
      }
      r := UpdateTestCase(testCaseKey, c);
    }

    /** edit_test_case once its keyword arguments are accepted. */
    method UpdateTestCase(testCaseKey: string, c: TestCaseChanges) returns (r: Result<bool>)
      modifies this
      ensures Extends(old(log), log)
      ensures EditTrace(TestCase(testCaseKey), c.folder, TestCaseFolders, log[|old(log)|..], r)
      ensures TestCaseBodySent(c, log[|old(log)|..])
    {
      var fetched := GetTestCase(testCaseKey);
      if fetched == map[] {
        return Success(false);
      }
      ghost var got := log;
      ghost var body;
      r, body := SendTestCaseEdit(testCaseKey, c, fetched);
      TestCaseEditAfterFetch(testCaseKey, c, old(log), got, log, r, body);
    }

    /** The part of edit_test_case after the fetch found `fetched`. */
    method SendTestCaseEdit(testCaseKey: string, c: TestCaseChanges, fetched: map<string, Value>) returns (r: Result<bool>, ghost body: map<string, Value>)
      modifies this
      ensures Extends(old(log), log)
      ensures EditTail(TestCase(testCaseKey), c.folder, TestCaseFolders, fetched, log[|old(log)|..], r)
      ensures TestCaseEdited(fetched, c, body)
      ensures log[|old(log)|..] != [] ==> log[|log| - 1].request.body == Obj(body)
    {
      var edited := EditedTestCase(fetched, c);
      body := edited;
      r := SendEdit(TestCase(testCaseKey), c.folder, TestCaseFolders, fetched, edited);
    }

    /** edit_test_plan; a given folder is created in the test case tree. */
    method EditTestPlan(testPlanKey: string, c: TestPlanChanges, unknown: map<string, Value>) returns (r: Result<bool>)
      modifies this
      ensures Extends(old(log), log)
      ensures unknown != map[] ==> r == Failure(UnknownArguments(unknown)) && log == old(log)
      ensures unknown == map[] ==> && EditTrace(TestPlan(testPlanKey), c.folder, TestCaseFolders, log[|old(log)|..], r)
                                   && TestPlanBodySent(c, log[|old(log)|..])
    {
      var raised := RaiseOnKwargsNotEmpty(unknown);
      if raised.Some? {
        return Failure(raised.value);
      }
      r := UpdateTestPlan(testPlanKey, c);
    }

    /** edit_test_plan once its keyword arguments are accepted. */
    method UpdateTestPlan(testPlanKey: string, c: TestPlanChanges) returns (r: Result<bool>)
      modifies this
      ensures Extends(old(log), log)
      ensures EditTrace(TestPlan(testPlanKey), c.folder, TestCaseFolders, log[|old(log)|..], r)
      ensures TestPlanBodySent(c, log[|old(log)|..])
    {
      var fetched := GetTestPlan(testPlanKey);
      if fetched == map[] {
        return Success(false);
      }
      ghost var got := log;
      ghost var body;
      r, body := SendTestPlanEdit(testPlanKey, c, fetched);
      TestPlanEditAfterFetch(testPlanKey, c, old(log), got, log, r, body);
    }

    /** The part of edit_test_plan after the fetch found `fetched`. */
    method SendTestPlanEdit(testPlanKey: string, c: TestPlanChanges, fetched: map<string, Value>) returns (r: Result<bool>, ghost body: map<string, Value>)
      modifies this
      ensures Extends(old(log), log)
      ensures EditTail(TestPlan(testPlanKey), c.folder, TestCaseFolders, fetched, log[|old(log)|..], r)
      ensures TestPlanEdited(fetched, c, body)
      ensures log[|old(log)|..] != [] ==> log[|log| - 1].request.body == Obj(body)
    {
      var edited := EditedTestPlan(fetched, c);
      body := edited;
      r := SendEdit(TestPlan(testPlanKey), c.folder, TestCaseFolders, fetched, edited);
    }

    /** link_test_cases and unlink_test_cases: each test case in turn is
        fetched, skipped when not found, and sent its new issue links when
        they change; the first PUT that fails ends the walk with false. */
    method UpdateLinks(mode: Mode, issue: string, testCaseKeys: seq<string>) returns (ok: bool)
      modifies this
      ensures Extends(old(log), log)
      ensures Linked(mode, issue, testCaseKeys, log[|old(log)|..], ok)
    {
      for i := 0 to |testCaseKeys|
        invariant Extends(old(log), log)
        invariant Linked(mode, issue, testCaseKeys[..i], log[|old(log)|..], true)
      {
        ghost var before := log;
        var stepOk, step := LinkOne(mode, issue, testCaseKeys[i]);
        LinkedAfter(mode, issue, testCaseKeys, i, old(log), before, step);
        if !stepOk {
          return false;
        }
      }
      assert testCaseKeys[..|testCaseKeys|] == testCaseKeys;
      ok := true;
    }

    /** One test case of link_test_cases / unlink_test_cases. */
    method LinkOne(mode: Mode, issue: string, testCaseKey: string) returns (ok: bool, ghost step: seq<Exchange>)
      modifies this
      ensures log == old(log) + step
      ensures LinkStep(mode, issue, testCaseKey, step)
      ensures ok == StepOk(step)
    {
      var answer := Send(Fetch(TestCase(testCaseKey)));
      step := [Exchange(Fetch(TestCase(testCaseKey)), answer)];
      ok := true;
      if NeedsPut(mode, issue, answer) {
        var put := Send(LinkRequest(mode, issue, testCaseKey, answer));
        step := step + [Exchange(LinkRequest(mode, issue, testCaseKey, answer), put)];
        ok := put.Some?;
      }
    }

    method LinkTestCases(issue: string, testCaseKeys: seq<string>) returns (ok: bool)
      modifies this
      ensures Extends(old(log), log)
      ensures Linked(Link, issue, testCaseKeys, log[|old(log)|..], ok)
    {
      ok := UpdateLinks(Link, issue, testCaseKeys);
    }

    method UnlinkTestCases(issue: string, testCaseKeys: seq<string>) returns (ok: bool)
      modifies this
      ensures Extends(old(log), log)
      ensures Linked(Unlink, issue, testCaseKeys, log[|old(log)|..], ok)
    {
      ok := UpdateLinks(Unlink, issue, testCaseKeys);
    }

    /** get_test_results: the run's results with their script results
        sorted by index, none when the request failed. */
    method GetTestResults(testRunKey: string) returns (results: seq<Value>)
      modifies this
      ensures Extends(old(log), log)
      ensures Single(log[|old(log)|..], Fetch(TestRunResults(testRunKey)))
      ensures results == RunResults(log[|old(log)|].answer)
    {
      var answer := Send(Fetch(TestRunResults(testRunKey)));
      if answer.None? {
        return [];
      }
      results := SortScriptResults(ListOf(answer.value));
    }

    /** get_test_result: the first result of the run for the test case. */
    method GetTestResult(testRunKey: string, testCaseKey: string) returns (result: map<string, Value>)
      modifies this
      ensures Extends(old(log), log)
      ensures Single(log[|old(log)|..], Fetch(TestRunResults(testRunKey)))
      ensures result == ResultFor(RunResults(log[|old(log)|].answer), testCaseKey)
    {
      var results := GetTestResults(testRunKey);
      result := FirstForTestCase(results, testCaseKey);
    }

    /** create_test_results; None for the assignee or the executor stands
        for the current user. */
    method CreateTestResults(testRunKey: string, results: seq<map<string, Value>>, excludeExisting: bool,
                             environment: string, assignee: Option<string>, executor: Option<string>,
                             unknown: map<string, Value>)
      returns (r: Result<seq<Value>>)
      modifies this
      ensures Extends(old(log), log)
      ensures unknown != map[] ==> r == Failure(UnknownArguments(unknown)) && log == old(log)
      ensures unknown == map[] ==> && r.Success?
                                   && ResultsCreated(testRunKey, results, excludeExisting, environment,
                                                     Resolved(assignee, currentUser), Resolved(executor, currentUser),
                                                     log[|old(log)|..], r.value)
    {
      var raised := RaiseOnKwargsNotEmpty(unknown);
      if raised.Some? {
        return Failure(raised.value);
      }
      var run := GetTestRun(testRunKey);
      if run == map[] {
        return Success([]);
      }
      var existing := FieldValues(ListOf(Get(run, "items")), "testCaseKey");
      var prepared := PrepareResults(results, existing, excludeExisting,
                                     Resolved(assignee, currentUser), Resolved(executor, currentUser), environment);
      if prepared == [] {
        return Success([]);
      }
      ghost var got := log;
      var answer := Send(Request(POST, TestRunResults(testRunKey), Arr(prepared)));
      SuffixSnoc(old(log), got, Exchange(Request(POST, TestRunResults(testRunKey), Arr(prepared)), answer));
      if answer.None? {
        return Success([]);
      }
      r := Success(FieldValues(ListOf(answer.value), "id"));
    }

    /** create_test_result; None for the status stands for the default
        status, None for the assignee or the executor for the current user. */
    method CreateTestResult(testRunKey: string, testCaseKey: string, status: Option<string>, comment: string,
                            executeTime: Option<int>, environment: string, assignee: Option<string>,
                            executor: Option<string>, issueLinks: seq<string>, unknown: map<string, Value>)
      returns (r: Result<Option<Value>>)
      modifies this
      ensures Extends(old(log), log)
      ensures unknown != map[] ==> r == Failure(UnknownArguments(unknown)) && log == old(log)
      ensures unknown == map[] ==>
                && Single(log[|old(log)|..],
                          Request(POST, TestResult(testRunKey, testCaseKey),
                                  Obj(CreateResultBody(OrDefault(status, statusNotExecuted), comment, executeTime, environment,
                                                       Resolved(assignee, currentUser), Resolved(executor, currentUser),
                                                       issueLinks))))
                && r == Success(CreatedField(log[|old(log)|].answer, "id"))
    {
      var raised := RaiseOnKwargsNotEmpty(unknown);
      if raised.Some? {
        return Failure(raised.value);
      }
      var body := CreateResultBody(OrDefault(status, statusNotExecuted), comment, executeTime, environment,
                                   Resolved(assignee, currentUser), Resolved(executor, currentUser), issueLinks);
      var answer := Send(Request(POST, TestResult(testRunKey, testCaseKey), Obj(body)));
      r := Success(CreatedField(answer, "id"));
    }

    /** edit_test_result_status: one PUT of the status and of each other
        field that is given. */
    method EditTestResultStatus(testRunKey: string, testCaseKey: string, status: string, comment: Option<string>,
                                executeTime: Option<int>, environment: Option<string>, assignee: Option<string>,
                                executor: Option<string>, issueLinks: Option<seq<string>>, unknown: map<string, Value>)
      returns (r: Result<bool>)
      modifies this
      ensures Extends(old(log), log)
      ensures unknown != map[] ==> r == Failure(UnknownArguments(unknown)) && log == old(log)
      ensures unknown == map[] ==>
                && Single(log[|old(log)|..],
                          Request(PUT, TestResult(testRunKey, testCaseKey),
                                  Obj(EditResultBody(status, comment, executeTime, environment, assignee, executor, issueLinks))))
                && r == Success(log[|old(log)|].answer.Some?)
    {
      var raised := RaiseOnKwargsNotEmpty(unknown);
      if raised.Some? {
        return Failure(raised.value);
      }
      var body := EditResultBody(status, comment, executeTime, environment, assignee, executor, issueLinks);
      var answer := Send(Request(PUT, TestResult(testRunKey, testCaseKey), Obj(body)));
      r := Success(answer.Some?);
    }

    /** edit_test_script_status: the result of the test case is fetched,
        every script result is cut down to index, status and comment, the
        one for `step` rewritten, and the whole sent back under the
        result's own status. */
    method EditTestScriptStatus(testRunKey: string, testCaseKey: string, step: int, status: string,
                                comment: Option<string>, environment: Option<string>, assignee: Option<string>,
                                executor: Option<string>, unknown: map<string, Value>)
      returns (r: Result<bool>)
      modifies this
      ensures Extends(old(log), log)
      ensures unknown != map[] ==> r == Failure(UnknownArguments(unknown)) && log == old(log)
      ensures unknown == map[] ==> ScriptStatusEdited(testRunKey, testCaseKey, step, status, comment, environment,
                                                      assignee, executor, log[|old(log)|..], r)
    {
      var raised := RaiseOnKwargsNotEmpty(unknown);
      if raised.Some? {
        return Failure(raised.value);
      }
      var result := GetTestResult(testRunKey, testCaseKey);
      var scripts := RewriteScripts(ListOf(Get(result, "scriptResults")), step, status, CommentValue(comment));
      if "status" !in result {
        return Failure(MissingKey("status"));
      }
      ghost var got := log;
      var put := Request(PUT, TestResult(testRunKey, testCaseKey),
                         Obj(ScriptStatusBody(result["status"], scripts, environment, assignee, executor)));
      var answer := Send(put);
      SuffixSnoc(old(log), got, Exchange(put, answer));
      r := Success(answer.Some?);
    }
  }
}
