/** Test results: the script results of get_test_results sorted by their
    index, the lookup of get_test_result, the script rewriting of
    edit_test_script_status, the selection and stamping of
    create_test_results, and the bodies of create_test_result,
    edit_test_result_status and edit_test_script_status. */
module Results {
  import opened Json
  import opened Sorting

  // ---------------------------------------------------------------------
  // Script results in the order of their index
  // ---------------------------------------------------------------------

  /** The sort key of a script result: its integer "index" (other values
      sort as 0). */
  function Index(v: Value): int
  {
    var i := Get(Rec(v), "index");
    if i.Int? then i.n else 0
  }

  /** A test result with its script results sorted by index. */
  function WithSortedScripts(result: Value): Value
  {
    var m := Rec(result);
    Obj(m["scriptResults" := Arr(SortBy(Index, ListOf(Get(m, "scriptResults"))))])
  }

  /** The results get_test_results returns: each one unchanged but for its
      script results, which are sorted by index and otherwise the same. */
  function SortedResults(results: seq<Value>): (sorted: seq<Value>)
    ensures |sorted| == |results|
    ensures forall i :: 0 <= i < |results| ==>
              && Rec(sorted[i]) - {"scriptResults"} == Rec(results[i]) - {"scriptResults"}
              && var scripts := ListOf(Get(Rec(sorted[i]), "scriptResults"));
                 SortedBy(Index, scripts) && multiset(scripts) == multiset(ListOf(Get(Rec(results[i]), "scriptResults")))
  {
    seq(|results|, i requires 0 <= i < |results| => WithSortedScripts(results[i]))
  }

  /** The loop of get_test_results over the fetched results. */
  method SortScriptResults(results: seq<Value>) returns (sorted: seq<Value>)
    ensures sorted == SortedResults(results)
  {
    sorted := [];
    for i := 0 to |results|
      invariant |sorted| == i
      invariant forall j :: 0 <= j < i ==> sorted[j] == WithSortedScripts(results[j])
    {
      sorted := sorted + [WithSortedScripts(results[i])];
    }
  }

  // ---------------------------------------------------------------------
  // get_test_result
  // ---------------------------------------------------------------------

  predicate ForTestCase(result: Value, testCaseKey: string)
  {
    Get(Rec(result), "testCaseKey") == Str(testCaseKey)
  }

  /** The first result for the test case, or `{}` when there is none. */
  function ResultFor(results: seq<Value>, testCaseKey: string): (result: map<string, Value>)
    ensures (forall i :: 0 <= i < |results| ==> !ForTestCase(results[i], testCaseKey)) ==> result == map[]
    ensures forall i :: 0 <= i < |results| && ForTestCase(results[i], testCaseKey)
                        && (forall j :: 0 <= j < i ==> !ForTestCase(results[j], testCaseKey))
                        ==> result == Rec(results[i])
  {
    if results == [] then map[]
    else if ForTestCase(results[0], testCaseKey) then Rec(results[0])
    else
      var result := ResultFor(results[1..], testCaseKey);
      assert forall i :: 1 <= i < |results| ==> results[i] == results[1..][i - 1];
      result
  }

  /** The loop of get_test_result over the results of the run. */
  method FirstForTestCase(results: seq<Value>, testCaseKey: string) returns (result: map<string, Value>)
    ensures result == ResultFor(results, testCaseKey)
  {
    for i := 0 to |results|
      invariant ResultFor(results, testCaseKey) == ResultFor(results[i..], testCaseKey)
    {
      assert results[i..][1..] == results[i + 1..];
      if ForTestCase(results[i], testCaseKey) {
        return Rec(results[i]);
      }
    }
    return map[];
  }

  // ---------------------------------------------------------------------
  // edit_test_script_status
  // ---------------------------------------------------------------------

  const ScriptKeys: set<string> := {"index", "status", "comment"}

  /** A script result reduced to index, status and comment, with the step
      `step` (counted from 1) given the new status and comment. */
  function RewrittenScript(script: Value, step: int, status: string, comment: Value): map<string, Value>
  {
    var m := Rec(script);
    var kept := map k | k in m && k in ScriptKeys :: m[k];
    if Get(kept, "index") == Int(step - 1) then kept["status" := Str(status)]["comment" := comment] else kept
  }

  /** The script results edit_test_script_status sends: each reduced to
      index, status and comment, and the one at index `step - 1` given the
      new status and comment. */
  function RewrittenScripts(scripts: seq<Value>, step: int, status: string, comment: Value): (rewritten: seq<Value>)
    ensures |rewritten| == |scripts|
    ensures forall i :: 0 <= i < |scripts| ==> rewritten[i].Obj? && rewritten[i].fields.Keys <= ScriptKeys
    ensures forall i :: 0 <= i < |scripts| && Get(Rec(scripts[i]), "index") == Int(step - 1) ==>
              var m := rewritten[i].fields;
              Slot(m, "index") == Some(Int(step - 1)) && Slot(m, "status") == Some(Str(status)) && Slot(m, "comment") == Some(comment)
    ensures forall i :: 0 <= i < |scripts| && Get(Rec(scripts[i]), "index") != Int(step - 1) ==>
              forall k :: k in ScriptKeys ==> Slot(rewritten[i].fields, k) == Slot(Rec(scripts[i]), k)
  {
    seq(|scripts|, i requires 0 <= i < |scripts| => Obj(RewrittenScript(scripts[i], step, status, comment)))
  }

  /** The loop of edit_test_script_status over the script results. */
  method RewriteScripts(scripts: seq<Value>, step: int, status: string, comment: Value) returns (rewritten: seq<Value>)
    ensures rewritten == RewrittenScripts(scripts, step, status, comment)
  {
    rewritten := [];
    for i := 0 to |scripts|
      invariant |rewritten| == i
      invariant forall j :: 0 <= j < i ==> rewritten[j] == Obj(RewrittenScript(scripts[j], step, status, comment))
    {
      rewritten := rewritten + [Obj(RewrittenScript(scripts[i], step, status, comment))];
    }
  }

  // ---------------------------------------------------------------------
  // create_test_results
  // ---------------------------------------------------------------------

  /** Whether create_test_results reports a result: always, unless existing
      test cases are excluded and the run already holds its test case. */
  predicate Reported(result: map<string, Value>, existing: seq<Value>, exclude: bool)
  {
    !(exclude && Get(result, "testCaseKey") in existing)
  }

  /** The results create_test_results reports, in order. */
  function ReportedResults(results: seq<map<string, Value>>, existing: seq<Value>, exclude: bool)
    : (kept: seq<map<string, Value>>)
    ensures |kept| <= |results|
    ensures forall r :: r in kept <==> r in results && Reported(r, existing, exclude)
    ensures !exclude ==> kept == results
  {
    if results == [] then []
    else
      var last := results[|results| - 1];
      var front := results[..|results| - 1];
      assert results == front + [last];
      ReportedResults(front, existing, exclude) + (if Reported(last, existing, exclude) then [last] else [])
  }

  /** Every occurrence of a reported result is kept, and none of another. */
  lemma {:induction false} ReportedCounts(results: seq<map<string, Value>>, existing: seq<Value>, exclude: bool)
    ensures var kept := ReportedResults(results, existing, exclude);
            forall r :: multiset(kept)[r] == if Reported(r, existing, exclude) then multiset(results)[r] else 0
  {
    if results != [] {
      var front, last := results[..|results| - 1], results[|results| - 1];
      ReportedCounts(front, existing, exclude);
      assert results == front + [last];
      var keptFront := ReportedResults(front, existing, exclude);
      var added := if Reported(last, existing, exclude) then [last] else [];
      assert ReportedResults(results, existing, exclude) == keptFront + added;
      assert multiset(results) == multiset(front) + multiset{last};
      assert multiset(keptFront + added) == multiset(keptFront) + multiset(added);
    }
  }

  /** A result as reported: assignee, executor and environment set, with
      null for the empty text. */
  function Stamped(result: map<string, Value>, assignee: string, executor: string, environment: string): map<string, Value>
  {
    result["assignedTo" := StrOrNull(assignee)]["executedBy" := StrOrNull(executor)]["environment" := StrOrNull(environment)]
  }

  /** The reported results, stamped. */
  function StampedResults(kept: seq<map<string, Value>>, assignee: string, executor: string, environment: string): seq<Value>
  {
    seq(|kept|, i requires 0 <= i < |kept| => Obj(Stamped(kept[i], assignee, executor, environment)))
  }

  /** The loop of create_test_results over the given results. */
  method PrepareResults(results: seq<map<string, Value>>, existing: seq<Value>, exclude: bool,
                        assignee: string, executor: string, environment: string)
    returns (prepared: seq<Value>)
    ensures prepared == StampedResults(ReportedResults(results, existing, exclude), assignee, executor, environment)
  {
    prepared := [];
    for i := 0 to |results|
      invariant prepared == StampedResults(ReportedResults(results[..i], existing, exclude), assignee, executor, environment)
    {
      ghost var kept := ReportedResults(results[..i], existing, exclude);
      assert results[..i + 1][..i] == results[..i];
      if Reported(results[i], existing, exclude) {
        assert StampedResults(kept + [results[i]], assignee, executor, environment)
               == StampedResults(kept, assignee, executor, environment) + [Obj(Stamped(results[i], assignee, executor, environment))];
        prepared := prepared + [Obj(Stamped(results[i], assignee, executor, environment))];
      }
    }
    assert results[..|results|] == results;
  }

  /** Every reported result carries the stamps; null marks an empty text. */
  lemma StampedFields(result: map<string, Value>, assignee: string, executor: string, environment: string)
    ensures var s := Stamped(result, assignee, executor, environment);
            && (s["assignedTo"] == Null <==> assignee == "")
            && (s["executedBy"] == Null <==> executor == "")
            && (s["environment"] == Null <==> environment == "")
            && (assignee != "" ==> s["assignedTo"] == Str(assignee))
            && (executor != "" ==> s["executedBy"] == Str(executor))
            && (environment != "" ==> s["environment"] == Str(environment))
            && forall k :: k in result && k !in {"assignedTo", "executedBy", "environment"} ==> s[k] == result[k]
  {
  }

  // ---------------------------------------------------------------------
  // Request bodies
  // ---------------------------------------------------------------------

  /** The body with `key` set to the value when one is given, and left
      alone otherwise. */
  function With(body: map<string, Value>, key: string, v: Option<Value>): (r: map<string, Value>)
    ensures Slot(r, key) == if v.Some? then v else Slot(body, key)
    ensures forall k :: k != key ==> Slot(r, k) == Slot(body, k)
    ensures r.Keys <= body.Keys + {key}
  {
    if v.Some? then body[key := v.value] else body
  }

  function OptionStr(s: Option<string>): Option<Value>
  {
    if s.Some? then Some(Str(s.value)) else None
  }

  function OptionOrNull(s: Option<string>): Option<Value>
  {
    if s.Some? then Some(StrOrNull(s.value)) else None
  }

  /** `execute_time * 1000`, when given. */
  function Milliseconds(seconds: Option<int>): Option<Value>
  {
    if seconds.Some? then Some(Int(1000 * seconds.value)) else None
  }

  /** The body of create_test_result, with assignee and executor already
      resolved to a user name or "". */
  function CreateResultBody(status: string, comment: string, executeTime: Option<int>, environment: string,
                            assignee: string, executor: string, issueLinks: seq<string>): (body: map<string, Value>)
    ensures Slot(body, "status") == Some(Str(status)) && Slot(body, "comment") == Some(Str(comment))
    ensures Slot(body, "environment") == Some(if environment == "" then Null else Str(environment))
    ensures Slot(body, "assignedTo") == Some(if assignee == "" then Null else Str(assignee))
    ensures Slot(body, "executedBy") == Some(if executor == "" then Null else Str(executor))
    ensures Slot(body, "executionTime") == if executeTime.Some? then Some(Int(1000 * executeTime.value)) else None
    ensures Slot(body, "issueLinks") == if issueLinks != [] then Some(Arr(StrList(issueLinks))) else None
    ensures body.Keys <= {"comment", "environment", "assignedTo", "executedBy", "status", "executionTime", "issueLinks"}
  {
    var fixed := map["comment" := Str(comment), "environment" := StrOrNull(environment), "assignedTo" := StrOrNull(assignee),
                     "executedBy" := StrOrNull(executor), "status" := Str(status)];
    var timed := With(fixed, "executionTime", Milliseconds(executeTime));
    With(timed, "issueLinks", if issueLinks != [] then Some(Arr(StrList(issueLinks))) else None)
  }

  /** The environment (as given), assignee and executor ("" as null) of an
      edit, each set only when given. */
  function WithPeople(body: map<string, Value>, environment: Option<string>, assignee: Option<string>, executor: Option<string>)
    : (r: map<string, Value>)
    ensures Slot(r, "environment") == if environment.Some? then Some(Str(environment.value)) else Slot(body, "environment")
    ensures Slot(r, "assignedTo") == if assignee.Some? then Some(if assignee.value == "" then Null else Str(assignee.value)) else Slot(body, "assignedTo")
    ensures Slot(r, "executedBy") == if executor.Some? then Some(if executor.value == "" then Null else Str(executor.value)) else Slot(body, "executedBy")
    ensures forall k :: k !in {"environment", "assignedTo", "executedBy"} ==> Slot(r, k) == Slot(body, k)
    ensures r.Keys <= body.Keys + {"environment", "assignedTo", "executedBy"}
  {
    var b1 := With(body, "environment", OptionStr(environment));
    var b2 := With(b1, "assignedTo", OptionOrNull(assignee));
    With(b2, "executedBy", OptionOrNull(executor))
  }

  /** The comment, execution time (in milliseconds) and issue links of an
      edit, each set only when given. */
  function WithOutcome(body: map<string, Value>, comment: Option<string>, executeTime: Option<int>, issueLinks: Option<seq<string>>)
    : (r: map<string, Value>)
    ensures Slot(r, "comment") == if comment.Some? then Some(Str(comment.value)) else Slot(body, "comment")
    ensures Slot(r, "executionTime") == if executeTime.Some? then Some(Int(1000 * executeTime.value)) else Slot(body, "executionTime")
    ensures Slot(r, "issueLinks") == if issueLinks.Some? then Some(Arr(StrList(issueLinks.value))) else Slot(body, "issueLinks")
    ensures forall k :: k !in {"comment", "executionTime", "issueLinks"} ==> Slot(r, k) == Slot(body, k)
    ensures r.Keys <= body.Keys + {"comment", "executionTime", "issueLinks"}
  {
    var b1 := With(body, "comment", OptionStr(comment));
    var b2 := With(b1, "executionTime", Milliseconds(executeTime));
    With(b2, "issueLinks", if issueLinks.Some? then Some(Arr(StrList(issueLinks.value))) else None)
  }

  /** The body of edit_test_result_status: the status, and each other field
      only when it is given. */
  function EditResultBody(status: string, comment: Option<string>, executeTime: Option<int>, environment: Option<string>,
                          assignee: Option<string>, executor: Option<string>, issueLinks: Option<seq<string>>)
    : (body: map<string, Value>)
    ensures Slot(body, "status") == Some(Str(status))
    ensures Slot(body, "comment") == if comment.Some? then Some(Str(comment.value)) else None
    ensures Slot(body, "environment") == if environment.Some? then Some(Str(environment.value)) else None
    ensures Slot(body, "assignedTo") == if assignee.Some? then Some(if assignee.value == "" then Null else Str(assignee.value)) else None
    ensures Slot(body, "executedBy") == if executor.Some? then Some(if executor.value == "" then Null else Str(executor.value)) else None
    ensures Slot(body, "executionTime") == if executeTime.Some? then Some(Int(1000 * executeTime.value)) else None
    ensures Slot(body, "issueLinks") == if issueLinks.Some? then Some(Arr(StrList(issueLinks.value))) else None
  {
    WithOutcome(WithPeople(map["status" := Str(status)], environment, assignee, executor), comment, executeTime, issueLinks)
  }

  /** edit_test_result_status sends no key beyond the ones it may set. */
  lemma EditResultBodyKeys(status: string, comment: Option<string>, executeTime: Option<int>, environment: Option<string>,
                           assignee: Option<string>, executor: Option<string>, issueLinks: Option<seq<string>>)
    ensures EditResultBody(status, comment, executeTime, environment, assignee, executor, issueLinks).Keys
            <= {"status", "comment", "executionTime", "environment", "assignedTo", "executedBy", "issueLinks"}
  {
  }

  /** The body of edit_test_script_status: the fetched status kept, the
      rewritten script results, and environment, assignee and executor only
      when given. */
  function ScriptStatusBody(status: Value, scripts: seq<Value>, environment: Option<string>,
                            assignee: Option<string>, executor: Option<string>): (body: map<string, Value>)
    ensures Slot(body, "status") == Some(status) && Slot(body, "scriptResults") == Some(Arr(scripts))
    ensures Slot(body, "environment") == if environment.Some? then Some(Str(environment.value)) else None
    ensures Slot(body, "assignedTo") == if assignee.Some? then Some(if assignee.value == "" then Null else Str(assignee.value)) else None
    ensures Slot(body, "executedBy") == if executor.Some? then Some(if executor.value == "" then Null else Str(executor.value)) else None
    ensures body.Keys <= {"status", "scriptResults", "environment", "assignedTo", "executedBy"}
  {
    WithPeople(map["status" := status, "scriptResults" := Arr(scripts)], environment, assignee, executor)
  }
}
