/** The request bodies of edit_test_case and edit_test_plan: every scalar
    falls back to its fetched value, the folder is set only when one is
    given, and list and multiline fields are reconciled with the fetched ones
    by the helpers. */
module Editing {
  import opened Json
  import opened Helper
  import opened Folders

  /** The keyword arguments of edit_test_case (absent strings are "", absent
      lists are [], an absent folder is None, the estimated time is in seconds). */
  datatype TestCaseChanges = TestCaseChanges(
    folder: Option<string>,
    name: string,
    objective: string,
    precondition: string,
    priority: string,
    estimatedTime: int,
    status: string,
    labels: seq<string>,
    issueLinks: seq<string>,
    buildUrls: seq<string>,
    codeBases: seq<string>)

  /** The keyword arguments of edit_test_plan. */
  datatype TestPlanChanges = TestPlanChanges(
    folder: Option<string>,
    name: string,
    objective: string,
    status: string,
    labels: seq<string>,
    issueLinks: seq<string>,
    testRuns: seq<string>)

  /** `response.get(key, [])` for a list-valued field: [] when the key is
      absent, and whatever value it holds (null included) when present. */
  function ListField(fetched: map<string, Value>, key: string): Value
  {
    GetOr(fetched, key, Arr([]))
  }

  /** `[x["key"] for x in response.get("testRuns", [])]` */
  function TestRunKeys(fetched: map<string, Value>): Value
  {
    Arr(FieldValues(ListOf(ListField(fetched, "testRuns")), "key"))
  }

  /** `response.get("customFields", {}).get(key, "")`: "" when the field is
      absent, and whatever value it holds (null included) when present. */
  function CustomField(fetched: map<string, Value>, key: string): Value
  {
    GetOr(Rec(GetOr(fetched, "customFields", Obj(map[]))), key, Str(""))
  }

  /** The `folder` entry of an edit body: present only when a folder is given. */
  function FolderEntry(folder: Option<string>): map<string, Value>
  {
    if folder.Some? then map["folder" := FolderField(FolderPath(folder.value))] else map[]
  }

  /** The scalar part of an edit_test_case body, plus the folder. */
  function TestCaseBase(fetched: map<string, Value>, c: TestCaseChanges): map<string, Value>
  {
    map["name" := Or(Str(c.name), Get(fetched, "name")),
        "objective" := Or(Str(c.objective), Get(fetched, "objective")),
        "precondition" := Or(Str(c.precondition), Get(fetched, "precondition")),
        "priority" := Or(Str(c.priority), Get(fetched, "priority")),
        "estimatedTime" := Or(Int(1000 * c.estimatedTime), Get(fetched, "estimatedTime")),
        "status" := Or(Str(c.status), Get(fetched, "status"))]
    + FolderEntry(c.folder)
  }

  /** The scalar part of an edit_test_plan body, plus the folder. */
  function TestPlanBase(fetched: map<string, Value>, c: TestPlanChanges): map<string, Value>
  {
    map["name" := Or(Str(c.name), Get(fetched, "name")),
        "objective" := Or(Str(c.objective), Get(fetched, "objective")),
        "status" := Or(Str(c.status), Get(fetched, "status"))]
    + FolderEntry(c.folder)
  }

  /** What update_field leaves at a key the body did not hold before. */
  ghost predicate ListOutcome(current: Value, delta: seq<Value>, slot: Option<Value>)
  {
    if IsReplacement(current, delta) then slot == Some(Arr(delta[1..]))
    else if NewElements(ListOf(current), delta) == {} then slot == None
    else slot.Some? && slot.value.Arr? && IsMerge(slot.value.items, ListOf(current), delta)
  }

  /** The custom field update_multiline_field writes, if any. */
  function Written(current: Value, key: string, delta: seq<string>): map<string, Value>
  {
    WrittenValue(current, key, MultilineValue(current, delta))
  }

  function WrittenValue(current: Value, key: string, v: string): map<string, Value>
  {
    if Str(v) == current then map[] else map[key := Str(v)]
  }

  /** The custom fields a body ends up with, from a body without any. */
  function CustomOutcome(written: map<string, Value>): Option<Value>
  {
    if written == map[] then None else Some(Obj(written))
  }

  /** The body edit_test_case PUTs. */
  ghost predicate TestCaseEdited(fetched: map<string, Value>, c: TestCaseChanges, body: map<string, Value>)
  {
    && SameExcept(TestCaseBase(fetched, c), body, {"labels", "issueLinks", "customFields"})
    && ListOutcome(ListField(fetched, "labels"), StrList(c.labels), Slot(body, "labels"))
    && ListOutcome(ListField(fetched, "issueLinks"), StrList(c.issueLinks), Slot(body, "issueLinks"))
    && Slot(body, "customFields")
       == CustomOutcome(Written(CustomField(fetched, "ci_server_url"), "ci_server_url", c.buildUrls)
                        + Written(CustomField(fetched, "code_base_url"), "code_base_url", c.codeBases))
  }

  /** The body edit_test_plan PUTs. */
  ghost predicate TestPlanEdited(fetched: map<string, Value>, c: TestPlanChanges, body: map<string, Value>)
  {
    && SameExcept(TestPlanBase(fetched, c), body, {"labels", "testRuns", "issueLinks"})
    && ListOutcome(ListField(fetched, "labels"), StrList(c.labels), Slot(body, "labels"))
    && ListOutcome(TestRunKeys(fetched), StrList(c.testRuns), Slot(body, "testRuns"))
    && ListOutcome(ListField(fetched, "issueLinks"), StrList(c.issueLinks), Slot(body, "issueLinks"))
  }

  /** `a` and `b` agree on every key outside `keys`. */
  ghost predicate SameExcept(a: map<string, Value>, b: map<string, Value>, keys: set<string>)
  {
    forall k :: k !in keys ==> Slot(a, k) == Slot(b, k)
  }

  /** A list update on a body without `key` sets only `key`, as ListOutcome says. */
  lemma ListStep(current: Value, delta: seq<Value>, before: map<string, Value>, after: map<string, Value>, key: string)
    requires key !in before
    requires ListFieldUpdate(current, delta, before, after, key)
    ensures ListOutcome(current, delta, Slot(after, key))
    ensures SameExcept(before, after, {key})
  {
  }

  /** The two multiline updates of edit_test_case on a body without custom fields. */
  lemma CustomSteps(ci: Value, v1: string, cb: Value, v2: string,
                    b2: map<string, Value>, b3: map<string, Value>, b4: map<string, Value>)
    requires "customFields" !in b2
    requires b3 == if Str(v1) == ci then b2 else b2["customFields" := Obj(CustomFields(b2)["ci_server_url" := Str(v1)])]
    requires b4 == if Str(v2) == cb then b3 else b3["customFields" := Obj(CustomFields(b3)["code_base_url" := Str(v2)])]
    ensures Slot(b4, "customFields") == CustomOutcome(WrittenValue(ci, "ci_server_url", v1) + WrittenValue(cb, "code_base_url", v2))
    ensures SameExcept(b2, b4, {"customFields"})
  {
    var w1, w2 := WrittenValue(ci, "ci_server_url", v1), WrittenValue(cb, "code_base_url", v2);
    if Str(v1) == ci && Str(v2) == cb {
      assert w1 + w2 == map[];
    } else if Str(v1) == ci {
      assert w1 == map[] && w2 == map["code_base_url" := Str(v2)];
      assert w1 + w2 == map["code_base_url" := Str(v2)];
      assert "code_base_url" in w1 + w2;
      assert b3 == b2;
      assert CustomFields(b3) == map[];
      assert map[]["code_base_url" := Str(v2)] == map["code_base_url" := Str(v2)];
    } else if Str(v2) == cb {
      assert w1 == map["ci_server_url" := Str(v1)] && w2 == map[];
      assert w1 + w2 == map["ci_server_url" := Str(v1)];
      assert "ci_server_url" in w1 + w2;
      assert b4 == b3;
      assert CustomFields(b2) == map[];
      assert map[]["ci_server_url" := Str(v1)] == map["ci_server_url" := Str(v1)];
    } else {
      assert CustomFields(b2) == map[];
      assert CustomFields(b3) == map["ci_server_url" := Str(v1)];
      assert w1 + w2 == map["ci_server_url" := Str(v1), "code_base_url" := Str(v2)];
    }
  }

  lemma SameExceptTrans(a: map<string, Value>, b: map<string, Value>, c: map<string, Value>, k1: set<string>, k2: set<string>)
    requires SameExcept(a, b, k1) && SameExcept(b, c, k2)
    ensures SameExcept(a, c, k1 + k2)
  {
  }

  /** The keys of the scalar part of an edit_test_case body. */
  lemma TestCaseBaseKeys(fetched: map<string, Value>, c: TestCaseChanges)
    ensures TestCaseBase(fetched, c).Keys <= {"name", "objective", "precondition", "priority", "estimatedTime", "status", "folder"}
  {
  }

  /** The keys of the scalar part of an edit_test_plan body. */
  lemma TestPlanBaseKeys(fetched: map<string, Value>, c: TestPlanChanges)
    ensures TestPlanBase(fetched, c).Keys <= {"name", "objective", "status", "folder"}
  {
  }

  /** The body of edit_test_case, built as the source builds it. */
  method EditedTestCase(fetched: map<string, Value>, c: TestCaseChanges) returns (body: map<string, Value>)
    ensures TestCaseEdited(fetched, c, body)
  {
    TestCaseBaseKeys(fetched, c);
    body := ReconcileTestCase(TestCaseBase(fetched, c), fetched, c);
  }

  /** update_field on a body that does not hold `key` yet. */
  method AddListField(current: Value, data: RequestData, key: string, delta: seq<Value>)
    requires key !in data.fields
    modifies data
    ensures ListOutcome(current, delta, Slot(data.fields, key))
    ensures SameExcept(old(data.fields), data.fields, {key})
  {
    UpdateField(current, data, key, delta);
    ListStep(current, delta, old(data.fields), data.fields, key);
  }

  /** The two update_multiline_field calls of edit_test_case on a body
      without custom fields. */
  method AddCustomFields(data: RequestData, ci: Value, buildUrls: seq<string>, cb: Value, codeBases: seq<string>)
    requires "customFields" !in data.fields
    modifies data
    ensures Slot(data.fields, "customFields")
            == CustomOutcome(Written(ci, "ci_server_url", buildUrls) + Written(cb, "code_base_url", codeBases))
    ensures SameExcept(old(data.fields), data.fields, {"customFields"})
  {
    UpdateMultilineField(ci, data, "ci_server_url", buildUrls);
    ghost var b3 := data.fields;
    UpdateMultilineField(cb, data, "code_base_url", codeBases);
    CustomSteps(ci, MultilineValue(ci, buildUrls), cb, MultilineValue(cb, codeBases), old(data.fields), b3, data.fields);
  }

  /** The list and custom fields of edit_test_case, reconciled on top of `base`. */
  method ReconcileTestCase(base: map<string, Value>, fetched: map<string, Value>, c: TestCaseChanges)
    returns (body: map<string, Value>)
    requires "labels" !in base && "issueLinks" !in base && "customFields" !in base
    ensures SameExcept(base, body, {"labels", "issueLinks", "customFields"})
    ensures ListOutcome(ListField(fetched, "labels"), StrList(c.labels), Slot(body, "labels"))
    ensures ListOutcome(ListField(fetched, "issueLinks"), StrList(c.issueLinks), Slot(body, "issueLinks"))
    ensures Slot(body, "customFields")
            == CustomOutcome(Written(CustomField(fetched, "ci_server_url"), "ci_server_url", c.buildUrls)
                             + Written(CustomField(fetched, "code_base_url"), "code_base_url", c.codeBases))
  {
    var data := new RequestData(base);
    AddListField(ListField(fetched, "labels"), data, "labels", StrList(c.labels));
    ghost var b1 := data.fields;
    assert Slot(b1, "issueLinks") == Slot(base, "issueLinks") && Slot(b1, "customFields") == Slot(base, "customFields");
    AddListField(ListField(fetched, "issueLinks"), data, "issueLinks", StrList(c.issueLinks));
    ghost var b2 := data.fields;
    assert Slot(b2, "customFields") == Slot(b1, "customFields");
    assert Slot(b1, "labels") == Slot(b2, "labels");
    SameExceptTrans(base, b1, b2, {"labels"}, {"issueLinks"});
    AddCustomFields(data, CustomField(fetched, "ci_server_url"), c.buildUrls, CustomField(fetched, "code_base_url"), c.codeBases);
    body := data.fields;
    assert Slot(b2, "labels") == Slot(body, "labels") && Slot(b2, "issueLinks") == Slot(body, "issueLinks");
    SameExceptTrans(base, b2, body, {"labels", "issueLinks"}, {"customFields"});
  }

  /** The body of edit_test_plan, built as the source builds it. */
  method EditedTestPlan(fetched: map<string, Value>, c: TestPlanChanges) returns (body: map<string, Value>)
    ensures TestPlanEdited(fetched, c, body)
  {
    TestPlanBaseKeys(fetched, c);
    body := ReconcileTestPlan(TestPlanBase(fetched, c), fetched, c);
  }

  /** The list fields of edit_test_plan, reconciled on top of `base`. */
  method ReconcileTestPlan(base: map<string, Value>, fetched: map<string, Value>, c: TestPlanChanges)
    returns (body: map<string, Value>)
    requires "labels" !in base && "testRuns" !in base && "issueLinks" !in base
    ensures SameExcept(base, body, {"labels", "testRuns", "issueLinks"})
    ensures ListOutcome(ListField(fetched, "labels"), StrList(c.labels), Slot(body, "labels"))
    ensures ListOutcome(TestRunKeys(fetched), StrList(c.testRuns), Slot(body, "testRuns"))
    ensures ListOutcome(ListField(fetched, "issueLinks"), StrList(c.issueLinks), Slot(body, "issueLinks"))
  {
    var data := new RequestData(base);
    AddListField(ListField(fetched, "labels"), data, "labels", StrList(c.labels));
    ghost var b1 := data.fields;
    assert Slot(b1, "testRuns") == Slot(base, "testRuns") && Slot(b1, "issueLinks") == Slot(base, "issueLinks");
    AddListField(TestRunKeys(fetched), data, "testRuns", StrList(c.testRuns));
    ghost var b2 := data.fields;
    assert Slot(b2, "issueLinks") == Slot(b1, "issueLinks");
    assert Slot(b1, "labels") == Slot(b2, "labels");
    SameExceptTrans(base, b1, b2, {"labels"}, {"testRuns"});
    AddListField(ListField(fetched, "issueLinks"), data, "issueLinks", StrList(c.issueLinks));
    body := data.fields;
    assert Slot(b2, "labels") == Slot(body, "labels") && Slot(b2, "testRuns") == Slot(body, "testRuns");
    SameExceptTrans(base, b2, body, {"labels", "testRuns"}, {"issueLinks"});
  }

  // ---------------------------------------------------------------------
  // What an edit body holds
  // ---------------------------------------------------------------------

  /** Each scalar argument wins when given (non-empty, or a non-zero time)
      and falls back to the fetched value otherwise. */
  lemma TestCaseScalars(fetched: map<string, Value>, c: TestCaseChanges, body: map<string, Value>)
    requires SameExcept(TestCaseBase(fetched, c), body, {"labels", "issueLinks", "customFields"})
    ensures "name" in body && body["name"] == if c.name != "" then Str(c.name) else Get(fetched, "name")
    ensures "objective" in body && body["objective"] == if c.objective != "" then Str(c.objective) else Get(fetched, "objective")
    ensures "precondition" in body
            && body["precondition"] == if c.precondition != "" then Str(c.precondition) else Get(fetched, "precondition")
    ensures "status" in body && body["status"] == if c.status != "" then Str(c.status) else Get(fetched, "status")
    ensures "priority" in body && body["priority"] == if c.priority != "" then Str(c.priority) else Get(fetched, "priority")
    ensures "estimatedTime" in body
            && body["estimatedTime"] == if c.estimatedTime != 0 then Int(1000 * c.estimatedTime) else Get(fetched, "estimatedTime")
  {
    var base, keys := TestCaseBase(fetched, c), {"labels", "issueLinks", "customFields"};
    ScalarCarried(base, body, keys, "name");
    ScalarCarried(base, body, keys, "objective");
    ScalarCarried(base, body, keys, "precondition");
    ScalarCarried(base, body, keys, "status");
    ScalarCarried(base, body, keys, "priority");
    ScalarCarried(base, body, keys, "estimatedTime");
  }

  /** A key of the scalar part that reconciliation does not touch reaches the body unchanged. */
  lemma ScalarCarried(base: map<string, Value>, body: map<string, Value>, keys: set<string>, k: string)
    requires SameExcept(base, body, keys) && k in base && k !in keys
    ensures k in body && body[k] == base[k]
  {
    assert Slot(base, k) == Slot(body, k);
  }

  /** The folder key is present exactly when a folder is given, and is null
      for the root. */
  lemma TestCaseFolder(fetched: map<string, Value>, c: TestCaseChanges, body: map<string, Value>)
    requires SameExcept(TestCaseBase(fetched, c), body, {"labels", "issueLinks", "customFields"})
    ensures "folder" in body <==> c.folder.Some?
    ensures c.folder.Some? ==> (body["folder"] == Null <==> c.folder.value == "" || c.folder.value == "/")
  {
    assert Slot(TestCaseBase(fetched, c), "folder") == Slot(body, "folder");
    if c.folder.Some? {
      RootFolderNames(c.folder.value);
    }
  }

  /** The same for edit_test_plan. */
  lemma TestPlanScalars(fetched: map<string, Value>, c: TestPlanChanges, body: map<string, Value>)
    requires SameExcept(TestPlanBase(fetched, c), body, {"labels", "testRuns", "issueLinks"})
    ensures "name" in body && body["name"] == if c.name != "" then Str(c.name) else Get(fetched, "name")
    ensures "objective" in body && body["objective"] == if c.objective != "" then Str(c.objective) else Get(fetched, "objective")
    ensures "status" in body && body["status"] == if c.status != "" then Str(c.status) else Get(fetched, "status")
    ensures "folder" in body <==> c.folder.Some?
    ensures c.folder.Some? ==> (body["folder"] == Null <==> c.folder.value == "" || c.folder.value == "/")
  {
    var base := TestPlanBase(fetched, c);
    assert base["name"] == Or(Str(c.name), Get(fetched, "name"));
    assert base["objective"] == Or(Str(c.objective), Get(fetched, "objective"));
    assert base["status"] == Or(Str(c.status), Get(fetched, "status"));
    assert Slot(base, "name") == Slot(body, "name") && Slot(base, "objective") == Slot(body, "objective");
    assert Slot(base, "status") == Slot(body, "status") && Slot(base, "folder") == Slot(body, "folder");
    if c.folder.Some? {
      RootFolderNames(c.folder.value);
    }
  }

  /** An edit that names no build URLs overwrites a test case's non-empty
      ci_server_url with the empty text: the multiline update does not carry
      the current content over. */
  lemma EmptyEditClearsBuildUrls(fetched: map<string, Value>, c: TestCaseChanges, body: map<string, Value>)
    requires TestCaseEdited(fetched, c, body)
    requires c.buildUrls == [] && CustomField(fetched, "ci_server_url") != Str("")
    ensures "customFields" in body && body["customFields"].Obj?
    ensures var custom := body["customFields"].fields;
            "ci_server_url" in custom && custom["ci_server_url"] == Str("")
  {
    assert MultilineValue(CustomField(fetched, "ci_server_url"), []) == "";
    var w1 := Written(CustomField(fetched, "ci_server_url"), "ci_server_url", c.buildUrls);
    var w2 := Written(CustomField(fetched, "code_base_url"), "code_base_url", c.codeBases);
    assert w1 == map["ci_server_url" := Str("")];
    assert "ci_server_url" in w1 + w2;
  }

  /** A ci_server_url that the fetched test case holds as something other
      than text (null, say) never equals the joined text, so the edit always
      writes it. */
  lemma NonTextBuildUrlsWritten(fetched: map<string, Value>, c: TestCaseChanges, body: map<string, Value>)
    requires TestCaseEdited(fetched, c, body)
    requires !CustomField(fetched, "ci_server_url").Str?
    ensures "customFields" in body && body["customFields"].Obj?
    ensures var custom := body["customFields"].fields;
            "ci_server_url" in custom
            && custom["ci_server_url"] == Str(MultilineValue(CustomField(fetched, "ci_server_url"), c.buildUrls))
  {
    var w1 := Written(CustomField(fetched, "ci_server_url"), "ci_server_url", c.buildUrls);
    var w2 := Written(CustomField(fetched, "code_base_url"), "code_base_url", c.codeBases);
    assert "ci_server_url" in w1 && "ci_server_url" !in w2;
    assert "ci_server_url" in w1 + w2;
  }

  /** A test case whose ci_server_url is null, edited without build URLs or
      code bases, gets exactly `{"ci_server_url": ""}` as its custom fields. */
  lemma NullBuildUrlsBecomeEmpty(c: TestCaseChanges, body: map<string, Value>)
    requires c.buildUrls == [] && c.codeBases == []
    requires TestCaseEdited(map["name" := Str("A"), "customFields" := Obj(map["ci_server_url" := Null])], c, body)
    ensures Slot(body, "customFields") == Some(Obj(map["ci_server_url" := Str("")]))
  {
    var fetched := map["name" := Str("A"), "customFields" := Obj(map["ci_server_url" := Null])];
    assert CustomField(fetched, "ci_server_url") == Null;
    assert CustomField(fetched, "code_base_url") == Str("");
    assert MultilineValue(Null, []) == "";
    assert MultilineValue(Str(""), []) == "";
    assert Written(Null, "ci_server_url", []) == map["ci_server_url" := Str("")];
    assert Written(Str(""), "code_base_url", []) == map[];
    var w := map["ci_server_url" := Str("")];
    assert w + map[] == w;
    assert "ci_server_url" in w;
    assert CustomOutcome(w) == Some(Obj(w));
    assert Slot(body, "customFields") == CustomOutcome(Written(CustomField(fetched, "ci_server_url"), "ci_server_url", c.buildUrls)
                                                       + Written(CustomField(fetched, "code_base_url"), "code_base_url", c.codeBases));
  }

  /** Labels that are all present already leave the body without "labels". */
  lemma KnownLabelsNotSent(fetched: map<string, Value>, c: TestCaseChanges, body: map<string, Value>)
    requires TestCaseEdited(fetched, c, body)
    requires c.labels == [] || c.labels[0] != "-"
    requires forall l :: l in c.labels ==> Str(l) in ListOf(ListField(fetched, "labels"))
    ensures "labels" !in body
  {
    var delta := StrList(c.labels);
    var current := ListField(fetched, "labels");
    assert !IsReplacement(current, delta) by {
      if delta != [] { assert delta[0] == Str(c.labels[0]); }
    }
    forall x | x in ToSet(delta) ensures x in ToSet(ListOf(current)) {
      var i :| 0 <= i < |delta| && delta[i] == x;
      assert c.labels[i] in c.labels;
    }
  }

  /** A test case whose labels are null, edited with labels ["-"], gets an
      empty label list: null differs from [] so the "-" replaces it. */
  lemma NullLabelsCleared(c: TestCaseChanges, body: map<string, Value>)
    requires c.labels == ["-"]
    requires TestCaseEdited(map["name" := Str("A"), "labels" := Null], c, body)
    ensures Slot(body, "labels") == Some(Arr([]))
  {
    var delta := StrList(c.labels);
    assert delta == [Str("-")];
    assert delta[1..] == [];
    assert ListField(map["name" := Str("A"), "labels" := Null], "labels") == Null;
  }
}
