/** The paged listings (get_users, get_test_cases, get_test_plans,
    get_test_runs, get_test_run_by_name, get_test_execution_results): ask
    from offset 0, advance the offset by the length of each page, stop at the
    first empty or failed page, and return the pages concatenated. */
module Paging {
  import opened Json
  import opened Remote

  /** `ex` asked for consecutive non-empty pages of `l` from offset `from`,
      collecting `items`; `next` is the offset to ask for afterwards. */
  ghost predicate Walked(l: Listing, from: nat, ex: seq<Exchange>, items: seq<Value>, next: nat)
    decreases |ex|
  {
    if ex == [] then items == [] && next == from
    else
      var page := PageItems(l, ex[0].answer);
      && ex[0].request == PageRequest(l, from)
      && page != []
      && |page| <= |items|
      && items[..|page|] == page
      && Walked(l, from + |page|, ex[1..], items[|page|..], next)
  }

  /** A whole walk of a listing: the non-empty pages from offset 0, then
      the one request whose page came back empty or failed. */
  ghost predicate Paged(l: Listing, ex: seq<Exchange>, items: seq<Value>)
  {
    && ex != []
    && Walked(l, 0, ex[..|ex| - 1], items, |items|)
    && ex[|ex| - 1].request == PageRequest(l, |items|)
    && PageItems(l, ex[|ex| - 1].answer) == []
  }

  /** One more non-empty page, asked for at the next offset, extends a walk. */
  lemma {:induction false} WalkedSnoc(l: Listing, from: nat, ex: seq<Exchange>, items: seq<Value>, next: nat, e: Exchange)
    requires Walked(l, from, ex, items, next)
    requires e.request == PageRequest(l, next)
    requires PageItems(l, e.answer) != []
    ensures Walked(l, from, ex + [e], items + PageItems(l, e.answer), next + |PageItems(l, e.answer)|)
    decreases |ex|
  {
    var p := PageItems(l, e.answer);
    if ex == [] {
      assert [e][1..] == [];
      assert (items + p)[..|p|] == p && (items + p)[|p|..] == [];
    } else {
      var page := PageItems(l, ex[0].answer);
      WalkedSnoc(l, from + |page|, ex[1..], items[|page|..], next, e);
      assert (ex + [e])[1..] == ex[1..] + [e];
      assert (items + p)[..|page|] == items[..|page|];
      assert (items + p)[|page|..] == items[|page|..] + p;
    }
  }

  /** The pages the answers of `ex` carry. */
  function Pages(l: Listing, ex: seq<Exchange>): seq<seq<Value>>
  {
    if ex == [] then [] else [PageItems(l, ex[0].answer)] + Pages(l, ex[1..])
  }

  function Flatten(pages: seq<seq<Value>>): seq<Value>
  {
    if pages == [] then [] else pages[0] + Flatten(pages[1..])
  }

  /** A walk collects exactly the concatenation of its pages, and the j-th
      request asks for the offset reached by the pages before it. */
  lemma {:induction false} WalkedReference(l: Listing, from: nat, ex: seq<Exchange>, items: seq<Value>, next: nat)
    requires Walked(l, from, ex, items, next)
    ensures items == Flatten(Pages(l, ex))
    ensures next == from + |items|
    ensures forall j :: 0 <= j < |ex| ==>
              ex[j].request == PageRequest(l, from + |Flatten(Pages(l, ex[..j]))|) && PageItems(l, ex[j].answer) != []
    decreases |ex|
  {
    if ex != [] {
      var page := PageItems(l, ex[0].answer);
      WalkedReference(l, from + |page|, ex[1..], items[|page|..], next);
      assert items == page + items[|page|..];
      forall j | 0 < j < |ex|
        ensures ex[j].request == PageRequest(l, from + |Flatten(Pages(l, ex[..j]))|)
      {
        assert ex[..j][1..] == ex[1..][..j - 1];
        assert Flatten(Pages(l, ex[..j])) == page + Flatten(Pages(l, ex[1..][..j - 1]));
        assert ex[j] == ex[1..][j - 1];
      }
      assert ex[..0] == [];
    }
  }

  /** The items of a whole walk are determined by the answers. */
  lemma PagedItemsDetermined(l: Listing, ex: seq<Exchange>, items: seq<Value>)
    requires Paged(l, ex, items)
    ensures items == Flatten(Pages(l, ex[..|ex| - 1]))
  {
    WalkedReference(l, 0, ex[..|ex| - 1], items, |items|);
  }

  /** The items a whole walk collects. */
  function PagedItems(l: Listing, ex: seq<Exchange>): seq<Value>
    requires ex != []
  {
    Flatten(Pages(l, ex[..|ex| - 1]))
  }

  /** Pages [a, b], [c], [] are asked for at offsets 0, 2 and 3 and yield [a, b, c]. */
  lemma ThreePages(q: string, a: Value, b: Value, c: Value)
    ensures var l := TestCases(q);
            var ex := [Exchange(PageRequest(l, 0), Some(Arr([a, b]))),
                       Exchange(PageRequest(l, 2), Some(Arr([c]))),
                       Exchange(PageRequest(l, 3), Some(Arr([])))];
            && Paged(l, ex, [a, b, c])
            && forall items :: Paged(l, ex, items) ==> items == [a, b, c]
  {
    var l := TestCases(q);
    var e0 := Exchange(PageRequest(l, 0), Some(Arr([a, b])));
    var e1 := Exchange(PageRequest(l, 2), Some(Arr([c])));
    var e2 := Exchange(PageRequest(l, 3), Some(Arr([])));
    var ex := [e0, e1, e2];
    WalkedSnoc(l, 0, [], [], 0, e0);
    WalkedSnoc(l, 0, [e0], [a, b], 2, e1);
    assert ex[..2] == [e0] + [e1];
    assert Paged(l, ex, [a, b, c]);
    forall items | Paged(l, ex, items) ensures items == [a, b, c] {
      PagedItemsDetermined(l, ex, items);
      PagedItemsDetermined(l, ex, [a, b, c]);
    }
  }

  /** The key and name of the last test run found, or `{}` when none was. */
  function LastRunSummary(runs: seq<Value>): (summary: map<string, Value>)
    ensures runs == [] <==> summary == map[]
    ensures runs != [] ==> (&& summary.Keys == {"key", "name"}
                            && summary["key"] == Get(Rec(runs[|runs| - 1]), "key")
                            && summary["name"] == Get(Rec(runs[|runs| - 1]), "name"))
  {
    if runs == [] then map[]
    else
      var last := Rec(runs[|runs| - 1]);
      var summary := map["key" := Get(last, "key"), "name" := Get(last, "name")];
      assert "key" in summary;
      summary
  }

  /** Whether a test result is the last of its execution: `lastTestResult`
      defaults to true. */
  predicate IsLastResult(r: Value)
  {
    Truthy(GetOr(Rec(r), "lastTestResult", Bool(true)))
  }

  const RowKeys: set<string> := {"key", "testCase", "testRun", "estimatedTime", "executedBy", "executionDate",
                                 "executionTime", "environment", "assignedTo", "automated", "status", "issueLinks"}

  /** One row of get_test_execution_results, read from a report entry. */
  function ExecutionRow(r: Value): (row: map<string, Value>)
    ensures row.Keys == RowKeys
  {
    var m := Rec(r);
    map["key" := Get(m, "key"),
        "testCase" := GetOr(m, "testCase", Obj(map[])),
        "testRun" := GetOr(m, "testRun", Obj(map[])),
        "estimatedTime" := Get(m, "estimatedTime"),
        "executedBy" := Get(Rec(Get(m, "user")), "key"),
        "executionDate" := Get(m, "executionDate"),
        "executionTime" := Get(m, "executionTime"),
        "environment" := Get(Rec(GetOr(m, "environment", Obj(map[]))), "name"),
        "assignedTo" := Get(m, "assignedTo"),
        "automated" := GetOr(m, "automated", Bool(false)),
        "status" := Get(Rec(Get(m, "status")), "name"),
        "issueLinks" := GetOr(m, "issues", Arr([]))]
  }

  /** Whether get_test_execution_results reports entry `r`: always, or only
      when it is the last result of its execution if `lastOnly`. */
  predicate Reported(r: Value, lastOnly: bool)
  {
    IsLastResult(r) || !lastOnly
  }

  /** The report entries that are reported, in their order: the filter of
      the comprehension. */
  function KeptEntries(results: seq<Value>, lastOnly: bool): (kept: seq<Value>)
    ensures forall r :: multiset(kept)[r] == if Reported(r, lastOnly) then multiset(results)[r] else 0
    ensures !lastOnly ==> kept == results
  {
    if results == [] then []
    else
      assert results == [results[0]] + results[1..];
      (if Reported(results[0], lastOnly) then [results[0]] else []) + KeptEntries(results[1..], lastOnly)
  }

  /** The rows of the report entries kept: all of them, or only the last
      result of each execution when `lastOnly`. */
  function ExecutionRows(results: seq<Value>, lastOnly: bool): (rows: seq<map<string, Value>>)
    ensures |rows| <= |results|
    ensures !lastOnly ==> |rows| == |results| && forall i :: 0 <= i < |results| ==> rows[i] == ExecutionRow(results[i])
    ensures forall row :: row in rows ==> row.Keys == RowKeys
  {
    if results == [] then []
    else
      var rest := ExecutionRows(results[1..], lastOnly);
      if Reported(results[0], lastOnly) then [ExecutionRow(results[0])] + rest else rest
  }

  /** The rows are the kept entries, each made into a row, in order. */
  lemma {:induction false} RowsOfKeptEntries(results: seq<Value>, lastOnly: bool)
    ensures var rows, kept := ExecutionRows(results, lastOnly), KeptEntries(results, lastOnly);
            |rows| == |kept| && forall i :: 0 <= i < |kept| ==> rows[i] == ExecutionRow(kept[i])
  {
    if results != [] {
      RowsOfKeptEntries(results[1..], lastOnly);
      var rest, restKept := ExecutionRows(results[1..], lastOnly), KeptEntries(results[1..], lastOnly);
      if Reported(results[0], lastOnly) {
        ConsImage(ExecutionRow, ExecutionRow(results[0]), rest, results[0], restKept);
      }
    }
  }

  /** Prepending an element and its image keeps a list pointwise the image of another. */
  lemma ConsImage<A, B>(f: A -> B, y: B, ys: seq<B>, x: A, xs: seq<A>)
    requires y == f(x)
    requires |ys| == |xs| && forall i :: 0 <= i < |xs| ==> ys[i] == f(xs[i])
    ensures |[y] + ys| == |[x] + xs| && forall i :: 0 <= i < |[x] + xs| ==> ([y] + ys)[i] == f(([x] + xs)[i])
  {
  }

  /** Asking for last results only drops exactly the superseded entries:
      the kept and the superseded entries split the report between them. */
  lemma LastOnlyDropsSuperseded(results: seq<Value>)
    ensures |ExecutionRows(results, true)| == |results| - |SupersededOf(results)|
    ensures multiset(KeptEntries(results, true)) + multiset(SupersededOf(results)) == multiset(results)
    ensures forall r :: r in SupersededOf(results) ==> !IsLastResult(r)
  {
    RowsOfKeptEntries(results, true);
    KeptAndSuperseded(results);
    assert |multiset(KeptEntries(results, true))| + |multiset(SupersededOf(results))| == |multiset(results)|;
  }

  lemma {:induction false} KeptAndSuperseded(results: seq<Value>)
    ensures multiset(KeptEntries(results, true)) + multiset(SupersededOf(results)) == multiset(results)
    ensures forall r :: r in SupersededOf(results) ==> !IsLastResult(r)
  {
    if results != [] {
      KeptAndSuperseded(results[1..]);
      assert results == [results[0]] + results[1..];
    }
  }

  /** The report entries that a later result has overwritten. */
  function SupersededOf(results: seq<Value>): seq<Value>
  {
    if results == [] then []
    else (if IsLastResult(results[0]) then [] else [results[0]]) + SupersededOf(results[1..])
  }
}
