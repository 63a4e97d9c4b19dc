/** link_test_cases and unlink_test_cases: for each test case key, fetch the
    test case, skip it when it is not found, and PUT its issue links with the
    issue appended (link) or its first occurrence removed (unlink) unless
    nothing would change; the first failed PUT ends the walk with False. */
module Links {
  import opened Json
  import opened Remote

  /** `xs.remove(x)`: drop the first occurrence of `x`. */
  function RemoveFirst(xs: seq<Value>, x: Value): seq<Value>
  {
    if xs == [] then []
    else if xs[0] == x then xs[1..]
    else [xs[0]] + RemoveFirst(xs[1..], x)
  }

  /** Removing an element that occurs takes exactly one copy of it away. */
  lemma {:induction false} RemoveFirstCount(xs: seq<Value>, x: Value)
    requires x in xs
    ensures |RemoveFirst(xs, x)| == |xs| - 1
    ensures multiset(RemoveFirst(xs, x)) == multiset(xs) - multiset{x}
  {
    assert xs == [xs[0]] + xs[1..];
    if xs[0] != x {
      RemoveFirstCount(xs[1..], x);
    }
  }

  /** Removing an element that does not occur changes nothing. */
  lemma {:induction false} RemoveFirstAbsent(xs: seq<Value>, x: Value)
    requires x !in xs
    ensures RemoveFirst(xs, x) == xs
  {
    if xs != [] {
      assert xs[0] != x && x !in xs[1..];
      RemoveFirstAbsent(xs[1..], x);
      assert xs == [xs[0]] + xs[1..];
    }
  }

  /** The elements before the first occurrence stay, those after it follow. */
  lemma {:induction false} RemoveFirstSplit(pre: seq<Value>, x: Value, post: seq<Value>)
    requires x !in pre
    ensures RemoveFirst(pre + [x] + post, x) == pre + post
  {
    var xs := pre + [x] + post;
    if pre == [] {
      assert xs == [x] + post;
    } else {
      assert xs[0] == pre[0] != x;
      assert xs[1..] == pre[1..] + [x] + post;
      RemoveFirstSplit(pre[1..], x, post);
      assert pre + post == [pre[0]] + (pre[1..] + post);
    }
  }

  /** Unlinking right after linking gives the old links back. */
  lemma {:induction false} UnlinkUndoesLink(links: seq<Value>, issue: Value)
    requires issue !in links
    ensures RemoveFirst(links + [issue], issue) == links
  {
    RemoveFirstSplit(links, issue, []);
    assert links + [issue] + [] == links + [issue];
  }

  datatype Mode = Link | Unlink

  /** The issue links of a fetched test case, `[]` when it has none. */
  function LinksOf(answer: Option<Value>): seq<Value>
  {
    ListOf(Get(RecordOf(answer), "issueLinks"))
  }

  /** Whether a test case needs a PUT: it was found, and linking adds a
      missing issue or unlinking removes a present one. */
  predicate NeedsPut(mode: Mode, issue: string, answer: Option<Value>)
  {
    && Found(answer)
    && (if mode == Link then Str(issue) !in LinksOf(answer) else Str(issue) in LinksOf(answer))
  }

  /** The issue links sent for a test case. */
  function NewLinks(mode: Mode, issue: string, links: seq<Value>): seq<Value>
  {
    if mode == Link then links + [Str(issue)] else RemoveFirst(links, Str(issue))
  }

  function LinkRequest(mode: Mode, issue: string, key: string, answer: Option<Value>): Request
  {
    Request(PUT, TestCase(key), Obj(map["issueLinks" := Arr(NewLinks(mode, issue, LinksOf(answer)))]))
  }

  /** The number of requests one test case takes: its GET, and a PUT if needed. */
  function StepLength(mode: Mode, issue: string, first: Exchange): nat
  {
    if NeedsPut(mode, issue, first.answer) then 2 else 1
  }

  /** The requests for one test case key. */
  ghost predicate LinkStep(mode: Mode, issue: string, key: string, step: seq<Exchange>)
  {
    && |step| >= 1
    && step[0].request == Fetch(TestCase(key))
    && |step| == StepLength(mode, issue, step[0])
    && (|step| == 2 ==> step[1].request == LinkRequest(mode, issue, key, step[0].answer))
  }

  /** A step fails only when its PUT got no answer. */
  predicate StepOk(step: seq<Exchange>)
  {
    |step| != 2 || step[1].answer.Some?
  }

  /** The requests of link/unlink for `keys`, and what it returns. */
  ghost predicate Linked(mode: Mode, issue: string, keys: seq<string>, ex: seq<Exchange>, ok: bool)
    decreases |keys|
  {
    if keys == [] then ex == [] && ok
    else
      && |ex| >= 1
      && var n := StepLength(mode, issue, ex[0]);
      && n <= |ex|
      && LinkStep(mode, issue, keys[0], ex[..n])
      && if StepOk(ex[..n]) then Linked(mode, issue, keys[1..], ex[n..], ok)
         else |ex| == n && !ok
  }

  /** Cutting `ex + step` inside `ex`. */
  lemma CutInside(ex: seq<Exchange>, step: seq<Exchange>, n: nat)
    requires n <= |ex|
    ensures (ex + step)[..n] == ex[..n] && (ex + step)[n..] == ex[n..] + step
  {
  }

  /** One more successful step extends a successful walk. */
  lemma {:induction false} LinkedSnoc(mode: Mode, issue: string, keys: seq<string>, ex: seq<Exchange>,
                                      key: string, step: seq<Exchange>)
    requires Linked(mode, issue, keys, ex, true)
    requires LinkStep(mode, issue, key, step) && StepOk(step)
    ensures Linked(mode, issue, keys + [key], ex + step, true)
    decreases |keys|
  {
    if keys == [] {
      assert (ex + step)[..|step|] == step && (ex + step)[|step|..] == [];
      assert (keys + [key])[1..] == [];
    } else {
      var n := StepLength(mode, issue, ex[0]);
      LinkedSnoc(mode, issue, keys[1..], ex[n..], key, step);
      assert (keys + [key])[1..] == keys[1..] + [key];
      CutInside(ex, step, n);
    }
  }

  /** A failed step ends the walk with False, whatever keys remain. */
  lemma {:induction false} LinkedFail(mode: Mode, issue: string, keys: seq<string>, ex: seq<Exchange>,
                                      key: string, step: seq<Exchange>, rest: seq<string>)
    requires Linked(mode, issue, keys, ex, true)
    requires LinkStep(mode, issue, key, step) && !StepOk(step)
    ensures Linked(mode, issue, keys + [key] + rest, ex + step, false)
    decreases |keys|
  {
    if keys == [] {
      assert (ex + step)[..|step|] == step;
      assert (keys + [key] + rest)[0] == key;
    } else {
      var n := StepLength(mode, issue, ex[0]);
      LinkedFail(mode, issue, keys[1..], ex[n..], key, step, rest);
      assert (keys + [key] + rest)[1..] == keys[1..] + [key] + rest;
      CutInside(ex, step, n);
    }
  }

  /** Every PUT among the exchanges was answered. */
  ghost predicate PutsAnswered(ex: seq<Exchange>)
  {
    forall i :: 0 <= i < |ex| && ex[i].request.verb == PUT ==> ex[i].answer.Some?
  }

  /** Every PUT among the exchanges directly follows the GET of the same
      test case, whose answer needed it. */
  ghost predicate PutsFollowNeed(mode: Mode, issue: string, ex: seq<Exchange>)
  {
    forall i :: 0 <= i < |ex| && ex[i].request.verb == PUT ==>
      0 < i && NeedsPut(mode, issue, ex[i - 1].answer) && ex[i - 1].request == Fetch(ex[i].request.resource)
  }

  lemma PutsOfConcat(mode: Mode, issue: string, a: seq<Exchange>, b: seq<Exchange>)
    ensures PutsAnswered(a + b) <==> PutsAnswered(a) && PutsAnswered(b)
    ensures PutsFollowNeed(mode, issue, a) && PutsFollowNeed(mode, issue, b) ==> PutsFollowNeed(mode, issue, a + b)
  {
    if PutsAnswered(a + b) {
      forall i | 0 <= i < |a| && a[i].request.verb == PUT ensures a[i].answer.Some? {
        assert (a + b)[i] == a[i];
      }
      forall i | 0 <= i < |b| && b[i].request.verb == PUT ensures b[i].answer.Some? {
        assert (a + b)[|a| + i] == b[i];
      }
    }
    assert forall i :: 0 <= i < |a| ==> (a + b)[i] == a[i];
    assert forall i :: |a| <= i < |a + b| ==> (a + b)[i] == b[i - |a|];
  }

  lemma PutsOfStep(mode: Mode, issue: string, key: string, step: seq<Exchange>)
    requires LinkStep(mode, issue, key, step)
    ensures PutsAnswered(step) <==> StepOk(step)
    ensures PutsFollowNeed(mode, issue, step)
  {
  }

  /** link/unlink returns True exactly when every PUT it sent was answered,
      and it sends a PUT only for a found test case that needs one. */
  lemma {:induction false} LinkedOutcome(mode: Mode, issue: string, keys: seq<string>, ex: seq<Exchange>, ok: bool)
    requires Linked(mode, issue, keys, ex, ok)
    ensures ok <==> PutsAnswered(ex)
    ensures PutsFollowNeed(mode, issue, ex)
    decreases |keys|
  {
    if keys != [] {
      var n := StepLength(mode, issue, ex[0]);
      var step := ex[..n];
      PutsOfStep(mode, issue, keys[0], step);
      if StepOk(step) {
        LinkedOutcome(mode, issue, keys[1..], ex[n..], ok);
        PutsOfConcat(mode, issue, step, ex[n..]);
        assert step + ex[n..] == ex;
      } else {
        assert step == ex;
      }
    }
  }

  /** Linking three test cases of which the second is not found: GET, PUT
      for the first, GET alone for the second, GET and PUT for the third. */
  lemma SkipsMissingTestCase(issue: string, a: Value, b: Value)
    requires Str(issue) !in ListOf(Get(Rec(a), "issueLinks")) && Str(issue) !in ListOf(Get(Rec(b), "issueLinks"))
    requires Rec(a) != map[] && Rec(b) != map[]
    ensures var put1 := LinkRequest(Link, issue, "T1", Some(a));
            var put3 := LinkRequest(Link, issue, "T3", Some(b));
            Linked(Link, issue, ["T1", "T2", "T3"],
                   [Exchange(Fetch(TestCase("T1")), Some(a)), Exchange(put1, Some(Null)),
                    Exchange(Fetch(TestCase("T2")), None),
                    Exchange(Fetch(TestCase("T3")), Some(b)), Exchange(put3, Some(Null))], true)
  {
    var put1 := LinkRequest(Link, issue, "T1", Some(a));
    var put3 := LinkRequest(Link, issue, "T3", Some(b));
    var s1 := [Exchange(Fetch(TestCase("T1")), Some(a)), Exchange(put1, Some(Null))];
    var s2 := [Exchange(Fetch(TestCase("T2")), None)];
    var s3 := [Exchange(Fetch(TestCase("T3")), Some(b)), Exchange(put3, Some(Null))];
    LinkedSnoc(Link, issue, [], [], "T1", s1);
    LinkedSnoc(Link, issue, ["T1"], s1, "T2", s2);
    LinkedSnoc(Link, issue, ["T1", "T2"], s1 + s2, "T3", s3);
    assert s1 + s2 + s3 == [s1[0], s1[1], s2[0], s3[0], s3[1]];
  }
}
