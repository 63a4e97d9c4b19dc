/** The field-reconciliation helpers of the client (adaptavist/_helper.py):
    flattening the folder tree, rejecting unknown keyword arguments, and
    merging list-valued and multiline fields into a request body in place. */
module Helper {
  import opened Json
  import opened PyStr

  // ---------------------------------------------------------------------
  // Folder tree flattening (build_folder_names)
  // ---------------------------------------------------------------------

  /** A node of the folder tree the service returns. */
  datatype Folder = Folder(name: string, children: seq<Folder>)

  /** Reads a folder tree from its JSON form: a missing `name` reads as "",
      a node whose `children` is falsy has none. */
  function FolderTree(v: Value): Folder
  {
    match v
    case Obj(m) => Folder(StrOf(Get(m, "name")), if "children" in m then Subtrees(m["children"]) else [])
    case _ => Folder("", [])
  }

  function Subtrees(v: Value): seq<Folder>
  {
    match v
    case Arr(xs) => SubtreesOf(xs)
    case _ => []
  }

  function SubtreesOf(xs: seq<Value>): seq<Folder>
  {
    if xs == [] then [] else [FolderTree(xs[0])] + SubtreesOf(xs[1..])
  }

  /** `"/".join((parent, name)).replace("//", "/")` */
  function JoinedPath(parent: string, name: string): string
  {
    Replace(parent + "/" + name, "//", "/")
  }

  /** build_folder_names: the node's own path, then every child's paths,
      children in the order the service lists them. */
  function BuildFolderNames(node: Folder, parent: string): seq<string>
  {
    var path := JoinedPath(parent, node.name);
    [path] + BuildChildrenNames(node.children, path)
  }

  function BuildChildrenNames(children: seq<Folder>, parent: string): seq<string>
  {
    if children == [] then []
    else BuildFolderNames(children[0], parent) + BuildChildrenNames(children[1..], parent)
  }

  /** Number of nodes of a folder tree. */
  function Size(node: Folder): nat
  {
    1 + SizeAll(node.children)
  }

  function SizeAll(children: seq<Folder>): nat
  {
    if children == [] then 0 else Size(children[0]) + SizeAll(children[1..])
  }

  /** One path per node, the node's own joined path first. */
  lemma {:induction false} FolderNamesCount(node: Folder, parent: string)
    ensures |BuildFolderNames(node, parent)| == Size(node)
    ensures BuildFolderNames(node, parent)[0] == JoinedPath(parent, node.name)
  {
    ChildrenNamesCount(node.children, JoinedPath(parent, node.name));
  }

  lemma {:induction false} ChildrenNamesCount(children: seq<Folder>, parent: string)
    ensures |BuildChildrenNames(children, parent)| == SizeAll(children)
  {
    if children != [] {
      FolderNamesCount(children[0], parent);
      ChildrenNamesCount(children[1..], parent);
    }
  }

  predicate Rooted(p: string)
  {
    p != "" && p[0] == '/'
  }

  /** Collapsing "//" keeps a leading slash. */
  lemma SlashCollapseRooted(s: string)
    requires Rooted(s)
    ensures Rooted(Replace(s, "//", "/"))
  {
  }

  /** Flattening from the root (parent "") or from a rooted parent yields
      only paths that start with "/". */
  lemma {:induction false} FolderNamesRooted(node: Folder, parent: string)
    requires parent == "" || Rooted(parent)
    ensures forall p :: p in BuildFolderNames(node, parent) ==> Rooted(p)
  {
    var joined := parent + "/" + node.name;
    assert Rooted(joined) by {
      if parent == "" { assert joined[0] == '/'; } else { assert joined[0] == parent[0]; }
    }
    SlashCollapseRooted(joined);
    ChildrenNamesRooted(node.children, JoinedPath(parent, node.name));
  }

  lemma {:induction false} ChildrenNamesRooted(children: seq<Folder>, parent: string)
    requires Rooted(parent)
    ensures forall p :: p in BuildChildrenNames(children, parent) ==> Rooted(p)
  {
    if children != [] {
      FolderNamesRooted(children[0], parent);
      ChildrenNamesRooted(children[1..], parent);
    }
  }

  /** No two adjacent slashes. */
  predicate SingleSlashes(s: string)
  {
    forall i :: 0 <= i < |s| - 1 ==> s[i] != '/' || s[i + 1] != '/'
  }

  /** Collapsing "//" leaves a path without doubled slashes unchanged. */
  lemma {:induction false} CollapseSingleSlashes(s: string)
    requires SingleSlashes(s)
    ensures Replace(s, "//", "/") == s
  {
    if |s| >= 2 {
      assert s[..2] != "//" by { assert s[0] != '/' || s[1] != '/'; }
      assert SingleSlashes(s[1..]) by {
        forall i | 0 <= i < |s[1..]| - 1 ensures s[1..][i] != '/' || s[1..][i + 1] != '/' {
          assert s[1..][i] == s[i + 1] && s[1..][i + 1] == s[i + 2];
        }
      }
      CollapseSingleSlashes(s[1..]);
      assert s == [s[0]] + s[1..];
    }
  }

  /** One step of collapsing "//". */
  lemma CollapseStep(s: string)
    requires |s| >= 2
    ensures Replace(s, "//", "/") == if s[0] == '/' && s[1] == '/' then "/" + Replace(s[2..], "//", "/")
                                     else [s[0]] + Replace(s[1..], "//", "/")
  {
    assert s[..2] == "//" <==> s[0] == '/' && s[1] == '/' by {
      assert s[..2] == [s[0], s[1]];
    }
  }

  /** Under the root path "/" a name without doubled slashes is joined
      with a single slash. */
  lemma JoinedUnderRoot(name: string)
    requires SingleSlashes(name)
    ensures JoinedPath("/", name) == "/" + name
  {
    var s := "/" + "/" + name;
    CollapseStep(s);
    assert s[2..] == name;
    CollapseSingleSlashes(name);
  }

  /** A root with an empty name and one child "Test folder" flattens to
      ["/", "/Test folder"]. */
  lemma RootAndOneFolder()
    ensures BuildFolderNames(Folder("", [Folder("Test folder", [])]), "") == ["/", "/Test folder"]
  {
    var child := Folder("Test folder", []);
    JoinedUnderRoot("Test folder");
    assert "/" + "Test folder" == "/Test folder";
    assert JoinedPath("", "") == "/";
    assert BuildFolderNames(child, "/") == ["/Test folder"];
    assert BuildChildrenNames([child], "/") == ["/Test folder"];
  }

  // ---------------------------------------------------------------------
  // raise_on_kwargs_not_empty
  // ---------------------------------------------------------------------

  /** The error raised when keyword arguments are left over, if any. */
  function RaiseOnKwargsNotEmpty(kwargs: map<string, Value>): (raised: Option<Error>)
    ensures raised.Some? <==> kwargs != map[]
    ensures raised.Some? ==> raised.value == UnknownArguments(kwargs)
  {
    if kwargs != map[] then Some(UnknownArguments(kwargs)) else None
  }

  // ---------------------------------------------------------------------
  // Request bodies filled in place
  // ---------------------------------------------------------------------

  /** A request body (`request_data`) that the helpers below update in place. */
  class RequestData {
    var fields: map<string, Value>

    constructor (fields: map<string, Value>)
      ensures this.fields == fields
    {
      this.fields := fields;
    }
  }

  // ---------------------------------------------------------------------
  // List-valued fields (update_field)
  // ---------------------------------------------------------------------

  function ToSet(xs: seq<Value>): set<Value>
  {
    set x | x in xs
  }

  predicate Distinct(xs: seq<Value>)
  {
    forall i, j :: 0 <= i < j < |xs| ==> xs[i] != xs[j]
  }

  /** Replacement applies only when the delta starts with "-" and its
      remainder differs from the current value (which a value that is not
      a list, such as null, always does). */
  predicate IsReplacement(current: Value, delta: seq<Value>)
  {
    |delta| > 0 && delta[0] == Str("-") && current != Arr(delta[1..])
  }

  /** `set(new_values) - set(current_values)` */
  function NewElements(current: seq<Value>, delta: seq<Value>): set<Value>
  {
    ToSet(delta) - ToSet(current)
  }

  /** `combined` is the current list followed by each new element exactly
      once, in some order (Python set order is unspecified). */
  ghost predicate IsMerge(combined: seq<Value>, current: seq<Value>, delta: seq<Value>)
  {
    && |current| <= |combined|
    && combined[..|current|] == current
    && Distinct(combined[|current|..])
    && ToSet(combined[|current|..]) == NewElements(current, delta)
  }

  /** What update_field does to a request body: in replacement mode it
      writes the remainder of the delta; otherwise it writes the merged list
      when there is something new, and leaves the body alone if not. */
  ghost predicate ListFieldUpdate(current: Value, delta: seq<Value>,
                                  before: map<string, Value>, after: map<string, Value>, key: string)
  {
    if IsReplacement(current, delta) then after == before[key := Arr(delta[1..])]
    else if NewElements(ListOf(current), delta) == {} then after == before
    else key in after && after == before[key := after[key]] && after[key].Arr?
         && IsMerge(after[key].items, ListOf(current), delta)
  }

  /** `list(s)`: every element of the set exactly once, in an order the
      model leaves open. */
  method ListOfSet(s: set<Value>) returns (xs: seq<Value>)
    ensures Distinct(xs) && ToSet(xs) == s
  {
    var rest := s;
    xs := [];
    while rest != {}
      invariant Distinct(xs)
      invariant ToSet(xs) !! rest
      invariant ToSet(xs) + rest == s
      decreases |rest|
    {
      var x :| x in rest;
      xs := xs + [x];
      rest := rest - {x};
    }
  }

  /** update_field */
  method UpdateField(current: Value, data: RequestData, key: string, delta: seq<Value>)
    modifies data
    ensures ListFieldUpdate(current, delta, old(data.fields), data.fields, key)
  {
    if |delta| > 0 && delta[0] == Str("-") && current != Arr(delta[1..]) {
      data.fields := data.fields[key := Arr(delta[1..])];
      return;
    }
    assert !IsReplacement(current, delta);
    var items := ListOf(current);
    var tail := ListOfSet(ToSet(delta) - ToSet(items));
    var combined := items + tail;
    MergeOfTail(items, delta, tail);
    if items != combined {
      data.fields := data.fields[key := Arr(combined)];
    }
  }

  /** Appending the new elements, each once, is a merge; it changes the
      list exactly when there is a new element. */
  lemma MergeOfTail(current: seq<Value>, delta: seq<Value>, tail: seq<Value>)
    requires Distinct(tail) && ToSet(tail) == NewElements(current, delta)
    ensures IsMerge(current + tail, current, delta)
    ensures current + tail == current <==> NewElements(current, delta) == {}
  {
    var combined := current + tail;
    assert combined[..|current|] == current && combined[|current|..] == tail;
    if tail != [] {
      assert tail[0] in ToSet(tail);
      assert |combined| == |current| + |tail|;
    }
  }

  lemma {:induction false} DistinctCount(xs: seq<Value>)
    requires Distinct(xs)
    ensures |ToSet(xs)| == |xs|
  {
    if xs != [] {
      assert Distinct(xs[1..]);
      DistinctCount(xs[1..]);
      assert ToSet(xs) == {xs[0]} + ToSet(xs[1..]);
      assert xs[0] !in ToSet(xs[1..]);
    }
  }

  /** The merged list is the current one plus one slot per new element. */
  lemma MergeLength(combined: seq<Value>, current: seq<Value>, delta: seq<Value>)
    requires IsMerge(combined, current, delta)
    ensures |combined| == |current| + |NewElements(current, delta)|
  {
    DistinctCount(combined[|current|..]);
  }

  /** The merged list holds exactly the elements of the current list and of the delta. */
  lemma MergeMembers(combined: seq<Value>, current: seq<Value>, delta: seq<Value>)
    requires IsMerge(combined, current, delta)
    ensures ToSet(combined) == ToSet(current) + ToSet(delta)
  {
    var tail := combined[|current|..];
    assert combined == current + tail;
    assert ToSet(combined) == ToSet(current) + ToSet(tail);
  }

  /** A duplicate-free current list stays duplicate-free, whatever the delta repeats. */
  lemma MergeDistinct(combined: seq<Value>, current: seq<Value>, delta: seq<Value>)
    requires Distinct(current)
    requires IsMerge(combined, current, delta)
    ensures Distinct(combined)
  {
    var n := |current|;
    forall i, j | 0 <= i < j < |combined| ensures combined[i] != combined[j] {
      if j >= n {
        assert combined[j] == combined[n..][j - n];
        if i >= n {
          assert combined[i] == combined[n..][i - n];
        } else {
          assert combined[i] == current[i];
          assert combined[j] in ToSet(combined[n..]);
        }
      } else {
        assert combined[i] == current[i] && combined[j] == current[j];
      }
    }
  }

  /** Merging the same additive delta into the merged list writes nothing. */
  lemma MergeAgainWritesNothing(combined: seq<Value>, current: seq<Value>, delta: seq<Value>,
                                before: map<string, Value>, after: map<string, Value>, key: string)
    requires delta == [] || delta[0] != Str("-")
    requires IsMerge(combined, current, delta)
    requires ListFieldUpdate(Arr(combined), delta, before, after, key)
    ensures after == before
  {
    MergeMembers(combined, current, delta);
    assert NewElements(combined, delta) == {};
  }

  /** An empty delta leaves the request body unchanged. */
  lemma EmptyDeltaWritesNothing(current: Value, before: map<string, Value>, after: map<string, Value>, key: string)
    requires ListFieldUpdate(current, [], before, after, key)
    ensures after == before
  {
    assert ToSet([]) == {};
  }

  /** Only `key` is touched, and it is written only with a list that
      differs from the current one. */
  lemma ListFieldUpdateFrame(current: Value, delta: seq<Value>,
                             before: map<string, Value>, after: map<string, Value>, key: string)
    requires ListFieldUpdate(current, delta, before, after, key)
    ensures forall k :: k != key ==> (k in after <==> k in before) && (k in after ==> after[k] == before[k])
    ensures after != before ==> key in after && after == before[key := after[key]] && after[key] != current
  {
    var items := ListOf(current);
    if !IsReplacement(current, delta) && NewElements(items, delta) != {} {
      var tail := after[key].items[|items|..];
      assert tail != [] by {
        var x :| x in NewElements(items, delta);
        assert x in ToSet(tail);
      }
    }
  }

  /** A current value that is not a list (null, say) never equals the
      remainder of a "-" delta, so that remainder replaces it. */
  lemma NonListReplaced(current: Value, delta: seq<Value>,
                        before: map<string, Value>, after: map<string, Value>, key: string)
    requires !current.Arr? && |delta| > 0 && delta[0] == Str("-")
    requires ListFieldUpdate(current, delta, before, after, key)
    ensures after == before[key := Arr(delta[1..])]
  {
  }

  /** Asking to replace the list by itself appends "-" to it: the guard
      sends the delta to the merge branch, where "-" is a new element. */
  lemma ReplaceBySameListAppendsDash(current: seq<Value>, before: map<string, Value>,
                                     after: map<string, Value>, key: string)
    requires Str("-") !in current
    requires ListFieldUpdate(Arr(current), [Str("-")] + current, before, after, key)
    ensures after == before[key := Arr(current + [Str("-")])]
  {
    var delta := [Str("-")] + current;
    assert delta[1..] == current;
    assert ToSet(delta) == {Str("-")} + ToSet(current);
    assert NewElements(current, delta) == {Str("-")};
    var combined := after[key].items;
    var tail := combined[|current|..];
    DistinctCount(tail);
    assert |tail| == 1;
    assert Str("-") in ToSet(tail);
    assert tail == [Str("-")];
    assert combined == current + tail;
  }

  // ---------------------------------------------------------------------
  // Multiline custom fields (update_multiline_field)
  // ---------------------------------------------------------------------

  predicate HasSentinel(delta: seq<string>)
  {
    |delta| > 0 && delta[0] == "-"
  }

  /** The text entries are checked against: "" in replacement mode, the
      current content otherwise (a current content that is not text, such
      as a null custom field, is tested against as ""). */
  function Base(current: Value, delta: seq<string>): string
  {
    if HasSentinel(delta) then "" else StrOf(current)
  }

  /** The entries to write: the delta without its leading "-". */
  function Entries(delta: seq<string>): seq<string>
  {
    if HasSentinel(delta) then delta[1..] else delta
  }

  /** The entries not already contained in `base`, in order, repeats kept. */
  function Kept(entries: seq<string>, base: string): (kept: seq<string>)
    ensures forall e :: multiset(kept)[e] == if Contains(base, e) then 0 else multiset(entries)[e]
    ensures forall e :: e in kept ==> e != "" && e in entries
  {
    if entries == [] then []
    else
      var rest := Kept(entries[1..], base);
      assert entries == [entries[0]] + entries[1..];
      if Contains(base, entries[0]) then rest else [entries[0]] + rest
  }

  /** The value update_multiline_field computes: the `<br>`-join of the
      kept entries. The current content is not carried over. */
  function MultilineValue(current: Value, delta: seq<string>): string
  {
    Join("<br>", Kept(Entries(delta), Base(current, delta)))
  }

  function NonEmpty(xs: seq<string>): seq<string>
  {
    if xs == [] then [] else (if xs[0] == "" then [] else [xs[0]]) + NonEmpty(xs[1..])
  }

  lemma {:induction false} KeptAgainstEmpty(entries: seq<string>)
    ensures Kept(entries, "") == NonEmpty(entries)
  {
    if entries != [] {
      EmptyContainment("", entries[0]);
      KeptAgainstEmpty(entries[1..]);
    }
  }

  /** In replacement mode the written value is the join of the non-empty
      entries after the "-". */
  lemma ReplacementJoinsNonEmpty(current: Value, delta: seq<string>)
    requires HasSentinel(delta)
    ensures MultilineValue(current, delta) == Join("<br>", NonEmpty(delta[1..]))
  {
    KeptAgainstEmpty(delta[1..]);
  }

  /** Entries already contained in the current content are dropped, and the
      rest of the content is not kept: adding an entry that is present
      yields the empty text. */
  lemma ReaddingPresentEntryClears(current: string, entry: string)
    requires entry != "-" && Contains(current, entry)
    ensures MultilineValue(Str(current), [entry]) == ""
  {
    assert Kept([entry], current) == [];
  }

  /** Repeated entries of one delta are not deduplicated against each other. */
  lemma RepeatedEntriesKept()
    ensures MultilineValue(Str(""), ["mock://a", "mock://a"]) == "mock://a<br>mock://a"
  {
    var d := ["mock://a", "mock://a"];
    KeptAgainstEmpty(d);
    assert NonEmpty(d[1..]) == d[1..];
    assert Join("<br>", d[1..]) == "mock://a";
  }

  /** The custom fields already in a request body. */
  function CustomFields(body: map<string, Value>): map<string, Value>
  {
    if "customFields" in body then Rec(body["customFields"]) else map[]
  }

  /** update_multiline_field */
  method UpdateMultilineField(current: Value, data: RequestData, key: string, delta: seq<string>)
    requires "customFields" in data.fields ==> data.fields["customFields"].Obj?
    modifies data
    ensures var v := MultilineValue(current, delta);
      data.fields == if Str(v) == current then old(data.fields)
                     else old(data.fields)["customFields" := Obj(CustomFields(old(data.fields))[key := Str(v)])]
  {
    var newContent := if HasSentinel(delta) then "" else StrOf(current);
    var values := if HasSentinel(delta) then delta[1..] else delta;
    var combined := Join("<br>", Kept(values, newContent));
    if current != Str(combined) {
      // Write the joined text under `key`, creating the custom fields if need be.
      var custom := CustomFields(data.fields);
      data.fields := data.fields["customFields" := Obj(custom[key := Str(combined)])];
    }
  }
}
