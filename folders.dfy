/** Folder paths and folder creation: the normalisation
    `f"/{x}".replace("//", "/")` applied to every folder argument, the null
    sent for the root folder, and the requests of get_projects, get_folders
    and create_folder. */
module Folders {
  import opened Json
  import opened PyStr
  import opened Remote
  import opened Helper

  /** The folder trees of a project. */
  const TestCaseFolders := "TEST_CASE"
  const TestPlanFolders := "TEST_PLAN"
  const TestRunFolders := "TEST_RUN"

  /** `f"/{x}".replace("//", "/")`: folders always start with "/". */
  function FolderPath(x: string): string
  {
    Replace("/" + x, "//", "/")
  }

  /** The `folder` value of a request body: the API uses null for the root. */
  function FolderField(path: string): Value
  {
    if path == "/" then Null else Str(path)
  }

  lemma FolderPathRooted(x: string)
    ensures Rooted(FolderPath(x))
  {
    SlashCollapseRooted("/" + x);
  }

  /** Collapsing "//" never empties a non-empty string. */
  lemma CollapseKeepsNonEmpty(s: string)
    ensures Replace(s, "//", "/") == "" ==> s == ""
  {
  }

  /** Only "" and "/" name the root folder. */
  lemma RootFolderNames(x: string)
    ensures FolderPath(x) == "/" <==> x == "" || x == "/"
  {
    var s := "/" + x;
    if x == "" {
      assert FolderPath(x) == "/";
    } else if x[0] == '/' {
      assert s[..2] == "//" && s[2..] == x[1..];
      assert FolderPath(x) == "/" + Replace(x[1..], "//", "/");
      CollapseKeepsNonEmpty(x[1..]);
      assert x == "/" ==> x[1..] == "";
      assert x[1..] == "" ==> x == "/" by {
        if x[1..] == "" { assert x == [x[0]] + x[1..]; }
      }
    } else {
      assert s[..2] != "//" by { assert s[1] == x[0]; }
      assert s[1..] == x;
      assert FolderPath(x) == "/" + Replace(x, "//", "/");
      CollapseKeepsNonEmpty(x);
    }
  }

  lemma RootFolderExamples()
    ensures FolderPath("") == "/"
    ensures FolderPath("/") == "/"
  {
    RootFolderNames("");
    RootFolderNames("/");
  }

  /** A name without doubled slashes normalises to itself when it already
      starts with "/", and to "/" + name otherwise. */
  lemma FolderPathOfSingleSlashes(x: string)
    requires SingleSlashes(x)
    ensures x != "" && x[0] == '/' ==> FolderPath(x) == x
    ensures (x == "" || x[0] != '/') ==> FolderPath(x) == "/" + x
    ensures SingleSlashes(FolderPath(x))
  {
    var s := "/" + x;
    if x != "" && x[0] == '/' {
      assert s[..2] == "//" && s[2..] == x[1..];
      assert SingleSlashes(x[1..]) by {
        forall i | 0 <= i < |x[1..]| - 1 ensures x[1..][i] != '/' || x[1..][i + 1] != '/' {
          assert x[1..][i] == x[i + 1] && x[1..][i + 1] == x[i + 2];
        }
      }
      CollapseSingleSlashes(x[1..]);
      assert x == "/" + x[1..];
    } else {
      assert SingleSlashes(s) by {
        forall i | 0 <= i < |s| - 1 ensures s[i] != '/' || s[i + 1] != '/' {
          if i > 0 { assert s[i] == x[i - 1] && s[i + 1] == x[i]; } else { assert s[1] == x[0]; }
        }
      }
      CollapseSingleSlashes(s);
    }
  }

  /** On names without doubled slashes, normalising twice is normalising once. */
  lemma FolderPathIdempotent(x: string)
    requires SingleSlashes(x)
    ensures FolderPath(FolderPath(x)) == FolderPath(x)
  {
    FolderPathOfSingleSlashes(x);
    FolderPathRooted(x);
    FolderPathOfSingleSlashes(FolderPath(x));
  }

  lemma NamedFolderExamples()
    ensures FolderPath("Test folder") == "/Test folder"
    ensures FolderPath("/Test folder") == "/Test folder"
  {
    assert SingleSlashes("Test folder");
    FolderPathOfSingleSlashes("Test folder");
    assert "/" + "Test folder" == "/Test folder";
    FolderPathOfSingleSlashes("/Test folder");
  }

  /** With three slashes in a row one pass leaves a doubled slash, so the
      second normalisation in create_folder changes the path once more. */
  lemma FolderPathNotIdempotent()
    ensures FolderPath("a///b") == "/a//b"
    ensures FolderPath("/a//b") == "/a/b"
  {
    FolderPathOfTripleSlash();
    FolderPathOfDoubleSlash();
  }

  lemma FolderPathOfTripleSlash()
    ensures FolderPath("a///b") == "/a//b"
  {
    CollapseSingleSlashes("/b");
    CollapseStep("///b");
    assert ("///b")[2..] == "/b";
    CollapseStep("a///b");
    assert ("a///b")[1..] == "///b";
    CollapseStep("/a///b");
    assert ("/a///b")[1..] == "a///b";
    assert "/" + "a///b" == "/a///b";
  }

  lemma FolderPathOfDoubleSlash()
    ensures FolderPath("/a//b") == "/a/b"
  {
    CollapseSingleSlashes("b");
    CollapseStep("//b");
    assert ("//b")[2..] == "b";
    CollapseStep("a//b");
    assert ("a//b")[1..] == "//b";
    CollapseStep("//a//b");
    assert ("//a//b")[2..] == "a//b";
    assert "/" + "/a//b" == "//a//b";
  }

  // ---------------------------------------------------------------------
  // Projects and folder listings
  // ---------------------------------------------------------------------

  /** The id, key and name get_projects keeps of a project. */
  function ProjectSummary(p: Value): map<string, Value>
  {
    var m := Rec(p);
    map["id" := Get(m, "id"), "key" := Get(m, "key"), "name" := Get(m, "name")]
  }

  function ProjectSummaries(ps: seq<Value>): (summaries: seq<map<string, Value>>)
    ensures |summaries| == |ps|
    ensures forall i :: 0 <= i < |ps| ==> summaries[i] == ProjectSummary(ps[i])
  {
    if ps == [] then [] else [ProjectSummary(ps[0])] + ProjectSummaries(ps[1..])
  }

  /** get_projects: one summary per listed project, none when the request failed. */
  function ProjectsOf(answer: Option<Value>): seq<map<string, Value>>
  {
    match answer
    case None => []
    case Some(v) => ProjectSummaries(ListOf(v))
  }

  predicate HasKey(project: map<string, Value>, projectKey: string)
  {
    Get(project, "key") == Str(projectKey)
  }

  /** `next((p["id"] for p in projects if p["key"] == key), None)` */
  function ProjectId(projects: seq<map<string, Value>>, projectKey: string): (id: Value)
    ensures (forall i :: 0 <= i < |projects| ==> !HasKey(projects[i], projectKey)) ==> id == Null
    ensures forall i :: 0 <= i < |projects| && HasKey(projects[i], projectKey)
                        && (forall j :: 0 <= j < i ==> !HasKey(projects[j], projectKey))
                        ==> id == Get(projects[i], "id")
  {
    if projects == [] then Null
    else if HasKey(projects[0], projectKey) then Get(projects[0], "id")
    else
      var id := ProjectId(projects[1..], projectKey);
      assert forall i :: 1 <= i < |projects| ==> projects[i] == projects[1..][i - 1];
      id
  }

  /** The folder paths of a folder-tree answer, none when the request failed. */
  function FolderListing(answer: Option<Value>): seq<string>
  {
    match answer
    case None => []
    case Some(v) => BuildFolderNames(FolderTree(v), "")
  }

  /** The folder type of get_folders / create_folder names a tree in the URL
      and is passed through as given. */
  function ListingLength(projectKey: string, first: Exchange): nat
  {
    if Truthy(ProjectId(ProjectsOf(first.answer), projectKey)) then 2 else 1
  }

  /** The requests of get_folders: the project list, then the folder tree of
      the project's id unless no project has that key (or its id is falsy). */
  ghost predicate FoldersListed(projectKey: string, folderType: string, ex: seq<Exchange>)
  {
    && |ex| >= 1
    && ex[0].request == Fetch(Projects)
    && var id := ProjectId(ProjectsOf(ex[0].answer), projectKey);
       if Truthy(id) then |ex| == 2 && ex[1].request == Fetch(ProjectFolders(id, folderType))
       else |ex| == 1
  }

  /** What get_folders returns after the exchanges `ex`. */
  function ListedFolders(ex: seq<Exchange>): seq<string>
  {
    if |ex| == 2 then FolderListing(ex[1].answer) else []
  }

  function FolderBody(projectKey: string, path: string, folderType: string): Value
  {
    Obj(map["projectKey" := Str(projectKey), "name" := Str(path), "type" := Str(folderType)])
  }

  /** The requests of create_folder: nothing for the root; otherwise the
      folder listing, and a POST of the normalised path only when the
      listing does not hold it. */
  ghost predicate FolderCreation(projectKey: string, folderType: string, folderName: string, ex: seq<Exchange>)
  {
    var path := FolderPath(folderName);
    if path == "/" then ex == []
    else
      && |ex| >= 1
      && var k := ListingLength(projectKey, ex[0]);
      && k <= |ex|
      && FoldersListed(projectKey, folderType, ex[..k])
      && if path in ListedFolders(ex[..k]) then |ex| == k
         else |ex| == k + 1 && ex[k].request == Request(POST, FolderCollection, FolderBody(projectKey, path, folderType))
  }

  /** The id create_folder returns: that of the created folder, or None when
      it posted nothing or the POST failed. */
  function FolderCreated(ex: seq<Exchange>): Option<Value>
  {
    if ex != [] && ex[|ex| - 1].request.verb == POST then CreatedField(ex[|ex| - 1].answer, "id") else None
  }

  /** A listing that already holds the path is all create_folder sends. */
  lemma FolderFoundCreation(projectKey: string, folderType: string, folderName: string, ex: seq<Exchange>)
    requires FolderPath(folderName) != "/" && FoldersListed(projectKey, folderType, ex)
    requires FolderPath(folderName) in ListedFolders(ex)
    ensures FolderCreation(projectKey, folderType, folderName, ex) && FolderCreated(ex) == None
  {
    assert ex[..ListingLength(projectKey, ex[0])] == ex;
  }

  /** A listing without the path, then the POST of the path, is what
      create_folder sends; the answer to the POST gives the id. */
  lemma FolderPostedCreation(projectKey: string, folderType: string, folderName: string, ex: seq<Exchange>, e: Exchange)
    requires FolderPath(folderName) != "/" && FoldersListed(projectKey, folderType, ex)
    requires FolderPath(folderName) !in ListedFolders(ex)
    requires e.request == Request(POST, FolderCollection, FolderBody(projectKey, FolderPath(folderName), folderType))
    ensures FolderCreation(projectKey, folderType, folderName, ex + [e])
    ensures FolderCreated(ex + [e]) == CreatedField(e.answer, "id")
  {
    assert (ex + [e])[..|ex|] == ex;
    assert (ex + [e])[0] == ex[0];
  }

  /** The two requests of a listing for project id `id` are reads. */
  lemma ListingVerbs(folderType: string, id: Value, ex: seq<Exchange>)
    requires |ex| >= 1 && ex[0].request == Fetch(Projects)
    requires if Truthy(id) then |ex| == 2 && ex[1].request == Fetch(ProjectFolders(id, folderType)) else |ex| == 1
    ensures forall i :: 0 <= i < |ex| ==> ex[i].request.verb == GET
  {
  }

  /** get_folders only reads. */
  lemma ListingOnlyGets(projectKey: string, folderType: string, ex: seq<Exchange>)
    requires FoldersListed(projectKey, folderType, ex)
    ensures forall i :: 0 <= i < |ex| ==> ex[i].request.verb == GET
  {
    ListingVerbs(folderType, ProjectId(ProjectsOf(ex[0].answer), projectKey), ex);
  }

  /** The requests of create_folder after its listing, if any. */
  lemma FolderCreationSplit(projectKey: string, folderType: string, folderName: string, ex: seq<Exchange>, k: nat)
    requires FolderCreation(projectKey, folderType, folderName, ex)
    requires FolderPath(folderName) != "/" && k == ListingLength(projectKey, ex[0])
    ensures k <= |ex| && forall i :: 0 <= i < k ==> ex[i].request.verb == GET
    ensures |ex| == k || (|ex| == k + 1 && ex[k].request.verb == POST)
  {
    ListingOnlyGets(projectKey, folderType, ex[..k]);
    forall i | 0 <= i < k ensures ex[i].request.verb == GET {
      assert ex[i] == ex[..k][i];
    }
  }

  /** create_folder posts at most once, and never for the root or for a
      folder the listing already holds. */
  lemma FolderCreationPostsOnlyNew(projectKey: string, folderType: string, folderName: string, ex: seq<Exchange>)
    requires FolderCreation(projectKey, folderType, folderName, ex)
    ensures var path := FolderPath(folderName);
            (exists i :: 0 <= i < |ex| && ex[i].request.verb == POST)
            <==> (path != "/" && path !in ListedFolders(ex[..ListingLength(projectKey, ex[0])]))
    ensures FolderCreated(ex).Some? ==> FolderPath(folderName) != "/"
  {
    var path := FolderPath(folderName);
    if path != "/" {
      var k := ListingLength(projectKey, ex[0]);
      FolderCreationSplit(projectKey, folderType, folderName, ex, k);
    }
  }

  /** Reads, then at most one POST: no PUT. */
  lemma GetsThenPost(ex: seq<Exchange>, k: nat)
    requires k <= |ex| && forall i :: 0 <= i < k ==> ex[i].request.verb == GET
    requires |ex| == k || (|ex| == k + 1 && ex[k].request.verb == POST)
    ensures forall i :: 0 <= i < |ex| ==> ex[i].request.verb != PUT
  {
  }

  /** create_folder never sends a PUT. */
  lemma FolderCreationSendsNoPut(projectKey: string, folderType: string, folderName: string, ex: seq<Exchange>)
    requires FolderCreation(projectKey, folderType, folderName, ex)
    ensures forall i :: 0 <= i < |ex| ==> ex[i].request.verb != PUT
  {
    if FolderPath(folderName) != "/" {
      var k := ListingLength(projectKey, ex[0]);
      FolderCreationSplit(projectKey, folderType, folderName, ex, k);
      GetsThenPost(ex, k);
    }
  }
}
