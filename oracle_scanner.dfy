/**
 * The knowledge-gap scanner's bookkeeping: where its request files go
 * (the project-isolated directory rule shared with the debate reports),
 * which request files feed the running summary, and how much of each text
 * is sent to the model.
 *
 * Paths are lists of components (`pathlib` parts of absolute paths); a
 * directory listing is a sequence of file names and reading a file is a
 * function parameter.
 */
module OracleScanner {
  import opened Wrappers
  import opened Text
  import opened Paths

  /** How much of the joined request files the summary prompt gets. */
  const SummaryLimit: nat := 8000
  /** How much of the target document the scan prompt gets. */
  const ScanLimit: nat := 10000
  /** How many of the latest request files are summarised. */
  const SummaryWindow: nat := 5
  /** What separates request files in the summary prompt. */
  const RequestSeparator := "\n\n---\n\n"

  // ------------------------------------------------------------ isolated paths

  /** The relative directory without its first component when that one is 'docs'. */
  function DropLeadingDocs(rel: seq<string>): (r: seq<string>)
    ensures rel != [] && rel[0] == "docs" ==> rel == ["docs"] + r
    ensures !(rel != [] && rel[0] == "docs") ==> r == rel
  {
    if rel != [] && rel[0] == "docs" then rel[1..] else rel
  }

  /**
   * `get_project_isolated_path`: `root/docs/<base>/<relative directory>/<stem>`,
   * where the relative directory is the target's directory relative to the
   * root without a leading 'docs', or 'external' when the target is not
   * under the root.
   */
  function ProjectIsolatedPath(root: seq<string>, target: seq<string>, base: string): (r: seq<string>)
    ensures root + ["docs", base] <= r
    ensures |r| >= |root| + 3 && r[|r| - 1] == PathlibStem(Name(target))
    ensures !(root <= target) ==> |r| == |root| + 4 && r[|root| + 2] == "external"
  {
    var relDir := if root <= target then DropLeadingDocs(Parent(target[|root|..])) else ["external"];
    root + ["docs", base] + relDir + [PathlibStem(Name(target))]
  }

  /** A file under the root whose directory does not start with 'docs' keeps its whole relative directory. */
  lemma IsolatedUnderRoot(root: seq<string>, rel: seq<string>, name: string, base: string)
    requires rel == [] || rel[0] != "docs"
    ensures ProjectIsolatedPath(root, root + rel + [name], base) == root + ["docs", base] + rel + [PathlibStem(name)]
  {
    var target := root + rel + [name];
    assert target[..|root|] == root;
    assert root <= target;
    assert target[|root|..] == rel + [name];
    assert Parent(rel + [name]) == rel;
    assert Parent(target[|root|..]) == rel;
    assert DropLeadingDocs(rel) == rel;
    assert Name(target) == name;
  }

  /** Only the first 'docs' component is dropped: any 'docs' below it stays. */
  lemma IsolatedDropsOneDocs(root: seq<string>, rel: seq<string>, name: string, base: string)
    ensures ProjectIsolatedPath(root, root + ["docs"] + rel + [name], base) == root + ["docs", base] + rel + [PathlibStem(name)]
  {
    var target := root + ["docs"] + rel + [name];
    assert target[..|root|] == root;
    assert target[|root|..] == ["docs"] + rel + [name];
    assert Parent(["docs"] + rel + [name]) == ["docs"] + rel;
    assert (["docs"] + rel)[1..] == rel;
  }

  /** A file outside the root goes under 'external', whatever its directory. */
  lemma IsolatedExternal(root: seq<string>, target: seq<string>, base: string)
    requires !(root <= target)
    ensures ProjectIsolatedPath(root, target, base) == root + ["docs", base, "external", PathlibStem(Name(target))]
  {
  }

  /** `docs/x/a.md` and `x/a.md` under the same root share one directory. */
  lemma DocsCollision(root: seq<string>, rel: seq<string>, name: string, base: string)
    requires rel == [] || rel[0] != "docs"
    ensures ProjectIsolatedPath(root, root + ["docs"] + rel + [name], base)
         == ProjectIsolatedPath(root, root + rel + [name], base)
  {
    IsolatedDropsOneDocs(root, rel, name, base);
    IsolatedUnderRoot(root, rel, name, base);
  }

  /** `external/a.md` under the root shares its directory with every `a.md` outside the root. */
  lemma ExternalCollision(root: seq<string>, outside: seq<string>, name: string, base: string)
    requires !(root <= outside + [name])
    ensures ProjectIsolatedPath(root, root + ["external", name], base)
         == ProjectIsolatedPath(root, outside + [name], base)
  {
    IsolatedUnderRoot(root, ["external"], name, base);
    assert root + ["external"] + [name] == root + ["external", name];
    IsolatedExternal(root, outside + [name], base);
  }

  // ------------------------------------------------------------ request files

  /** The file the scan saves its answer in. */
  function RequestName(timestamp: string): string
  {
    "request_" + timestamp + ".md"
  }

  /** The request files of a listing (`glob("request_*.md")`), in listing order. */
  function Requests(listing: seq<string>): seq<string>
  {
    Glob(listing, "request_", ".md")
  }

  lemma RequestNameMatches(timestamp: string)
    ensures GlobMatch(RequestName(timestamp), "request_", ".md")
  {
    GlobMatchBuilt("request_", timestamp, ".md");
  }

  /** What `update_summary` puts in its prompt: the joined texts (truncated) and the number of sessions. */
  datatype SummaryPrompt = SummaryPrompt(allRequests: string, sessionCount: nat)

  /** The texts of some files, in order. */
  function Texts(files: seq<string>, read: string -> string): (t: seq<string>)
    ensures |t| == |files| && forall i :: 0 <= i < |files| ==> t[i] == read(files[i])
  {
    seq(|files|, i requires 0 <= i < |files| => read(files[i]))
  }

  lemma TextsSnoc(files: seq<string>, i: nat, read: string -> string)
    requires i < |files|
    ensures Texts(files[..i + 1], read) == Texts(files[..i], read) + [read(files[i])]
  {
  }

  /** The request files the summary reads: the last five in name order. */
  function Latest(listing: seq<string>): (r: seq<string>)
    ensures |r| == if |Requests(listing)| < SummaryWindow then |Requests(listing)| else SummaryWindow
  {
    Last(Sort(Requests(listing)), SummaryWindow)
  }

  /** The sorted request files of a directory listing: no repeats, sorted, the same names. */
  lemma SortedRequests(listing: seq<string>)
    requires NoDuplicates(listing)
    ensures var files := Sort(Requests(listing));
      NoDuplicates(files) && Sorted(files) && forall g :: g in files <==> g in Requests(listing)
  {
    var reqs := Requests(listing);
    var files := Sort(reqs);
    GlobNoDuplicates(listing, "request_", ".md");
    NoDuplicatesPermutation(reqs, files);
    SortSorted(reqs);
    forall g ensures g in files <==> g in reqs {
      assert g in reqs <==> g in multiset(reqs);
    }
  }

  /**
   * No summary without request files; otherwise the texts of the latest
   * request files, joined by the separator and cut at 8000 characters,
   * and the number of request files.
   */
  function Summary(listing: seq<string>, read: string -> string): (r: Option<SummaryPrompt>)
    ensures r.None? <==> Requests(listing) == []
    ensures r.Some? ==> r.value.sessionCount == |Requests(listing)|
    ensures r.Some? ==>
      var joined := Join(RequestSeparator, Texts(Latest(listing), read));
      r.value.allRequests <= joined &&
      |r.value.allRequests| == if |joined| < SummaryLimit then |joined| else SummaryLimit
  {
    var files := Sort(Requests(listing));
    if files == [] then None
    else Some(SummaryPrompt(Take(Join(RequestSeparator, Texts(Latest(listing), read)), SummaryLimit), |files|))
  }

  /**
   * In a directory listing (no name twice), a file is among the latest
   * exactly when it is a request file with fewer than five request files
   * sorting after it.
   */
  lemma LatestAreNewest(listing: seq<string>, f: string)
    requires NoDuplicates(listing)
    ensures f in Latest(listing) <==> f in Requests(listing) && |Greater(Requests(listing), f)| < SummaryWindow
  {
    var reqs := Requests(listing);
    var files := Sort(reqs);
    SortedRequests(listing);
    LastAreGreatest(files, SummaryWindow, f);
    assert Greater(reqs, f) == Greater(files, f);
  }

  /** `update_summary` up to the model call: the loop reading the latest request files. */
  method UpdateSummary(listing: seq<string>, read: string -> string) returns (r: Option<SummaryPrompt>)
    ensures r == Summary(listing, read)
  {
    var requestFiles := Sort(Requests(listing));
    if requestFiles == [] {
      return None;
    }
    var latest := Latest(listing);
    var allContents: seq<string> := [];
    var i := 0;
    while i < |latest|
      invariant i <= |latest|
      invariant allContents == Texts(latest[..i], read)
    {
      TextsSnoc(latest, i, read);
      allContents := allContents + [read(latest[i])];
      i := i + 1;
    }
    assert latest[..i] == latest;
    var combined := Join(RequestSeparator, allContents);
    r := Some(SummaryPrompt(Take(combined, SummaryLimit), |requestFiles|));
  }

  /** The listing once the scan has saved its request file (an equal name is overwritten). */
  function AfterSave(listing: seq<string>, timestamp: string): seq<string>
  {
    if RequestName(timestamp) in listing then listing else listing + [RequestName(timestamp)]
  }

  /** After a scan the summary always exists and counts the new request file. */
  lemma SavedRequestCounted(listing: seq<string>, timestamp: string, read: string -> string)
    ensures var s := Summary(AfterSave(listing, timestamp), read);
      s.Some? && s.value.sessionCount == |Requests(listing)| + (if RequestName(timestamp) in listing then 0 else 1)
  {
    RequestNameMatches(timestamp);
    var after := AfterSave(listing, timestamp);
    assert RequestName(timestamp) in after;
    if RequestName(timestamp) !in listing {
      assert after[..|after| - 1] == listing;
    }
  }

  /**
   * When every earlier request file sorts before the new one, as later
   * timestamps of one format do, the new answer is the last text the
   * summary sees.
   */
  lemma NewestRequestSummarised(listing: seq<string>, timestamp: string, read: string -> string)
    requires forall f :: f in Requests(listing) ==> LexLess(f, RequestName(timestamp))
    ensures var files := Sort(Requests(AfterSave(listing, timestamp)));
      files != [] && Last(files, SummaryWindow)[|Last(files, SummaryWindow)| - 1] == RequestName(timestamp)
  {
    var name := RequestName(timestamp);
    RequestNameMatches(timestamp);
    var reqs := Requests(AfterSave(listing, timestamp));
    var files := Sort(reqs);
    if name in listing {
      assert name in Requests(listing);
      LexLessIrreflexive(name);
      assert false;
    }
    var after := listing + [name];
    assert after[..|after| - 1] == listing;
    assert reqs == Requests(listing) + [name];
    assert name in multiset(files);
    SortSorted(reqs);
    forall y | y in files && y != name ensures LexLess(y, name) {
      assert y in multiset(reqs);
    }
    SortedGreatestLast(files, name);
  }

  /** The scan prompt gets the target's first 10000 characters. */
  function ScanExcerpt(content: string): (r: string)
    ensures |r| == if |content| < ScanLimit then |content| else ScanLimit
    ensures r <= content
  {
    Take(content, ScanLimit)
  }
}
