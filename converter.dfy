/**
 * The path and bookkeeping rules of the Markdown-to-PDF converter: anchor
 * ids for documents, rewriting of links and image sources against the
 * registry of merged documents, collecting the input files, clamping
 * bookmark pages, and naming the output file.
 *
 * The file system is a parameter: `fs(path)` says what `os.path.isdir`,
 * `os.path.isfile` and the `*.md` glob see at an absolute path.
 */
module PdfConverter {
  import opened Wrappers
  import opened Text
  import opened Paths

  // ------------------------------------------------------------ anchors

  predicate IsAlnum(c: char)
  {
    'a' <= c <= 'z' || 'A' <= c <= 'Z' || '0' <= c <= '9'
  }

  /** A character an anchor id may hold after its "doc-" prefix. */
  predicate IsIdChar(c: char)
  {
    'a' <= c <= 'z' || '0' <= c <= '9' || c == '-'
  }

  /** `re.sub(r'[^a-zA-Z0-9]', '-', s)` */
  function Dashed(s: string): (r: string)
  {
    seq(|s|, i requires 0 <= i < |s| => if IsAlnum(s[i]) then s[i] else '-')
  }

  /**
   * `get_anchor_id`: "doc-" and the file's stem, every character other than
   * an ASCII letter or digit replaced by '-', then lowered.
   */
  function AnchorId(filepath: string): (id: string)
    ensures var stem := SplitextStem(Basename(filepath));
      && |id| == 4 + |stem| && id[..4] == "doc-"
      && (forall i :: 0 <= i < |stem| ==> id[4 + i] == if IsAlnum(stem[i]) then LowerChar(stem[i]) else '-')
      && (forall i :: 4 <= i < |id| ==> IsIdChar(id[i]))
  {
    "doc-" + Lower(Dashed(SplitextStem(Basename(filepath))))
  }

  /**
   * Documents of the same file name in different directories get the same
   * anchor, so the registry sends links to either of them to one place.
   */
  lemma AnchorIdsCollide(dir1: seq<string>, dir2: seq<string>, name: string)
    requires forall i :: 0 <= i < |dir1| ==> '/' !in dir1[i]
    requires forall i :: 0 <= i < |dir2| ==> '/' !in dir2[i]
    requires '/' !in name
    ensures AnchorId(Render(Path(true, dir1 + [name]))) == AnchorId(Render(Path(true, dir2 + [name])))
  {
    BasenameRender(dir1 + [name]);
    BasenameRender(dir2 + [name]);
  }

  // ------------------------------------------------------------ links

  /** Targets `resolve_link` never rewrites. */
  predicate IsExternalLink(t: string)
  {
    "http://" <= t || "https://" <= t || "mailto:" <= t || "#" <= t
  }

  /** `os.path.dirname(os.path.abspath(current))` */
  function CurrentDir(current: string, cwd: Path): Path
  {
    Dirname(Abspath(current, cwd))
  }

  /** The registry key a link target names: the normalised absolute path, relative ones taken from the current file's directory. */
  function LinkKey(target: string, current: string, cwd: Path): string
  {
    if IsAbs(target) then Render(Normpath(Parse(target)))
    else Render(Normpath(JoinPath(CurrentDir(current, cwd), target)))
  }

  /** `resolve_link`: a registered document becomes its anchor; anything else stays as written. */
  function ResolveLink(target: string, current: string, registry: map<string, string>, cwd: Path): (r: string)
    ensures IsExternalLink(target) ==> r == target
    ensures !IsExternalLink(target) && LinkKey(target, current, cwd) in registry ==>
      r == "#" + registry[LinkKey(target, current, cwd)]
    ensures !IsExternalLink(target) && LinkKey(target, current, cwd) !in registry ==> r == target
  {
    if IsExternalLink(target) then target
    else
      var key := LinkKey(target, current, cwd);
      if key in registry then "#" + registry[key] else target
  }

  /** `file_registry`: every collected file mapped to its anchor. */
  function Registry(files: seq<string>): map<string, string>
  {
    map f | f in files :: AnchorId(f)
  }

  /**
   * A link by bare name to a collected document beside the current one
   * resolves to that document's anchor.
   */
  lemma SiblingLinkResolves(dir: seq<string>, current: string, name: string, files: seq<string>, cwd: Path)
    requires Normal(true, dir + [current]) && Normal(true, dir + [name])
    requires forall i :: 0 <= i < |dir| ==> '/' !in dir[i]
    requires '/' !in current && '/' !in name && !IsExternalLink(name)
    requires Render(Path(true, dir + [name])) in files
    ensures ResolveLink(name, Render(Path(true, dir + [current])), Registry(files), cwd)
         == "#" + AnchorId(Render(Path(true, dir + [name])))
  {
    var cur := Path(true, dir + [current]);
    forall i | 0 <= i < |cur.parts| ensures '/' !in cur.parts[i] {
      if i < |dir| { assert cur.parts[i] == dir[i]; }
    }
    RenderParseRoundTrip(cur);
    assert IsAbs(Render(cur));
    assert Abspath(Render(cur), cwd) == cur;
    assert dir + [current] != [] && (dir + [current])[..|dir|] == dir;
    assert CurrentDir(Render(cur), cwd) == Path(true, dir);
    assert !IsAbs(name) by {
      if name != [] { assert name[0] in name; }
    }
    assert Split(name, '/') == [name];
    assert JoinPath(Path(true, dir), name) == Path(true, dir + [name]);
    assert [] + (dir + [name]) == dir + [name];
    NormPartsFixed([], dir + [name], true);
  }

  /**
   * A link one directory up, `../d/name`, from a document in `pre/up`
   * resolves to the document `pre/d/name` when that one was collected: the
   * '..' cancels `up` in the normalised key.
   */
  lemma ParentLinkResolves(pre: seq<string>, up: string, current: string, d: string, name: string,
                           files: seq<string>, cwd: Path)
    requires Normal(true, pre + [up, current]) && Normal(true, pre + [d, name])
    requires forall i :: 0 <= i < |pre| ==> '/' !in pre[i]
    requires '/' !in up && '/' !in current && '/' !in d && '/' !in name
    requires Render(Path(true, pre + [d, name])) in files
    ensures ResolveLink("../" + d + "/" + name, Render(Path(true, pre + [up, current])), Registry(files), cwd)
         == "#" + AnchorId(Render(Path(true, pre + [d, name])))
  {
    var link := "../" + d + "/" + name;
    assert !IsExternalLink(link) by {
      assert link[0] == '.' && link[1] == '.';
    }
    ParentLinkKey(pre, up, current, d, name, cwd);
  }

  /** The key of `../d/name` seen from `pre/up/current` is `pre/d/name`. */
  lemma ParentLinkKey(pre: seq<string>, up: string, current: string, d: string, name: string, cwd: Path)
    requires Normal(true, pre + [up, current]) && Normal(true, pre + [d, name])
    requires forall i :: 0 <= i < |pre| ==> '/' !in pre[i]
    requires '/' !in up && '/' !in current && '/' !in d && '/' !in name
    ensures LinkKey("../" + d + "/" + name, Render(Path(true, pre + [up, current])), cwd)
         == Render(Path(true, pre + [d, name]))
  {
    var cur := Path(true, pre + [up, current]);
    forall i | 0 <= i < |cur.parts| ensures '/' !in cur.parts[i] {
      if i < |pre| { assert cur.parts[i] == pre[i]; }
    }
    RenderParseRoundTrip(cur);
    assert IsAbs(Render(cur));
    assert (pre + [up, current])[..|pre| + 1] == pre + [up];
    assert CurrentDir(Render(cur), cwd) == Path(true, pre + [up]);
    var link := "../" + d + "/" + name;
    assert !IsAbs(link);
    assert Split(link, '/') == ["..", d, name] by {
      assert link == ".." + "/" + d + "/" + name;
      SplitThree("..", d, name);
    }
    assert JoinPath(Path(true, pre + [up]), link).parts == (pre + [up]) + ["..", d, name];
    NormUp(pre, up, current, d, name);
  }

  /** Normalising `pre/up/../d/name` gives `pre/d/name`. */
  lemma NormUp(pre: seq<string>, up: string, current: string, d: string, name: string)
    requires Normal(true, pre + [up, current]) && Normal(true, pre + [d, name])
    ensures NormParts([], (pre + [up]) + ["..", d, name], true) == pre + [d, name]
  {
    var here := pre + [up];
    assert Normal(true, [] + here) by {
      assert forall i :: 0 <= i < |here| ==> here[i] == (pre + [up, current])[i];
    }
    NormPartsAppend([], here, ["..", d, name], true);
    NormPartsFixed([], here, true);
    assert [] + here == here;
    assert up != ".." by {
      assert (pre + [up, current])[|pre|] == up;
    }
    assert here[..|here| - 1] == pre;
    assert NormStep(here, "..", true) == pre;
    assert (pre + [d, name])[|pre|] == d && (pre + [d, name])[|pre| + 1] == name;
    assert d != "" && d != "." && d != ".." && name != "" && name != "." && name != "..";
    assert ["..", d, name][1..] == [d, name] && [d, name][1..] == [name] && [name][1..] == [];
    assert NormParts(here, ["..", d, name], true) == NormParts(pre, [d, name], true);
    assert NormParts(pre, [d, name], true) == NormParts(pre + [d], [name], true);
    assert NormParts(pre + [d], [name], true) == pre + [d] + [name];
    assert pre + [d] + [name] == pre + [d, name];
  }

  /** Three names without '/' joined by '/' split back into the three. */
  lemma SplitThree(a: string, b: string, c: string)
    requires '/' !in a && '/' !in b && '/' !in c
    ensures Split(a + "/" + b + "/" + c, '/') == [a, b, c]
  {
    var parts := [a, b, c];
    assert Join("/", [b, c]) == b + "/" + c by {
      assert [b, c][1..] == [c];
    }
    assert Join("/", parts) == a + "/" + (b + "/" + c) by {
      assert parts[1..] == [b, c];
    }
    assert a + "/" + (b + "/" + c) == a + "/" + b + "/" + c;
    SplitJoin(parts, '/');
  }

  /** `resolve_image_path`: remote and data sources and absolute paths stay; relative ones are resolved and normalised. */
  function ResolveImagePath(src: string, current: string, cwd: Path): (r: string)
    requires cwd.absolute
    ensures "http://" <= src || "https://" <= src || "data:" <= src || IsAbs(src) ==> r == src
    ensures IsAbs(r) || r == src
  {
    if "http://" <= src || "https://" <= src || "data:" <= src then src
    else if IsAbs(src) then src
    else
      var p := Normpath(JoinPath(CurrentDir(current, cwd), src));
      RenderAbsolute(p);
      Render(p)
  }

  lemma RenderAbsolute(p: Path)
    requires p.absolute
    ensures IsAbs(Render(p))
  {
  }

  /** Resolving an image source twice changes nothing more: what is resolved is absolute. */
  lemma ResolveImagePathIdempotent(src: string, current: string, cwd: Path)
    requires cwd.absolute
    ensures var r := ResolveImagePath(src, current, cwd);
      ResolveImagePath(r, current, cwd) == r
  {
  }

  /** Every relative image source, whatever its '..' components, ends up absolute and normalised. */
  lemma RelativeImageIsNormal(src: string, current: string, cwd: Path)
    requires cwd.absolute
    requires !("http://" <= src || "https://" <= src || "data:" <= src) && !IsAbs(src)
    ensures var p := Normpath(JoinPath(CurrentDir(current, cwd), src));
      ResolveImagePath(src, current, cwd) == Render(p) && Normal(true, p.parts)
  {
    var dir := CurrentDir(current, cwd);
    assert dir.absolute;
    NormpathIdempotent(JoinPath(dir, src));
  }

  // ------------------------------------------------------------ collecting inputs

  /** What the file system shows at an absolute path: a directory with its `*.md` glob matches, a file, or nothing. */
  datatype Entry = Directory(matches: seq<string>) | RegularFile | Absent

  /** One file an input yields, and whether it comes from a specs directory. */
  datatype Candidate = Candidate(path: string, isSpec: bool)

  /** `"specs" in os.path.basename(d) or "specs" in d.split(os.sep)` */
  predicate IsSpecsDir(d: string)
  {
    Contains(Basename(d), "specs") || "specs" in Split(d, '/')
  }

  /** The files one input yields, in the order `main` visits them. */
  function InputCandidates(inp: string, cwd: Path, fs: string -> Entry): seq<Candidate>
  {
    var absInp := Render(Abspath(inp, cwd));
    match fs(absInp)
    case Directory(found) =>
      FoundCandidates(Sort(found), cwd, IsSpecsDir(absInp))
    case RegularFile => [Candidate(absInp, Contains(Basename(Render(Dirname(Abspath(inp, cwd)))), "specs"))]
    case Absent => []
  }

  /** The files a directory yields: its sorted matches made absolute, all marked alike. */
  function FoundCandidates(sorted: seq<string>, cwd: Path, isSpec: bool): (cs: seq<Candidate>)
    ensures |cs| == |sorted|
  {
    seq(|sorted|, i requires 0 <= i < |sorted| => Candidate(Render(Abspath(sorted[i], cwd)), isSpec))
  }

  /** The files all inputs yield, input by input. */
  function Candidates(inputs: seq<string>, cwd: Path, fs: string -> Entry): seq<Candidate>
    decreases |inputs|
  {
    if inputs == [] then []
    else Candidates(inputs[..|inputs| - 1], cwd, fs) + InputCandidates(inputs[|inputs| - 1], cwd, fs)
  }

  /** The collected files and the specs among them. */
  datatype Collection = Collection(files: seq<string>, specs: set<string>)

  /** One candidate: appended, and marked as a spec if its directory says so, unless already collected. */
  function Gather(cs: seq<Candidate>): Collection
    decreases |cs|
  {
    if cs == [] then Collection([], {})
    else
      var acc := Gather(cs[..|cs| - 1]);
      var c := cs[|cs| - 1];
      if c.path in acc.files then acc
      else Collection(acc.files + [c.path], if c.isSpec then acc.specs + {c.path} else acc.specs)
  }

  /** The first candidate with path `p`, by index. */
  ghost predicate FirstAt(cs: seq<Candidate>, p: string, k: int)
  {
    0 <= k < |cs| && cs[k].path == p && forall j :: 0 <= j < k ==> cs[j].path != p
  }

  /** Some candidate has path `p`. */
  ghost predicate Occurs(cs: seq<Candidate>, p: string)
  {
    exists k :: 0 <= k < |cs| && cs[k].path == p
  }

  /** The first candidate with path `p` comes from a specs directory. */
  ghost predicate FirstIsSpec(cs: seq<Candidate>, p: string)
  {
    exists k :: FirstAt(cs, p, k) && cs[k].isSpec
  }

  /** The collected files never repeat. */
  lemma {:induction false} GatherNoDuplicates(cs: seq<Candidate>)
    ensures NoDuplicates(Gather(cs).files)
    decreases |cs|
  {
    if cs != [] {
      GatherNoDuplicates(cs[..|cs| - 1]);
    }
  }

  lemma OccursSnoc(init: seq<Candidate>, c: Candidate, p: string)
    ensures Occurs(init + [c], p) <==> Occurs(init, p) || c.path == p
  {
    var cs := init + [c];
    if Occurs(init, p) {
      var k :| 0 <= k < |init| && init[k].path == p;
      assert cs[k] == init[k];
    }
    if Occurs(cs, p) {
      var k :| 0 <= k < |cs| && cs[k].path == p;
      if k < |init| { assert init[k] == cs[k]; }
    }
    if c.path == p {
      assert cs[|init|] == c;
    }
  }

  /** A path is collected exactly when some input yields it. */
  lemma {:induction false} GatherFiles(cs: seq<Candidate>)
    ensures forall p :: p in Gather(cs).files <==> Occurs(cs, p)
    decreases |cs|
  {
    if cs != [] {
      var init := cs[..|cs| - 1];
      GatherFiles(init);
      assert cs == init + [cs[|cs| - 1]];
      forall p ensures p in Gather(cs).files <==> Occurs(cs, p) {
        OccursSnoc(init, cs[|cs| - 1], p);
      }
    }
  }

  /** A collected file is a spec exactly when its first appearance came from a specs directory. */
  lemma {:induction false} GatherSpecs(cs: seq<Candidate>)
    ensures forall p :: p in Gather(cs).specs <==> FirstIsSpec(cs, p)
    decreases |cs|
  {
    if cs != [] {
      var init := cs[..|cs| - 1];
      var c := cs[|cs| - 1];
      GatherSpecs(init);
      GatherFiles(init);
      assert cs == init + [c];
      forall p ensures p in Gather(cs).specs <==> FirstIsSpec(cs, p) {
        FirstAtExtend(init, c, p);
      }
    }
  }

  /** Every spec is among the collected files. */
  lemma GatherSpecsAreFiles(cs: seq<Candidate>)
    ensures Gather(cs).specs <= set p | p in Gather(cs).files
  {
    GatherSpecs(cs);
    GatherFiles(cs);
    forall p | p in Gather(cs).specs ensures p in Gather(cs).files {
      var k :| FirstAt(cs, p, k) && cs[k].isSpec;
    }
  }

  /**
   * The collected files keep the order in which the inputs first yield
   * them: of two collected files, the earlier one first appears earlier.
   */
  lemma {:induction false} GatherOrder(cs: seq<Candidate>, i: nat, j: nat, ki: int, kj: int)
    requires i < j < |Gather(cs).files|
    requires FirstAt(cs, Gather(cs).files[i], ki) && FirstAt(cs, Gather(cs).files[j], kj)
    ensures ki < kj
    decreases |cs|
  {
    var init := cs[..|cs| - 1];
    var c := cs[|cs| - 1];
    var acc := Gather(init);
    assert cs == init + [c];
    GatherFiles(init);
    var fi, fj := Gather(cs).files[i], Gather(cs).files[j];
    if c.path in acc.files {
      assert Gather(cs) == acc;
      FirstAtInit(init, c, fi, ki);
      FirstAtInit(init, c, fj, kj);
      GatherOrder(init, i, j, ki, kj);
    } else if j < |acc.files| {
      assert fi == acc.files[i] && fj == acc.files[j];
      FirstAtInit(init, c, fi, ki);
      FirstAtInit(init, c, fj, kj);
      GatherOrder(init, i, j, ki, kj);
    } else {
      assert fi == acc.files[i] && fj == c.path;
      FirstAtInit(init, c, fi, ki);
      assert !Occurs(init, fj);
    }
  }

  /** A path that already occurs before the last candidate first occurs where it did there. */
  lemma FirstAtInit(init: seq<Candidate>, c: Candidate, p: string, k: int)
    requires FirstAt(init + [c], p, k) && Occurs(init, p)
    ensures k < |init| && FirstAt(init, p, k)
  {
    var cs := init + [c];
    var m :| 0 <= m < |init| && init[m].path == p;
    assert cs[m] == init[m];
    forall j | 0 <= j < k ensures init[j].path != p {
      assert cs[j] == init[j];
    }
    assert init[k] == cs[k];
  }

  /** The registry has one entry per collected file, each mapped to its anchor. */
  lemma RegistryOfCollection(cs: seq<Candidate>)
    ensures var files := Gather(cs).files; var reg := Registry(files);
      && reg.Keys == (set f | f in files)
      && (forall f :: f in reg ==> reg[f] == AnchorId(f))
      && |reg| == |files|
  {
    var files := Gather(cs).files;
    GatherNoDuplicates(cs);
    DistinctCount(files);
    assert Registry(files).Keys == (set f | f in files);
  }

  /** Where a path first appears, after one more candidate. */
  lemma FirstAtExtend(init: seq<Candidate>, c: Candidate, p: string)
    ensures FirstIsSpec(init + [c], p) <==> FirstIsSpec(init, p) || (c.path == p && c.isSpec && !Occurs(init, p))
  {
    var cs := init + [c];
    if FirstIsSpec(cs, p) {
      var k :| FirstAt(cs, p, k) && cs[k].isSpec;
      if k < |init| {
        forall j | 0 <= j < k ensures init[j].path != p {
          assert cs[j] == init[j];
        }
        assert FirstAt(init, p, k) && init[k] == cs[k];
      } else {
        assert k == |init| && cs[k] == c;
        forall j | 0 <= j < |init| ensures init[j].path != p {
          assert cs[j] == init[j];
        }
      }
    }
    if FirstIsSpec(init, p) {
      var k :| FirstAt(init, p, k) && init[k].isSpec;
      forall j | 0 <= j < k ensures cs[j].path != p {
        assert cs[j] == init[j];
      }
      assert FirstAt(cs, p, k) && cs[k] == init[k];
    }
    if c.path == p && c.isSpec && !Occurs(init, p) {
      forall j | 0 <= j < |init| ensures cs[j].path != p {
        assert cs[j] == init[j];
      }
      assert FirstAt(cs, p, |init|) && cs[|init|] == c;
    }
  }

  /** One file offered to the collection: appended unless already there, marked as a spec on first sight. */
  method AddCandidate(files0: seq<string>, specs0: set<string>, path: string, isSpec: bool, ghost before: seq<Candidate>)
    returns (files: seq<string>, specs: set<string>)
    requires Collection(files0, specs0) == Gather(before)
    ensures Collection(files, specs) == Gather(before + [Candidate(path, isSpec)])
  {
    assert (before + [Candidate(path, isSpec)])[..|before|] == before;
    files, specs := files0, specs0;
    if path !in files {
      files := files + [path];
      if isSpec {
        specs := specs + {path};
      }
    }
  }

  /** The inner loop over a directory's sorted matches. */
  method AddFound(files0: seq<string>, specs0: set<string>, sorted: seq<string>, cwd: Path, isSpecsDir: bool, ghost before: seq<Candidate>)
    returns (files: seq<string>, specs: set<string>)
    requires Collection(files0, specs0) == Gather(before)
    ensures Collection(files, specs) == Gather(before + FoundCandidates(sorted, cwd, isSpecsDir))
  {
    files, specs := files0, specs0;
    ghost var cands := FoundCandidates(sorted, cwd, isSpecsDir);
    var j := 0;
    assert before + cands[..0] == before;
    while j < |sorted|
      invariant j <= |sorted|
      invariant Collection(files, specs) == Gather(before + cands[..j])
    {
      var fAbs := Render(Abspath(sorted[j], cwd));
      assert cands[j] == Candidate(fAbs, isSpecsDir);
      ConcatTakeSnoc(before, cands, j);
      files, specs := AddCandidate(files, specs, fAbs, isSpecsDir, before + cands[..j]);
      j := j + 1;
    }
    assert cands[..j] == cands;
  }

  /** The body of the collection loop for one input: a directory's sorted `*.md` files, or the file itself. */
  method AddInput(files0: seq<string>, specs0: set<string>, inp: string, cwd: Path, fs: string -> Entry, ghost before: seq<Candidate>)
    returns (files: seq<string>, specs: set<string>)
    requires Collection(files0, specs0) == Gather(before)
    ensures Collection(files, specs) == Gather(before + InputCandidates(inp, cwd, fs))
  {
    files, specs := files0, specs0;
    var absInp := Render(Abspath(inp, cwd));
    match fs(absInp) {
      case Directory(found) =>
        var sorted := Sort(found);
        var isSpecsDir := Contains(Basename(absInp), "specs") || "specs" in Split(absInp, '/');
        files, specs := AddFound(files, specs, sorted, cwd, isSpecsDir, before);
      case RegularFile =>
        files, specs := AddCandidate(files, specs, absInp, Contains(Basename(Render(Dirname(Abspath(inp, cwd)))), "specs"), before);
      case Absent =>
        assert before + [] == before;
    }
  }

  /** The collection loop of `main` over the inputs. */
  method CollectFiles(inputs: seq<string>, cwd: Path, fs: string -> Entry) returns (files: seq<string>, specs: set<string>)
    ensures Collection(files, specs) == Gather(Candidates(inputs, cwd, fs))
  {
    files, specs := [], {};
    var i := 0;
    while i < |inputs|
      invariant i <= |inputs|
      invariant Collection(files, specs) == Gather(Candidates(inputs[..i], cwd, fs))
    {
      assert inputs[..i + 1][..i] == inputs[..i];
      files, specs := AddInput(files, specs, inputs[i], cwd, fs, Candidates(inputs[..i], cwd, fs));
      i := i + 1;
    }
    assert inputs[..i] == inputs;
  }

  // ------------------------------------------------------------ bookmarks

  /** The "safety limits" of the bookmark loop: below 0 becomes 0, then at or past the end becomes the last page. */
  method ClampPage(page: int, pageCount: nat) returns (idx: int)
    ensures pageCount >= 1 ==> 0 <= idx < pageCount
    ensures 0 <= page < pageCount ==> idx == page
    ensures pageCount >= 1 && page < 0 ==> idx == 0
    ensures page >= pageCount ==> idx == pageCount - 1
    ensures pageCount == 0 ==> idx == -1
  {
    idx := page;
    if idx < 0 {
      idx := 0;
    }
    if idx >= pageCount {
      idx := pageCount - 1;
    }
  }

  datatype Bookmark = Bookmark(title: string, page: int)
  datatype OutlineItem = OutlineItem(title: string, page: nat)

  /** The page a bookmark lands on once clamped. */
  function Clamped(page: int, pageCount: nat): int
  {
    if page < 0 then (if pageCount == 0 then -1 else 0)
    else if page >= pageCount then pageCount - 1
    else page
  }

  /** The outline the loop builds: an item per bookmark whose clamped page exists (none when there is no page). */
  function Outline(bookmarks: seq<Bookmark>, pageCount: nat): seq<OutlineItem>
    decreases |bookmarks|
  {
    if bookmarks == [] then []
    else
      var b := bookmarks[|bookmarks| - 1];
      var idx := Clamped(b.page, pageCount);
      Outline(bookmarks[..|bookmarks| - 1], pageCount)
      + (if 0 <= idx < pageCount then [OutlineItem(b.title, idx)] else [])
  }

  /** With at least one page every bookmark is kept, in order, on a page that exists; with none, nothing is. */
  lemma {:induction false} OutlineFacts(bookmarks: seq<Bookmark>, pageCount: nat)
    ensures var o := Outline(bookmarks, pageCount);
      && (pageCount == 0 ==> o == [])
      && (pageCount >= 1 ==> |o| == |bookmarks|)
      && (pageCount >= 1 ==> forall i :: 0 <= i < |o| ==>
            (o[i].title == bookmarks[i].title && o[i].page < pageCount &&
             (0 <= bookmarks[i].page < pageCount ==> o[i].page == bookmarks[i].page)))
    decreases |bookmarks|
  {
    if bookmarks != [] {
      var init := bookmarks[..|bookmarks| - 1];
      OutlineFacts(init, pageCount);
      if pageCount >= 1 {
        var o := Outline(bookmarks, pageCount);
        forall i | 0 <= i < |init| ensures bookmarks[i] == init[i] { }
      }
    }
  }

  /** The bookmark loop: each bookmark is clamped, and an outline item is added when the page lookup succeeds. */
  method InjectBookmarks(bookmarks: seq<Bookmark>, pageCount: nat) returns (outline: seq<OutlineItem>)
    ensures outline == Outline(bookmarks, pageCount)
  {
    outline := [];
    var i := 0;
    while i < |bookmarks|
      invariant i <= |bookmarks|
      invariant outline == Outline(bookmarks[..i], pageCount)
    {
      var b := bookmarks[i];
      var idx := ClampPage(b.page, pageCount);
      assert bookmarks[..i + 1][..i] == bookmarks[..i];
      assert idx == Clamped(b.page, pageCount);
      if 0 <= idx < pageCount {
        outline := outline + [OutlineItem(b.title, idx)];
      }
      i := i + 1;
    }
    assert bookmarks[..i] == bookmarks;
  }

  // ------------------------------------------------------------ output name

  /** The page-format part of the default output name: A4 wins over A3, and the poster mark needs the default width. */
  function PageMark(a4: bool, a3: bool, width: string): (m: string)
    ensures m in {"_A4", "_A3", "_poster", ""}
    ensures m == "_A4" <==> a4
    ensures m == "_A3" <==> !a4 && a3
    ensures m == "_poster" <==> !a4 && !a3 && width == "210mm"
  {
    if a4 then "_A4" else if a3 then "_A3" else if width == "210mm" then "_poster" else ""
  }

  /** The suffix `main` builds step by step for the default output name. */
  method OutputSuffix(glassCards: bool, a4: bool, a3: bool, width: string) returns (suffix: string)
    ensures suffix == (if glassCards then "_glass" else "") + PageMark(a4, a3, width)
  {
    suffix := "";
    if glassCards {
      suffix := suffix + "_glass";
    }
    if a4 {
      suffix := suffix + "_A4";
    } else if a3 {
      suffix := suffix + "_A3";
    } else if width == "210mm" {
      suffix := suffix + "_poster";
    }
  }

  /** The suffix starts "_g" exactly when glass cards were asked for. */
  lemma GlassMark(glassCards: bool, a4: bool, a3: bool, width: string)
    ensures var x := (if glassCards then "_glass" else "") + PageMark(a4, a3, width);
      glassCards <==> |x| >= 2 && x[1] == 'g'
  {
  }

  /** The suffix says whether glass cards were asked for, and which page format. */
  lemma SuffixDecodes(glassCards: bool, a4: bool, a3: bool, width: string, g2: bool, a42: bool, a32: bool, w2: string)
    requires (if glassCards then "_glass" else "") + PageMark(a4, a3, width)
          == (if g2 then "_glass" else "") + PageMark(a42, a32, w2)
    ensures glassCards == g2 && PageMark(a4, a3, width) == PageMark(a42, a32, w2)
  {
    GlassMark(glassCards, a4, a3, width);
    GlassMark(g2, a42, a32, w2);
    var m1, m2 := PageMark(a4, a3, width), PageMark(a42, a32, w2);
    var n := if glassCards then 6 else 0;
    assert m1 == ((if glassCards then "_glass" else "") + m1)[n..];
    assert m2 == ((if g2 then "_glass" else "") + m2)[n..];
  }

  /**
   * The output path: `--output` made absolute when given and not empty,
   * otherwise `docs/output/<first input's stem><suffix>.pdf` under the
   * project root.
   */
  function FinalPdfPath(output: Option<string>, cwd: Path, projectRoot: Path, firstInput: string, suffix: string): (p: Path)
    ensures !Truthy(output) ==> p.parts == projectRoot.parts + ["docs", "output", SplitextStem(Basename(firstInput)) + suffix + ".pdf"]
  {
    if Truthy(output) then Abspath(output.value, cwd)
    else Path(projectRoot.absolute, projectRoot.parts + ["docs", "output", SplitextStem(Basename(firstInput)) + suffix + ".pdf"])
  }

  /** The classes of the `<body>` element, in the order `main` appends them. */
  method BodyClasses(glassCards: bool, a4: bool, a3: bool) returns (classes: seq<string>)
    ensures "glass-theme" in classes <==> glassCards
    ensures "paginated-mode" in classes <==> a4 || a3
    ensures "mode-a4" in classes <==> a4
    ensures "mode-a3" in classes <==> a3
    ensures |classes| == (if glassCards then 1 else 0) + (if a4 || a3 then 1 else 0) + (if a4 then 1 else 0) + (if a3 then 1 else 0)
  {
    classes := [];
    if glassCards { classes := classes + ["glass-theme"]; }
    if a4 || a3 { classes := classes + ["paginated-mode"]; }
    if a4 { classes := classes + ["mode-a4"]; }
    if a3 { classes := classes + ["mode-a3"]; }
  }
}
