/**
 * POSIX paths as lists of components, with the lexical operations of
 * `os.path` (normpath, join, dirname, splitext) and of `pathlib`
 * (parts, relative_to, parent, stem) that the scripts use.
 */
module Paths {
  import opened Text

  /** A path: a leading '/' (`absolute`) and the components between slashes. */
  datatype Path = Path(absolute: bool, parts: seq<string>)

  /** `os.path.isabs(s)` */
  predicate IsAbs(s: string)
  {
    |s| > 0 && s[0] == '/'
  }

  /** The raw components of a path string, empty and '.' components included. */
  function Parse(s: string): Path
  {
    Path(IsAbs(s), Split(s, '/'))
  }

  /** The string of a path, as `os.path.normpath` prints it. */
  function Render(p: Path): string
  {
    if p.absolute then "/" + Join("/", p.parts)
    else if p.parts == [] then "."
    else Join("/", p.parts)
  }

  // ------------------------------------------------------------- normpath

  /** One step of `os.path.normpath`'s loop over the components. */
  function NormStep(stack: seq<string>, comp: string, absolute: bool): seq<string>
  {
    if comp == "" || comp == "." then stack
    else if comp != ".." || (!absolute && stack == []) || (stack != [] && stack[|stack| - 1] == "..") then
      stack + [comp]
    else if stack != [] then stack[..|stack| - 1]
    else stack
  }

  function NormParts(stack: seq<string>, comps: seq<string>, absolute: bool): seq<string>
    decreases |comps|
  {
    if comps == [] then stack else NormParts(NormStep(stack, comps[0], absolute), comps[1..], absolute)
  }

  /** `os.path.normpath`: drops empty and '.' components and resolves '..' lexically. */
  function Normpath(p: Path): Path
  {
    Path(p.absolute, NormParts([], p.parts, p.absolute))
  }

  /**
   * The shape `normpath` produces: no empty or '.' component, and '..' only
   * as a leading run of a relative path.
   */
  ghost predicate Normal(absolute: bool, parts: seq<string>)
  {
    forall i :: 0 <= i < |parts| ==>
      parts[i] != "" && parts[i] != "." &&
      (parts[i] == ".." ==> !absolute && forall j :: 0 <= j < i ==> parts[j] == "..")
  }

  lemma NormStepNormal(stack: seq<string>, comp: string, absolute: bool)
    requires Normal(absolute, stack)
    ensures Normal(absolute, NormStep(stack, comp, absolute))
  {
    var r := NormStep(stack, comp, absolute);
    if comp != "" && comp != "." && comp == ".." && stack != [] && stack[|stack| - 1] == ".." {
      assert r == stack + [comp];
      forall i | 0 <= i < |r| && r[i] == ".." ensures !absolute && forall j :: 0 <= j < i ==> r[j] == ".." {
        if i == |stack| {
          assert r[i - 1] == stack[|stack| - 1];
        }
      }
    }
  }

  lemma {:induction false} NormPartsNormal(stack: seq<string>, comps: seq<string>, absolute: bool)
    requires Normal(absolute, stack)
    ensures Normal(absolute, NormParts(stack, comps, absolute))
    decreases |comps|
  {
    if comps != [] {
      NormStepNormal(stack, comps[0], absolute);
      NormPartsNormal(NormStep(stack, comps[0], absolute), comps[1..], absolute);
    }
  }

  /** `normpath` leaves a path of normal shape unchanged. */
  lemma {:induction false} NormPartsFixed(stack: seq<string>, comps: seq<string>, absolute: bool)
    requires Normal(absolute, stack + comps)
    ensures NormParts(stack, comps, absolute) == stack + comps
    decreases |comps|
  {
    if comps != [] {
      var all := stack + comps;
      assert all[|stack|] == comps[0];
      if comps[0] == ".." && stack != [] {
        assert all[|stack| - 1] == stack[|stack| - 1];
      }
      assert NormStep(stack, comps[0], absolute) == stack + [comps[0]];
      assert (stack + [comps[0]]) + comps[1..] == all;
      NormPartsFixed(stack + [comps[0]], comps[1..], absolute);
    }
  }

  /** Normalising a concatenation normalises the first part, then carries on with the second. */
  lemma {:induction false} NormPartsAppend(stack: seq<string>, a: seq<string>, b: seq<string>, absolute: bool)
    ensures NormParts(stack, a + b, absolute) == NormParts(NormParts(stack, a, absolute), b, absolute)
    decreases |a|
  {
    if a != [] {
      assert (a + b)[0] == a[0] && (a + b)[1..] == a[1..] + b;
      NormPartsAppend(NormStep(stack, a[0], absolute), a[1..], b, absolute);
    } else {
      assert a + b == b;
    }
  }

  /** `normpath` yields a normal path, and applying it twice changes nothing. */
  lemma NormpathIdempotent(p: Path)
    ensures Normal(p.absolute, Normpath(p).parts)
    ensures Normpath(Normpath(p)) == Normpath(p)
  {
    NormPartsNormal([], p.parts, p.absolute);
    var q := Normpath(p);
    assert [] + q.parts == q.parts;
    NormPartsFixed([], q.parts, q.absolute);
  }

  /** Rendering a normal absolute path and normalising the string gives the path back. */
  lemma RenderParseRoundTrip(p: Path)
    requires p.absolute && Normal(true, p.parts)
    requires forall i :: 0 <= i < |p.parts| ==> '/' !in p.parts[i]
    ensures Normpath(Parse(Render(p))) == p
  {
    var s := Render(p);
    if p.parts == [] {
      assert s == "/";
      assert '/' in s by { assert s[0] == '/'; }
      assert IndexOf(s, '/') == 0;
      assert s[1..] == "";
      assert Split(s, '/') == ["", ""];
    } else {
      var raw := [""] + p.parts;
      assert s == Join("/", raw) by {
        assert raw[1..] == p.parts;
      }
      SplitJoin(raw, '/');
      assert Split(s, '/') == raw;
      assert NormStep([], "", true) == [];
      assert NormParts([], raw, true) == NormParts([], p.parts, true);
      assert [] + p.parts == p.parts;
      NormPartsFixed([], p.parts, true);
    }
  }

  // ------------------------------------------------------- os.path helpers

  /** `os.path.join(dir, rel)` for a relative `rel`, before normalisation. */
  function JoinPath(dir: Path, rel: string): Path
  {
    Path(dir.absolute, dir.parts + Parse(rel).parts)
  }

  /** `os.path.abspath(s)` relative to the working directory `cwd`. */
  function Abspath(s: string, cwd: Path): Path
  {
    if IsAbs(s) then Normpath(Parse(s)) else Normpath(JoinPath(cwd, s))
  }

  /** `os.path.dirname` of a normalised absolute path: the path without its last component. */
  function Dirname(p: Path): Path
  {
    if p.parts == [] then p else Path(p.absolute, p.parts[..|p.parts| - 1])
  }

  /** `os.path.basename(s)`: the text after the last '/'. */
  function Basename(s: string): (b: string)
    ensures '/' !in b
  {
    var parts := Split(s, '/');
    parts[|parts| - 1]
  }

  /** The base name of a rendered absolute path is its last component. */
  lemma BasenameRender(parts: seq<string>)
    requires parts != []
    requires forall i :: 0 <= i < |parts| ==> '/' !in parts[i]
    ensures Basename(Render(Path(true, parts))) == parts[|parts| - 1]
  {
    var raw := [""] + parts;
    var s := Render(Path(true, parts));
    assert s == Join("/", raw) by {
      assert raw[1..] == parts;
    }
    forall i | 0 <= i < |raw| ensures '/' !in raw[i] {
      if i > 0 { assert raw[i] == parts[i - 1]; }
    }
    SplitJoin(raw, '/');
    assert Split(s, '/') == raw;
    assert raw[|raw| - 1] == parts[|parts| - 1];
  }

  /** The index of the last occurrence of `c` in `s`, if any (`str.rfind`). */
  function RFind(s: string, c: char): (r: int)
    ensures -1 <= r < |s|
    ensures r >= 0 ==> s[r] == c && c !in s[r + 1..]
    ensures r == -1 ==> c !in s
  {
    if s == [] then -1
    else if s[|s| - 1] == c then |s| - 1
    else
      var r := RFind(s[..|s| - 1], c);
      assert s[..|s| - 1][r + 1..] + [s[|s| - 1]] == s[r + 1..];
      r
  }

  /** Whether `name[..dot]` has a character other than '.'. */
  predicate HasNonDot(name: string, dot: nat)
    requires dot <= |name|
  {
    exists k :: 0 <= k < dot && name[k] != '.'
  }

  /**
   * `os.path.splitext(name)[0]` for a base name: the text before the last
   * '.', unless every character before that '.' is itself a '.'.
   */
  function SplitextStem(name: string): (stem: string)
    ensures stem <= name
  {
    var dot := RFind(name, '.');
    if dot > 0 && HasNonDot(name, dot) then name[..dot] else name
  }

  // ------------------------------------------------------- pathlib helpers

  /** `PurePosixPath(s).parts` without the anchor: empty and '.' components are dropped, '..' is kept. */
  function PureParts(s: string): (parts: seq<string>)
    ensures forall i :: 0 <= i < |parts| ==> parts[i] != "" && parts[i] != "."
  {
    Filter(Split(s, '/'))
  }

  function Filter(comps: seq<string>): (r: seq<string>)
    ensures forall i :: 0 <= i < |r| ==> r[i] != "" && r[i] != "."
  {
    if comps == [] then []
    else if comps[0] == "" || comps[0] == "." then Filter(comps[1..])
    else [comps[0]] + Filter(comps[1..])
  }

  /** `Path(s).absolute().parts` with `cwd` as the working directory. */
  function Absolute(s: string, cwd: seq<string>): seq<string>
  {
    if IsAbs(s) then PureParts(s) else cwd + PureParts(s)
  }

  /** `PurePath.name` of a path given by its parts. */
  function Name(parts: seq<string>): string
  {
    if parts == [] then "" else parts[|parts| - 1]
  }

  /** `PurePath.parent` of a path given by its parts. */
  function Parent(parts: seq<string>): (r: seq<string>)
    ensures r <= parts
  {
    if parts == [] then [] else parts[..|parts| - 1]
  }

  /**
   * `PurePath.stem`: the name without its suffix, where a suffix starts at the
   * last '.' only when that '.' is neither the first nor the last character.
   */
  function PathlibStem(name: string): (stem: string)
    ensures stem <= name
  {
    var dot := RFind(name, '.');
    if 0 < dot < |name| - 1 then name[..dot] else name
  }

  /** `os.path.splitext` and `pathlib` disagree on a trailing dot. */
  lemma StemsDisagreeOnTrailingDot()
    ensures SplitextStem("a.") == "a"
    ensures PathlibStem("a.") == "a."
  {
    assert RFind("a.", '.') == 1;
    assert HasNonDot("a.", 1) by { assert "a."[0] != '.'; }
  }

  // ------------------------------------------------------------ globbing

  /** Whether a file name matches the glob `<prefix>*<suffix>`. */
  predicate GlobMatch(name: string, prefix: string, suffix: string)
  {
    |name| >= |prefix| + |suffix| && name[..|prefix|] == prefix && name[|name| - |suffix|..] == suffix
  }

  /** `dir.glob(prefix + "*" + suffix)` over a directory listing, in listing order. */
  function Glob(listing: seq<string>, prefix: string, suffix: string): (r: seq<string>)
    ensures forall i :: 0 <= i < |r| ==> GlobMatch(r[i], prefix, suffix) && r[i] in listing
    ensures forall f :: f in listing && GlobMatch(f, prefix, suffix) ==> f in r
    decreases |listing|
  {
    if listing == [] then []
    else
      var init := listing[..|listing| - 1];
      var f := listing[|listing| - 1];
      Glob(init, prefix, suffix) + (if GlobMatch(f, prefix, suffix) then [f] else [])
  }

  /** Globbing a listing without repeats yields no repeats. */
  lemma {:induction false} GlobNoDuplicates(listing: seq<string>, prefix: string, suffix: string)
    requires NoDuplicates(listing)
    ensures NoDuplicates(Glob(listing, prefix, suffix))
    decreases |listing|
  {
    if listing != [] {
      var init := listing[..|listing| - 1];
      var f := listing[|listing| - 1];
      assert NoDuplicates(init);
      GlobNoDuplicates(init, prefix, suffix);
      assert f !in init;
    }
  }

  /** A name built as prefix, anything, suffix matches the glob. */
  lemma GlobMatchBuilt(prefix: string, middle: string, suffix: string)
    ensures GlobMatch(prefix + middle + suffix, prefix, suffix)
  {
    var n := prefix + middle + suffix;
    assert n[..|prefix|] == prefix;
    assert n[|n| - |suffix|..] == suffix;
  }
}
