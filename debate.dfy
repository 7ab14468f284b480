/**
 * The text and file rules of the debate runner: numbering the lines of the
 * target document for the debaters, printing token usage, where the report
 * is saved, and which old execution logs are deleted.
 *
 * Paths are lists of components; the log directory's listing is a sequence
 * of file names, and whether deleting a file succeeds is a function
 * parameter.
 */
module Debate {
  import opened Wrappers
  import opened Text
  import opened Paths
  import OracleScanner

  // ------------------------------------------------------------ line numbers

  /** Output line `i` (from 0): the number `i + 1` right-justified to `width`, " | ", then the line. */
  function NumberedLine(i: nat, width: nat, line: string): string
  {
    RJust(NatToString(i + 1), width) + " | " + line
  }

  /** The width of the line numbers: the digit count of the number of lines. */
  function NumberWidth(lines: seq<string>): nat
  {
    |NatToString(|lines|)|
  }

  function Numbered(lines: seq<string>): (r: seq<string>)
    ensures |r| == |lines|
    ensures forall i :: 0 <= i < |lines| ==> r[i] == NumberedLine(i, NumberWidth(lines), lines[i])
  {
    seq(|lines|, i requires 0 <= i < |lines| => NumberedLine(i, NumberWidth(lines), lines[i]))
  }

  /** `prepend_line_numbers`: every line of the text prefixed with its number, joined by newlines. */
  function PrependLineNumbers(text: string): string
  {
    Join("\n", Numbered(SplitLines(text)))
  }

  /** A number right-justified to a width at least its length is exactly that wide: spaces, then the digits. */
  lemma NumberPrefix(i: nat, lines: seq<string>)
    requires i < |lines|
    ensures var w := NumberWidth(lines); var d := NatToString(i + 1);
      |d| <= w && |RJust(d, w)| == w && RJust(d, w) == Spaces(w - |d|) + d
  {
    var w, d := NumberWidth(lines), NatToString(i + 1);
    NatToStringMonotone(i + 1, |lines|);
    var r := RJust(d, w);
    assert r == r[..w - |d|] + r[w - |d|..];
  }

  /**
   * Each output line is as wide before its " | " as every other, and
   * dropping that prefix gives back the input line.
   */
  lemma NumberedLineShape(lines: seq<string>, i: nat)
    requires i < |lines|
    ensures var w := NumberWidth(lines); var l := Numbered(lines)[i];
      && |l| == w + 3 + |lines[i]|
      && l[..w] == RJust(NatToString(i + 1), w)
      && l[w..w + 3] == " | "
      && l[w + 3..] == lines[i]
  {
    NumberPrefix(i, lines);
  }

  /** No output line holds a newline. */
  lemma NumberedNoNewline(lines: seq<string>)
    requires forall i :: 0 <= i < |lines| ==> '\n' !in lines[i]
    ensures forall i :: 0 <= i < |lines| ==> '\n' !in Numbered(lines)[i]
  {
    forall i | 0 <= i < |lines| ensures '\n' !in Numbered(lines)[i] {
      NumberPrefix(i, lines);
      var d := NatToString(i + 1);
      var w := NumberWidth(lines);
      var l := Numbered(lines)[i];
      assert l == Spaces(w - |d|) + d + " | " + lines[i];
      forall k | 0 <= k < |l| ensures l[k] != '\n' {
        if k < w - |d| {
          assert l[k] == Spaces(w - |d|)[k];
        } else if k < w {
          assert l[k] == d[k - (w - |d|)];
        } else if k < w + 3 {
          assert l[k] == " | "[k - w];
        } else {
          assert l[k] == lines[i][k - w - 3];
        }
      }
    }
  }

  /** A non-empty text has at least one line. */
  lemma SplitLinesNonEmpty(text: string)
    requires text != ""
    ensures |SplitLines(text)| >= 1
  {
    if text[|text| - 1] == '\n' {
      assert '\n' in text;
      var i := IndexOf(text, '\n');
      assert Split(text, '\n') == [text[..i]] + Split(text[i + 1..], '\n');
    }
  }

  /**
   * Splitting the output at newlines gives one numbered line per input
   * line; an empty text gives an empty output.
   */
  lemma PrependLineNumbersLines(text: string)
    ensures text == "" ==> PrependLineNumbers(text) == ""
    ensures text != "" ==> Split(PrependLineNumbers(text), '\n') == Numbered(SplitLines(text))
  {
    if text != "" {
      var lines := SplitLines(text);
      SplitLinesNonEmpty(text);
      NumberedNoNewline(lines);
      SplitJoin(Numbered(lines), '\n');
    }
  }

  // ------------------------------------------------------------ usage

  /** The token counts a provider reports for one call. */
  datatype Usage = Usage(promptTokens: nat, completionTokens: nat, totalTokens: nat)

  /** `format_usage`: "N/A" without usage, otherwise the three counts. */
  function FormatUsage(usage: Option<Usage>): (r: string)
    ensures r == "N/A" <==> usage.None?
  {
    match usage
    case None => "N/A"
    case Some(u) =>
      var r := "In:" + (NatToString(u.promptTokens) + (" Out:" + (NatToString(u.completionTokens)
        + (" Tot:" + NatToString(u.totalTokens)))));
      assert r[0] == 'I';
      r
  }

  /** A count read back after its tag, up to the next non-digit. */
  lemma ReadCount(tag: string, x: nat, s1: string, y: nat, s2: string)
    requires |s1| > 0 && !IsDigit(s1[0]) && |s2| > 0 && !IsDigit(s2[0])
    requires tag + (NatToString(x) + s1) == tag + (NatToString(y) + s2)
    ensures x == y && s1 == s2
  {
    assert NatToString(x) + s1 == (tag + (NatToString(x) + s1))[|tag|..];
    assert NatToString(y) + s2 == (tag + (NatToString(y) + s2))[|tag|..];
    DigitsThenNonDigit(NatToString(x), s1, NatToString(y), s2);
    NatToStringInjective(x, y);
  }

  /** Different usages print differently: the counts can be read back. */
  lemma FormatUsageInjective(a: Option<Usage>, b: Option<Usage>)
    requires FormatUsage(a) == FormatUsage(b)
    ensures a == b
  {
    if a.Some? && b.Some? {
      var u, v := a.value, b.value;
      var tu, tv := " Tot:" + NatToString(u.totalTokens), " Tot:" + NatToString(v.totalTokens);
      ReadCount("In:", u.promptTokens, " Out:" + (NatToString(u.completionTokens) + tu),
                v.promptTokens, " Out:" + (NatToString(v.completionTokens) + tv));
      ReadCount(" Out:", u.completionTokens, tu, v.completionTokens, tv);
      assert NatToString(u.totalTokens) == tu[5..] && NatToString(v.totalTokens) == tv[5..];
      NatToStringInjective(u.totalTokens, v.totalTokens);
    }
  }

  // ------------------------------------------------------------ report path

  /** The report file name for a timestamp. */
  function ReportName(timestamp: string): string
  {
    "debate_" + timestamp + ".md"
  }

  /**
   * The report path `run_debate` computes: the target's directory relative
   * to the root without a leading 'docs' (or 'external'), under
   * `root/docs/reports`, then the target's stem, then the file.
   */
  method ReportPath(root: seq<string>, target: seq<string>, timestamp: string) returns (path: seq<string>)
    ensures path == OracleScanner.ProjectIsolatedPath(root, target, "reports") + [ReportName(timestamp)]
  {
    var relDir: seq<string>;
    if root <= target {
      relDir := Parent(target[|root|..]);
      if relDir != [] && relDir[0] == "docs" {
        relDir := relDir[1..];
      }
    } else {
      relDir := ["external"];
    }
    var reportTag := PathlibStem(Name(target));
    var reportDir := root + ["docs", "reports"] + relDir + [reportTag];
    path := reportDir + [ReportName(timestamp)];
  }

  // ------------------------------------------------------------ log retention

  /** How many execution logs `setup_logging` keeps. */
  const KeptLogs: nat := 20

  /** The execution logs of the log directory, sorted (`sorted(glob("debate_exec_*.log"))`). */
  function ExecLogs(listing: seq<string>): (logs: seq<string>)
    ensures multiset(logs) == multiset(Glob(listing, "debate_exec_", ".log"))
    ensures Sorted(logs)
  {
    var logs := Sort(Glob(listing, "debate_exec_", ".log"));
    SortSorted(Glob(listing, "debate_exec_", ".log"));
    logs
  }

  /** The logs selected for deletion: all but the 20 greatest, when there are more than 20. */
  function Doomed(listing: seq<string>): seq<string>
  {
    var logs := ExecLogs(listing);
    if |logs| > KeptLogs then logs[..|logs| - KeptLogs] else []
  }

  /** The logs left alone. */
  function Kept(listing: seq<string>): seq<string>
  {
    Last(ExecLogs(listing), KeptLogs)
  }

  /** The logs whose deletion succeeds, in order. */
  function Unlinked(doomed: seq<string>, unlinkOk: string -> bool): (r: seq<string>)
    ensures forall f :: f in r <==> f in doomed && unlinkOk(f)
    decreases |doomed|
  {
    if doomed == [] then []
    else
      var init := doomed[..|doomed| - 1];
      var f := doomed[|doomed| - 1];
      assert doomed == init + [f];
      Unlinked(init, unlinkOk) + (if unlinkOk(f) then [f] else [])
  }

  /**
   * The retention part of `setup_logging`: every selected log is unlinked,
   * and a failed deletion is ignored.
   */
  method PruneLogs(listing: seq<string>, unlinkOk: string -> bool) returns (removed: seq<string>)
    ensures removed == Unlinked(Doomed(listing), unlinkOk)
  {
    var existingLogs := ExecLogs(listing);
    removed := [];
    if |existingLogs| > KeptLogs {
      var oldLogs := existingLogs[..|existingLogs| - KeptLogs];
      var i := 0;
      while i < |oldLogs|
        invariant i <= |oldLogs|
        invariant removed == Unlinked(oldLogs[..i], unlinkOk)
      {
        UnlinkedStep(oldLogs, i, unlinkOk);
        if unlinkOk(oldLogs[i]) {
          removed := removed + [oldLogs[i]];
        }
        i := i + 1;
      }
      assert oldLogs[..i] == oldLogs;
    }
  }

  lemma UnlinkedStep(doomed: seq<string>, i: nat, unlinkOk: string -> bool)
    requires i < |doomed|
    ensures Unlinked(doomed[..i + 1], unlinkOk) == Unlinked(doomed[..i], unlinkOk) + (if unlinkOk(doomed[i]) then [doomed[i]] else [])
  {
    assert doomed[..i + 1][..i] == doomed[..i];
  }

  /** The logs split into the selected and the kept ones, and at most 20 are kept. */
  lemma DoomedAndKept(listing: seq<string>)
    ensures Doomed(listing) + Kept(listing) == ExecLogs(listing)
    ensures |Kept(listing)| == if |ExecLogs(listing)| < KeptLogs then |ExecLogs(listing)| else KeptLogs
    ensures |ExecLogs(listing)| <= KeptLogs ==> Doomed(listing) == []
  {
  }

  /** Every selected log sorts at or before every kept one. */
  lemma DoomedAreOldest(listing: seq<string>)
    ensures forall d, k :: d in Doomed(listing) && k in Kept(listing) ==> LexLeq(d, k)
  {
    var logs := ExecLogs(listing);
    DoomedAndKept(listing);
    var n := |Doomed(listing)|;
    assert Doomed(listing) == logs[..n] && Kept(listing) == logs[n..];
    SortedCut(logs, n);
  }

  /** Only execution logs of the directory are ever selected. */
  lemma DoomedAreLogs(listing: seq<string>)
    ensures forall d :: d in Doomed(listing) ==> d in listing && GlobMatch(d, "debate_exec_", ".log")
  {
    var logs := ExecLogs(listing);
    forall d | d in Doomed(listing) ensures d in listing && GlobMatch(d, "debate_exec_", ".log") {
      assert d in logs;
      assert d in multiset(Glob(listing, "debate_exec_", ".log"));
    }
  }
}
