/**
 * The grounding check of a debate: every citation a debater made (a line
 * number, a quoted passage or a section reference) is checked against the
 * target document, and the verdicts are tallied into a report whose
 * markdown is appended to the debate report.
 *
 * difflib's similarity ratio and Python's float formatting are parameters:
 * `ratio(a, b)` stands for `SequenceMatcher(None, a, b).ratio()`,
 * `percent(x)` for `f"{x:.0%}"` and `oneDecimal(x)` for `f"{x:.1f}"`.
 */
module Grounding {
  import opened Wrappers
  import opened Text

  /** A citation: at most one of the three kinds is set by the extractor, but all three are checked in order. */
  datatype Citation = Citation(lineNumber: Option<int>, quotedText: Option<string>, sectionRef: Option<string>,
                               source: string, context: string)

  datatype VerificationResult = VerificationResult(citation: Citation, isValid: bool, confidence: real,
                                                   matchedContent: string, errorReason: string)

  /** At or above this a valid verdict counts as verified; fuzzy quotes need it to be valid with no remark. */
  const FuzzyMatchThreshold: real := 0.7
  /** Below this a fuzzy quote is a hallucination. */
  const WeakMatchThreshold: real := 0.5

  function Accept(c: Citation, confidence: real, matched: string): VerificationResult
  {
    VerificationResult(c, true, confidence, matched, "")
  }

  function Reject(c: Citation, confidence: real, reason: string): VerificationResult
  {
    VerificationResult(c, false, confidence, "", reason)
  }

  // ------------------------------------------------------------ the search

  /** The first line containing `q`, as an index (the loop over `enumerate(self.source_lines)`). */
  function FirstLineWith(lines: seq<string>, q: string): (k: Option<nat>)
    ensures k.Some? ==> k.value < |lines| && Contains(lines[k.value], q)
    ensures k.Some? ==> forall j :: 0 <= j < k.value ==> !Contains(lines[j], q)
    ensures k.None? ==> forall j :: 0 <= j < |lines| ==> !Contains(lines[j], q)
    decreases |lines|
  {
    if lines == [] then None
    else if Contains(lines[0], q) then Some(0)
    else match FirstLineWith(lines[1..], q)
      case None => None
      case Some(k) => Some(k + 1)
  }

  /** The similarity of a quote and a line, both lowered. */
  function Similarity(ratio: (string, string) -> real, q: string, line: string): real
  {
    ratio(Lower(q), Lower(line))
  }

  /** The best-matching line so far: its similarity, its text and its 1-based number (0 for none). */
  datatype Match = Match(ratio: real, line: string, lineNum: nat)

  /** The fuzzy search: a line replaces the best so far only when strictly more similar. */
  function BestMatch(ratio: (string, string) -> real, q: string, lines: seq<string>): Match
    decreases |lines|
  {
    if lines == [] then Match(0.0, "", 0)
    else
      var m := BestMatch(ratio, q, lines[..|lines| - 1]);
      var r := Similarity(ratio, q, lines[|lines| - 1]);
      if r > m.ratio then Match(r, lines[|lines| - 1], |lines|) else m
  }

  /**
   * `m` is the first line of greatest similarity, provided that similarity
   * is positive; otherwise no line is chosen and the ratio stays 0.
   */
  ghost predicate FirstBest(ratio: (string, string) -> real, q: string, lines: seq<string>, m: Match)
  {
    && m.ratio >= 0.0
    && (forall i :: 0 <= i < |lines| ==> Similarity(ratio, q, lines[i]) <= m.ratio)
    && (m.lineNum == 0 ==> m == Match(0.0, "", 0))
    && (m.lineNum > 0 ==>
          && m.lineNum <= |lines| && m.line == lines[m.lineNum - 1] && m.ratio > 0.0
          && Similarity(ratio, q, m.line) == m.ratio
          && forall i :: 0 <= i < m.lineNum - 1 ==> Similarity(ratio, q, lines[i]) < m.ratio)
  }

  lemma {:induction false} BestMatchIsFirstBest(ratio: (string, string) -> real, q: string, lines: seq<string>)
    ensures FirstBest(ratio, q, lines, BestMatch(ratio, q, lines))
    decreases |lines|
  {
    if lines != [] {
      var init := lines[..|lines| - 1];
      BestMatchIsFirstBest(ratio, q, init);
      forall i | 0 <= i < |init| ensures lines[i] == init[i] { }
    }
  }

  // ------------------------------------------------------------ one citation

  /** A line citation: beyond the end, below 1, or the line's first 100 characters. */
  function LineVerdict(lines: seq<string>, c: Citation): (r: VerificationResult)
    requires c.lineNumber.Some?
    ensures var n := c.lineNumber.value;
      && r.citation == c
      && (n > |lines| ==> !r.isValid && r.confidence == 0.0 && Contains(r.errorReason, "exceeds"))
      && (n < 1 ==> !r.isValid && r.confidence == 0.0)
      && (1 <= n <= |lines| ==> r.isValid && r.confidence == 1.0 && r.matchedContent == Take(lines[n - 1], 100))
  {
    var n := c.lineNumber.value;
    if n > |lines| then
      var prefix := "Line " + IntToString(n) + " ";
      var rest := " document length (" + NatToString(|lines|) + " lines)";
      ContainsInfix(prefix, "exceeds", rest);
      Reject(c, 0.0, prefix + "exceeds" + rest)
    else if n < 1 then
      Reject(c, 0.0, "Invalid line number: " + IntToString(n))
    else
      Accept(c, 1.0, Take(lines[n - 1], 100))
  }

  /**
   * A quoted passage: found verbatim (reporting the first line holding it,
   * if any), else judged by its most similar line.
   */
  function QuoteVerdict(content: string, lines: seq<string>, ratio: (string, string) -> real,
                        percent: real -> string, c: Citation): (r: VerificationResult)
    requires Truthy(c.quotedText)
    ensures r.citation == c
    ensures Contains(content, c.quotedText.value) ==> r.isValid && r.confidence == 1.0 && r.errorReason == ""
    ensures Contains(content, c.quotedText.value) && FirstLineWith(lines, c.quotedText.value).Some? ==>
      var k := FirstLineWith(lines, c.quotedText.value).value;
      r.matchedContent == "Found at Line " + NatToString(k + 1) + ": " + Take(lines[k], 100)
    ensures Contains(content, c.quotedText.value) && FirstLineWith(lines, c.quotedText.value).None? ==>
      r.matchedContent == "Exact match found in document"
    ensures !Contains(content, c.quotedText.value) ==>
      var m := BestMatch(ratio, c.quotedText.value, lines);
      r.confidence == m.ratio && (r.isValid <==> m.ratio >= WeakMatchThreshold)
  {
    var q := c.quotedText.value;
    if Contains(content, q) then
      match FirstLineWith(lines, q)
      case Some(i) => Accept(c, 1.0, "Found at Line " + NatToString(i + 1) + ": " + Take(lines[i], 100))
      case None => Accept(c, 1.0, "Exact match found in document")
    else
      var m := BestMatch(ratio, q, lines);
      if m.ratio >= FuzzyMatchThreshold then
        Accept(c, m.ratio, "Fuzzy match at Line " + NatToString(m.lineNum) + " (" + percent(m.ratio) + "): " + Take(m.line, 80))
      else if m.ratio >= WeakMatchThreshold then
        VerificationResult(c, true, m.ratio, "Weak match at Line " + NatToString(m.lineNum) + " (" + percent(m.ratio) + ")",
                           "Low confidence match - may be paraphrased")
      else
        Reject(c, m.ratio, "Quote not found in document (best match: " + percent(m.ratio) + ")")
  }

  /** A section reference: valid when found in the document, ignoring ASCII case. */
  function SectionVerdict(content: string, c: Citation): (r: VerificationResult)
    requires Truthy(c.sectionRef)
    ensures r.citation == c
    ensures r.isValid <==> Contains(Lower(content), Lower(c.sectionRef.value))
    ensures r.confidence == if r.isValid then 0.9 else 0.0
  {
    if Contains(Lower(content), Lower(c.sectionRef.value)) then Accept(c, 0.9, "Section reference found")
    else Reject(c, 0.0, "Section '" + c.sectionRef.value + "' not found in document")
  }

  /**
   * `verify_citation`: a line number is checked first (even 0 or a negative
   * one), then a non-empty quote, then a non-empty section reference;
   * anything else passes at confidence 0.5.
   */
  function Verdict(content: string, lines: seq<string>, ratio: (string, string) -> real,
                   percent: real -> string, c: Citation): (r: VerificationResult)
    ensures r.citation == c
    ensures c.lineNumber.Some? ==> r == LineVerdict(lines, c)
    ensures c.lineNumber.None? && Truthy(c.quotedText) ==> r == QuoteVerdict(content, lines, ratio, percent, c)
    ensures c.lineNumber.None? && !Truthy(c.quotedText) && Truthy(c.sectionRef) ==> r == SectionVerdict(content, c)
    ensures c.lineNumber.None? && !Truthy(c.quotedText) && !Truthy(c.sectionRef) ==>
      r.isValid && r.confidence == 0.5
  {
    if c.lineNumber.Some? then LineVerdict(lines, c)
    else if Truthy(c.quotedText) then QuoteVerdict(content, lines, ratio, percent, c)
    else if Truthy(c.sectionRef) then SectionVerdict(content, c)
    else VerificationResult(c, true, 0.5, "", "Unknown citation type - skipped")
  }

  /** With similarities in [0, 1], every confidence is in [0, 1], and an invalid verdict is below 0.5. */
  lemma VerdictConfidence(content: string, lines: seq<string>, ratio: (string, string) -> real,
                          percent: real -> string, c: Citation)
    requires forall a, b :: 0.0 <= ratio(a, b) <= 1.0
    ensures var r := Verdict(content, lines, ratio, percent, c);
      0.0 <= r.confidence <= 1.0 && (!r.isValid ==> r.confidence < WeakMatchThreshold)
  {
    if c.lineNumber.None? && Truthy(c.quotedText) && !Contains(content, c.quotedText.value) {
      var q := c.quotedText.value;
      var m := BestMatch(ratio, q, lines);
      BestMatchIsFirstBest(ratio, q, lines);
      if m.lineNum > 0 {
        assert m.ratio == ratio(Lower(q), Lower(m.line));
      }
    }
  }

  // ------------------------------------------------------------ the tally

  /** Verified, weak and hallucinated verdicts. */
  datatype Counts = Counts(verified: nat, weak: nat, hallucinated: nat)

  /** The counters `verify_debate_outputs` keeps, after the verdicts `rs`: each verdict counts once. */
  function Tally(rs: seq<VerificationResult>): (t: Counts)
    ensures t.verified + t.weak + t.hallucinated == |rs|
    decreases |rs|
  {
    if rs == [] then Counts(0, 0, 0)
    else
      var t := Tally(rs[..|rs| - 1]);
      var r := rs[|rs| - 1];
      if r.isValid then
        if r.confidence >= FuzzyMatchThreshold then t.(verified := t.verified + 1) else t.(weak := t.weak + 1)
      else t.(hallucinated := t.hallucinated + 1)
  }

  lemma TallySnoc(rs: seq<VerificationResult>, r: VerificationResult)
    ensures var t := Tally(rs);
      Tally(rs + [r]) == if r.isValid then
        if r.confidence >= FuzzyMatchThreshold then t.(verified := t.verified + 1) else t.(weak := t.weak + 1)
      else t.(hallucinated := t.hallucinated + 1)
  {
    assert (rs + [r])[..|rs|] == rs;
  }

  /** The invalid verdicts, in order. */
  function Invalids(rs: seq<VerificationResult>): seq<VerificationResult>
    decreases |rs|
  {
    if rs == [] then []
    else Invalids(rs[..|rs| - 1]) + (if rs[|rs| - 1].isValid then [] else [rs[|rs| - 1]])
  }

  /** The invalid verdicts are exactly the hallucinations: each is in `rs` and invalid, each invalid one is there. */
  lemma {:induction false} InvalidsExactly(rs: seq<VerificationResult>)
    ensures |Invalids(rs)| == Tally(rs).hallucinated
    ensures forall r :: r in Invalids(rs) <==> r in rs && !r.isValid
    decreases |rs|
  {
    if rs != [] {
      var init := rs[..|rs| - 1];
      InvalidsExactly(init);
      assert rs == init + [rs[|rs| - 1]];
    }
  }

  // ------------------------------------------------------------ the verifier

  /** The verifier of one target document. */
  class GroundingVerifier {
    const sourceContent: string
    const sourceLines: seq<string>
    const totalLines: nat
    const ratio: (string, string) -> real
    const percent: real -> string

    predicate Valid()
    {
      totalLines == |sourceLines|
    }

    /** `__init__`: pre-split lines when given and non-empty, otherwise the content's lines. */
    constructor(content: string, lines: Option<seq<string>>, ratio: (string, string) -> real, percent: real -> string)
      ensures Valid() && sourceContent == content && this.ratio == ratio && this.percent == percent
      ensures sourceLines == if lines.Some? && lines.value != [] then lines.value else SplitLines(content)
    {
      sourceContent := content;
      sourceLines := if lines.Some? && lines.value != [] then lines.value else SplitLines(content);
      totalLines := |if lines.Some? && lines.value != [] then lines.value else SplitLines(content)|;
      this.ratio := ratio;
      this.percent := percent;
    }

    /** The loop that reports which line holds an exact quote. */
    method FindLine(q: string) returns (k: Option<nat>)
      ensures k == FirstLineWith(sourceLines, q)
    {
      var i := 0;
      while i < |sourceLines|
        invariant i <= |sourceLines|
        invariant forall j :: 0 <= j < i ==> !Contains(sourceLines[j], q)
      {
        if Contains(sourceLines[i], q) {
          FirstLineWithIs(sourceLines, q, i);
          return Some(i);
        }
        i := i + 1;
      }
      FirstLineWithNone(sourceLines, q);
      k := None;
    }

    /** The fuzzy-match loop over the lines, keeping the first most similar one. */
    method FuzzyBest(q: string) returns (m: Match)
      ensures m == BestMatch(ratio, q, sourceLines)
    {
      m := Match(0.0, "", 0);
      var i := 0;
      while i < |sourceLines|
        invariant i <= |sourceLines|
        invariant m == BestMatch(ratio, q, sourceLines[..i])
      {
        var r := ratio(Lower(q), Lower(sourceLines[i]));
        assert sourceLines[..i + 1][..i] == sourceLines[..i];
        if r > m.ratio {
          m := Match(r, sourceLines[i], i + 1);
        }
        i := i + 1;
      }
      assert sourceLines[..i] == sourceLines;
    }

    /** `verify_citation` */
    method VerifyCitation(c: Citation) returns (r: VerificationResult)
      requires Valid()
      ensures r == Verdict(sourceContent, sourceLines, ratio, percent, c)
    {
      if c.lineNumber.Some? {
        var n := c.lineNumber.value;
        if n > totalLines {
          return LineVerdict(sourceLines, c);
        } else if n < 1 {
          return Reject(c, 0.0, "Invalid line number: " + IntToString(n));
        } else {
          return Accept(c, 1.0, Take(sourceLines[n - 1], 100));
        }
      }
      if Truthy(c.quotedText) {
        var q := c.quotedText.value;
        if Contains(sourceContent, q) {
          var k := FindLine(q);
          if k.Some? {
            return Accept(c, 1.0, "Found at Line " + NatToString(k.value + 1) + ": " + Take(sourceLines[k.value], 100));
          }
          return Accept(c, 1.0, "Exact match found in document");
        }
        var m := FuzzyBest(q);
        if m.ratio >= FuzzyMatchThreshold {
          return Accept(c, m.ratio, "Fuzzy match at Line " + NatToString(m.lineNum) + " (" + percent(m.ratio) + "): " + Take(m.line, 80));
        } else if m.ratio >= WeakMatchThreshold {
          return VerificationResult(c, true, m.ratio, "Weak match at Line " + NatToString(m.lineNum) + " (" + percent(m.ratio) + ")",
                                    "Low confidence match - may be paraphrased");
        } else {
          return Reject(c, m.ratio, "Quote not found in document (best match: " + percent(m.ratio) + ")");
        }
      }
      if Truthy(c.sectionRef) {
        if Contains(Lower(sourceContent), Lower(c.sectionRef.value)) {
          return Accept(c, 0.9, "Section reference found");
        }
        return Reject(c, 0.0, "Section '" + c.sectionRef.value + "' not found in document");
      }
      r := VerificationResult(c, true, 0.5, "", "Unknown citation type - skipped");
    }

    /**
     * `verify_debate_outputs` on the citations extracted from each side:
     * every citation is verified, affirmative ones first, and counted once.
     */
    method VerifyDebateOutputs(affirmative: seq<Citation>, negative: seq<Citation>) returns (report: GroundingReport)
      requires Valid()
      ensures fresh(report) && report.Valid()
      ensures var all := affirmative + negative;
        && |report.results| == report.totalCitations == |all|
        && forall i :: 0 <= i < |all| ==> report.results[i] == Verdict(sourceContent, sourceLines, ratio, percent, all[i])
    {
      report := new GroundingReport();
      var all := affirmative + negative;
      report.totalCitations := |all|;
      ghost var expected := seq(|all|, j requires 0 <= j < |all| => Verdict(sourceContent, sourceLines, ratio, percent, all[j]));
      var i := 0;
      while i < |all|
        invariant i <= |all| && fresh(report)
        invariant report.totalCitations == |all| && report.Counted()
        invariant report.results == expected[..i]
      {
        var result := VerifyCitation(all[i]);
        report.Record(result);
        TakeSnoc(expected, i);
        i := i + 1;
      }
      assert expected[..i] == expected;
    }
  }

  lemma FirstLineWithIs(lines: seq<string>, q: string, i: nat)
    requires i < |lines| && Contains(lines[i], q)
    requires forall j :: 0 <= j < i ==> !Contains(lines[j], q)
    ensures FirstLineWith(lines, q) == Some(i)
  {
  }

  lemma FirstLineWithNone(lines: seq<string>, q: string)
    requires forall j :: 0 <= j < |lines| ==> !Contains(lines[j], q)
    ensures FirstLineWith(lines, q) == None
  {
  }

  // ------------------------------------------------------------ the report

  /** The report: the counters and the verdicts, filled in by `verify_debate_outputs`. */
  class GroundingReport {
    var totalCitations: nat
    var verifiedCount: nat
    var hallucinationCount: nat
    var weakMatchCount: nat
    var results: seq<VerificationResult>

    /** The three counters agree with the verdicts they count. */
    ghost predicate Counted()
      reads this
    {
      Tally(results) == Counts(verifiedCount, weakMatchCount, hallucinationCount)
    }

    /** The counters agree with the verdicts, and the total is their number. */
    ghost predicate Valid()
      reads this
    {
      totalCitations == |results| && Counted()
    }

    /** The body of the loop of `verify_debate_outputs`: the verdict is appended and counted once. */
    method Record(result: VerificationResult)
      requires Counted()
      modifies this
      ensures Counted() && results == old(results) + [result] && totalCitations == old(totalCitations)
    {
      TallySnoc(results, result);
      results := results + [result];
      if result.isValid {
        if result.confidence >= FuzzyMatchThreshold {
          verifiedCount := verifiedCount + 1;
        } else {
          weakMatchCount := weakMatchCount + 1;
        }
      } else {
        hallucinationCount := hallucinationCount + 1;
      }
    }

    constructor()
      ensures totalCitations == 0 && verifiedCount == 0 && hallucinationCount == 0 && weakMatchCount == 0
      ensures results == []
    {
      totalCitations := 0;
      verifiedCount := 0;
      hallucinationCount := 0;
      weakMatchCount := 0;
      results := [];
    }

    /** `grounding_score`: the verified share as a percentage, 100 with no citations. */
    function GroundingScore(): (s: real)
      reads this
      ensures totalCitations == 0 ==> s == 100.0
      ensures Valid() ==> 0.0 <= s <= 100.0 && (s == 100.0 <==> verifiedCount == totalCitations)
    {
      if totalCitations == 0 then 100.0
      else
        Share(verifiedCount as real, totalCitations as real);
        (verifiedCount as real / totalCitations as real) * 100.0
    }

    /** `hallucination_rate`: the hallucinated share as a percentage, 0 with no citations. */
    function HallucinationRate(): (h: real)
      reads this
      ensures totalCitations == 0 ==> h == 0.0
      ensures Valid() ==> 0.0 <= h <= 100.0 && (h == 0.0 <==> hallucinationCount == 0)
    {
      if totalCitations == 0 then 0.0
      else
        Share(hallucinationCount as real, totalCitations as real);
        (hallucinationCount as real / totalCitations as real) * 100.0
    }

    /** `to_markdown`: the summary, then one line per invalid verdict when there is any. */
    method ToMarkdown(oneDecimal: real -> string) returns (md: string)
      ensures md == Markdown(totalCitations, verifiedCount, weakMatchCount, hallucinationCount, results,
                             oneDecimal(GroundingScore()))
    {
      var statusEmoji := if hallucinationCount == 0 then Passed else Flagged;
      md := Summary(statusEmoji, oneDecimal(GroundingScore()), totalCitations, verifiedCount, weakMatchCount,
                    hallucinationCount);
      if hallucinationCount > 0 {
        ghost var summary := md;
        md := md + DetailsHeading;
        md := AppendDetails(md, results);
        AppendAssoc(summary, DetailsHeading, Details(results));
      }
    }
  }

  /** The loop of `to_markdown` over the verdicts, appending the detail line of each invalid one. */
  method AppendDetails(md0: string, results: seq<VerificationResult>) returns (md: string)
    ensures md == md0 + Details(results)
  {
    md := md0;
    var i := 0;
    while i < |results|
      invariant i <= |results|
      invariant md == md0 + Details(results[..i])
    {
      var r := results[i];
      DetailsStep(md0, results, i);
      if !r.isValid {
        md := md + DetailLine(r);
      }
      i := i + 1;
    }
    assert results[..i] == results;
  }

  lemma DetailsStep(md0: string, rs: seq<VerificationResult>, i: nat)
    requires i < |rs|
    ensures md0 + Details(rs[..i + 1]) ==
      if rs[i].isValid then md0 + Details(rs[..i]) else (md0 + Details(rs[..i])) + DetailLine(rs[i])
  {
    assert rs[..i + 1][..i] == rs[..i];
    if rs[i].isValid {
      assert Details(rs[..i + 1]) == Details(rs[..i]) + "";
      assert Details(rs[..i]) + "" == Details(rs[..i]);
    } else {
      AppendAssoc(md0, Details(rs[..i]), DetailLine(rs[i]));
    }
  }

  /** The score plus the hallucination rate never exceed 100: a verdict is verified or hallucinated, not both. */
  lemma ScoreAndRate(report: GroundingReport)
    requires report.Valid()
    ensures report.GroundingScore() + report.HallucinationRate() <= 100.0
  {
    if report.totalCitations > 0 {
      SharesBound(report.verifiedCount as real, report.hallucinationCount as real, report.totalCitations as real);
    }
  }

  lemma AppendAssoc(a: string, b: string, c: string)
    ensures (a + b) + c == a + (b + c)
  {
  }

  lemma SharesBound(a: real, b: real, t: real)
    requires 0.0 < t && 0.0 <= a && 0.0 <= b && a + b <= t
    ensures (a / t) * 100.0 + (b / t) * 100.0 <= 100.0
  {
    assert a / t + b / t == (a + b) / t;
    Share(a + b, t);
  }

  /** A part of a positive whole, as a percentage. */
  lemma Share(a: real, t: real)
    requires 0.0 < t && 0.0 <= a
    ensures a <= t ==> 0.0 <= (a / t) * 100.0 <= 100.0
    ensures a <= t ==> ((a / t) * 100.0 == 100.0 <==> a == t)
    ensures (a / t) * 100.0 == 0.0 <==> a == 0.0
  {
    var q := a / t;
    assert q * t == a;
    assert q >= 0.0;
    assert (1.0 - q) * t == t - a;
  }

  // ------------------------------------------------------------ markdown

  const Passed: string := "\U{2705}"
  const Flagged: string := "\U{26A0}\U{FE0F}"
  const DetailsHeading: string := "### \U{274C} Hallucination Details\n\n"

  const SummaryTitle: string := "\n## \U{1F50D} Grounding Verification Report\n\n"

  /** The summary block of `to_markdown`: the title, the status mark, then the score and the counters. */
  function Summary(statusEmoji: string, score: string, total: nat, verified: nat, weak: nat, hallucinated: nat): string
  {
    SummaryTitle + statusEmoji + SummaryBody(score, total, verified, weak, hallucinated)
  }

  function SummaryBody(score: string, total: nat, verified: nat, weak: nat, hallucinated: nat): string
  {
    " **Grounding Score**: " + score + "/100\n"
    + "- **Total Citations Analyzed**: " + NatToString(total) + "\n"
    + "- **Verified (High Confidence)**: " + NatToString(verified) + "\n"
    + "- **Weak Matches**: " + NatToString(weak) + "\n"
    + "- **Hallucinations Detected**: " + NatToString(hallucinated) + "\n\n"
  }

  /** Python's `s.capitalize()`, on ASCII letters. */
  function Capitalize(s: string): (r: string)
    ensures |r| == |s|
  {
    if s == [] then "" else [UpperChar(s[0])] + Lower(s[1..])
  }

  /** The detail line of one invalid verdict: side, cited line (when non-zero), quote head, reason. */
  function DetailLine(r: VerificationResult): string
  {
    var c := r.citation;
    "- " + (if c.source == "affirmative" then "\U{270A}" else "\U{1F44A}")
    + " **" + Capitalize(c.source) + "**: "
    + (if c.lineNumber.Some? && c.lineNumber.value != 0 then "[Line " + IntToString(c.lineNumber.value) + "] " else "")
    + (if Truthy(c.quotedText) then "\"" + Take(c.quotedText.value, 50) + "...\" " else "")
    + "\U{2192} " + r.errorReason + "\n"
  }

  /** The detail lines of the invalid verdicts of `rs`, in order. */
  function Details(rs: seq<VerificationResult>): string
    decreases |rs|
  {
    if rs == [] then ""
    else Details(rs[..|rs| - 1]) + (if rs[|rs| - 1].isValid then "" else DetailLine(rs[|rs| - 1]))
  }

  function Lines(rs: seq<VerificationResult>): string
    decreases |rs|
  {
    if rs == [] then "" else Lines(rs[..|rs| - 1]) + DetailLine(rs[|rs| - 1])
  }

  /** The details are the detail lines of exactly the invalid verdicts. */
  lemma {:induction false} DetailsOfInvalids(rs: seq<VerificationResult>)
    ensures Details(rs) == Lines(Invalids(rs))
    decreases |rs|
  {
    if rs != [] {
      var init := rs[..|rs| - 1];
      DetailsOfInvalids(init);
      var last := rs[|rs| - 1];
      if !last.isValid {
        var inv := Invalids(init) + [last];
        assert Invalids(rs) == inv;
        assert inv[..|inv| - 1] == Invalids(init);
        assert Lines(inv) == Lines(Invalids(init)) + DetailLine(last);
      } else {
        assert Invalids(rs) == Invalids(init) + [];
        assert Invalids(init) + [] == Invalids(init);
      }
    }
  }

  /** The markdown `to_markdown` returns for a report's counters and verdicts. */
  function Markdown(total: nat, verified: nat, weak: nat, hallucinated: nat, results: seq<VerificationResult>,
                    score: string): (md: string)
  {
    Summary(if hallucinated == 0 then Passed else Flagged, score, total, verified, weak, hallucinated)
    + (if hallucinated > 0 then DetailsHeading + Details(results) else "")
  }

  /** The status mark is the check mark exactly when nothing was hallucinated, and the details list only invalid verdicts. */
  lemma MarkdownStatus(total: nat, verified: nat, weak: nat, hallucinated: nat, results: seq<VerificationResult>,
                       score: string)
    ensures var md := Markdown(total, verified, weak, hallucinated, results, score);
      && |md| > |SummaryTitle|
      && (hallucinated == 0 <==> md[|SummaryTitle|] == '\U{2705}')
      && (hallucinated == 0 ==> md == Summary(Passed, score, total, verified, weak, hallucinated))
      && (hallucinated > 0 ==> md == Summary(Flagged, score, total, verified, weak, hallucinated)
                                    + DetailsHeading + Lines(Invalids(results)))
  {
    DetailsOfInvalids(results);
    var e := if hallucinated == 0 then Passed else Flagged;
    var s := Summary(e, score, total, verified, weak, hallucinated);
    var body := SummaryBody(score, total, verified, weak, hallucinated);
    var tail := if hallucinated > 0 then DetailsHeading + Details(results) else "";
    assert s == SummaryTitle + e + body;
    assert (SummaryTitle + e + body + tail)[|SummaryTitle|] == e[0];
  }
}
