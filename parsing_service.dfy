/**
 * The line parser around the regular expressions (`ParsingService` in
 * app/services/parsing_service.py). Regular-expression search and Python's
 * `float` are parameters: `search(pattern, line)` gives the three groups of
 * the first match, `parseFloat(s)` the number or None for a `ValueError`.
 */
module ParsingService {
  import opened Wrappers
  import opened Text
  import opened Records
  import opened MedicalUtils

  /** The three captured groups of a match: name, value and unit. */
  datatype Groups = Groups(name: string, value: string, unit: string)

  /** "Name: 12.5 g/dL", "Name 12.5 g/dL" and "Name    12.5    g/dL", tried in this order. */
  const Patterns: seq<string> := [
    @"([A-Za-z][A-Za-z\s\-()]+?)\s*[:=]\s*([\d.]+)\s*([A-Za-z/μ%°×\^0-9]+)",
    @"([A-Za-z][A-Za-z\s\-()]+?)\s+([\d.]+)\s+([A-Za-z/μ%°×\^0-9]+)",
    @"([A-Za-z][A-Za-z\s\-()]+?)\s{2,}([\d.]+)\s+([A-Za-z/μ%°×\^0-9]+)"
  ]

  /** `s.isdigit()` for ASCII digits: non-empty and digits only. */
  predicate IsDigits(s: string) {
    |s| > 0 && forall i :: 0 <= i < |s| ==> IsDigit(s[i])
  }

  /** A match is kept when its stripped name has two or more characters, is not all digits, and its value parses. */
  predicate Accepts(g: Groups, parseFloat: string -> Option<real>) {
    var name := Strip(g.name);
    |name| >= 2 && !IsDigits(name) && parseFloat(Strip(g.value)).Some?
  }

  /** Pattern `pattern` matches `line` and the match is kept. */
  predicate PatternAccepts(line: string, pattern: string, search: (string, string) -> Option<Groups>,
                           parseFloat: string -> Option<real>) {
    search(pattern, line).Some? && Accepts(search(pattern, line).value, parseFloat)
  }

  /** The result a kept match yields: the stripped name and its normal form, the value, the canonical unit and the line. */
  function ResultOf(line: string, g: Groups, parseFloat: string -> Option<real>): (r: LabResult)
    requires Accepts(g, parseFloat)
    ensures r.testName == Some(Strip(g.name)) && |r.testName.value| >= 2 && !IsDigits(r.testName.value)
    ensures r.normalizedName == Some(NormalizeTestName(Strip(g.name)))
    ensures r.value == parseFloat(Strip(g.value)) && r.value.Some?
    ensures r.unit == Some(NormalizeUnit(Strip(g.unit)))
    ensures r.rawLine == Some(line)
    ensures r.kbFound.None? && r.classification.None?
  {
    var name := Strip(g.name);
    NewResult(Some(name), Some(NormalizeTestName(name)), parseFloat(Strip(g.value)),
              Some(NormalizeUnit(Strip(g.unit))), Some(line))
  }

  /** Pattern `k` is the first of `pats` whose match is kept. */
  predicate FirstAccepting(line: string, pats: seq<string>, search: (string, string) -> Option<Groups>,
                           parseFloat: string -> Option<real>, k: int) {
    0 <= k < |pats| && PatternAccepts(line, pats[k], search, parseFloat)
    && forall j :: 0 <= j < k ==> !PatternAccepts(line, pats[j], search, parseFloat)
  }

  /** The result of the first kept match among `pats`, or None. */
  function TryPatterns(line: string, pats: seq<string>, search: (string, string) -> Option<Groups>,
                       parseFloat: string -> Option<real>): (r: Option<LabResult>)
    ensures r.None? <==> forall k :: 0 <= k < |pats| ==> !PatternAccepts(line, pats[k], search, parseFloat)
    ensures forall k :: FirstAccepting(line, pats, search, parseFloat, k) ==>
      r == Some(ResultOf(line, search(pats[k], line).value, parseFloat))
  {
    var p := (pat: string) => PatternAccepts(line, pat, search, parseFloat);
    match FirstIndex(pats, p)
    case None => None
    case Some(i) =>
      forall k | FirstAccepting(line, pats, search, parseFloat, k) ensures k == i {
        FirstIndexUnique(pats, p, k);
      }
      Some(ResultOf(line, search(pats[i], line).value, parseFloat))
  }

  /** `_parse_line`: tries the patterns in order, skipping a match that is not kept. */
  method ParseLine(line: string, search: (string, string) -> Option<Groups>, parseFloat: string -> Option<real>)
    returns (parsed: Option<LabResult>)
    ensures parsed == TryPatterns(line, Patterns, search, parseFloat)
  {
    for k := 0 to |Patterns|
      invariant forall j :: 0 <= j < k ==> !PatternAccepts(line, Patterns[j], search, parseFloat)
    {
      var m := search(Patterns[k], line);
      if m.None? {
        continue;
      }
      var testName := Strip(m.value.name);
      var valueStr := Strip(m.value.value);
      var unit := Strip(m.value.unit);
      if |testName| < 2 || IsDigits(testName) {
        continue;
      }
      var value := parseFloat(valueStr);
      if value.None? {
        continue;
      }
      var normalizedName := NormalizeTestName(testName);
      var normalizedUnit := NormalizeUnit(unit);
      assert FirstAccepting(line, Patterns, search, parseFloat, k);
      return Some(NewResult(Some(testName), Some(normalizedName), value, Some(normalizedUnit), Some(line)));
    }
    return None;
  }

  /** A result whose raw line is a stripped line of at least 5 characters. */
  predicate FromKeptLine(r: LabResult) {
    r.rawLine.Some? && |r.rawLine.value| >= 5 && IsStripped(r.rawLine.value)
  }

  /** What one line of the text contributes: nothing when its stripped form is shorter than 5 or does not parse. */
  function ParseOne(line: string, search: (string, string) -> Option<Groups>, parseFloat: string -> Option<real>)
    : (r: seq<LabResult>)
    ensures |r| <= 1
    ensures |Strip(line)| < 5 ==> r == []
    ensures |Strip(line)| >= 5 ==>
      (r == [] <==> TryPatterns(Strip(line), Patterns, search, parseFloat).None?)
      && (r != [] ==> r[0] == TryPatterns(Strip(line), Patterns, search, parseFloat).value)
    ensures r != [] ==> |Strip(line)| >= 5 && r[0].rawLine == Some(Strip(line)) && FromKeptLine(r[0])
  {
    var s := Strip(line);
    if |s| < 5 then []
    else
      match TryPatterns(s, Patterns, search, parseFloat)
      case None => []
      case Some(r) => [r]
  }

  /** Appending the results of one line keeps every result from a kept line. */
  lemma KeptAfterAppend(prev: seq<LabResult>, one: seq<LabResult>)
    requires forall i :: 0 <= i < |prev| ==> FromKeptLine(prev[i])
    requires |one| <= 1 && (one != [] ==> FromKeptLine(one[0]))
    ensures forall i :: 0 <= i < |prev + one| ==> FromKeptLine((prev + one)[i])
  {
    forall i | 0 <= i < |prev + one| ensures FromKeptLine((prev + one)[i]) {
      if i < |prev| { assert (prev + one)[i] == prev[i]; }
    }
  }

  /** The results of `lines`, in line order. */
  function ParseLines(lines: seq<string>, search: (string, string) -> Option<Groups>, parseFloat: string -> Option<real>)
    : (r: seq<LabResult>)
    ensures |r| <= |lines|
    ensures forall i :: 0 <= i < |r| ==> FromKeptLine(r[i])
  {
    if lines == [] then []
    else
      var n := |lines| - 1;
      var prev := ParseLines(lines[..n], search, parseFloat);
      var one := ParseOne(lines[n], search, parseFloat);
      KeptAfterAppend(prev, one);
      prev + one
  }

  /** The results of one more line are those of the lines before it, then that line's. */
  lemma ParseLinesSnoc(lines: seq<string>, k: nat, search: (string, string) -> Option<Groups>,
                       parseFloat: string -> Option<real>)
    requires k < |lines|
    ensures ParseLines(lines[..k + 1], search, parseFloat)
      == ParseLines(lines[..k], search, parseFloat) + ParseOne(lines[k], search, parseFloat)
  {
    assert lines[..k + 1][..k] == lines[..k];
  }

  /** The results of a prefix of the lines are a prefix of the results: line order is kept. */
  lemma {:induction false} ParseLinesPrefix(lines: seq<string>, m: nat, search: (string, string) -> Option<Groups>,
                                            parseFloat: string -> Option<real>)
    requires m <= |lines|
    ensures ParseLines(lines[..m], search, parseFloat) <= ParseLines(lines, search, parseFloat)
    decreases |lines| - m
  {
    if m == |lines| {
      assert lines[..m] == lines;
    } else {
      ParseLinesPrefix(lines, m + 1, search, parseFloat);
      ParseLinesSnoc(lines, m, search, parseFloat);
      PrefixOfAppendTrans(ParseLines(lines[..m], search, parseFloat), ParseOne(lines[m], search, parseFloat),
                          ParseLines(lines, search, parseFloat));
    }
  }

  /**
   * A line that yields a result contributes it to the report, right after
   * the results of the lines before it.
   */
  lemma ParseLinesAt(lines: seq<string>, k: nat, search: (string, string) -> Option<Groups>,
                     parseFloat: string -> Option<real>)
    requires k < |lines| && ParseOne(lines[k], search, parseFloat) != []
    ensures |ParseLines(lines[..k], search, parseFloat)| < |ParseLines(lines, search, parseFloat)|
    ensures ParseLines(lines, search, parseFloat)[|ParseLines(lines[..k], search, parseFloat)|]
      == ParseOne(lines[k], search, parseFloat)[0]
  {
    ParseLinesSnoc(lines, k, search, parseFloat);
    ParseLinesPrefix(lines, k + 1, search, parseFloat);
    var prev := ParseLines(lines[..k], search, parseFloat);
    var one := ParseOne(lines[k], search, parseFloat);
    var all := ParseLines(lines, search, parseFloat);
    assert (prev + one)[|prev|] == one[0];
    assert all[|prev|] == (prev + one)[|prev|];
  }

  /**
   * `parse_lab_report`: splits the text at '\n', strips each line, skips
   * lines shorter than 5 characters and keeps what `_parse_line` returns.
   */
  method ParseLabReport(ocrText: string, search: (string, string) -> Option<Groups>, parseFloat: string -> Option<real>)
    returns (results: seq<LabResult>)
    ensures results == ParseLines(SplitOn(ocrText, '\n'), search, parseFloat)
    ensures |results| <= |SplitOn(ocrText, '\n')|
  {
    var lines := SplitOn(ocrText, '\n');
    results := [];
    for k := 0 to |lines|
      invariant results == ParseLines(lines[..k], search, parseFloat)
    {
      ParseLinesSnoc(lines, k, search, parseFloat);
      var line := Strip(lines[k]);
      if line == [] || |line| < 5 {
        continue;
      }
      var parsed := ParseLine(line, search, parseFloat);
      if parsed.Some? {
        results := results + [parsed.value];
      }
    }
    assert lines[..|lines|] == lines;
  }

  /** The characters `rstrip('.:,;')` removes. */
  const TrailingPunctuation: set<char> := {'.', ':', ',', ';'}

  /**
   * `clean_test_name`: strip, collapse whitespace runs to one space, drop
   * trailing punctuation. No leading whitespace, no whitespace run and no
   * trailing punctuation remain.
   */
  function CleanTestName(testName: string): (r: string)
    ensures r == [] || !IsSpace(r[0])
    ensures IsCollapsed(r)
    ensures r == [] || r[|r| - 1] !in TrailingPunctuation
  {
    var stripped := Strip(testName);
    var collapsed := Collapse(stripped);
    CollapseIsCollapsed(stripped);
    var r := RStripChars(collapsed, TrailingPunctuation);
    PrefixIsCollapsed(collapsed, |r|);
    r
  }

  lemma PrefixIsCollapsed(s: string, n: nat)
    requires IsCollapsed(s) && n <= |s|
    ensures IsCollapsed(s[..n])
  {
  }
}
