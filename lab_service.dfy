/**
 * Report aggregation (`LabService` in app/services/lab_service.py): the
 * summary counts, the per-test output records with their defaults, the OCR
 * confidence level and the choice of the overall summary text.
 */
module LabService {
  import opened Wrappers
  import opened Records

  /** `CONFIDENCE_LOW_THRESHOLD` and `CONFIDENCE_MEDIUM_THRESHOLD` of the settings. */
  const ConfidenceLowThreshold: real := 0.6
  const ConfidenceMediumThreshold: real := 0.8

  const FallbackSummary := "Unable to identify specific lab tests from our knowledge base. Please contact your doctor interpretation. We do not have data about this specific report format."

  const Disclaimer := "\U{26A0}\U{FE0F} MEDICAL DISCLAIMER: This analysis is for informational purposes only. It does NOT constitute medical advice, diagnosis, or treatment. Always consult a qualified healthcare professional for medical decisions."

  /** Number of results whose `kb_found` is truthy. */
  function KbFoundCount(results: seq<LabResult>): (n: nat)
    ensures n <= |results|
  {
    if results == [] then 0 else (if KbFound(results[0]) then 1 else 0) + KbFoundCount(results[1..])
  }

  /** Number of results whose classification is exactly `c`. */
  function CountClass(results: seq<LabResult>, c: Classification): (n: nat)
    ensures n <= |results|
  {
    if results == [] then 0
    else (if results[0].classification == Some(c) then 1 else 0) + CountClass(results[1..], c)
  }

  /** Nothing is matched exactly when no result has `kb_found`. */
  lemma {:induction false} KbFoundCountZero(results: seq<LabResult>)
    ensures KbFoundCount(results) == 0 <==> forall i :: 0 <= i < |results| ==> !KbFound(results[i])
  {
    if results != [] {
      KbFoundCountZero(results[1..]);
      assert forall i :: 1 <= i < |results| ==> results[i] == results[1..][i - 1];
    }
  }

  /** The four class counts never exceed the number of results, and they add up to it when every result is classified. */
  lemma {:induction false} ClassCountsSum(results: seq<LabResult>)
    ensures CountClass(results, Low) + CountClass(results, Normal) + CountClass(results, High)
      + CountClass(results, Unknown) <= |results|
    ensures (forall i :: 0 <= i < |results| ==> results[i].classification.Some?) ==>
      CountClass(results, Low) + CountClass(results, Normal) + CountClass(results, High)
      + CountClass(results, Unknown) == |results|
  {
    if results != [] {
      ClassCountsSum(results[1..]);
      assert forall i :: 1 <= i < |results| ==> results[i] == results[1..][i - 1];
      if results[0].classification.Some? {
        match results[0].classification.value
        case Low => case Normal => case High => case Unknown =>
      }
    }
  }

  /** The per-test record of the response. */
  datatype FormattedTest = FormattedTest(
    testName: Option<string>,
    value: Option<real>,
    unit: Option<string>,
    classification: Option<Classification>,
    referenceRange: Option<string>,
    aiExplanation: string,
    kbFound: bool,
    canonicalName: string,
    panelName: Option<string>)

  /** `result.get('reference_range', 'N/A')`: the default only for a missing key, a stored None stays None. */
  function ReferenceRangeOrDefault(f: Field<string>): (r: Option<string>)
    ensures f.Absent? ==> r == Some("N/A")
    ensures f.Null? ==> r.None?
    ensures f.Present? ==> r == Some(f.value)
  {
    match f
    case Absent => Some("N/A")
    case Null => None
    case Present(s) => Some(s)
  }

  /** One entry of `tests`: the result's fields, with "" / False / "N/A" defaults for missing keys. */
  function FormatTest(r: LabResult): (t: FormattedTest)
    ensures t.testName == r.testName && t.value == r.value && t.unit == r.unit
    ensures t.classification == r.classification
    ensures t.referenceRange == ReferenceRangeOrDefault(r.referenceRange)
    ensures r.aiExplanation.None? ==> t.aiExplanation == ""
    ensures r.aiExplanation.Some? ==> t.aiExplanation == r.aiExplanation.value
    ensures t.kbFound <==> KbFound(r)
    ensures r.kbInfo.None? ==> t.canonicalName == "" && t.panelName == Some("")
    ensures r.kbInfo.Some? ==> t.canonicalName == r.kbInfo.value.canonicalName && t.panelName == r.kbInfo.value.panelName
  {
    FormattedTest(
      r.testName, r.value, r.unit, r.classification,
      ReferenceRangeOrDefault(r.referenceRange),
      r.aiExplanation.GetOr(""),
      r.kbFound.GetOr(false),
      if r.kbInfo.Some? then r.kbInfo.value.canonicalName else "",
      if r.kbInfo.Some? then r.kbInfo.value.panelName else Some(""))
  }

  datatype OcrLevel = OcrLow | OcrMedium | OcrHigh

  /** HIGH from the medium threshold (0.8), MEDIUM from the low threshold (0.6), LOW below. */
  function OcrConfidenceLevel(ocrConfidence: real): (l: OcrLevel)
    ensures l == OcrHigh <==> ocrConfidence >= 0.8
    ensures l == OcrMedium <==> 0.6 <= ocrConfidence < 0.8
    ensures l == OcrLow <==> ocrConfidence < 0.6
  {
    if ocrConfidence >= ConfidenceMediumThreshold then OcrHigh
    else if ocrConfidence >= ConfidenceLowThreshold then OcrMedium
    else OcrLow
  }

  /** `kb_match_rate`: "0%" with no tests, otherwise the percentage that is printed with one decimal. */
  datatype MatchRate = NoTests | Percent(p: real)

  function KbMatchRate(matched: nat, total: nat): (m: MatchRate)
    ensures total == 0 <==> m == NoTests
    ensures m.Percent? && matched <= total ==> 0.0 <= m.p <= 100.0
    ensures m.Percent? && matched == total ==> m.p == 100.0
  {
    if total > 0 then Percent(matched as real / total as real * 100.0) else NoTests
  }

  datatype Summary = Summary(
    totalTests: nat, kbMatched: nat, kbMatchRate: MatchRate,
    lowResults: nat, normalResults: nat, highResults: nat, unknownResults: nat)

  /** The response of `_format_results`. The OCR confidence is kept unrounded. */
  datatype Report = Report(
    success: bool,
    summary: Summary,
    overallSummary: string,
    ocrConfidence: real,
    confidenceLevel: OcrLevel,
    tests: seq<FormattedTest>,
    disclaimer: string,
    rawOcrText: Option<string>)

  /**
   * `_format_results`: the counts over `results`, the `tests` list built
   * in order, and the OCR text only in debug mode.
   */
  method FormatResults(results: seq<LabResult>, ocrConfidence: real, ocrText: string, overallSummary: string, debug: bool)
    returns (report: Report)
    ensures report.success
    ensures report.summary.totalTests == |results|
    ensures report.summary.kbMatched == KbFoundCount(results)
    ensures report.summary.kbMatchRate == KbMatchRate(KbFoundCount(results), |results|)
    ensures report.summary.lowResults == CountClass(results, Low)
    ensures report.summary.normalResults == CountClass(results, Normal)
    ensures report.summary.highResults == CountClass(results, High)
    ensures report.summary.unknownResults == CountClass(results, Unknown)
    ensures report.overallSummary == overallSummary
    ensures report.confidenceLevel == OcrConfidenceLevel(ocrConfidence)
    ensures |report.tests| == |results|
    ensures forall i :: 0 <= i < |results| ==> report.tests[i] == FormatTest(results[i])
    ensures report.disclaimer == Disclaimer
    ensures report.rawOcrText == if debug then Some(ocrText) else None
  {
    var total := |results|;
    var kbFoundCount := KbFoundCount(results);
    var formatted: seq<FormattedTest> := [];
    for k := 0 to |results|
      invariant |formatted| == k
      invariant forall i :: 0 <= i < k ==> formatted[i] == FormatTest(results[i])
    {
      formatted := formatted + [FormatTest(results[k])];
    }
    var level;
    if ocrConfidence >= ConfidenceMediumThreshold {
      level := OcrHigh;
    } else if ocrConfidence >= ConfidenceLowThreshold {
      level := OcrMedium;
    } else {
      level := OcrLow;
    }
    var rate := if total > 0 then Percent(kbFoundCount as real / total as real * 100.0) else NoTests;
    var summary := Summary(total, kbFoundCount, rate,
      CountClass(results, Low), CountClass(results, Normal), CountClass(results, High), CountClass(results, Unknown));
    report := Report(true, summary, overallSummary, ocrConfidence, level, formatted, Disclaimer,
                     if debug then Some(ocrText) else None);
  }

  /**
   * The overall summary of `process_report`: the model-written summary when
   * some result was found in the knowledge base, the fixed fallback text otherwise.
   */
  function OverallSummary(classified: seq<LabResult>, generatedSummary: string): (s: string)
    ensures (forall i :: 0 <= i < |classified| ==> !KbFound(classified[i])) ==> s == FallbackSummary
    ensures (exists i :: 0 <= i < |classified| && KbFound(classified[i])) ==> s == generatedSummary
  {
    KbFoundCountZero(classified);
    if KbFoundCount(classified) > 0 then generatedSummary else FallbackSummary
  }
}
