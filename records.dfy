/**
 * The dictionaries that the services hand to each other, as records: a key
 * that may be missing is an `Option` (or a `Field` where a present `None` and
 * a missing key lead to different results downstream).
 */
module Records {
  import opened Wrappers

  /** The classification strings 'LOW', 'NORMAL', 'HIGH' and 'UNKNOWN'. */
  datatype Classification = Low | Normal | High | Unknown

  /** The dictionary `get_reference_range` returns for the chosen range. */
  datatype RangeInfo = RangeInfo(
    refLow: Option<real>,
    refHigh: Option<real>,
    refText: Option<string>,
    unit: Option<string>,
    valueType: Option<string>,
    sourceId: int,
    sourcePriority: int,
    trustLevel: int,
    sex: Option<string>,
    condition: Option<string>)

  /** The dictionary `get_test_info` returns for a test found in the knowledge base. */
  datatype TestInfo = TestInfo(
    testId: int,
    canonicalName: string,
    shortName: Option<string>,
    panelName: Option<string>,
    category: Option<string>,
    description: Option<string>,
    referenceRange: Option<RangeInfo>,
    trustLevel: int,
    sourcePriority: int,
    kbFound: bool)

  /**
   * One test result as it moves through the pipeline: the parser fills the
   * first five keys, `batch_lookup` the two `kb` keys, `classify_result` the
   * classification keys and the explanation step `ai_explanation`.
   */
  datatype LabResult = LabResult(
    testName: Option<string>,
    normalizedName: Option<string>,
    value: Option<real>,
    unit: Option<string>,
    rawLine: Option<string>,
    kbFound: Option<bool>,
    kbInfo: Option<TestInfo>,
    classification: Option<Classification>,
    classificationReason: Option<string>,
    refLow: Field<real>,
    refHigh: Field<real>,
    refUnit: Field<string>,
    referenceRange: Field<string>,
    aiExplanation: Option<string>)

  /** `result.get('kb_found')` is truthy. */
  predicate KbFound(r: LabResult) {
    r.kbFound == Some(true)
  }

  /** A result with only the given keys set, as a parser or an extractor produces it. */
  function NewResult(testName: Option<string>, normalizedName: Option<string>, value: Option<real>,
                     unit: Option<string>, rawLine: Option<string>): (r: LabResult)
    ensures r.testName == testName && r.normalizedName == normalizedName && r.value == value
    ensures r.unit == unit && r.rawLine == rawLine
    ensures r.kbFound.None? && r.kbInfo.None? && r.classification.None? && r.referenceRange.Absent?
  {
    LabResult(testName, normalizedName, value, unit, rawLine, None, None, None, None,
              Absent, Absent, Absent, Absent, None)
  }
}
