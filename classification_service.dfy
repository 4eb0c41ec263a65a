/**
 * Rule-based classification of one enriched result (`ClassificationService`
 * in app/services/classification_service.py). Each call works on a copy: the
 * result is a new record that agrees with its input on every key it does not set.
 */
module ClassificationService {
  import opened Wrappers
  import opened Records
  import opened MedicalUtils

  const NotFoundReason := "Test not found in knowledge base"
  const NoRangeReason := "No reference range available"
  const NoValueReason := "No numeric value available"

  /** The result was found in the knowledge base, has a reference range and a value. */
  predicate Classifiable(res: LabResult) {
    KbFound(res) && res.kbInfo.Some? && res.kbInfo.value.referenceRange.Some? && res.value.Some?
  }

  /** `f"{x}"` of a value that may be None: Python renders None as "None". */
  function ShowOpt(s: Option<string>): (t: string)
    ensures s.Some? ==> t == s.value
  {
    match s
    case Some(v) => v
    case None => "None"
  }

  /**
   * The `reference_range` display string. `realStr` is Python's `str` of a
   * float; the unit key is always present in a range, so a NULL unit shows
   * as "None". With neither bound the range's `ref_text` is used as it is,
   * which may be `None`.
   */
  function RangeDisplay(ri: RangeInfo, realStr: real -> string): (d: Field<string>)
    ensures d != Absent
    ensures ri.refLow.Some? && ri.refHigh.Some? ==>
      d == Present(realStr(ri.refLow.value) + " - " + realStr(ri.refHigh.value) + " " + ShowOpt(ri.unit))
    ensures ri.refLow.Some? && ri.refHigh.None? ==> d == Present("> " + realStr(ri.refLow.value) + " " + ShowOpt(ri.unit))
    ensures ri.refLow.None? && ri.refHigh.Some? ==> d == Present("< " + realStr(ri.refHigh.value) + " " + ShowOpt(ri.unit))
    ensures ri.refLow.None? && ri.refHigh.None? ==> d == ToField(ri.refText)
  {
    var unit := ShowOpt(ri.unit);
    if ri.refLow.Some? && ri.refHigh.Some? then
      Present(realStr(ri.refLow.value) + " - " + realStr(ri.refHigh.value) + " " + unit)
    else if ri.refLow.Some? then
      Present("> " + realStr(ri.refLow.value) + " " + unit)
    else if ri.refHigh.Some? then
      Present("< " + realStr(ri.refHigh.value) + " " + unit)
    else
      ToField(ri.refText)
  }

  /**
   * `classify_result`. UNKNOWN exactly when the result cannot be classified,
   * with the reason of the first check that fails and no other key changed;
   * otherwise the class `classify_value` gives, with the bounds, unit and
   * display string copied from the range.
   */
  function ClassifyResult(res: LabResult, realStr: real -> string): (r: LabResult)
    ensures r.classification.Some?
    ensures r.classification == Some(Unknown) <==> !Classifiable(res)
    ensures !Classifiable(res) ==>
      r.(classification := res.classification, classificationReason := res.classificationReason) == res
    ensures !(KbFound(res) && res.kbInfo.Some?) ==> r.classificationReason == Some(NotFoundReason)
    ensures KbFound(res) && res.kbInfo.Some? && res.kbInfo.value.referenceRange.None? ==>
      r.classificationReason == Some(NoRangeReason)
    ensures KbFound(res) && res.kbInfo.Some? && res.kbInfo.value.referenceRange.Some? && res.value.None? ==>
      r.classificationReason == Some(NoValueReason)
    ensures Classifiable(res) ==>
      var ri := res.kbInfo.value.referenceRange.value;
      && r.classification == Some(ClassifyValue(res.value.value, ri.refLow, ri.refHigh))
      && r.refLow == ToField(ri.refLow) && r.refHigh == ToField(ri.refHigh) && r.refUnit == ToField(ri.unit)
      && r.referenceRange == RangeDisplay(ri, realStr)
      && r.(classification := res.classification, refLow := res.refLow, refHigh := res.refHigh,
            refUnit := res.refUnit, referenceRange := res.referenceRange) == res
  {
    if !KbFound(res) || res.kbInfo.None? then
      res.(classification := Some(Unknown), classificationReason := Some(NotFoundReason))
    else
      var rr := res.kbInfo.value.referenceRange;
      if rr.None? then
        res.(classification := Some(Unknown), classificationReason := Some(NoRangeReason))
      else if res.value.None? then
        res.(classification := Some(Unknown), classificationReason := Some(NoValueReason))
      else
        var ri := rr.value;
        res.(classification := Some(ClassifyValue(res.value.value, ri.refLow, ri.refHigh)),
             refLow := ToField(ri.refLow), refHigh := ToField(ri.refHigh), refUnit := ToField(ri.unit),
             referenceRange := RangeDisplay(ri, realStr))
  }

  /**
   * A range with neither bound still classifies as NORMAL, displayed by its
   * `ref_text`; the "N/A" default of the source cannot arise, since a range
   * record always carries that key.
   */
  lemma UnboundedRangeIsNormal(res: LabResult, realStr: real -> string)
    requires Classifiable(res)
    requires res.kbInfo.value.referenceRange.value.refLow.None?
    requires res.kbInfo.value.referenceRange.value.refHigh.None?
    ensures ClassifyResult(res, realStr).classification == Some(Normal)
    ensures ClassifyResult(res, realStr).referenceRange == ToField(res.kbInfo.value.referenceRange.value.refText)
  {
  }

  /** Classifying twice changes nothing more: a classified result keeps its class and display. */
  lemma ClassifyResultIdempotent(res: LabResult, realStr: real -> string)
    ensures ClassifyResult(ClassifyResult(res, realStr), realStr) == ClassifyResult(res, realStr)
  {
  }

  /** `classify_batch`: element i is `classify_result(results[i])`. */
  function ClassifyBatch(results: seq<LabResult>, realStr: real -> string): (r: seq<LabResult>)
    ensures |r| == |results|
    ensures forall i :: 0 <= i < |results| ==> r[i] == ClassifyResult(results[i], realStr)
  {
    if results == [] then [] else [ClassifyResult(results[0], realStr)] + ClassifyBatch(results[1..], realStr)
  }
}
