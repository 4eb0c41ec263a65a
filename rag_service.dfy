/**
 * Knowledge-base retrieval (`RAGService` in app/services/rag_service.py):
 * resolving a test name to a test, choosing the reference range for a test,
 * and enriching a batch of parsed results with what was found.
 */
module RagService {
  import opened Wrappers
  import opened Text
  import opened Models
  import opened Records
  import opened MedicalUtils

  predicate CanonicalMatch(t: Test, key: string) {
    ILikeContains(t.canonicalName, key)
  }

  /** A NULL short name matches no pattern. */
  predicate ShortMatch(t: Test, key: string) {
    t.shortName.Some? && ILikeContains(t.shortName.value, key)
  }

  predicate SynonymMatch(s: Synonym, key: string) {
    ILikeContains(s.synonym, key)
  }

  predicate HasTestId(t: Test, id: int) {
    t.testId == id
  }

  /** The first test with id `id`. */
  function TestById(kb: KnowledgeBase, id: int): (r: Option<Test>)
    ensures r.Some? ==> r.value in kb.tests && r.value.testId == id
    ensures r.None? <==> forall i :: 0 <= i < |kb.tests| ==> kb.tests[i].testId != id
  {
    match FirstIndex(kb.tests, t => HasTestId(t, id))
    case None => None
    case Some(i) => Some(kb.tests[i])
  }

  /** The first test whose canonical name contains `key` (the first query of `find_test`). */
  function FirstCanonical(tests: seq<Test>, key: string): (r: Option<nat>)
    ensures r.Some? ==> r.value < |tests| && CanonicalMatch(tests[r.value], key)
    ensures r.Some? ==> forall j :: 0 <= j < r.value ==> !CanonicalMatch(tests[j], key)
    ensures r.None? <==> forall j :: 0 <= j < |tests| ==> !CanonicalMatch(tests[j], key)
  {
    FirstIndex(tests, t => CanonicalMatch(t, key))
  }

  /** The first test whose short name contains `key` (the second query). */
  function FirstShort(tests: seq<Test>, key: string): (r: Option<nat>)
    ensures r.Some? ==> r.value < |tests| && ShortMatch(tests[r.value], key)
    ensures r.Some? ==> forall j :: 0 <= j < r.value ==> !ShortMatch(tests[j], key)
    ensures r.None? <==> forall j :: 0 <= j < |tests| ==> !ShortMatch(tests[j], key)
  {
    FirstIndex(tests, t => ShortMatch(t, key))
  }

  /** The first synonym that contains `key` (the third query). */
  function FirstSynonym(synonyms: seq<Synonym>, key: string): (r: Option<nat>)
    ensures r.Some? ==> r.value < |synonyms| && SynonymMatch(synonyms[r.value], key)
    ensures r.Some? ==> forall j :: 0 <= j < r.value ==> !SynonymMatch(synonyms[j], key)
    ensures r.None? <==> forall j :: 0 <= j < |synonyms| ==> !SynonymMatch(synonyms[j], key)
  {
    FirstIndex(synonyms, s => SynonymMatch(s, key))
  }

  /**
   * `find_test`: the first test whose canonical name contains the normalised
   * name, else the first whose short name does, else the test of the first
   * synonym that does (if that test exists).
   */
  function FindTest(kb: KnowledgeBase, testName: string): (r: Option<Test>)
    ensures r.Some? ==> r.value in kb.tests
    ensures r.Some? ==> var key := NormalizeTestName(testName);
      || CanonicalMatch(r.value, key)
      || ShortMatch(r.value, key)
      || exists j :: 0 <= j < |kb.synonyms| && SynonymMatch(kb.synonyms[j], key) && kb.synonyms[j].testId == r.value.testId
    ensures r.None? ==> var key := NormalizeTestName(testName);
      forall i :: 0 <= i < |kb.tests| ==> !CanonicalMatch(kb.tests[i], key) && !ShortMatch(kb.tests[i], key)
  {
    var key := NormalizeTestName(testName);
    match FirstCanonical(kb.tests, key)
    case Some(i) => Some(kb.tests[i])
    case None =>
      match FirstShort(kb.tests, key)
      case Some(i) => Some(kb.tests[i])
      case None =>
        match FirstSynonym(kb.synonyms, key)
        case None => None
        case Some(j) => TestById(kb, kb.synonyms[j].testId)
  }

  /** Step 1 of the cascade: the first canonical-name match wins. */
  lemma FindTestByCanonicalName(kb: KnowledgeBase, testName: string, i: nat)
    requires i < |kb.tests| && CanonicalMatch(kb.tests[i], NormalizeTestName(testName))
    requires forall j :: 0 <= j < i ==> !CanonicalMatch(kb.tests[j], NormalizeTestName(testName))
    ensures FindTest(kb, testName) == Some(kb.tests[i])
  {
    var r := FirstCanonical(kb.tests, NormalizeTestName(testName));
    assert r.Some? && !(r.value < i) && !(i < r.value);
  }

  /**
   * Step precedence: a name that matches the canonical name of test `a` is
   * resolved to `a` even when it also matches a synonym of a different test.
   */
  lemma CanonicalBeatsSynonym(kb: KnowledgeBase, testName: string, a: nat, b: nat)
    requires a < |kb.tests| && CanonicalMatch(kb.tests[a], NormalizeTestName(testName))
    requires forall j :: 0 <= j < a ==> !CanonicalMatch(kb.tests[j], NormalizeTestName(testName))
    requires b < |kb.synonyms| && SynonymMatch(kb.synonyms[b], NormalizeTestName(testName))
    requires kb.synonyms[b].testId != kb.tests[a].testId
    ensures FindTest(kb, testName) == Some(kb.tests[a])
    ensures FindTest(kb, testName).value.testId != kb.synonyms[b].testId
  {
    FindTestByCanonicalName(kb, testName, a);
  }

  /** Step 2 of the cascade: with no canonical-name match, the first short-name match wins. */
  lemma FindTestByShortName(kb: KnowledgeBase, testName: string, i: nat)
    requires forall j :: 0 <= j < |kb.tests| ==> !CanonicalMatch(kb.tests[j], NormalizeTestName(testName))
    requires i < |kb.tests| && ShortMatch(kb.tests[i], NormalizeTestName(testName))
    requires forall j :: 0 <= j < i ==> !ShortMatch(kb.tests[j], NormalizeTestName(testName))
    ensures FindTest(kb, testName) == Some(kb.tests[i])
  {
    var key := NormalizeTestName(testName);
    assert FirstCanonical(kb.tests, key).None?;
    var r := FirstShort(kb.tests, key);
    assert r.Some? && !(r.value < i) && !(i < r.value);
  }

  /**
   * Step 3 of the cascade: only the first matching synonym is used; when no
   * test has its test id the result is None, whatever later synonyms say.
   */
  lemma FindTestBySynonym(kb: KnowledgeBase, testName: string, j: nat)
    requires forall i :: 0 <= i < |kb.tests| ==> !CanonicalMatch(kb.tests[i], NormalizeTestName(testName))
    requires forall i :: 0 <= i < |kb.tests| ==> !ShortMatch(kb.tests[i], NormalizeTestName(testName))
    requires j < |kb.synonyms| && SynonymMatch(kb.synonyms[j], NormalizeTestName(testName))
    requires forall k :: 0 <= k < j ==> !SynonymMatch(kb.synonyms[k], NormalizeTestName(testName))
    ensures FindTest(kb, testName) == TestById(kb, kb.synonyms[j].testId)
    ensures (forall i :: 0 <= i < |kb.tests| ==> kb.tests[i].testId != kb.synonyms[j].testId)
      ==> FindTest(kb, testName).None?
  {
    var key := NormalizeTestName(testName);
    assert FirstCanonical(kb.tests, key).None?;
    assert FirstShort(kb.tests, key).None?;
    var r := FirstSynonym(kb.synonyms, key);
    assert r.Some? && !(r.value < j) && !(j < r.value);
  }

  /** With nothing in the knowledge base matching, the name is not found (and nothing fails). */
  lemma FindTestNotFound(kb: KnowledgeBase, testName: string)
    requires forall i :: 0 <= i < |kb.tests| ==> !CanonicalMatch(kb.tests[i], NormalizeTestName(testName))
    requires forall i :: 0 <= i < |kb.tests| ==> !ShortMatch(kb.tests[i], NormalizeTestName(testName))
    requires forall k :: 0 <= k < |kb.synonyms| ==> !SynonymMatch(kb.synonyms[k], NormalizeTestName(testName))
    ensures FindTest(kb, testName).None?
  {
    var key := NormalizeTestName(testName);
    assert FirstCanonical(kb.tests, key).None?;
    assert FirstShort(kb.tests, key).None?;
    assert FirstSynonym(kb.synonyms, key).None?;
  }

  /** The trust level of the first source with id `sourceId`, if there is one. */
  function SourceTrust(kb: KnowledgeBase, sourceId: int): (r: Option<int>)
    ensures r.Some? <==> exists i :: 0 <= i < |kb.sources| && kb.sources[i].sourceId == sourceId
  {
    match FirstIndex(kb.sources, (s: Source) => s.sourceId == sourceId)
    case None => None
    case Some(i) => Some(kb.sources[i].trustLevel)
  }

  /** A NULL age bound leaves that side open; no age given means no age filter. */
  predicate AgeFits(r: Range, age: Option<real>) {
    age.None? ||
    ((r.ageMin.None? || r.ageMin.value <= age.value) && (r.ageMax.None? || r.ageMax.value >= age.value))
  }

  /** The query's filters: same test, sex equal to the requested one or "Any" (a NULL sex matches neither), age bounds. */
  predicate Applies(r: Range, testId: int, sex: string, age: Option<real>) {
    r.testId == testId && (r.sex == Some(sex) || r.sex == Some("Any")) && AgeFits(r, age)
  }

  /** A range row joined with the trust level of its source. */
  datatype Ranked = Ranked(range: Range, trust: int)

  /** The query's ordering: lower source priority first, then higher trust first. */
  predicate Precedes(a: Ranked, b: Ranked) {
    a.range.sourcePriority < b.range.sourcePriority
    || (a.range.sourcePriority == b.range.sourcePriority && a.trust > b.trust)
  }

  /** The rows of the filtered query joined with `sources`, in stored order (inner join: a range without a source is dropped). */
  function Candidates(kb: KnowledgeBase, ranges: seq<Range>, testId: int, sex: string, age: Option<real>): (cs: seq<Ranked>)
    ensures |cs| <= |ranges|
    ensures forall c :: c in cs <==>
      c.range in ranges && Applies(c.range, testId, sex, age) && SourceTrust(kb, c.range.sourceId) == Some(c.trust)
    ensures forall i :: (0 <= i < |ranges| && Applies(ranges[i], testId, sex, age)
      && SourceTrust(kb, ranges[i].sourceId).Some?) ==> |cs| > 0
  {
    if ranges == [] then []
    else
      var rest := Candidates(kb, ranges[1..], testId, sex, age);
      var r := ranges[0];
      assert forall x :: x in ranges <==> x == r || x in ranges[1..];
      var t := SourceTrust(kb, r.sourceId);
      if Applies(r, testId, sex, age) && t.Some? then [Ranked(r, t.value)] + rest else rest
  }

  /**
   * The position of the first row of the ordered query: no candidate
   * precedes it, and it precedes every candidate stored before it
   * (ties keep stored order).
   */
  function Best(cs: seq<Ranked>): (b: nat)
    requires |cs| > 0
    ensures b < |cs|
    ensures forall j :: 0 <= j < |cs| ==> !Precedes(cs[j], cs[b])
    ensures forall j :: 0 <= j < b ==> Precedes(cs[b], cs[j])
  {
    if |cs| == 1 then 0
    else
      var b := Best(cs[..|cs| - 1]);
      if Precedes(cs[|cs| - 1], cs[b]) then |cs| - 1 else b
  }

  /** The dictionary built from a joined row: every range column copied, with the trust of its source. */
  function ToRangeInfo(c: Ranked): (r: RangeInfo)
    ensures r.refLow == c.range.refLow && r.refHigh == c.range.refHigh && r.refText == c.range.refText
    ensures r.unit == c.range.unit && r.valueType == c.range.valueType
    ensures r.sourceId == c.range.sourceId && r.sourcePriority == c.range.sourcePriority && r.trustLevel == c.trust
    ensures r.sex == c.range.sex && r.condition == c.range.condition
  {
    RangeInfo(c.range.refLow, c.range.refHigh, c.range.refText, c.range.unit, c.range.valueType,
              c.range.sourceId, c.range.sourcePriority, c.trust, c.range.sex, c.range.condition)
  }

  lemma CandidatesEmpty(kb: KnowledgeBase, testId: int, sex: string, age: Option<real>)
    ensures |Candidates(kb, kb.ranges, testId, sex, age)| == 0 <==> forall i :: 0 <= i < |kb.ranges| ==>
      !(Applies(kb.ranges[i], testId, sex, age) && SourceTrust(kb, kb.ranges[i].sourceId).Some?)
  {
    var cs := Candidates(kb, kb.ranges, testId, sex, age);
    if |cs| > 0 {
      assert cs[0] in cs;
      var i :| 0 <= i < |kb.ranges| && kb.ranges[i] == cs[0].range;
    }
  }

  /**
   * `get_reference_range`: the first row of the filtered, joined and ordered
   * query, or None when there is none. The source is looked up again for its
   * trust level; the join guarantees it exists, so the default of 3 is never used.
   */
  function GetReferenceRange(kb: KnowledgeBase, testId: int, sex: string, age: Option<real>): (r: Option<RangeInfo>)
    ensures r.None? <==> forall i :: 0 <= i < |kb.ranges| ==>
      !(Applies(kb.ranges[i], testId, sex, age) && SourceTrust(kb, kb.ranges[i].sourceId).Some?)
    ensures r.Some? ==> r.value.sex == Some(sex) || r.value.sex == Some("Any")
  {
    var cs := Candidates(kb, kb.ranges, testId, sex, age);
    CandidatesEmpty(kb, testId, sex, age);
    if |cs| == 0 then None
    else
      var best := cs[Best(cs)];
      var trust := SourceTrust(kb, best.range.sourceId).GetOr(3);
      Some(ToRangeInfo(best).(trustLevel := trust))
  }

  /**
   * The chosen range is one that applies, and ranks at least as high as
   * every range that applies and has a source: its priority is no larger,
   * and on equal priority its trust is no smaller.
   */
  lemma GetReferenceRangeIsBest(kb: KnowledgeBase, testId: int, sex: string, age: Option<real>, i: nat)
    requires i < |kb.ranges| && Applies(kb.ranges[i], testId, sex, age)
    requires SourceTrust(kb, kb.ranges[i].sourceId).Some?
    ensures GetReferenceRange(kb, testId, sex, age).Some?
    ensures var r := GetReferenceRange(kb, testId, sex, age).value;
      r.sourcePriority < kb.ranges[i].sourcePriority
      || (r.sourcePriority == kb.ranges[i].sourcePriority
          && r.trustLevel >= SourceTrust(kb, kb.ranges[i].sourceId).value)
  {
    var cs := Candidates(kb, kb.ranges, testId, sex, age);
    var c := Ranked(kb.ranges[i], SourceTrust(kb, kb.ranges[i].sourceId).value);
    assert c in cs;
    var k :| 0 <= k < |cs| && cs[k] == c;
    assert !Precedes(cs[k], cs[Best(cs)]);
    assert cs[Best(cs)] in cs;
  }

  /**
   * The chosen range is a stored range of that test that passes the filters
   * and has a source: the result is that row, column for column, with the
   * trust level of its source.
   */
  lemma GetReferenceRangeApplies(kb: KnowledgeBase, testId: int, sex: string, age: Option<real>)
    requires GetReferenceRange(kb, testId, sex, age).Some?
    ensures exists i :: (0 <= i < |kb.ranges| && Applies(kb.ranges[i], testId, sex, age)
      && SourceTrust(kb, kb.ranges[i].sourceId).Some?
      && GetReferenceRange(kb, testId, sex, age).value
         == ToRangeInfo(Ranked(kb.ranges[i], SourceTrust(kb, kb.ranges[i].sourceId).value)))
  {
    var cs := Candidates(kb, kb.ranges, testId, sex, age);
    var best := cs[Best(cs)];
    assert best in cs;
    var i :| 0 <= i < |kb.ranges| && kb.ranges[i] == best.range;
    assert SourceTrust(kb, kb.ranges[i].sourceId) == Some(best.trust);
    assert best == Ranked(kb.ranges[i], best.trust);
  }

  /**
   * Together: the result is the joined row of an applying range that no
   * applying range with a source precedes in the query's order.
   */
  lemma GetReferenceRangeIsMinimal(kb: KnowledgeBase, testId: int, sex: string, age: Option<real>)
    requires GetReferenceRange(kb, testId, sex, age).Some?
    ensures exists i :: (0 <= i < |kb.ranges| && Applies(kb.ranges[i], testId, sex, age)
      && SourceTrust(kb, kb.ranges[i].sourceId).Some?
      && GetReferenceRange(kb, testId, sex, age).value
         == ToRangeInfo(Ranked(kb.ranges[i], SourceTrust(kb, kb.ranges[i].sourceId).value))
      && forall j :: (0 <= j < |kb.ranges| && Applies(kb.ranges[j], testId, sex, age)
           && SourceTrust(kb, kb.ranges[j].sourceId).Some?) ==>
           !Precedes(Ranked(kb.ranges[j], SourceTrust(kb, kb.ranges[j].sourceId).value),
                     Ranked(kb.ranges[i], SourceTrust(kb, kb.ranges[i].sourceId).value)))
  {
    GetReferenceRangeApplies(kb, testId, sex, age);
    var i :| 0 <= i < |kb.ranges| && Applies(kb.ranges[i], testId, sex, age)
      && SourceTrust(kb, kb.ranges[i].sourceId).Some?
      && GetReferenceRange(kb, testId, sex, age).value
         == ToRangeInfo(Ranked(kb.ranges[i], SourceTrust(kb, kb.ranges[i].sourceId).value));
    forall j | 0 <= j < |kb.ranges| && Applies(kb.ranges[j], testId, sex, age)
        && SourceTrust(kb, kb.ranges[j].sourceId).Some?
      ensures !Precedes(Ranked(kb.ranges[j], SourceTrust(kb, kb.ranges[j].sourceId).value),
                        Ranked(kb.ranges[i], SourceTrust(kb, kb.ranges[i].sourceId).value))
    {
      GetReferenceRangeIsBest(kb, testId, sex, age, j);
    }
  }

  /** Lower priority wins over higher trust: priority 1 / trust 3 is chosen over priority 2 / trust 5, in either stored order. */
  lemma PriorityBeforeTrust(a: Ranked, b: Ranked)
    requires a.range.sourcePriority == 1 && a.trust == 3
    requires b.range.sourcePriority == 2 && b.trust == 5
    ensures Best([a, b]) == 0 && Best([b, a]) == 1
  {
    assert [a, b][..1] == [a];
    assert [b, a][..1] == [b];
  }

  /**
   * `get_test_info`: the found test's fields, the range chosen for sex "Any"
   * with no age, and trust level / source priority taken from that range
   * (3 and 3 when there is none). `kb_found` is always true.
   */
  function GetTestInfo(kb: KnowledgeBase, testName: string): (r: Option<TestInfo>)
    ensures r.Some? <==> FindTest(kb, testName).Some?
    ensures r.Some? ==> (r.value.kbFound && r.value.testId == FindTest(kb, testName).value.testId
      && r.value.canonicalName == FindTest(kb, testName).value.canonicalName)
    ensures r.Some? ==> r.value.referenceRange == GetReferenceRange(kb, r.value.testId, "Any", None)
    ensures r.Some? && r.value.referenceRange.None? ==> r.value.trustLevel == 3 && r.value.sourcePriority == 3
    ensures r.Some? && r.value.referenceRange.Some? ==>
      r.value.trustLevel == r.value.referenceRange.value.trustLevel
      && r.value.sourcePriority == r.value.referenceRange.value.sourcePriority
  {
    match FindTest(kb, testName)
    case None => None
    case Some(t) =>
      var rr := GetReferenceRange(kb, t.testId, "Any", None);
      var trust := if rr.Some? then rr.value.trustLevel else 3;
      var priority := if rr.Some? then rr.value.sourcePriority else 3;
      Some(TestInfo(t.testId, t.canonicalName, t.shortName, t.panelName, t.category, t.description,
                    rr, trust, priority, true))
  }

  /** Only ranges stored with sex "Any" can be attached by `get_test_info`. */
  lemma GetTestInfoRangeIsAny(kb: KnowledgeBase, testName: string)
    requires GetTestInfo(kb, testName).Some? && GetTestInfo(kb, testName).value.referenceRange.Some?
    ensures GetTestInfo(kb, testName).value.referenceRange.value.sex == Some("Any")
  {
  }

  /** The name a result is looked up by: `normalized_name`, or `test_name` when that is missing or empty. */
  function LookupName(r: LabResult): (n: Option<string>)
    ensures r.normalizedName.Some? && r.normalizedName.value != "" ==> n == r.normalizedName
    ensures (r.normalizedName.None? || r.normalizedName.value == "") ==> n == r.testName
  {
    if r.normalizedName.Some? && r.normalizedName.value != "" then r.normalizedName else r.testName
  }

  /** One result of `batch_lookup`: a copy with `kb_found` set, and `kb_info` set when the test was found. */
  function Enrich(kb: KnowledgeBase, r: LabResult): (e: LabResult)
    requires LookupName(r).Some?
    ensures e.kbFound == Some(GetTestInfo(kb, LookupName(r).value).Some?)
    ensures e.kbFound == Some(true) ==> e.kbInfo == GetTestInfo(kb, LookupName(r).value)
    ensures e.kbFound == Some(false) ==> e.kbInfo == r.kbInfo
    ensures e.(kbFound := r.kbFound, kbInfo := r.kbInfo) == r
  {
    var info := GetTestInfo(kb, LookupName(r).value);
    if info.Some? then r.(kbInfo := info, kbFound := Some(true)) else r.(kbFound := Some(false))
  }

  /** The loop body of `batch_lookup`: a copy of `result` with `kb_found` set, and `kb_info` when the test is found. */
  method EnrichResult(kb: KnowledgeBase, result: LabResult) returns (e: LabResult)
    requires LookupName(result).Some?
    ensures e == Enrich(kb, result)
  {
    var info := GetTestInfo(kb, LookupName(result).value);
    e := result;
    if info.Some? {
      e := e.(kbInfo := info, kbFound := Some(true));
    } else {
      e := e.(kbFound := Some(false));
    }
  }

  /** `Enrich` as a partial function value, defined on the results that carry a lookup name. */
  function Enricher(kb: KnowledgeBase): LabResult --> LabResult {
    (r: LabResult) requires LookupName(r).Some? => Enrich(kb, r)
  }

  /** The `i`-th result of `batch_lookup` is the enrichment of the `i`-th result. */
  lemma EnrichedAt(kb: KnowledgeBase, results: seq<LabResult>, i: nat)
    requires forall j :: 0 <= j < |results| ==> LookupName(results[j]).Some?
    requires i < |results|
    ensures |MapSeq(Enricher(kb), results)| == |results|
    ensures MapSeq(Enricher(kb), results)[i] == Enrich(kb, results[i])
  {
    MapSeqAt(Enricher(kb), results, i);
  }

  /**
   * `batch_lookup`: enriches every result in order (see `EnrichedAt`). Every
   * result must carry a lookup name (the source passes None on to the query
   * otherwise).
   */
  method BatchLookup(kb: KnowledgeBase, results: seq<LabResult>) returns (enriched: seq<LabResult>)
    requires forall i :: 0 <= i < |results| ==> LookupName(results[i]).Some?
    ensures enriched == MapSeq(Enricher(kb), results)
  {
    enriched := [];
    for k := 0 to |results|
      invariant enriched == MapSeq(Enricher(kb), results[..k])
    {
      MapSeqSnoc(Enricher(kb), results, k);
      var e := EnrichResult(kb, results[k]);
      enriched := enriched + [e];
    }
    assert results[..|results|] == results;
  }
}
