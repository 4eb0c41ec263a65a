/**
 * Loading the knowledge base from its CSV tables (`load_csv_data` in
 * app/db/init_db.py). The CSV rows are inputs; the four tables are the
 * fields of a `KnowledgeStore` that the loader appends to, as the session's
 * `db.add` calls do.
 */
module InitDb {
  import opened Wrappers
  import opened Models

  /** A pandas cell: NaN (an empty cell), a number, or text. */
  datatype Cell = NA | Num(x: real) | Text(s: string)

  /** Rows of the four CSV files. A numeric column is `Option<real>`, None being NaN or a missing column. */
  datatype SourceRow = SourceRow(sourceId: int, name: string, kind: Option<string>, url: Field<string>,
                                 year: Option<real>, trustLevel: Option<real>)

  datatype TestRow = TestRow(testId: int, canonicalName: string, shortName: Field<string>, panelName: Field<string>,
                             specimenType: Field<string>, category: Field<string>, loincCode: Field<string>,
                             description: Field<string>)

  datatype RangeRow = RangeRow(testId: Option<real>, sourceId: int, canonicalName: Field<string>, unit: Field<string>,
                               valueType: Field<string>, refLow: Cell, refHigh: Cell, refText: Field<string>,
                               sex: Field<string>, ageMin: Cell, ageMax: Cell, condition: Field<string>,
                               sourcePriority: Cell, effectiveYear: Cell)

  datatype SynonymRow = SynonymRow(synonymId: int, testId: int, synonym: string, sourceId: Option<real>)

  const PlaceholderTestId := 999

  /** The test that collects ranges whose test id is missing. */
  const PlaceholderTest := Test(PlaceholderTestId, "Unassigned Test", Some("Unassigned"), None, None, None, None,
                                Some("Placeholder for reference ranges with missing test_id in source data"))

  /** `row.get(column, default)` of a text column: the default for a missing column, NULL for NaN. */
  function TextOr(f: Field<string>, default: string): (r: Option<string>)
    ensures f.Absent? ==> r == Some(default)
    ensures f.Null? ==> r.None?
    ensures f.Present? ==> r == Some(f.value)
  {
    match f
    case Absent => Some(default)
    case Null => None
    case Present(s) => Some(s)
  }

  /** `int(x)` of a float: truncation toward zero. */
  function Trunc(x: real): (n: int)
    ensures x >= 0.0 ==> 0 <= n && n as real <= x < n as real + 1.0
    ensures x < 0.0 ==> n <= 0 && n as real - 1.0 < x <= n as real
  {
    if x >= 0.0 then x.Floor else -((-x).Floor)
  }

  /** `int(float(x))` drops the fraction toward zero on both sides: 2.9 gives 2 and -2.9 gives -2. */
  lemma TruncTowardZero()
    ensures Trunc(2.9) == 2 && Trunc(-2.9) == -2 && Trunc(-0.5) == 0
  {
  }

  /** `safe_float`: None for NaN and for text `float` rejects. */
  function SafeFloat(c: Cell, parseFloat: string -> Option<real>): (r: Option<real>)
    ensures c.NA? ==> r.None?
    ensures c.Num? ==> r == Some(c.x)
    ensures c.Text? ==> r == parseFloat(c.s)
  {
    match c
    case NA => None
    case Num(x) => Some(x)
    case Text(s) => parseFloat(s)
  }

  /** `safe_int`: `int(float(x))`, or `default` for NaN and for text `float` rejects. */
  function SafeInt(c: Cell, default: Option<int>, parseFloat: string -> Option<real>): (r: Option<int>)
    ensures SafeFloat(c, parseFloat).None? ==> r == default
    ensures SafeFloat(c, parseFloat).Some? ==> r == Some(Trunc(SafeFloat(c, parseFloat).value))
  {
    match SafeFloat(c, parseFloat)
    case None => default
    case Some(x) => Some(Trunc(x))
  }

  /** A source row: a missing year stays NULL, a missing trust level becomes 3. */
  function SourceOf(row: SourceRow): (s: Source)
    ensures s.sourceId == row.sourceId && s.name == row.name
    ensures row.trustLevel.None? ==> s.trustLevel == 3
    ensures row.trustLevel.Some? ==> s.trustLevel == Trunc(row.trustLevel.value)
    ensures s.year.None? <==> row.year.None?
  {
    Source(row.sourceId, row.name, row.kind, TextOr(row.url, ""),
           if row.year.Some? then Some(Trunc(row.year.value)) else None,
           if row.trustLevel.Some? then Trunc(row.trustLevel.value) else 3)
  }

  function TestOf(row: TestRow): (t: Test)
    ensures t.testId == row.testId && t.canonicalName == row.canonicalName
    ensures t.shortName == TextOr(row.shortName, "") && t.description == TextOr(row.description, "")
  {
    Test(row.testId, row.canonicalName, TextOr(row.shortName, ""), TextOr(row.panelName, ""),
         TextOr(row.specimenType, ""), TextOr(row.category, ""), TextOr(row.loincCode, ""),
         TextOr(row.description, ""))
  }

  /** The test id a range row is stored under: 999 when missing, `int(test_id)` otherwise. */
  function RangeTestId(row: RangeRow): (id: int)
    ensures row.testId.None? ==> id == PlaceholderTestId
    ensures row.testId.Some? ==> id == Trunc(row.testId.value)
  {
    if row.testId.None? then PlaceholderTestId else Trunc(row.testId.value)
  }

  /**
   * A range row, stored under id `rangeId`: numbers through `safe_float`,
   * source priority through `safe_int` with default 1, effective year with no default.
   */
  function RangeOf(row: RangeRow, rangeId: int, parseFloat: string -> Option<real>): (r: Range)
    ensures r.rangeId == rangeId && r.testId == RangeTestId(row) && r.sourceId == row.sourceId
    ensures r.refLow == SafeFloat(row.refLow, parseFloat) && r.refHigh == SafeFloat(row.refHigh, parseFloat)
    ensures r.ageMin == SafeFloat(row.ageMin, parseFloat) && r.ageMax == SafeFloat(row.ageMax, parseFloat)
    ensures SafeFloat(row.sourcePriority, parseFloat).None? ==> r.sourcePriority == 1
    ensures SafeFloat(row.sourcePriority, parseFloat).Some? ==>
      r.sourcePriority == Trunc(SafeFloat(row.sourcePriority, parseFloat).value)
    ensures r.effectiveYear == SafeInt(row.effectiveYear, None, parseFloat)
    ensures r.sex == TextOr(row.sex, "Any") && r.valueType == TextOr(row.valueType, "numeric")
  {
    Range(rangeId, RangeTestId(row), row.sourceId, TextOr(row.canonicalName, ""), TextOr(row.unit, ""),
          TextOr(row.valueType, "numeric"), SafeFloat(row.refLow, parseFloat), SafeFloat(row.refHigh, parseFloat),
          TextOr(row.refText, ""), TextOr(row.sex, "Any"), SafeFloat(row.ageMin, parseFloat),
          SafeFloat(row.ageMax, parseFloat), TextOr(row.condition, ""),
          SafeInt(row.sourcePriority, Some(1), parseFloat).value,
          SafeInt(row.effectiveYear, None, parseFloat))
  }

  function SynonymOf(row: SynonymRow): (s: Synonym)
    ensures s.synonymId == row.synonymId && s.testId == row.testId && s.synonym == row.synonym
    ensures s.sourceId.None? <==> row.sourceId.None?
  {
    Synonym(row.synonymId, row.testId, row.synonym,
            if row.sourceId.Some? then Some(Trunc(row.sourceId.value)) else None)
  }

  /** The number of range rows without a test id. */
  function MissingTestIds(rows: seq<RangeRow>): (n: nat)
    ensures n <= |rows|
  {
    if rows == [] then 0
    else MissingTestIds(rows[..|rows| - 1]) + (if rows[|rows| - 1].testId.None? then 1 else 0)
  }

  /** `placeholder_count` is the number of range rows whose test id is missing. */
  lemma {:induction false} MissingTestIdsCount(rows: seq<RangeRow>)
    ensures MissingTestIds(rows) == |set i | 0 <= i < |rows| && rows[i].testId.None?|
  {
    if rows != [] {
      var n := |rows| - 1;
      MissingTestIdsCount(rows[..n]);
      var before := set i | 0 <= i < n && rows[..n][i].testId.None?;
      var all := set i | 0 <= i < |rows| && rows[i].testId.None?;
      assert before == set i | 0 <= i < n && rows[i].testId.None?;
      if rows[n].testId.None? {
        assert all == before + {n};
      } else {
        assert all == before;
      }
    }
  }

  /** The converted rows of each file, one per row and in row order; ranges are numbered from `firstId`. */
  function SourcesOf(rows: seq<SourceRow>): (r: seq<Source>)
    ensures |r| == |rows| && forall i :: 0 <= i < |rows| ==> r[i] == SourceOf(rows[i])
  {
    seq(|rows|, i requires 0 <= i < |rows| => SourceOf(rows[i]))
  }

  function TestsOf(rows: seq<TestRow>): (r: seq<Test>)
    ensures |r| == |rows| && forall i :: 0 <= i < |rows| ==> r[i] == TestOf(rows[i])
  {
    seq(|rows|, i requires 0 <= i < |rows| => TestOf(rows[i]))
  }

  function RangesOf(rows: seq<RangeRow>, firstId: int, parseFloat: string -> Option<real>): (r: seq<Range>)
    ensures |r| == |rows| && forall i :: 0 <= i < |rows| ==> r[i] == RangeOf(rows[i], firstId + i, parseFloat)
  {
    seq(|rows|, i requires 0 <= i < |rows| => RangeOf(rows[i], firstId + i, parseFloat))
  }

  function SynonymsOf(rows: seq<SynonymRow>): (r: seq<Synonym>)
    ensures |r| == |rows| && forall i :: 0 <= i < |rows| ==> r[i] == SynonymOf(rows[i])
  {
    seq(|rows|, i requires 0 <= i < |rows| => SynonymOf(rows[i]))
  }

  /** One more range row adds its range, numbered on, and counts it when its test id is missing. */
  lemma RangeRowsSnoc(rows: seq<RangeRow>, k: nat, firstId: int, parseFloat: string -> Option<real>)
    requires k < |rows|
    ensures RangesOf(rows[..k + 1], firstId, parseFloat)
      == RangesOf(rows[..k], firstId, parseFloat) + [RangeOf(rows[k], firstId + k, parseFloat)]
    ensures MissingTestIds(rows[..k + 1]) == MissingTestIds(rows[..k]) + (if rows[k].testId.None? then 1 else 0)
  {
    assert rows[..k + 1][..k] == rows[..k];
  }

  predicate HasTestId(tests: seq<Test>, id: int) {
    exists i :: 0 <= i < |tests| && tests[i].testId == id
  }

  /** The tests after loading: the loaded rows, then the placeholder unless a test 999 is among them. */
  function TestsWithPlaceholder(loaded: seq<Test>): (r: seq<Test>)
    ensures HasTestId(r, PlaceholderTestId)
    ensures HasTestId(loaded, PlaceholderTestId) ==> r == loaded
    ensures !HasTestId(loaded, PlaceholderTestId) ==> r == loaded + [PlaceholderTest]
  {
    if HasTestId(loaded, PlaceholderTestId) then loaded
    else
      assert (loaded + [PlaceholderTest])[|loaded|].testId == PlaceholderTestId;
      loaded + [PlaceholderTest]
  }

  /** The four tables, and the loader that fills them. */
  class KnowledgeStore {
    var tests: seq<Test>
    var sources: seq<Source>
    var ranges: seq<Range>
    var synonyms: seq<Synonym>

    constructor ()
      ensures tests == [] && sources == [] && ranges == [] && synonyms == []
    {
      tests, sources, ranges, synonyms := [], [], [], [];
    }

    /** The tables as a value, for the queries. */
    function Snapshot(): (kb: KnowledgeBase)
      reads this
      ensures kb.tests == tests && kb.sources == sources && kb.ranges == ranges && kb.synonyms == synonyms
    {
      KnowledgeBase(tests, sources, ranges, synonyms)
    }

    /**
     * `load_csv_data`. Does nothing when `tests` is non-empty. Otherwise
     * appends one source, test, range and synonym per row, in row order,
     * with the placeholder test after the tests unless a test 999 was loaded.
     * New ranges are numbered on from the existing ones. `loaded` and
     * `placeholderCount` are what the loader reports.
     */
    method LoadCsvData(sourceRows: seq<SourceRow>, testRows: seq<TestRow>, rangeRows: seq<RangeRow>,
                       synonymRows: seq<SynonymRow>, parseFloat: string -> Option<real>)
      returns (loaded: bool, placeholderCount: nat)
      modifies this
      ensures loaded <==> old(tests) == []
      ensures !loaded ==> (tests == old(tests) && sources == old(sources) && ranges == old(ranges)
        && synonyms == old(synonyms) && placeholderCount == 0)
      ensures loaded ==> sources == old(sources) + SourcesOf(sourceRows)
      ensures loaded ==> tests == TestsWithPlaceholder(TestsOf(testRows))
      ensures loaded ==> ranges == old(ranges) + RangesOf(rangeRows, |old(ranges)| + 1, parseFloat)
      ensures loaded ==> synonyms == old(synonyms) + SynonymsOf(synonymRows)
      ensures loaded ==> placeholderCount == MissingTestIds(rangeRows)
    {
      if |tests| > 0 {
        return false, 0;
      }
      AddSources(sourceRows);
      AddTests(testRows);
      assert tests == TestsOf(testRows);
      var placeholderExists := HasPlaceholder(tests);
      if !placeholderExists {
        tests := tests + [PlaceholderTest];
      }
      placeholderCount := AddRanges(rangeRows, parseFloat);
      AddSynonyms(synonymRows);
      return true, placeholderCount;
    }

    method AddSources(rows: seq<SourceRow>)
      modifies this
      ensures sources == old(sources) + SourcesOf(rows)
      ensures tests == old(tests) && ranges == old(ranges) && synonyms == old(synonyms)
    {
      for k := 0 to |rows|
        invariant sources == old(sources) + SourcesOf(rows[..k])
        invariant tests == old(tests) && ranges == old(ranges) && synonyms == old(synonyms)
      {
        assert SourcesOf(rows[..k + 1]) == SourcesOf(rows[..k]) + [SourceOf(rows[k])];
        sources := sources + [SourceOf(rows[k])];
      }
      assert rows[..|rows|] == rows;
    }

    method AddTests(rows: seq<TestRow>)
      modifies this
      ensures tests == old(tests) + TestsOf(rows)
      ensures sources == old(sources) && ranges == old(ranges) && synonyms == old(synonyms)
    {
      for k := 0 to |rows|
        invariant tests == old(tests) + TestsOf(rows[..k])
        invariant sources == old(sources) && ranges == old(ranges) && synonyms == old(synonyms)
      {
        assert TestsOf(rows[..k + 1]) == TestsOf(rows[..k]) + [TestOf(rows[k])];
        tests := tests + [TestOf(rows[k])];
      }
      assert rows[..|rows|] == rows;
    }

    /** The range loop: one range per row, counting the rows without a test id. */
    method AddRanges(rows: seq<RangeRow>, parseFloat: string -> Option<real>) returns (placeholderCount: nat)
      modifies this
      ensures ranges == old(ranges) + RangesOf(rows, |old(ranges)| + 1, parseFloat)
      ensures placeholderCount == MissingTestIds(rows)
      ensures tests == old(tests) && sources == old(sources) && synonyms == old(synonyms)
    {
      placeholderCount := 0;
      var firstId := |ranges| + 1;
      for k := 0 to |rows|
        invariant ranges == old(ranges) + RangesOf(rows[..k], firstId, parseFloat)
        invariant placeholderCount == MissingTestIds(rows[..k])
        invariant tests == old(tests) && sources == old(sources) && synonyms == old(synonyms)
      {
        RangeRowsSnoc(rows, k, firstId, parseFloat);
        var testIdValue;
        if rows[k].testId.None? {
          testIdValue := PlaceholderTestId;
          placeholderCount := placeholderCount + 1;
        } else {
          testIdValue := Trunc(rows[k].testId.value);
        }
        var rangeObj := RangeOf(rows[k], firstId + k, parseFloat).(testId := testIdValue);
        ranges := ranges + [rangeObj];
      }
      assert rows[..|rows|] == rows;
    }

    method AddSynonyms(rows: seq<SynonymRow>)
      modifies this
      ensures synonyms == old(synonyms) + SynonymsOf(rows)
      ensures tests == old(tests) && sources == old(sources) && ranges == old(ranges)
    {
      for k := 0 to |rows|
        invariant synonyms == old(synonyms) + SynonymsOf(rows[..k])
        invariant tests == old(tests) && sources == old(sources) && ranges == old(ranges)
      {
        assert SynonymsOf(rows[..k + 1]) == SynonymsOf(rows[..k]) + [SynonymOf(rows[k])];
        synonyms := synonyms + [SynonymOf(rows[k])];
      }
      assert rows[..|rows|] == rows;
    }
  }
  /** `db.query(Test).filter(Test.test_id == 999).first()` is not None. */
  method HasPlaceholder(tests: seq<Test>) returns (found: bool)
    ensures found <==> HasTestId(tests, PlaceholderTestId)
  {
    found := false;
    for k := 0 to |tests|
      invariant found <==> exists i :: 0 <= i < k && tests[i].testId == PlaceholderTestId
    {
      if tests[k].testId == PlaceholderTestId {
        found := true;
      }
    }
  }
}
