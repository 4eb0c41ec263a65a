/**
 * The four knowledge-base tables. A table is a sequence of rows; the order
 * of the sequence is the order in which a query's `.first()` meets the rows.
 * A column that may hold SQL NULL is an `Option`.
 */
module Models {
  import opened Wrappers

  /** A row of `tests`: the master test catalogue. */
  datatype Test = Test(
    testId: int,
    canonicalName: string,
    shortName: Option<string>,
    panelName: Option<string>,
    specimenType: Option<string>,
    category: Option<string>,
    loincCode: Option<string>,
    description: Option<string>)

  /** A row of `sources`: a reference source and its trust level (higher is more trusted). */
  datatype Source = Source(
    sourceId: int,
    name: string,
    kind: Option<string>,
    url: Option<string>,
    year: Option<int>,
    trustLevel: int)

  /** A row of `ranges`: one reference range of one test from one source (lower priority number wins). */
  datatype Range = Range(
    rangeId: int,
    testId: int,
    sourceId: int,
    canonicalName: Option<string>,
    unit: Option<string>,
    valueType: Option<string>,
    refLow: Option<real>,
    refHigh: Option<real>,
    refText: Option<string>,
    sex: Option<string>,
    ageMin: Option<real>,
    ageMax: Option<real>,
    condition: Option<string>,
    sourcePriority: int,
    effectiveYear: Option<int>)

  /** A row of `synonyms`: another name of a test. */
  datatype Synonym = Synonym(
    synonymId: int,
    testId: int,
    synonym: string,
    sourceId: Option<int>)

  /** A snapshot of the whole knowledge base. */
  datatype KnowledgeBase = KnowledgeBase(
    tests: seq<Test>,
    sources: seq<Source>,
    ranges: seq<Range>,
    synonyms: seq<Synonym>)
}
