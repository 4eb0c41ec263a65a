# LabWise AI: knowledge-base resolution and classification, in Dafny

LabWise AI reads a laboratory report and turns it into a list of test
results, each with a LOW / NORMAL / HIGH / UNKNOWN class. This project
models the decision logic of that pipeline, stage by stage:

- the line parser around the regular expressions (`ParsingService`);
- the normalisation of test names and units (`MedicalUtils`);
- the knowledge-base lookups (`RagService`). A name is resolved to a test
  through a canonical-name / short-name / synonym cascade. A reference range
  is chosen by filtering and then ordering on source priority and trust.
  A batch of results is enriched with what was found;
- the rule-based classification and its display string (`ClassificationService`);
- the confidence score and the cleaning of the extraction reply (`OpenAIService`);
- the report format: counts, per-test defaults, OCR confidence level and the
  fallback summary (`LabService`);
- the upload validator (`FileUtils`);
- the conversion of the knowledge-base CSV rows into records by the loader (`InitDb`).

Records are Dafny datatypes (`Models` for the database tables, `Records` for
the dictionaries passed between services). A dictionary key that can be
absent, or present with `None`, is a `Field` (`Absent | Null | Present`),
so `d.get(key, default)` is modelled exactly. The database is a value
holding the four tables as sequences. A query's `.first()` takes the first
row in stored order. Python floats are `real`.

Some operations rely on things that are not code of this repository:
regular-expression search, Python's `float()` on a string, `str()` of a
float and `random.uniform`. Each of these is a parameter of the operation
that uses it. `search` and `parseFloat` are oracle functions. `realStr`
renders a float. The random draws are real numbers, and a precondition
bounds them as `random.uniform` bounds them.

The parts that change state in the source keep that form here:

- `RagService.BatchLookup`, `ParsingService.ParseLine`,
  `ParsingService.ParseLabReport`, `OpenAIService.CalculateConfidence` and
  `LabService.FormatResults` are methods with loops. Each one is proved equal
  to a specification function, and the properties are proved about that function.
- The loader is a class, `InitDb.KnowledgeStore`, whose table fields are
  appended to one row at a time.

Where the code and its documentation differ, the model follows the code:

- `get_test_info` always asks for sex "Any".
- `kb_found` is true even when no range exists.
- A range with neither bound still classifies as NORMAL.
- The "N/A" default of the range display can never be produced, because a
  range record always carries `ref_text`.
- The trust-level default of 3 in `get_reference_range` is never used,
  because the inner join guarantees that the source exists.

## Model

| member | source | states |
|---|---|---|
| MedicalUtils.NormalizeUnit | app/utils/medical_utils.py:60-61 | the canonical spelling when `unit.lower().strip()` is a table key, otherwise the input unchanged (not trimmed, not lowercased) (the table is at lines 11-22) |
| MedicalUtils.NormalizeUnitIdempotent | app/utils/medical_utils.py:60-61 | normalising a normalised unit changes nothing (the table is at lines 11-22) |
| MedicalUtils.CanonicalUnitIsFixed | app/utils/medical_utils.py:60-61 | every canonical spelling in the unit table normalises to itself (the table is at lines 11-22) |
| MedicalUtils.UnitLowered | app/utils/medical_utils.py:60-61 | a spelling whose lowercase form is stripped and maps back to it is a fixed point of unit normalisation |
| MedicalUtils.NormalizeTestName | app/utils/medical_utils.py:75-79 | the key (lowercased, trimmed, whitespace runs collapsed) is in key form; the result is the key's expansion when the key is an abbreviation, else the key (the table is at lines 25-47) |
| MedicalUtils.NameKeyIsNameKey | app/utils/medical_utils.py:75-76 | the lookup key has no upper-case letter, no surrounding whitespace and only single plain spaces |
| MedicalUtils.NameKeyOfNameKey | app/utils/medical_utils.py:75-76 | a string already in key form is its own key |
| MedicalUtils.ExpansionIsNameKey | app/utils/medical_utils.py:25-47 | every expansion in the abbreviation table is in key form and longer than five characters |
| MedicalUtils.AbbreviationsAreShort | app/utils/medical_utils.py:25-47 | every key of the abbreviation table has at most five characters |
| MedicalUtils.ExpansionIsNotAbbreviation | app/utils/medical_utils.py:25-47 | no expansion is itself a key of the abbreviation table |
| MedicalUtils.NormalizeTestNameIdempotent | app/utils/medical_utils.py:75-79 | normalising a normalised test name changes nothing (the table is at lines 25-47) |
| MedicalUtils.NormalizeTestNameExample | app/utils/medical_utils.py:75-79 | "  HB " normalises to "hemoglobin" (table entry at line 26) |
| MedicalUtils.CleanNumeric | app/utils/medical_utils.py:93 | the cleaned string holds only digits, '.', '-' and '+', is a sub-multiset of the input, and is the input itself when that already holds only those |
| MedicalUtils.CleanNumericCons | app/utils/medical_utils.py:93 | a non-empty string cleans to its first character when that is kept, followed by the cleaned rest |
| MedicalUtils.CleanNumericChar | app/utils/medical_utils.py:93 | one character is kept exactly when it is a digit, '.', '-' or '+' |
| MedicalUtils.CleanNumericAppend | app/utils/medical_utils.py:93 | cleaning a concatenation gives the cleaned parts in the same order, so the kept characters keep their order |
| MedicalUtils.CleanNumericNone | app/utils/medical_utils.py:93 | a string with no digit, '.', '-' or '+' cleans to the empty string |
| MedicalUtils.CleanNumericNumberThenUnit | app/utils/medical_utils.py:93-98 | a number followed by a unit with no numeric character (as in "12.5 mg/dL") cleans to the number alone |
| MedicalUtils.ExtractNumericValue | app/utils/medical_utils.py:93-98 | the value is `float` of the cleaned string, for every input; an input already of numeric characters is parsed as it is |
| MedicalUtils.ClassifyValue | app/utils/medical_utils.py:144-149 | never UNKNOWN; LOW exactly when a lower bound is present and the value is below it; HIGH exactly when LOW does not apply, an upper bound is present and the value is above it |
| MedicalUtils.ClassifyValueMonotone | app/utils/medical_utils.py:144-149 | a larger value never gets a lower class in LOW < NORMAL < HIGH |
| MedicalUtils.ClassifyValueInRange | app/utils/medical_utils.py:144-149 | a value within the present (inclusive) bounds is NORMAL, and so is every value when both bounds are absent |
| MedicalUtils.ClassifyValueExamples | app/utils/medical_utils.py:144-149 | sample values below, inside and above a range get LOW, NORMAL and HIGH |
| Text.Lower | app/utils/medical_utils.py:60-75 | same length, character-wise ASCII lowercase, no upper-case letter left |
| Text.StripIsStripOf | app/utils/medical_utils.py:60-75 | `strip()` removes only whitespace from both ends and leaves a stripped slice of the input |
| Text.CollapseIsCollapsed | app/utils/medical_utils.py:76 | after `re.sub(r'\s+', ' ', …)` no two whitespace characters are adjacent and each whitespace character is a plain space |
| Text.CollapseOfCollapsed | app/utils/medical_utils.py:76 | collapsing an already collapsed string changes nothing |
| Text.SplitJoin | app/services/parsing_service.py:28 | `split('\n')` loses nothing: joining the pieces with '\n' gives back the text |
| Wrappers.FirstIndex | app/services/rag_service.py:34-36 | `.first()` of a filter: the index of the first element that satisfies the filter; None only when none does |
| RagService.FindTest | app/services/rag_service.py:31-63 | a found test is in the table and matches the normalised name by canonical name, short name or one of its synonyms; None only when no canonical or short name matches |
| RagService.FirstCanonical | app/services/rag_service.py:34-36 | the index of the first test whose canonical name contains the key; None exactly when no test's does |
| RagService.FirstShort | app/services/rag_service.py:43-45 | the index of the first test whose short name contains the key; None exactly when no test's does |
| RagService.FirstSynonym | app/services/rag_service.py:52-54 | the index of the first synonym containing the key; None exactly when no synonym does |
| RagService.FindTestByCanonicalName | app/services/rag_service.py:31-40 | the first test whose canonical name contains the normalised name is the one returned |
| RagService.CanonicalBeatsSynonym | app/services/rag_service.py:34-60 | a name that matches test A's canonical name and a synonym of a different test B resolves to A |
| RagService.FindTestByShortName | app/services/rag_service.py:42-49 | with no canonical-name match, the first short-name match is returned |
| RagService.FindTestBySynonym | app/services/rag_service.py:51-60 | with no name match, only the first matching synonym is used; when no test has its test id the result is None, whatever later synonyms say |
| RagService.FindTestNotFound | app/services/rag_service.py:62-63 | with nothing matching, the result is None |
| RagService.TestById | app/services/rag_service.py:57 | the first test with the given id; None exactly when no test has it |
| RagService.SourceTrust | app/services/rag_service.py:105-119 | a trust level exactly when some source has the range's source id |
| RagService.Candidates | app/services/rag_service.py:85-102 | the joined rows are exactly the ranges of the test whose sex is the requested one or "Any", whose non-null age bounds hold when an age is given, and whose source exists, paired with that source's trust |
| RagService.Best | app/services/rag_service.py:104-115 | the first row of the ordered query: no candidate ranks above it (lower priority, or equal priority and higher trust), and it ranks strictly above every candidate stored before it |
| RagService.ToRangeInfo | app/services/rag_service.py:121-132 | the returned dictionary copies every column of the chosen range and carries the trust of its source |
| RagService.CandidatesEmpty | app/services/rag_service.py:85-115 | the query is empty exactly when no range of the test applies and has a source |
| RagService.GetReferenceRange | app/services/rag_service.py:85-132 | None exactly when no range applies; a chosen range has the requested sex or "Any" |
| RagService.GetReferenceRangeIsBest | app/services/rag_service.py:104-115 | the chosen range has priority no larger than any applicable range, and on equal priority trust no smaller |
| RagService.GetReferenceRangeApplies | app/services/rag_service.py:85-132 | the result is the joined row of a stored range that passes the filters and has a source: every column copied, with the trust of that source |
| RagService.GetReferenceRangeIsMinimal | app/services/rag_service.py:104-132 | the result is the row of an applying range with a source that no other such range precedes under (priority ascending, trust descending) |
| RagService.PriorityBeforeTrust | app/services/rag_service.py:104-115 | priority 1 / trust 3 is chosen over priority 2 / trust 5 in either stored order |
| RagService.GetTestInfo | app/services/rag_service.py:146-168 | a record exactly when the test is found, with `kb_found` true, the test's id and name, the range chosen for sex "Any" and no age, and trust / priority from that range, or 3 and 3 when there is none |
| RagService.GetTestInfoRangeIsAny | app/services/rag_service.py:151 | an attached range is always one stored with sex "Any" |
| RagService.LookupName | app/services/rag_service.py:196 | `normalized_name` when it is present and non-empty, else `test_name` |
| RagService.Enrich | app/services/rag_service.py:199-208 | `kb_found` says whether the lookup found the test, `kb_info` is set only when it did, and every other key is kept |
| RagService.EnrichResult | app/services/rag_service.py:196-208 | the loop body yields exactly the enriched copy of one result |
| RagService.EnrichedAt | app/services/rag_service.py:193-212 | the list built by `batch_lookup` has one entry per result, and entry i is result i enriched |
| RagService.BatchLookup | app/services/rag_service.py:193-212 | the loop appends the enriched results in input order, none dropped or added |
| Wrappers.MapSeq | app/services/rag_service.py:193-212 | applying a function to every element keeps the length |
| Wrappers.MapSeqAt | app/services/rag_service.py:193-212 | element i of the mapped list is the function applied to element i |
| Wrappers.MapSeqSnoc | app/services/rag_service.py:198-210 | handling one more element appends its image, as one loop iteration does |
| ClassificationService.ShowOpt | app/services/classification_service.py:63-67 | a present string is shown as it is |
| ClassificationService.RangeDisplay | app/services/classification_service.py:62-69 | "low - high unit", "> low unit" or "< high unit" by which bounds are present; with neither, the range's `ref_text`, which may be None |
| ClassificationService.ClassifyResult | app/services/classification_service.py:26-69 | UNKNOWN exactly when not found, no range or no value, with the reason of the first failing check and no other key changed; otherwise the class of `classify_value`, with bounds, unit and display copied from the range and every other key kept |
| ClassificationService.UnboundedRangeIsNormal | app/services/classification_service.py:54-69 | a range with neither bound still gives NORMAL, displayed by its `ref_text` |
| ClassificationService.ClassifyResultIdempotent | app/services/classification_service.py:26-69 | classifying a classified result again changes nothing |
| ClassificationService.ClassifyBatch | app/services/classification_service.py:88 | same length and order; element i is result i classified |
| OpenAIService.FenceSegment | app/services/openai_service.py:104 | `split("```")[1]`: the text after the opening fence up to the next fence or the end, with no fence inside it |
| OpenAIService.DropJsonTag | app/services/openai_service.py:105-106 | a leading "json" is removed, and nothing else |
| OpenAIService.CleanReply | app/services/openai_service.py:97-107 | the result is stripped; an unfenced reply is only stripped; a fenced reply gives the stripped first segment between fences without its leading "json", a slice of that segment with no fence in it |
| OpenAIService.NoFenceAfterCleaning | app/services/openai_service.py:104-107 | removing the tag and stripping cannot bring a fence back |
| OpenAIService.Clamp01 | app/services/openai_service.py:301 | the result lies in [0, 1] and equals the input when the input does |
| OpenAIService.TestScore | app/services/openai_service.py:283-306 | a result's contribution lies in [0, 1] for draws in their bounds; an unmatched result contributes its draw |
| OpenAIService.QualityScore | app/services/openai_service.py:288-297 | for trust and priority in 1..5 the weighted score lies in [0.08, 1], and is 1 exactly for trust 5 and priority 1 |
| OpenAIService.QualityScoreMonotone | app/services/openai_service.py:288-297 | more trust or a smaller priority never lowers the score |
| OpenAIService.TotalScore | app/services/openai_service.py:282-306 | the accumulated score starts at 0 and, for draws in their bounds, lies between 0 and the number of results |
| OpenAIService.LevelOf | app/services/openai_service.py:322-327 | always one of LOW / MEDIUM / HIGH |
| OpenAIService.LevelOfMonotone | app/services/openai_service.py:322-327 | a higher score never gets a lower level |
| OpenAIService.FinalScore | app/services/openai_service.py:309-319 | `max(kb_base, blended)`: at least the base and at least 40% match rate plus 60% mean score, and equal to one of the two |
| OpenAIService.FinalScoreAtLeastBase | app/services/openai_service.py:309-319 | the final score is at least 0.20 |
| OpenAIService.FinalScoreAtMostOne | app/services/openai_service.py:309-319 | the final score is at most 1 when there are no more matches than results |
| OpenAIService.CalculateConfidence | app/services/openai_service.py:261-333 | no results give score 0, level NONE and "No tests extracted"; no match gives LOW with a score in [0.40, 0.50]; otherwise the blended score with the level it decides and "Knowledge Base (m/n …)"; a score of at least 0.20, and at most 1 when there are no more matches than results |
| LabService.KbFoundCount | app/services/lab_service.py:149 | the count of matched results is at most the number of results |
| LabService.KbFoundCountZero | app/services/lab_service.py:91-93 | the count is 0 exactly when no result has a truthy `kb_found` (used at line 149) |
| LabService.CountClass | app/services/lab_service.py:152-155 | a class count is at most the number of results |
| LabService.ClassCountsSum | app/services/lab_service.py:152-155 | the four class counts add up to at most the number of results, and to exactly that when every result is classified |
| LabService.ReferenceRangeOrDefault | app/services/lab_service.py:165 | "N/A" only for a missing key; a stored None stays None |
| LabService.FormatTest | app/services/lab_service.py:160-170 | the result's fields, a present explanation copied, with "N/A", "", False and "" / "" defaults for missing keys |
| LabService.OcrConfidenceLevel | app/services/lab_service.py:173-178 | HIGH exactly from 0.8, MEDIUM exactly in [0.6, 0.8), LOW exactly below 0.6 |
| LabService.KbMatchRate | app/services/lab_service.py:185 | "0%" exactly when there are no tests, otherwise a percentage in [0, 100] that is 100 when every test matched |
| LabService.FormatResults | app/services/lab_service.py:148-203 | total and matched counts, the match rate, the four class counts, the OCR level, the `tests` list element-wise in order, the disclaimer, and the OCR text only in debug mode |
| LabService.OverallSummary | app/services/lab_service.py:91-98 | the fixed fallback text exactly when no result has `kb_found`, the generated summary otherwise |
| ParsingService.ResultOf | app/services/parsing_service.py:66-90 | a kept match gives the stripped name (two or more characters, not all digits), its normal form, the parsed value, the canonical unit and the line |
| ParsingService.TryPatterns | app/services/parsing_service.py:63-92 | None exactly when no pattern's match is kept; otherwise the result of the first pattern whose match is kept |
| ParsingService.ParseLine | app/services/parsing_service.py:54-92 | the loop with `continue` returns what the first kept match yields, or None |
| ParsingService.ParseOne | app/services/parsing_service.py:31-38 | a stripped line shorter than 5 yields nothing; a longer one yields exactly what `_parse_line` returns for it, one result or none, with the stripped line as `raw_line` |
| ParsingService.ParseLines | app/services/parsing_service.py:28-38 | no more results than lines, each from a stripped line of at least 5 characters |
| ParsingService.KeptAfterAppend | app/services/parsing_service.py:37-38 | appending what one line yields keeps every result one from a kept, stripped line |
| ParsingService.ParseLinesSnoc | app/services/parsing_service.py:30-38 | one more line adds exactly its own results after those of the lines before it |
| ParsingService.ParseLinesPrefix | app/services/parsing_service.py:28-38 | the results of the first m lines are a prefix of the results of all lines: line order is kept |
| ParsingService.ParseLinesAt | app/services/parsing_service.py:28-38 | a line that yields a result contributes it to the report, right after the results of the lines before it |
| ParsingService.ParseLabReport | app/services/parsing_service.py:27-41 | the loop over the '\n'-split lines yields the results of the kept lines in line order |
| ParsingService.CleanTestName | app/services/parsing_service.py:104-110 | no leading whitespace, no run of two whitespace characters, no trailing '.', ':', ',' or ';' |
| FileUtils.LastIndexOf | app/utils/file_utils.py:32 | the last position of the character, None exactly when it does not occur |
| FileUtils.PathName | app/utils/file_utils.py:32 | `Path(p).name` holds no '/', is not ".", and is "" or one of the '/'-separated parts |
| FileUtils.LastProperPart | app/utils/file_utils.py:32 | the chosen part holds no '/', is not ".", and is "" or one of the parts |
| FileUtils.LastProperPartIsLast | app/utils/file_utils.py:32 | the name is "" exactly when every part is "" or "."; otherwise it is a part after which every part is "" or "." |
| FileUtils.Suffix | app/utils/file_utils.py:32 | `Path(…).suffix` is empty or a '.' followed by at least one character, with no further '.' and no '/' |
| FileUtils.ValidateFile | app/utils/file_utils.py:28-37 | too large exactly when the content exceeds the maximum (the size check wins); valid exactly when within the size and the lowercased suffix is .pdf, .png, .jpg or .jpeg; otherwise the rejected suffix is reported |
| FileUtils.IsPdf | app/utils/file_utils.py:80-82 | true exactly when the lowercased suffix is ".pdf"; such a name has a four-character suffix that uploads allow |
| FileUtils.PdfIsAllowed | app/utils/file_utils.py:80-82 | a PDF name within the size limit is valid (extension check at line 33) |
| FileUtils.NoSuffixRejected | app/utils/file_utils.py:32-35 | a name without a proper suffix is rejected with the empty suffix |
| FileUtils.UpperCasePdfExample | app/utils/file_utils.py:80-82 | "x.PDF" is a PDF |
| InitDb.TextOr | app/db/init_db.py:50-55 | `row.get(col, default)` of a text column: the default only for a missing column (and lines 109-118) |
| InitDb.Trunc | app/db/init_db.py:90-104 | `int()` of a float truncates toward zero |
| InitDb.TruncTowardZero | app/db/init_db.py:90 | 2.9 gives 2, -2.9 gives -2, -0.5 gives 0 |
| InitDb.SafeFloat | app/db/init_db.py:76-83 | None for NA, the number for a number, `float` of the text otherwise (None when it does not parse) |
| InitDb.SafeInt | app/db/init_db.py:85-92 | the default when the float conversion fails, otherwise the truncated float |
| InitDb.SourceOf | app/db/init_db.py:31-38 | id and name copied; trust 3 when missing, else the truncated value; year None exactly when missing |
| InitDb.TestOf | app/db/init_db.py:47-56 | id and canonical name copied; short name and description "" for a missing column |
| InitDb.RangeTestId | app/db/init_db.py:100-104 | 999 for a missing test id, otherwise the truncated id |
| InitDb.RangeOf | app/db/init_db.py:106-121 | test id as above; bounds and ages through `safe_float`; priority 1 when missing or unparseable, else truncated; year through `safe_int`; sex "Any" and value type "numeric" for missing columns |
| InitDb.SynonymOf | app/db/init_db.py:132-137 | ids and text copied; source id None exactly when missing |
| InitDb.MissingTestIds | app/db/init_db.py:97-102 | never more than the number of rows |
| InitDb.MissingTestIdsCount | app/db/init_db.py:97-102 | `placeholder_count` is the number of rows whose test id is missing |
| InitDb.RangesOf | app/db/init_db.py:98-122 | one range per row, in row order, none dropped |
| InitDb.RangeRowsSnoc | app/db/init_db.py:97-123 | one more range row appends its range, with the next id, and adds one to the placeholder count exactly when its test id is missing |
| InitDb.TestsWithPlaceholder | app/db/init_db.py:62-73 | test 999 exists afterwards; the placeholder is added only when no test 999 was loaded |
| InitDb.HasPlaceholder | app/db/init_db.py:63 | true exactly when some test has id 999 |
| InitDb.KnowledgeStore.constructor | app/db/init_db.py:17 | all four tables start empty |
| InitDb.KnowledgeStore.Snapshot | app/db/init_db.py:17 | the tables as a knowledge-base value, field for field |
| InitDb.KnowledgeStore.LoadCsvData | app/db/init_db.py:21-138 | nothing changes when a test exists; otherwise one source, test, range and synonym is appended per row in order, the placeholder follows the tests unless test 999 was loaded, and the placeholder count is reported |
| InitDb.KnowledgeStore.AddSources | app/db/init_db.py:30-39 | the sources table gains the converted rows in order; the other tables are unchanged |
| InitDb.KnowledgeStore.AddTests | app/db/init_db.py:46-57 | the tests table gains the converted rows in order; the other tables are unchanged |
| InitDb.KnowledgeStore.AddRanges | app/db/init_db.py:97-123 | the ranges table gains one range per row, numbered on, and the count of missing test ids is returned; the other tables are unchanged |
| InitDb.KnowledgeStore.AddSynonyms | app/db/init_db.py:131-138 | the synonyms table gains the converted rows in order; the other tables are unchanged |

## Left out

- OCR (PaddleOCR, OpenCV) and its confidence averaging: image processing, outside the decision logic; the OCR confidence is an input.
- The language-model calls (langchain / ChatOpenAI, the Ollama client, the summary prompts, `json.loads` of the reply): network I/O; the generated summary is an input of `LabService.OverallSummary`.
- Regular-expression search, Python's `float()` on text and `str()` of a float: the parameters `search`, `parseFloat` and `realStr`, with no properties assumed beyond their types.
- OpenAIService.CalculateConfidence: the score is the unrounded one; `round(…, 2)` is not modelled (floating-point rounding), and the random draws are bounded parameters.
- LabService.FormatResults: the OCR confidence is not rounded, and the match rate is the number behind the "x.x%" text, not the text itself.
- FileUtils.ValidateFile: reports the maximum size and the rejected suffix, not the message strings ("x.xMB" formatting, the order of the joined allowed set).
- Text.Lower and ParsingService.IsDigits: ASCII-only `lower()` and `isdigit()`; Unicode case mapping and digits beyond '0'-'9' are not modelled.
- MedicalUtils.CleanNumeric: keeps only the ASCII digits '0'-'9'; the pattern's `\d` on a Python 3 string also keeps every other Unicode decimal digit, which `float()` accepts, and the model drops them.
- FileUtils.PathName: paths are POSIX paths split at '/'; a Windows path with '\\' separators or a drive is not modelled.
- SQL `LIKE` with '%' or '_' inside the searched name: modelled as a plain case-insensitive substring test.
- The row order of SQL queries is unspecified; `.first()` and ties in the range ordering take stored order.
- RagService.BatchLookup: requires every result to have a name; in the source a result with neither name makes `normalize_test_name(None)` raise.
- RagService.GetReferenceRange: assumes source ids identify a source, as the primary key guarantees; the join takes the first source with that id.
- InitDb.KnowledgeStore.LoadCsvData: range ids follow on from the stored ranges, as the autoincrement key assigns them; `int()` of an infinite value (an error in Python) is not modelled; pandas reading, the session, its commits and the progress messages are left out.
- InitDb.KnowledgeStore.LoadCsvData: covers only a load in which every insert and commit succeeds; the source can fail part-way (for example a duplicate primary key in the tests file raises at that table's commit after the sources were already committed) and then rolls back the open transaction and re-raises, while the model always completes and appends rows with duplicate ids without complaint.
- The `trust_level` and `source_priority` columns are nullable in app/db/models.py but non-null `int` fields here; the loader always fills them (trust 3, priority 1 by default).
- `parse_test_line` in app/utils/medical_utils.py: not modelled; reports are parsed by `ParsingService._parse_line`.
- `get_all_test_names`: only feeds the language-model prompt.
- app/services/stats_service.py, the FastAPI routes, pydantic models, settings beyond the two OCR thresholds, and the developer scripts: SQL aggregates and framework glue.
- The asynchronous orchestration, timing and logging of `process_report`, and `pdf_to_images`, `bytes_to_image` and `save_temp_image`: I/O.
