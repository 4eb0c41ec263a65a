/**
 * Unit and test-name normalisation and the LOW/NORMAL/HIGH rule
 * (`MedicalUtils` in app/utils/medical_utils.py).
 */
module MedicalUtils {
  import opened Wrappers
  import opened Text
  import opened Records

  /** Lower-cased unit spellings and their canonical form. */
  const UnitConversions: map<string, string> := map[
    "g/dl" := "g/dL",
    "g/l" := "g/L",
    "mg/dl" := "mg/dL",
    "mmol/l" := "mmol/L",
    "umol/l" := "\U{03BC}mol/L",
    "iu/l" := "IU/L",
    "u/l" := "U/L",
    "pg/ml" := "pg/mL",
    "ng/ml" := "ng/mL",
    "ng/dl" := "ng/dL"
  ]

  /** Abbreviations of test names and their expansion. */
  const TermSynonyms: map<string, string> := map[
    "hb" := "hemoglobin",
    "hgb" := "hemoglobin",
    "wbc" := "white blood cell count",
    "rbc" := "red blood cell count",
    "plt" := "platelet count",
    "mcv" := "mean corpuscular volume",
    "mch" := "mean corpuscular hemoglobin",
    "mchc" := "mean corpuscular hemoglobin concentration",
    "esr" := "erythrocyte sedimentation rate",
    "crp" := "c-reactive protein",
    "alt" := "alanine aminotransferase",
    "ast" := "aspartate aminotransferase",
    "alp" := "alkaline phosphatase",
    "ggt" := "gamma-glutamyl transferase",
    "ldl" := "ldl cholesterol",
    "hdl" := "hdl cholesterol",
    "tsh" := "thyroid stimulating hormone",
    "ft4" := "free thyroxine",
    "ft3" := "free triiodothyronine",
    "hba1c" := "hemoglobin a1c",
    "a1c" := "hemoglobin a1c"
  ]

  /** `unit.lower().strip()`, the key looked up in `UnitConversions`. */
  function UnitKey(unit: string): string {
    Strip(Lower(unit))
  }

  /** `normalize_unit`: the canonical spelling of a known unit, else the input untouched. */
  function NormalizeUnit(unit: string): (r: string)
    ensures UnitKey(unit) in UnitConversions ==> r == UnitConversions[UnitKey(unit)]
    ensures UnitKey(unit) !in UnitConversions ==> r == unit
  {
    var key := UnitKey(unit);
    if key in UnitConversions then UnitConversions[key] else unit
  }

  /** `test_name.lower().strip()` with its whitespace runs collapsed: the key looked up in `TermSynonyms`. */
  function NameKey(testName: string): string {
    Collapse(Strip(Lower(testName)))
  }

  /** A string that `NameKey` leaves as it is: lower case, stripped, single plain spaces. */
  predicate IsNameKey(s: string) {
    NoUpper(s) && IsStripped(s) && IsCollapsed(s)
  }

  /** `normalize_test_name`: the expansion of a known abbreviation, else the key itself. */
  function NormalizeTestName(testName: string): (r: string)
    ensures IsNameKey(NameKey(testName))
    ensures NameKey(testName) in TermSynonyms ==> r == TermSynonyms[NameKey(testName)]
    ensures NameKey(testName) !in TermSynonyms ==> r == NameKey(testName)
  {
    NameKeyIsNameKey(testName);
    var key := NameKey(testName);
    if key in TermSynonyms then TermSynonyms[key] else key
  }

  lemma NameKeyIsNameKey(s: string)
    ensures IsNameKey(NameKey(s))
  {
    var stripped := Strip(Lower(s));
    StripKeepsNoUpper(Lower(s));
    CollapseKeepsNoUpper(stripped);
    CollapseKeepsStripped(stripped);
    CollapseIsCollapsed(stripped);
  }

  /** A string already in key form is its own key. */
  lemma NameKeyOfNameKey(s: string)
    requires IsNameKey(s)
    ensures NameKey(s) == s
  {
    LowerOfNoUpper(s);
    StripOfStripped(s);
    CollapseOfCollapsed(s);
  }

  /** A non-empty run of characters that are neither upper case nor whitespace. */
  predicate IsWord(w: string) {
    w != [] && forall i :: 0 <= i < |w| ==> !IsSpace(w[i]) && !IsUpper(w[i])
  }

  lemma WordIsNameKey(w: string)
    requires IsWord(w)
    ensures IsNameKey(w)
  {
  }

  lemma AppendWord(a: string, w: string, r: string)
    requires IsNameKey(a) && a != [] && IsWord(w) && r == a + " " + w
    ensures IsNameKey(r) && r != []
  {
    forall i | 0 <= i < |r| - 1 ensures !(IsSpace(r[i]) && IsSpace(r[i + 1])) {
      if i > |a| { assert r[i] == w[i - |a| - 1]; }
    }
  }

  lemma Phrase2(w1: string, w2: string, r: string)
    requires IsWord(w1) && IsWord(w2) && r == w1 + " " + w2
    ensures IsNameKey(r)
  {
    AppendWord(w1, w2, r);
  }

  lemma Phrase3(w1: string, w2: string, w3: string, r: string)
    requires IsWord(w1) && IsWord(w2) && IsWord(w3) && r == w1 + " " + w2 + " " + w3
    ensures IsNameKey(r)
  {
    AppendWord(w1, w2, w1 + " " + w2);
    AppendWord(w1 + " " + w2, w3, r);
  }

  lemma Phrase4(w1: string, w2: string, w3: string, w4: string, r: string)
    requires IsWord(w1) && IsWord(w2) && IsWord(w3) && IsWord(w4)
    requires r == w1 + " " + w2 + " " + w3 + " " + w4
    ensures IsNameKey(r)
  {
    Phrase3(w1, w2, w3, w1 + " " + w2 + " " + w3);
    AppendWord(w1 + " " + w2 + " " + w3, w4, r);
  }

  lemma KeyFormHb()
    ensures IsNameKey("hemoglobin")
  {
    WordIsNameKey("hemoglobin");
  }

  lemma KeyFormWbc()
    ensures IsNameKey("white blood cell count")
  {
    assert IsWord("white") && IsWord("blood") && IsWord("cell") && IsWord("count") by {}
    assert "white blood cell count" == "white" + " " + "blood" + " " + "cell" + " " + "count" by {}
    Phrase4("white", "blood", "cell", "count", "white blood cell count");
  }

  lemma KeyFormRbc()
    ensures IsNameKey("red blood cell count")
  {
    assert IsWord("red") && IsWord("blood") && IsWord("cell") && IsWord("count") by {}
    assert "red blood cell count" == "red" + " " + "blood" + " " + "cell" + " " + "count" by {}
    Phrase4("red", "blood", "cell", "count", "red blood cell count");
  }

  lemma KeyFormPlt()
    ensures IsNameKey("platelet count")
  {
    assert IsWord("platelet") && IsWord("count") by {}
    assert "platelet count" == "platelet" + " " + "count" by {}
    Phrase2("platelet", "count", "platelet count");
  }

  lemma KeyFormMcv()
    ensures IsNameKey("mean corpuscular volume")
  {
    assert IsWord("mean") && IsWord("corpuscular") && IsWord("volume") by {}
    assert "mean corpuscular volume" == "mean" + " " + "corpuscular" + " " + "volume" by {}
    Phrase3("mean", "corpuscular", "volume", "mean corpuscular volume");
  }

  lemma KeyFormMch()
    ensures IsNameKey("mean corpuscular hemoglobin")
  {
    assert IsWord("mean") && IsWord("corpuscular") && IsWord("hemoglobin") by {}
    assert "mean corpuscular hemoglobin" == "mean" + " " + "corpuscular" + " " + "hemoglobin" by {}
    Phrase3("mean", "corpuscular", "hemoglobin", "mean corpuscular hemoglobin");
  }

  lemma KeyFormMchc()
    ensures IsNameKey("mean corpuscular hemoglobin concentration")
  {
    KeyFormMch();
    assert IsWord("concentration");
    AppendWord("mean corpuscular hemoglobin", "concentration", "mean corpuscular hemoglobin concentration");
  }

  lemma KeyFormEsr()
    ensures IsNameKey("erythrocyte sedimentation rate")
  {
    assert IsWord("erythrocyte") && IsWord("sedimentation") && IsWord("rate") by {}
    assert "erythrocyte sedimentation rate" == "erythrocyte" + " " + "sedimentation" + " " + "rate" by {}
    Phrase3("erythrocyte", "sedimentation", "rate", "erythrocyte sedimentation rate");
  }

  lemma KeyFormCrp()
    ensures IsNameKey("c-reactive protein")
  {
    assert IsWord("c-reactive") && IsWord("protein") by {}
    assert "c-reactive protein" == "c-reactive" + " " + "protein" by {}
    Phrase2("c-reactive", "protein", "c-reactive protein");
  }

  lemma KeyFormAlt()
    ensures IsNameKey("alanine aminotransferase")
  {
    assert IsWord("alanine") && IsWord("aminotransferase") by {}
    assert "alanine aminotransferase" == "alanine" + " " + "aminotransferase" by {}
    Phrase2("alanine", "aminotransferase", "alanine aminotransferase");
  }

  lemma KeyFormAst()
    ensures IsNameKey("aspartate aminotransferase")
  {
    assert IsWord("aspartate") && IsWord("aminotransferase") by {}
    assert "aspartate aminotransferase" == "aspartate" + " " + "aminotransferase" by {}
    Phrase2("aspartate", "aminotransferase", "aspartate aminotransferase");
  }

  lemma KeyFormAlp()
    ensures IsNameKey("alkaline phosphatase")
  {
    assert IsWord("alkaline") && IsWord("phosphatase") by {}
    assert "alkaline phosphatase" == "alkaline" + " " + "phosphatase" by {}
    Phrase2("alkaline", "phosphatase", "alkaline phosphatase");
  }

  lemma KeyFormGgt()
    ensures IsNameKey("gamma-glutamyl transferase")
  {
    assert IsWord("gamma-glutamyl") && IsWord("transferase") by {}
    assert "gamma-glutamyl transferase" == "gamma-glutamyl" + " " + "transferase" by {}
    Phrase2("gamma-glutamyl", "transferase", "gamma-glutamyl transferase");
  }

  lemma KeyFormLdl()
    ensures IsNameKey("ldl cholesterol")
  {
    assert IsWord("ldl") && IsWord("cholesterol") by {}
    assert "ldl cholesterol" == "ldl" + " " + "cholesterol" by {}
    Phrase2("ldl", "cholesterol", "ldl cholesterol");
  }

  lemma KeyFormHdl()
    ensures IsNameKey("hdl cholesterol")
  {
    assert IsWord("hdl") && IsWord("cholesterol") by {}
    assert "hdl cholesterol" == "hdl" + " " + "cholesterol" by {}
    Phrase2("hdl", "cholesterol", "hdl cholesterol");
  }

  lemma KeyFormTsh()
    ensures IsNameKey("thyroid stimulating hormone")
  {
    assert IsWord("thyroid") && IsWord("stimulating") && IsWord("hormone") by {}
    assert "thyroid stimulating hormone" == "thyroid" + " " + "stimulating" + " " + "hormone" by {}
    Phrase3("thyroid", "stimulating", "hormone", "thyroid stimulating hormone");
  }

  lemma KeyFormFt4()
    ensures IsNameKey("free thyroxine")
  {
    assert IsWord("free") && IsWord("thyroxine") by {}
    assert "free thyroxine" == "free" + " " + "thyroxine" by {}
    Phrase2("free", "thyroxine", "free thyroxine");
  }

  lemma KeyFormFt3()
    ensures IsNameKey("free triiodothyronine")
  {
    assert IsWord("free") && IsWord("triiodothyronine") by {}
    assert "free triiodothyronine" == "free" + " " + "triiodothyronine" by {}
    Phrase2("free", "triiodothyronine", "free triiodothyronine");
  }

  lemma KeyFormHba1c()
    ensures IsNameKey("hemoglobin a1c")
  {
    assert IsWord("hemoglobin") && IsWord("a1c") by {}
    assert "hemoglobin a1c" == "hemoglobin" + " " + "a1c" by {}
    Phrase2("hemoglobin", "a1c", "hemoglobin a1c");
  }

  lemma ExpansionsInKeyForm1(k: string)
    requires k == "hb" || k == "hgb" || k == "wbc" || k == "rbc"
    ensures k in TermSynonyms && IsNameKey(TermSynonyms[k]) && |TermSynonyms[k]| > 5
  {
    if k == "hb" || k == "hgb" { KeyFormHb(); }
    else if k == "wbc" { KeyFormWbc(); }
    else { KeyFormRbc(); }
  }

  lemma ExpansionsInKeyForm2(k: string)
    requires k == "plt" || k == "mcv" || k == "mch" || k == "mchc"
    ensures k in TermSynonyms && IsNameKey(TermSynonyms[k]) && |TermSynonyms[k]| > 5
  {
    if k == "plt" { KeyFormPlt(); }
    else if k == "mcv" { KeyFormMcv(); }
    else if k == "mch" { KeyFormMch(); }
    else { KeyFormMchc(); }
  }

  lemma ExpansionsInKeyForm3(k: string)
    requires k == "esr" || k == "crp" || k == "alt" || k == "ast"
    ensures k in TermSynonyms && IsNameKey(TermSynonyms[k]) && |TermSynonyms[k]| > 5
  {
    if k == "esr" { KeyFormEsr(); }
    else if k == "crp" { KeyFormCrp(); }
    else if k == "alt" { KeyFormAlt(); }
    else { KeyFormAst(); }
  }

  lemma ExpansionsInKeyForm4(k: string)
    requires k == "alp" || k == "ggt" || k == "ldl" || k == "hdl"
    ensures k in TermSynonyms && IsNameKey(TermSynonyms[k]) && |TermSynonyms[k]| > 5
  {
    if k == "alp" { KeyFormAlp(); }
    else if k == "ggt" { KeyFormGgt(); }
    else if k == "ldl" { KeyFormLdl(); }
    else { KeyFormHdl(); }
  }

  lemma ExpansionsInKeyForm5(k: string)
    requires k == "tsh" || k == "ft4" || k == "ft3" || k == "hba1c" || k == "a1c"
    ensures k in TermSynonyms && IsNameKey(TermSynonyms[k]) && |TermSynonyms[k]| > 5
  {
    if k == "tsh" { KeyFormTsh(); }
    else if k == "ft4" { KeyFormFt4(); }
    else if k == "ft3" { KeyFormFt3(); }
    else { KeyFormHba1c(); }
  }

  /** Every expansion in `TermSynonyms` is in key form, and longer than any abbreviation. */
  lemma ExpansionIsNameKey(k: string)
    requires k in TermSynonyms
    ensures IsNameKey(TermSynonyms[k]) && |TermSynonyms[k]| > 5
  {
    if k == "hb" || k == "hgb" || k == "wbc" || k == "rbc" { ExpansionsInKeyForm1(k); }
    else if k == "plt" || k == "mcv" || k == "mch" || k == "mchc" { ExpansionsInKeyForm2(k); }
    else if k == "esr" || k == "crp" || k == "alt" || k == "ast" { ExpansionsInKeyForm3(k); }
    else if k == "alp" || k == "ggt" || k == "ldl" || k == "hdl" { ExpansionsInKeyForm4(k); }
    else { ExpansionsInKeyForm5(k); }
  }

  /** Every abbreviation in `TermSynonyms` has at most five characters. */
  lemma AbbreviationsAreShort()
    ensures forall k :: k in TermSynonyms ==> |k| <= 5
  {
  }

  /** No expansion in `TermSynonyms` is itself an abbreviation. */
  lemma ExpansionIsNotAbbreviation(k: string)
    requires k in TermSynonyms
    ensures TermSynonyms[k] !in TermSynonyms
  {
    ExpansionIsNameKey(k);
    AbbreviationsAreShort();
  }

  /** Normalising a normalised name changes nothing. */
  lemma NormalizeTestNameIdempotent(testName: string)
    ensures NormalizeTestName(NormalizeTestName(testName)) == NormalizeTestName(testName)
  {
    var key := NameKey(testName);
    var r := NormalizeTestName(testName);
    if key in TermSynonyms {
      ExpansionIsNameKey(key);
      ExpansionIsNotAbbreviation(key);
      NameKeyOfNameKey(r);
    } else {
      NameKeyOfNameKey(key);
    }
  }

  /** "  HB " is looked up as "hb" and expands to "hemoglobin". */
  lemma NormalizeTestNameExample()
    ensures NormalizeTestName("  HB ") == "hemoglobin"
  {
    ExampleKeySteps();
    assert NameKey("  HB ") == "hb";
  }

  lemma ExampleKeySteps()
    ensures Strip(Lower("  HB ")) == "hb"
    ensures Collapse("hb") == "hb"
  {
    ExampleLower();
    ExampleStrip();
    assert Collapse("hb") == "hb";
  }

  lemma ExampleLower()
    ensures Lower("  HB ") == "  hb "
  {
  }

  lemma ExampleStrip()
    ensures Strip("  hb ") == "hb"
  {
    assert Strip("hb") == "hb";
    assert Strip("hb ") == "hb";
    assert Strip(" hb ") == "hb";
  }

  /** Characters kept by the pattern `[^\d.\-+]`-removal. */
  predicate IsNumericChar(c: char) {
    IsDigit(c) || c == '.' || c == '-' || c == '+'
  }

  predicate AllNumericChars(s: string) {
    forall i :: 0 <= i < |s| ==> IsNumericChar(s[i])
  }

  /**
   * The cleaning step of `extract_numeric_value`: drop every character that
   * is not a digit, '.', '-' or '+'. `CleanNumericChar` and
   * `CleanNumericAppend` together fix the result of every string.
   */
  function CleanNumeric(s: string): (r: string)
    ensures AllNumericChars(r)
    ensures |r| <= |s| && multiset(r) <= multiset(s)
    ensures AllNumericChars(s) ==> r == s
  {
    if s == [] then []
    else
      assert s == [s[0]] + s[1..];
      (if IsNumericChar(s[0]) then [s[0]] else []) + CleanNumeric(s[1..])
  }

  /** A single character is kept exactly when it is a digit, '.', '-' or '+'. */
  lemma CleanNumericChar(c: char)
    ensures CleanNumeric([c]) == (if IsNumericChar(c) then [c] else [])
  {
    assert [c][1..] == [];
  }

  /** Cleaning a non-empty string: its first character if kept, then the cleaned rest. */
  lemma CleanNumericCons(s: string)
    requires s != []
    ensures CleanNumeric(s) == (if IsNumericChar(s[0]) then [s[0]] else []) + CleanNumeric(s[1..])
  {
  }

  /** Cleaning works character by character: cleaning a concatenation concatenates the cleaned parts. */
  lemma {:induction false} CleanNumericAppend(a: string, b: string)
    ensures CleanNumeric(a + b) == CleanNumeric(a) + CleanNumeric(b)
    decreases |a|
  {
    if a == [] {
      assert a + b == b;
    } else {
      var ab := a + b;
      assert ab[0] == a[0] && ab[1..] == a[1..] + b;
      CleanNumericCons(a);
      CleanNumericCons(ab);
      CleanNumericAppend(a[1..], b);
    }
  }

  /** A string with no digit, '.', '-' or '+' cleans to the empty string. */
  lemma {:induction false} CleanNumericNone(s: string)
    requires forall i :: 0 <= i < |s| ==> !IsNumericChar(s[i])
    ensures CleanNumeric(s) == []
    decreases |s|
  {
    if s != [] {
      assert forall i :: 0 <= i < |s[1..]| ==> s[1..][i] == s[i + 1];
      CleanNumericNone(s[1..]);
    }
  }

  /** `extract_numeric_value`, with Python's `float()` on the cleaned string as the oracle `parseFloat`. */
  function ExtractNumericValue(valueStr: string, parseFloat: string -> Option<real>): (r: Option<real>)
    ensures r == parseFloat(CleanNumeric(valueStr))
    ensures AllNumericChars(valueStr) ==> r == parseFloat(valueStr)
    ensures AllNumericChars(CleanNumeric(valueStr))
  {
    parseFloat(CleanNumeric(valueStr))
  }

  /** A number followed by a unit that has no digit, '.', '-' or '+' is read as the number alone. */
  lemma CleanNumericNumberThenUnit(num: string, unit: string)
    requires AllNumericChars(num)
    requires forall i :: 0 <= i < |unit| ==> !IsNumericChar(unit[i])
    ensures CleanNumeric(num + unit) == num
  {
    CleanNumericNone(unit);
    CleanNumericAppend(num, unit);
  }





  /** `classify_value`: LOW below a present lower bound, else HIGH above a present upper bound, else NORMAL. */
  function ClassifyValue(value: real, refLow: Option<real>, refHigh: Option<real>): (r: Classification)
    ensures r != Unknown
    ensures r == Low <==> refLow.Some? && value < refLow.value
    ensures r == High <==> !(refLow.Some? && value < refLow.value) && refHigh.Some? && value > refHigh.value
  {
    if refLow.Some? && value < refLow.value then Low
    else if refHigh.Some? && value > refHigh.value then High
    else Normal
  }

  /** The order LOW < NORMAL < HIGH. */
  function Rank(c: Classification): nat {
    match c
    case Low => 0
    case Normal => 1
    case High => 2
    case Unknown => 3
  }

  /** A larger value never gets a lower classification; in particular HIGH never falls back to LOW. */
  lemma ClassifyValueMonotone(v1: real, v2: real, refLow: Option<real>, refHigh: Option<real>)
    requires v1 <= v2
    ensures Rank(ClassifyValue(v1, refLow, refHigh)) <= Rank(ClassifyValue(v2, refLow, refHigh))
  {
  }

  /** Every value inside the (inclusive) bounds is NORMAL, and with no bounds every value is. */
  lemma ClassifyValueInRange(value: real, refLow: Option<real>, refHigh: Option<real>)
    requires refLow.Some? ==> refLow.value <= value
    requires refHigh.Some? ==> value <= refHigh.value
    ensures ClassifyValue(value, refLow, refHigh) == Normal
  {
  }

  lemma ClassifyValueExamples()
    ensures ClassifyValue(5.2, Some(4.0), Some(10.0)) == Normal
    ensures ClassifyValue(3.1, Some(4.0), Some(10.0)) == Low
    ensures ClassifyValue(12.0, Some(13.0), Some(17.0)) == Low
    ensures ClassifyValue(10.5, Some(4.0), Some(10.0)) == High
  {
  }

  /** A canonical unit spelling is normalised to itself. */
  lemma NormalizeUnitIdempotent(unit: string)
    ensures NormalizeUnit(NormalizeUnit(unit)) == NormalizeUnit(unit)
  {
    var key := UnitKey(unit);
    if key in UnitConversions {
      CanonicalUnitIsFixed(key);
    }
  }

  /** Every canonical spelling in `UnitConversions` is normalised to itself. */
  lemma CanonicalUnitIsFixed(key: string)
    requires key in UnitConversions
    ensures NormalizeUnit(UnitConversions[key]) == UnitConversions[key]
  {
    if key == "g/dl" || key == "g/l" || key == "mg/dl" { CanonicalUnitsFixed1(key); }
    else if key == "mmol/l" || key == "umol/l" || key == "iu/l" { CanonicalUnitsFixed2(key); }
    else { CanonicalUnitsFixed3(key); }
  }

  lemma CanonicalUnitsFixed1(key: string)
    requires key == "g/dl" || key == "g/l" || key == "mg/dl"
    ensures key in UnitConversions && NormalizeUnit(UnitConversions[key]) == UnitConversions[key]
  {
    if key == "g/dl" { UnitLowered("g/dL", "g/dl"); }
    else if key == "g/l" { UnitLowered("g/L", "g/l"); }
    else { UnitLowered("mg/dL", "mg/dl"); }
  }

  lemma CanonicalUnitsFixed2(key: string)
    requires key == "mmol/l" || key == "umol/l" || key == "iu/l"
    ensures key in UnitConversions && NormalizeUnit(UnitConversions[key]) == UnitConversions[key]
  {
    if key == "mmol/l" { UnitLowered("mmol/L", "mmol/l"); }
    else if key == "umol/l" { UnitLowered("\U{03BC}mol/L", "\U{03BC}mol/l"); }
    else { UnitLowered("IU/L", "iu/l"); }
  }

  lemma CanonicalUnitsFixed3(key: string)
    requires key == "u/l" || key == "pg/ml" || key == "ng/ml" || key == "ng/dl"
    ensures key in UnitConversions && NormalizeUnit(UnitConversions[key]) == UnitConversions[key]
  {
    if key == "u/l" { UnitLowered("U/L", "u/l"); }
    else if key == "pg/ml" { UnitLowered("pg/mL", "pg/ml"); }
    else if key == "ng/ml" { UnitLowered("ng/mL", "ng/ml"); }
    else { UnitLowered("ng/dL", "ng/dl"); }
  }

  /** A canonical spelling `v` whose lower-case form is `lowered`. */
  lemma UnitLowered(v: string, lowered: string)
    requires |v| == |lowered| && IsStripped(lowered)
    requires forall i :: 0 <= i < |v| ==> LowerChar(v[i]) == lowered[i]
    requires lowered in UnitConversions ==> UnitConversions[lowered] == v
    ensures NormalizeUnit(v) == v
  {
    assert Lower(v) == lowered;
    StripOfStripped(lowered);
  }
}
