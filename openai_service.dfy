/**
 * The deterministic parts of `OpenAIService` (app/services/openai_service.py):
 * cleaning the extraction reply of markdown fences, and the confidence score
 * of a report. The language-model calls are not part of this model; the
 * random draws of the score are parameters bounded as `random.uniform` bounds them.
 */
module OpenAIService {
  import opened Wrappers
  import opened Text
  import opened Records

  const Fence := "```"

  /** `c.split("```")[1]` for a `c` that starts with a fence: the text up to the next fence, or to the end. */
  function FenceSegment(c: string): (r: string)
    requires StartsWith(c, Fence)
    ensures 3 + |r| <= |c| && r == c[3..3 + |r|]
    ensures 3 + |r| == |c| || OccursAt(c, Fence, 3 + |r|)
    ensures !Contains(r, Fence)
  {
    match FindFrom(c, Fence, 3)
    case None =>
      NoOccurrenceInSlice(c, Fence, 3, |c|);
      c[3..]
    case Some(j) =>
      NoOccurrenceInSlice(c, Fence, 3, j);
      c[3..j]
  }

  /** A leading "json" language tag is dropped. */
  function DropJsonTag(s: string): (r: string)
    ensures StartsWith(s, "json") ==> s == "json" + r
    ensures !StartsWith(s, "json") ==> r == s
    ensures |r| <= |s| && r == s[|s| - |r|..]
  {
    if StartsWith(s, "json") then s[4..] else s
  }

  /**
   * The reply text handed to `json.loads`: the stripped reply, or, when it
   * opens with a fence, the stripped text between the first two fences
   * without its "json" tag.
   */
  function CleanReply(content: string): (r: string)
    ensures IsStripped(r)
    ensures !StartsWith(Strip(content), Fence) ==> r == Strip(content)
    ensures StartsWith(Strip(content), Fence) ==> r == Strip(DropJsonTag(FenceSegment(Strip(content))))
    ensures StartsWith(Strip(content), Fence) ==> exists i :: IsStripOf(DropJsonTag(FenceSegment(Strip(content))), r, i)
    ensures StartsWith(Strip(content), Fence) ==> !Contains(r, Fence)
  {
    var c := Strip(content);
    if StartsWith(c, Fence) then
      var seg := FenceSegment(c);
      var untagged := DropJsonTag(seg);
      var r := Strip(untagged);
      StripIsStripOf(untagged);
      NoFenceAfterCleaning(seg, untagged, r);
      r
    else c
  }

  lemma NoFenceAfterCleaning(seg: string, untagged: string, r: string)
    requires !Contains(seg, Fence)
    requires |untagged| <= |seg| && untagged == seg[|seg| - |untagged|..]
    requires exists i :: IsStripOf(untagged, r, i)
    ensures !Contains(r, Fence)
  {
    var i :| IsStripOf(untagged, r, i);
    var off := |seg| - |untagged|;
    assert r == seg[off + i..off + i + |r|];
    if Contains(r, Fence) {
      ContainsOfSlice(seg, Fence, off + i, off + i + |r|);
    }
  }

  // ----- Confidence score -----

  datatype ConfidenceLevel = NoLevel | LowLevel | MediumLevel | HighLevel

  /** The `source` label: "No tests extracted", "AI Inference Only (No KB data)", or "Knowledge Base (m/n tests matched)". */
  datatype ConfidenceSource = NoTestsExtracted | AiInferenceOnly | KnowledgeBase(matched: int, total: nat)

  datatype Confidence = Confidence(score: real, level: ConfidenceLevel, source: ConfidenceSource)

  function Clamp01(x: real): (r: real)
    ensures 0.0 <= r <= 1.0
    ensures 0.0 <= x <= 1.0 ==> r == x
  {
    if x < 0.0 then 0.0 else if x > 1.0 then 1.0 else x
  }

  /** The draw a result gets: a jitter in [-0.05, 0.05] when matched, a score in [0.20, 0.25] when not. */
  predicate DrawFits(r: LabResult, d: real) {
    if KbFound(r) then -0.05 <= d <= 0.05 else 0.20 <= d <= 0.25
  }

  predicate DrawsFit(results: seq<LabResult>, draws: seq<real>) {
    |draws| == |results| && forall i :: 0 <= i < |results| ==> DrawFits(results[i], draws[i])
  }

  /** Trust level and source priority of a matched result, 3 when the record lacks them. */
  function TrustOf(r: LabResult): int {
    if r.kbInfo.Some? then r.kbInfo.value.trustLevel else 3
  }

  function PriorityOf(r: LabResult): int {
    if r.kbInfo.Some? then r.kbInfo.value.sourcePriority else 3
  }

  /**
   * 60% normalised trust, 40% inverted normalised priority. With trust and
   * priority in 1..5 the score lies in [0.08, 1], 1 exactly for trust 5 and
   * priority 1.
   */
  function QualityScore(trust: int, priority: int): (q: real)
    ensures 1 <= trust <= 5 && 1 <= priority <= 5 ==> 0.08 <= q <= 1.0
    ensures 1 <= trust <= 5 && 1 <= priority <= 5 ==> (q == 1.0 <==> trust == 5 && priority == 1)
  {
    ((trust - 1) as real / 4.0) * 0.6 + ((6 - priority) as real / 5.0) * 0.4
  }

  /** More trust and a better (smaller) priority never lower the quality score. */
  lemma QualityScoreMonotone(t1: int, p1: int, t2: int, p2: int)
    requires t1 <= t2 && p2 <= p1
    ensures QualityScore(t1, p1) <= QualityScore(t2, p2)
  {
  }

  /** One result's contribution to the total. */
  function TestScore(r: LabResult, d: real): (s: real)
    ensures DrawFits(r, d) ==> 0.0 <= s <= 1.0
    ensures !KbFound(r) ==> s == d
  {
    if KbFound(r) then Clamp01(QualityScore(TrustOf(r), PriorityOf(r)) + d) else d
  }

  /**
   * The total after the loop has seen `results`: the sum of the per-result
   * scores. Every contribution lies in [0, 1], so the total lies in [0, n].
   */
  function TotalScore(results: seq<LabResult>, draws: seq<real>): (t: real)
    requires |draws| == |results|
    ensures results == [] ==> t == 0.0
    ensures DrawsFit(results, draws) ==> 0.0 <= t <= |results| as real
  {
    if results == [] then 0.0
    else
      var n := |results| - 1;
      assert DrawsFit(results, draws) ==> DrawsFit(results[..n], draws[..n]) && DrawFits(results[n], draws[n]) by {
        if DrawsFit(results, draws) {
          forall i | 0 <= i < n ensures DrawFits(results[..n][i], draws[..n][i]) {
            assert DrawFits(results[i], draws[i]);
          }
        }
      }
      TotalScore(results[..n], draws[..n]) + TestScore(results[n], draws[n])
  }

  /** The blended score before it is rounded: at least the random base, otherwise 40% match rate plus 60% mean quality. */
  function FinalScore(results: seq<LabResult>, kbMatches: int, draws: seq<real>, kbBase: real): (f: real)
    requires |draws| == |results| > 0
    ensures var blended := (kbMatches as real / |results| as real) * 0.4
                         + (TotalScore(results, draws) / |results| as real) * 0.6;
      f >= kbBase && f >= blended && (f == kbBase || f == blended)
  {
    var n := |results| as real;
    var blended := (kbMatches as real / n) * 0.4 + (TotalScore(results, draws) / n) * 0.6;
    if kbBase > blended then kbBase else blended
  }

  /** HIGH from 0.70, MEDIUM from 0.50, LOW below. */
  function LevelOf(score: real): (l: ConfidenceLevel)
    ensures l != NoLevel
  {
    if score >= 0.70 then HighLevel else if score >= 0.50 then MediumLevel else LowLevel
  }

  function LevelRank(l: ConfidenceLevel): nat {
    match l
    case NoLevel => 0
    case LowLevel => 1
    case MediumLevel => 2
    case HighLevel => 3
  }

  /** A higher score never gets a lower level. */
  lemma LevelOfMonotone(a: real, b: real)
    requires a <= b
    ensures LevelRank(LevelOf(a)) <= LevelRank(LevelOf(b))
  {
  }

  /** The final score is never below 0.20, whatever the results. */
  lemma FinalScoreAtLeastBase(results: seq<LabResult>, kbMatches: int, draws: seq<real>, kbBase: real)
    requires |draws| == |results| > 0 && 0.20 <= kbBase <= 0.25
    ensures FinalScore(results, kbMatches, draws, kbBase) >= 0.20
  {
  }

  /** With no more matches than results, the final score is at most 1. */
  lemma FinalScoreAtMostOne(results: seq<LabResult>, kbMatches: int, draws: seq<real>, kbBase: real)
    requires DrawsFit(results, draws) && |results| > 0 && 0.20 <= kbBase <= 0.25
    requires kbMatches <= |results|
    ensures FinalScore(results, kbMatches, draws, kbBase) <= 1.0
  {
    var n := |results| as real;
    var t := TotalScore(results, draws);
    assert 0.0 <= t <= n;
    assert kbMatches as real / n <= 1.0;
    assert t / n <= 1.0;
  }

  /**
   * `calculate_confidence`. `draws` are the per-result random draws,
   * `zeroBase` the draw in [0.40, 0.50] used when nothing matched and
   * `kbBase` the base draw in [0.20, 0.25]. The score is the unrounded one.
   */
  method CalculateConfidence(results: seq<LabResult>, kbMatches: int, draws: seq<real>, zeroBase: real, kbBase: real)
    returns (c: Confidence)
    requires DrawsFit(results, draws)
    requires 0.40 <= zeroBase <= 0.50 && 0.20 <= kbBase <= 0.25
    ensures results == [] ==> c == Confidence(0.0, NoLevel, NoTestsExtracted)
    ensures results != [] && kbMatches == 0 ==>
      c.level == LowLevel && c.source == AiInferenceOnly && 0.40 <= c.score <= 0.50
    ensures results != [] && kbMatches != 0 ==>
      c.score == FinalScore(results, kbMatches, draws, kbBase)
      && c.level == LevelOf(c.score) && c.source == KnowledgeBase(kbMatches, |results|)
    ensures results != [] ==> 0.20 <= c.score
    ensures kbMatches <= |results| ==> c.score <= 1.0
  {
    if |results| == 0 {
      return Confidence(0.0, NoLevel, NoTestsExtracted);
    }
    var total := |results|;
    if kbMatches == 0 {
      return Confidence(zeroBase, LowLevel, AiInferenceOnly);
    }
    var totalScore := 0.0;
    for k := 0 to total
      invariant totalScore == TotalScore(results[..k], draws[..k])
    {
      var r := results[k];
      if KbFound(r) {
        var trustScore := (TrustOf(r) - 1) as real / 4.0;
        var priorityScore := (6 - PriorityOf(r)) as real / 5.0;
        var testScore := trustScore * 0.6 + priorityScore * 0.4;
        testScore := Clamp01(testScore + draws[k]);
        totalScore := totalScore + testScore;
      } else {
        totalScore := totalScore + draws[k];
      }
      assert results[..k + 1][..k] == results[..k];
      assert draws[..k + 1][..k] == draws[..k];
    }
    assert results[..total] == results && draws[..total] == draws;
    var avgScore := totalScore / total as real;
    var matchRate := kbMatches as real / total as real;
    var finalScore := matchRate * 0.4 + avgScore * 0.6;
    if kbBase > finalScore {
      finalScore := kbBase;
    }
    FinalScoreAtLeastBase(results, kbMatches, draws, kbBase);
    if kbMatches <= total {
      FinalScoreAtMostOne(results, kbMatches, draws, kbBase);
    }
    var level := if finalScore >= 0.70 then HighLevel else if finalScore >= 0.50 then MediumLevel else LowLevel;
    return Confidence(finalScore, level, KnowledgeBase(kbMatches, total));
  }
}
