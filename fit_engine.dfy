/** FitEngine: the verdict tiers and the evaluation pipeline
    extract -> normalise -> score -> blend -> verdict -> conditional track. */
module Fit {
  import opened Text
  import opened Collections
  import opened SkillExtraction
  import opened Scoring
  import opened LearningPaths

  datatype FitVerdict = StrongFit | ModerateFit | WeakFit

  /** The settings the engine reads: steps per skill and the two thresholds. */
  datatype Settings = Settings(maxStepsPerSkill: int, strongFitThreshold: real, moderateFitThreshold: real)

  const DEFAULT_SETTINGS := Settings(4, 0.7, 0.4)

  datatype EvaluationResponse = EvaluationResponse(
    fitScore: real,
    verdict: FitVerdict,
    matchedSkills: seq<string>,
    missingSkills: seq<string>,
    recommendedLearningTrack: seq<LearningStep>)

  /** _determine_verdict */
  function DetermineVerdict(settings: Settings, score: real): (v: FitVerdict)
    ensures v == StrongFit <==> settings.strongFitThreshold <= score
    ensures v == WeakFit ==> score < settings.moderateFitThreshold
    ensures v == ModerateFit ==> settings.moderateFitThreshold <= score
  {
    if score >= settings.strongFitThreshold then StrongFit
    else if score >= settings.moderateFitThreshold then ModerateFit
    else WeakFit
  }

  /** Tiers ordered from weak (0) to strong (2). */
  function Rank(v: FitVerdict): nat
  {
    match v
    case WeakFit => 0
    case ModerateFit => 1
    case StrongFit => 2
  }

  /** The weighted average of skill coverage and text similarity. */
  function Blend(skillScore: real, textSimilarity: real): (r: real)
    ensures 0.0 <= skillScore <= 1.0 && 0.0 <= textSimilarity <= 1.0 ==> 0.0 <= r <= 1.0
    ensures skillScore == 1.0 && 0.0 <= textSimilarity ==> 0.7 <= r
  {
    skillScore * 0.7 + textSimilarity * 0.3
  }

  /** What evaluate_fit computes once both skill lists are normalised. */
  function Assemble(settings: Settings, catalog: Catalog, resumeSkills: seq<string>, jobSkills: seq<string>,
                    textSimilarity: real): (r: EvaluationResponse)
    ensures r.verdict == DetermineVerdict(settings, r.fitScore)
    ensures 0.0 <= textSimilarity <= 1.0 ==> 0.0 <= r.fitScore <= 1.0
    ensures r.recommendedLearningTrack != [] ==> r.verdict != StrongFit && r.missingSkills != []
    ensures forall x :: x in r.missingSkills ==> x in jobSkills
  {
    var fs := CalculateFitScore(resumeSkills, jobSkills);
    var fitScore := Blend(fs.score, textSimilarity);
    var verdict := DetermineVerdict(settings, fitScore);
    var learningTrack :=
      if verdict != StrongFit && fs.missing != [] then Track(catalog, settings.maxStepsPerSkill, fs.missing)
      else [];
    MissingAreJobSkills(resumeSkills, jobSkills);
    EvaluationResponse(fitScore, verdict, fs.matched, fs.missing, learningTrack)
  }

  // ---------------------------------------------------------------------
  // Verdict

  /** Each tier is the interval of scores the thresholds give it, lower
      bound included, when the moderate threshold does not exceed the strong
      one. */
  lemma VerdictTiers(settings: Settings, score: real)
    requires settings.moderateFitThreshold <= settings.strongFitThreshold
    ensures DetermineVerdict(settings, score) == StrongFit <==> settings.strongFitThreshold <= score
    ensures DetermineVerdict(settings, score) == ModerateFit
            <==> settings.moderateFitThreshold <= score < settings.strongFitThreshold
    ensures DetermineVerdict(settings, score) == WeakFit <==> score < settings.moderateFitThreshold
  {
  }

  /** With the moderate threshold above the strong one, MODERATE_FIT is never given. */
  lemma InvertedThresholdsSkipModerate(settings: Settings, score: real)
    requires settings.moderateFitThreshold > settings.strongFitThreshold
    ensures DetermineVerdict(settings, score) != ModerateFit
  {
  }

  /** A higher score never gives a lower tier. */
  lemma VerdictMonotone(settings: Settings, s1: real, s2: real)
    requires settings.moderateFitThreshold <= settings.strongFitThreshold
    requires s1 <= s2
    ensures Rank(DetermineVerdict(settings, s1)) <= Rank(DetermineVerdict(settings, s2))
  {
  }

  /** Boundaries belong to the higher tier under the default thresholds. */
  lemma DefaultBoundaries()
    ensures DetermineVerdict(DEFAULT_SETTINGS, 0.7) == StrongFit
    ensures DetermineVerdict(DEFAULT_SETTINGS, 0.699) == ModerateFit
    ensures DetermineVerdict(DEFAULT_SETTINGS, 0.4) == ModerateFit
    ensures DetermineVerdict(DEFAULT_SETTINGS, 0.399) == WeakFit
  {
  }

  // ---------------------------------------------------------------------
  // Blend

  /** The blend lies in [0, 1] when both of its inputs do, within 0.3 above
      the weighted skill score. */
  lemma BlendBounds(skillScore: real, textSimilarity: real)
    requires 0.0 <= skillScore <= 1.0 && 0.0 <= textSimilarity <= 1.0
    ensures 0.0 <= Blend(skillScore, textSimilarity) <= 1.0
    ensures Blend(skillScore, textSimilarity) >= 0.7 * skillScore
    ensures Blend(skillScore, textSimilarity) <= 0.7 * skillScore + 0.3
  {
  }

  /** The blend never decreases when either input grows. */
  lemma BlendMonotone(a1: real, a2: real, b1: real, b2: real)
    requires a1 <= a2 && b1 <= b2
    ensures Blend(a1, b1) <= Blend(a2, b2)
  {
  }

  // ---------------------------------------------------------------------
  // The assembled response

  /** The response's fit score lies in [0, 1] for any similarity in [0, 1]. */
  lemma ResponseScoreInUnitInterval(settings: Settings, catalog: Catalog, resumeSkills: seq<string>,
                                    jobSkills: seq<string>, textSimilarity: real)
    requires 0.0 <= textSimilarity <= 1.0
    ensures 0.0 <= Assemble(settings, catalog, resumeSkills, jobSkills, textSimilarity).fitScore <= 1.0
  {
    ScoreInUnitInterval(resumeSkills, jobSkills);
    BlendBounds(CalculateFitScore(resumeSkills, jobSkills).score, textSimilarity);
  }

  /** A track is produced only for a non-strong verdict with missing skills,
      and is then the generator's track for the missing skills; matched and
      missing are the scorer's lists unchanged. */
  lemma TrackOnlyWhenNeeded(settings: Settings, catalog: Catalog, resumeSkills: seq<string>,
                            jobSkills: seq<string>, textSimilarity: real)
    ensures var r := Assemble(settings, catalog, resumeSkills, jobSkills, textSimilarity);
            (r.verdict == StrongFit || r.missingSkills == []) ==> r.recommendedLearningTrack == []
    ensures var r := Assemble(settings, catalog, resumeSkills, jobSkills, textSimilarity);
            r.verdict != StrongFit && r.missingSkills != []
            ==> r.recommendedLearningTrack == Track(catalog, settings.maxStepsPerSkill, r.missingSkills)
    ensures var r := Assemble(settings, catalog, resumeSkills, jobSkills, textSimilarity);
            r.matchedSkills == CalculateFitScore(resumeSkills, jobSkills).matched
            && r.missingSkills == CalculateFitScore(resumeSkills, jobSkills).missing
  {
  }

  /** Under the default settings, a resume covering every job skill is a
      strong fit whatever the text similarity (if not negative), and its
      track is empty. */
  lemma FullCoverageIsStrong(catalog: Catalog, resumeSkills: seq<string>, jobSkills: seq<string>, textSimilarity: real)
    requires resumeSkills != [] && jobSkills != []
    requires forall x :: x in jobSkills ==> Lower(x) in LowerSet(resumeSkills)
    requires 0.0 <= textSimilarity
    ensures Assemble(DEFAULT_SETTINGS, catalog, resumeSkills, jobSkills, textSimilarity).verdict == StrongFit
    ensures Assemble(DEFAULT_SETTINGS, catalog, resumeSkills, jobSkills, textSimilarity).recommendedLearningTrack == []
  {
    var fs := CalculateFitScore(resumeSkills, jobSkills);
    NothingMissingWhenCovered(resumeSkills, jobSkills);
    PerfectScoreIffNothingMissing(resumeSkills, jobSkills);
    assert Blend(fs.score, textSimilarity) >= 0.7;
  }

  /** Under the default settings, no skill in common means a weak fit (the
      blend is at most 0.3, below the moderate threshold 0.4), so every job
      skill goes to the learning-track generator. */
  lemma NoCommonSkillIsWeak(catalog: Catalog, resumeSkills: seq<string>, jobSkills: seq<string>, textSimilarity: real)
    requires LowerSet(resumeSkills) * LowerSet(jobSkills) == {}
    requires textSimilarity <= 1.0
    ensures Assemble(DEFAULT_SETTINGS, catalog, resumeSkills, jobSkills, textSimilarity).verdict == WeakFit
    ensures jobSkills != [] ==>
              Assemble(DEFAULT_SETTINGS, catalog, resumeSkills, jobSkills, textSimilarity).recommendedLearningTrack
              == Track(catalog, 4, jobSkills)
  {
    var fs := CalculateFitScore(resumeSkills, jobSkills);
    AllMissingWhenDisjoint(resumeSkills, jobSkills);
    assert Blend(fs.score, textSimilarity) <= 0.3;
  }

  /** When no skill is recognised in the job text the skill score is 0.0, so
      under the default settings the verdict is WEAK_FIT whatever the resume,
      and, nothing being missing, no track is produced. */
  lemma NoJobSkillsIsWeak(catalog: Catalog, resumeSkills: seq<string>, textSimilarity: real)
    requires textSimilarity <= 1.0
    ensures Assemble(DEFAULT_SETTINGS, catalog, resumeSkills, [], textSimilarity).verdict == WeakFit
    ensures Assemble(DEFAULT_SETTINGS, catalog, resumeSkills, [], textSimilarity).missingSkills == []
    ensures Assemble(DEFAULT_SETTINGS, catalog, resumeSkills, [], textSimilarity).recommendedLearningTrack == []
  {
    EmptyInputs(resumeSkills, []);
  }

  /** Python and SQL on the resume; Python, SQL and Rust wanted; no catalog
      key related to "rust": the skill score is 2/3, and unless the text
      similarity reaches 7/9 the fit is not strong and the track is the
      generic plan for Rust alone. */
  lemma ExampleEndToEnd(catalog: Catalog, textSimilarity: real)
    requires forall i :: 0 <= i < |catalog| ==> !FuzzyMatch(catalog[i].0, "rust")
    requires 0.0 <= textSimilarity < 7.0 / 9.0
    ensures var r := Assemble(DEFAULT_SETTINGS, catalog, ["Python", "SQL"], ["Python", "SQL", "Rust"], textSimilarity);
            && r.fitScore == 2.0 / 3.0 * 0.7 + textSimilarity * 0.3
            && r.verdict != StrongFit
            && r.matchedSkills == ["Python", "SQL"]
            && r.missingSkills == ["Rust"]
            && r.recommendedLearningTrack == [LearningStep("Rust", GenericSteps("Rust"))]
  {
    var fs := CalculateFitScore(["Python", "SQL"], ["Python", "SQL", "Rust"]);
    ExampleTwoOfThree();
    var fitScore := Blend(fs.score, textSimilarity);
    assert fitScore < 0.7;
    var verdict := DetermineVerdict(DEFAULT_SETTINGS, fitScore);
    assert verdict != StrongFit;
    ExampleRust(catalog);
    assert Assemble(DEFAULT_SETTINGS, catalog, ["Python", "SQL"], ["Python", "SQL", "Rust"], textSimilarity)
           == EvaluationResponse(fitScore, verdict, fs.matched, fs.missing, Track(catalog, 4, fs.missing));
  }

  // ---------------------------------------------------------------------
  // The engine object

  class FitEngine {
    const settings: Settings
    const skillExtractor: SkillExtractor
    const learningPathGenerator: LearningPathGenerator

    /** The generator was built with the engine's steps-per-skill setting. */
    ghost predicate Valid()
    {
      learningPathGenerator.maxSteps == settings.maxStepsPerSkill
    }

    /** __init__ followed by the component loads of initialize, with the
        parsed skills configuration and learning-path catalog. */
    constructor (settings: Settings, skillsData: SkillsData, learningPaths: Catalog)
      ensures this.settings == settings && Valid()
      ensures skillExtractor.Valid()
      ensures skillExtractor.allSkills == CategoriesSkills(skillsData.categories)
      ensures skillExtractor.skillAliases == ApplyWrites(map[], AliasWrites(skillsData))
      ensures learningPathGenerator.learningPaths == learningPaths
      ensures learningPathGenerator.maxSteps == settings.maxStepsPerSkill
    {
      this.settings := settings;
      var extractor := new SkillExtractor();
      extractor.Initialize(skillsData);
      var generator := new LearningPathGenerator(learningPaths, settings.maxStepsPerSkill);
      this.skillExtractor := extractor;
      this.learningPathGenerator := generator;
    }

    /** evaluate_fit. textSimilarity is the result of calculate_text_similarity
        (0.0 when it fails); resumeSkills and jobSkills are the normalised
        lists the scorer receives, whose order is unspecified. */
    method EvaluateFit(resumeText: string, jobDescription: string, textSimilarity: real)
      returns (response: EvaluationResponse, ghost resumeSkills: seq<string>, ghost jobSkills: seq<string>)
      requires Valid()
      ensures NoDup(resumeSkills)
      ensures Elems(resumeSkills) == NormalizedSet(skillExtractor.skillAliases,
                Extracted(skillExtractor.allSkills, skillExtractor.skillAliases, resumeText))
      ensures NoDup(jobSkills)
      ensures Elems(jobSkills) == NormalizedSet(skillExtractor.skillAliases,
                Extracted(skillExtractor.allSkills, skillExtractor.skillAliases, jobDescription))
      ensures response == Assemble(settings, learningPathGenerator.learningPaths, resumeSkills, jobSkills, textSimilarity)
      ensures response.verdict == DetermineVerdict(settings, response.fitScore)
      ensures 0.0 <= textSimilarity <= 1.0 ==> 0.0 <= response.fitScore <= 1.0
      ensures response.recommendedLearningTrack != [] ==> response.verdict != StrongFit && response.missingSkills != []
      ensures forall x :: x in response.matchedSkills ==>
                x in NormalizedSet(skillExtractor.skillAliases,
                  Extracted(skillExtractor.allSkills, skillExtractor.skillAliases, resumeText))
      ensures forall x :: x in response.missingSkills ==>
                x in NormalizedSet(skillExtractor.skillAliases,
                  Extracted(skillExtractor.allSkills, skillExtractor.skillAliases, jobDescription))
      ensures NoDup(response.matchedSkills) && NoDup(response.missingSkills)
      ensures forall x, y :: x in response.missingSkills && y in NormalizedSet(skillExtractor.skillAliases,
                  Extracted(skillExtractor.allSkills, skillExtractor.skillAliases, resumeText))
                ==> Lower(x) != Lower(y)
    {
      var resumeExtracted := skillExtractor.ExtractSkills(resumeText);
      var jobExtracted := skillExtractor.ExtractSkills(jobDescription);

      var resumeNormalized := skillExtractor.NormalizeSkills(resumeExtracted);
      var jobNormalized := skillExtractor.NormalizeSkills(jobExtracted);
      resumeSkills, jobSkills := resumeNormalized, jobNormalized;

      var fs := CalculateFitScore(resumeNormalized, jobNormalized);
      var fitScore := Blend(fs.score, textSimilarity);
      var verdict := DetermineVerdict(settings, fitScore);

      var learningTrack := [];
      if verdict != StrongFit && fs.missing != [] {
        learningTrack := learningPathGenerator.GenerateLearningTrack(fs.missing);
      }
      response := EvaluationResponse(fitScore, verdict, fs.matched, fs.missing, learningTrack);

      ScoreInUnitInterval(resumeNormalized, jobNormalized);
      if 0.0 <= textSimilarity <= 1.0 {
        BlendBounds(fs.score, textSimilarity);
      }
      FiltersKeepNoDup(resumeNormalized, jobNormalized);
      MatchedAndMissingAreFilters(resumeNormalized, jobNormalized);
      forall x, y | x in fs.missing && y in resumeNormalized ensures Lower(x) != Lower(y) {
        assert Lower(y) in LowerSet(resumeNormalized);
      }
    }
  }
}
