# Resume–job fit engine, modelled in Dafny

This project models the decision core of a resume/job-description matching
service. The core has four cooperating parts:

- **SkillExtractor** builds two tables from a parsed skills configuration: a
  set of lower-cased canonical skills, and an alias table. In the alias table
  later writes win, so top-level aliases override category aliases. It then
  finds known skills in free text as whole words, ignoring case. Canonical
  hits are title-cased. Alias hits give their canonical name as authored.
  Mentions are normalised through the alias table. Results are returned as
  deduplicated lists in unspecified order.
- **ScoringEngine.calculate_fit_score** gives the coverage
  |resume ∩ job| / |job| of the lower-cased skill sets. It returns the
  matched resume skills and the missing job skills in their original order
  and casing.
- **LearningPathGenerator.generate_learning_track** produces at most one
  plan per missing skill, in the order of the missing list. It first looks
  the skill up directly in the catalog, then falls back to a first-match
  substring scan in stored key order. The four templated steps are used
  only when nothing, or `{}`, is found; a found entry whose steps are
  missing, empty or cut to nothing gives no plan at all. Each plan is
  truncated to `max_steps`.
- **FitEngine** blends the skill score with a text similarity
  (`0.7 * skill + 0.3 * similarity`). It classifies the blend into
  strong / moderate / weak. It asks for a learning track only for a
  non-strong verdict with missing skills.

Modules, one per source file (plus two shared ones):

| module | file | form |
|---|---|---|
| `Text` | `text.dfy` | ASCII `str.lower`/`str.title`, Python's `in` on strings, the `\bSKILL\b` case-insensitive search |
| `Collections` | `collections.dfy` | `list(set)` with unspecified order |
| `SkillExtraction` | `skill_extractor.dfy` | class `SkillExtractor` whose methods update `allSkills` and `skillAliases`, plus specification functions for the build, extraction and normalisation |
| `Scoring` | `scoring_engine.dfy` | pure function `CalculateFitScore` and lemmas |
| `LearningPaths` | `learning_path_generator.dfy` | class `LearningPathGenerator` with a looping `GenerateLearningTrack`, specified by the function `Track` |
| `Fit` | `fit_engine.dfy` | verdict, blend, the response as a function `Assemble`, class `FitEngine` with `EvaluateFit` |

Python's set iteration order is unspecified, so where the source iterates
a set (`all_skills`, the result of `list(set(...))`) the methods choose the
next element with `:|`. Their contracts then speak of the resulting sets
(`Elems`) and of the absence of duplicates (`NoDup`). Dictionaries iterate in
insertion order: the alias writes of `initialize` and the fuzzy scan over the
catalog keep that order. `ExtractSkills` still picks the next alias key with
`:|`, which cannot change its result, because the hits are gathered into a
set.

Behaviour of the code worth knowing, each stated as a lemma:

- A found, non-empty catalog object whose `steps` are missing or empty, or
  are cut to nothing by `[:max_steps]`, yields no track entry, so the track
  can be shorter than the missing list
  (`LearningPaths.FoundEntryWithoutSteps`, learning_path_generator.py:46-49).
  The generic steps are used only when nothing is found or the found object
  is `{}`.
- `normalize_skills` is not idempotent in general: the alias
  `"js" -> "JavaScript"` normalises "js" to "JavaScript", and a second pass
  title-cases "JavaScript" to "Javascript"
  (`SkillExtraction.NormalizeNotIdempotent`). It is idempotent, as sets, when
  every alias target is itself a fixed point of the rewrite
  (`SkillExtraction.NormalizeIdempotentWhenClosed`).
- In `calculate_fit_score`, the `score = 1.0` branch for an empty job list
  cannot be reached, and neither can the clamp to 1.0. Both are modelled,
  and `Scoring.ScoreIsCoverage` shows that neither decides the result.
- When no skill is recognised in the job description, the skill score is
  0.0 whatever the resume holds. Under the default settings the verdict is
  then WEAK_FIT and no track is produced, since nothing is missing
  (`Fit.NoJobSkillsIsWeak`).

## Model

| member | source | states |
|---|---|---|
| Text.Lower | skill_extractor.py:54 | lower-casing keeps the length and lowers each character on its own |
| Text.Title | skill_extractor.py:83 | title-casing keeps the length and every non-letter. Each letter keeps its lower-case form, and is upper-case exactly when it starts the string or follows a non-letter |
| Text.LowerOfTitle | skill_extractor.py:58-60 | the title-cased form of a skill lower-cases back to the skill's lower-case form |
| Text.TitleIdempotent | skill_extractor.py:83 | title-casing a title-cased string changes nothing |
| Text.TitleInjectiveOnLower | skill_extractor.py:58-60 | two distinct lower-case canonical skills never give the same title-cased hit |
| Text.MatchesAt | skill_extractor.py:72 | a match of the pattern at position i is an occurrence of the lower-cased word in the lower-cased text at i, with a word character on at least one side of its start |
| Text.OccursAsWord | skill_extractor.py:72-73 | a whole-word, case-insensitive occurrence needs a non-empty text that contains the word up to case |
| Text.SearchFrom | skill_extractor.py:72-73 | the left-to-right search from position i succeeds exactly when the word matches, ignoring case, at some position j >= i with a `\b` boundary at both ends |
| Text.SkillInText | skill_extractor.py:69-73 | `_skill_in_text` is true exactly when the skill occurs somewhere as a whole word, ignoring case |
| Text.NotInsideLongerWord | skill_extractor.py:72 | a non-empty skill is never found inside a longer text made only of word characters |
| Text.JavaNotInJavascripter | skill_extractor.py:72-73 | "java" is not found in "javascripter" |
| Text.CppNeedsWordCharAfter | skill_extractor.py:72 | "c++" is not found in "c++" (no boundary after "+") but is found in "c++11" |
| Collections.ListOfSet | skill_extractor.py:67 | `list(set)` holds each element of the set exactly once and nothing else |
| SkillExtraction.ApplyWrites | skill_extractor.py:33-41 | dictionary writes never drop a key, every written key is present, and the last write's key holds the last write's value |
| SkillExtraction.ApplyWritesAppend | skill_extractor.py:26-41 | performing two runs of dictionary writes one after the other is the same as performing their concatenation |
| SkillExtraction.LastWriteWins | skill_extractor.py:33-41 | after the writes, a key is present iff it was present or written; it holds the value of its last write, or its old value when never written |
| SkillExtraction.CategoriesSkillsAreEntryNames | skill_extractor.py:26-37 | the canonical skills are exactly the lower-cased names of all category entries, plain or record |
| SkillExtraction.CategoryAliasesAreWritten | skill_extractor.py:32-34 | each alias of a record entry is written lower-cased with the entry's name as authored |
| SkillExtraction.AliasWriteKeysAreLower | skill_extractor.py:33-41 | every key the build writes is lower-case |
| SkillExtraction.TopLevelAliasOverrides | skill_extractor.py:39-41 | a top-level alias wins over any category alias with the same lower-cased key; among top-level pairs the last one wins |
| SkillExtraction.CategoryAliasSurvives | skill_extractor.py:26-41 | a category alias keeps its entry's name when no later write uses its key |
| SkillExtraction.EveryAliasIsAKey | skill_extractor.py:26-41 | every alias named anywhere in the configuration becomes a lower-case key of the alias table |
| SkillExtraction.Extracted | skill_extractor.py:49-67 | empty text extracts nothing. Everything extracted is a title-cased canonical skill or the target of an alias |
| SkillExtraction.CanonicalSkillExtractedIff | skill_extractor.py:57-60 | when no alias targets Title(s), the title-cased canonical skill s is extracted iff s occurs as a whole word in the lower-cased text |
| SkillExtraction.CanonicalSkillExtractedWhenFound | skill_extractor.py:57-60 | whatever the alias table holds, a canonical skill found as a whole word in the lower-cased text is extracted in its title-cased form |
| SkillExtraction.JavaNotExtractedFromJavascripter | skill_extractor.py:49-67 | the skill "java" yields no "Java" from the text "Javascripter" |
| SkillExtraction.AliasHitAddsCanonicalVerbatim | skill_extractor.py:62-65 | an alias found as a whole word adds its canonical name as authored, not title-cased |
| SkillExtraction.NormalizeMention | skill_extractor.py:79-83 | a mention whose lower-case form is an alias key becomes an alias target; any other mention keeps its lower-case form |
| SkillExtraction.NormalizeStableOffAliases | skill_extractor.py:78-83 | a mention that is no alias key normalises to a fixed point |
| SkillExtraction.NormalizeIdempotentWhenClosed | skill_extractor.py:75-84 | normalising twice gives the same set as normalising once when every alias target is a fixed point of the rewrite |
| SkillExtraction.NormalizeNotIdempotent | skill_extractor.py:79-83 | with the alias "js" -> "JavaScript", "js" normalises to "JavaScript" and "JavaScript" to "Javascript", so normalising is not idempotent in general |
| SkillExtraction.SkillExtractor.constructor | skill_extractor.py:13-17 | a new extractor has no skills and no aliases |
| SkillExtraction.SkillExtractor.Initialize | skill_extractor.py:19-41 | the build adds the lower-cased names of all category entries to the canonical skills. It performs every alias write in source order, category aliases first, and keeps both tables lower-case keyed |
| SkillExtraction.SkillExtractor.AddCategorySkills | skill_extractor.py:27-37 | one category's entries, in order, add their names and alias writes |
| SkillExtraction.SkillExtractor.AddSkillEntry | skill_extractor.py:28-37 | one entry adds its lower-cased name and, for a record, writes each alias lower-cased to the name |
| SkillExtraction.SkillExtractor.AddTopLevelAliases | skill_extractor.py:39-41 | the top-level pairs are written lower-cased, in order, and the skills are unchanged |
| SkillExtraction.SkillExtractor.ExtractSkills | skill_extractor.py:49-67 | the result has no duplicates. As a set it is the title-cased canonical skills found as whole words, plus the canonical names of the aliases found as whole words. Empty text gives [] |
| SkillExtraction.SkillExtractor.NormalizeSkills | skill_extractor.py:75-84 | the result has no duplicates, and as a set it is the image of the mentions under the alias rewrite, with title-casing as the fallback |
| Scoring.CalculateFitScore | scoring_engine.py:21-43 | the score lies in [0, 1], matched is no longer than the resume list and missing no longer than the job list |
| Scoring.KeepLowerInMembers | scoring_engine.py:31-35 | the filter keeps exactly the elements whose lower-case form is in the kept set |
| Scoring.KeepLowerInLength | scoring_engine.py:31-35 | the filter is never longer than its input |
| Scoring.KeepLowerInAppend | scoring_engine.py:31-35 | filtering a concatenation is concatenating the filtered parts, so the filter keeps order and repeats |
| Scoring.KeepAllWhenAllKept | scoring_engine.py:35 | a filter that keeps every element gives the list back |
| Scoring.KeepNoDup | scoring_engine.py:31-35 | filtering a duplicate-free list gives a duplicate-free list |
| Scoring.EmptyInputs | scoring_engine.py:23-24 | an empty resume or job list gives score 0.0, no matches, and the job list unchanged as missing |
| Scoring.ScoreIsCoverage | scoring_engine.py:26-43 | for non-empty lists the score is |resume ∩ job| / |job| over the lower-cased sets, and lies in [0, 1] |
| Scoring.ScoreInUnitInterval | scoring_engine.py:21-43 | every score lies in [0, 1] |
| Scoring.ExtraResumeSkillIgnored | scoring_engine.py:26-41 | adding a resume skill that is not a job skill leaves the score unchanged |
| Scoring.AddingResumeSkillNeverLowers | scoring_engine.py:26-41 | adding a resume skill never lowers the score, and adding a job skill the resume lacked strictly raises it |
| Scoring.MatchedAndMissingAreFilters | scoring_engine.py:21-35 | for all inputs, the early return included: matched is the resume list filtered, in order and with repeats, to skills whose lower-case form is a job skill. Missing is the job list filtered, in order and with repeats, to the lower-case forms no resume skill has. Both directions of membership are stated |
| Scoring.MissingAreJobSkills | scoring_engine.py:21-35 | for any inputs, every missing skill is one of the job skills as written |
| Scoring.FiltersKeepNoDup | scoring_engine.py:21-35 | matched has no repeats when the resume list has none, and missing has none when the job list has none |
| Scoring.MatchedAndMissingPartitionJob | scoring_engine.py:21-35 | for all inputs, the lower-cased matched and missing skills are disjoint and together are the job's lower-cased skills |
| Scoring.PerfectScoreIffNothingMissing | scoring_engine.py:33-43 | for non-empty lists the score is 1.0 iff nothing is missing |
| Scoring.NothingMissingWhenCovered | scoring_engine.py:33-35 | when the resume covers every job skill up to case, missing is empty |
| Scoring.AllMissingWhenDisjoint | scoring_engine.py:23-43 | with no skill in common up to case, the score is 0.0 and missing is the whole job list, in order and with its repeats |
| Scoring.ExampleOneSkillCovered | scoring_engine.py:21-43 | (["Python","SQL"], ["Python"]) scores 1.0 with ["Python"] matched and nothing missing |
| Scoring.ExampleTwoOfThree | scoring_engine.py:21-43 | (["Python","SQL"], ["Python","SQL","Rust"]) scores 2/3 with ["Python","SQL"] matched and ["Rust"] missing |
| Scoring.ExampleEmptyResume | scoring_engine.py:23-24 | an empty resume against ["Python"] scores 0.0 with ["Python"] missing |
| LearningPaths.PyPrefix | learning_path_generator.py:47 | `s[:n]` is a prefix of s of length min(n, |s|) for n >= 0, and never longer than s |
| LearningPaths.DirectLookup | learning_path_generator.py:37-38 | a hit is an entry stored under exactly that key. A miss means no key equals it |
| LearningPaths.FuzzyLookup | learning_path_generator.py:41-44 | a hit is the entry of a key that contains the skill or is contained in it. A miss means no key is related that way |
| LearningPaths.FindPath | learning_path_generator.py:33-44 | a found entry is stored under a key related by substring to the lower-cased skill, and nothing is found exactly when no key is so related |
| LearningPaths.DirectLookupFinds | learning_path_generator.py:37-38 | a key equal to the lower-cased skill gives its entry |
| LearningPaths.DirectLookupMisses | learning_path_generator.py:37 | with no equal key the direct lookup finds nothing |
| LearningPaths.FuzzyLookupFirst | learning_path_generator.py:41-44 | the fuzzy scan returns the entry of the first key, in stored order, that contains the skill or is contained in it |
| LearningPaths.FuzzyLookupMisses | learning_path_generator.py:41-44 | with no related key the fuzzy scan finds nothing |
| LearningPaths.DirectTakesPrecedence | learning_path_generator.py:36-44 | an exact key wins even over an earlier fuzzy match |
| LearningPaths.FuzzyPicksFirstMatch | learning_path_generator.py:36-44 | without an exact key the first fuzzy match in stored order decides |
| LearningPaths.NothingFound | learning_path_generator.py:36-44 | with no related key at all no path is found |
| LearningPaths.FoundEntryWithSteps | learning_path_generator.py:46-49 | a found entry with steps gives one entry: the skill as given with at most max_steps of its steps, starting with its first step |
| LearningPaths.FoundEntryWithoutSteps | learning_path_generator.py:46-49 | a found, non-empty entry whose steps are absent, empty or cut to nothing by max_steps contributes nothing |
| LearningPaths.GenericSteps | learning_path_generator.py:52-57 | there are four generic steps and each one names the skill |
| LearningPaths.GenericWhenNotFound | learning_path_generator.py:50-59 | nothing found, or `{}` found, gives one entry with the generic steps truncated to max_steps. Each step names the skill, and with max_steps >= 4 there are four |
| LearningPaths.ExampleRust | learning_path_generator.py:28-61 | "Rust" with no related key and max_steps 4 gives one entry of four generic steps, each containing "Rust" |
| LearningPaths.TrackEntry | learning_path_generator.py:32-59 | one skill gives at most one entry, for that skill, of at most max_steps steps when max_steps >= 0. It gives none only when a path was found |
| LearningPaths.Track | learning_path_generator.py:28-61 | the track is no longer than its input, names only input skills, and with max_steps >= 0 no entry exceeds max_steps steps |
| LearningPaths.TrackAppend | learning_path_generator.py:30-61 | the track of a concatenation is the concatenation of the tracks, so input order is kept and repeats are repeated |
| LearningPaths.EmptyTrack | learning_path_generator.py:30-32 | no missing skills give an empty track |
| LearningPaths.LearningPathGenerator.constructor | learning_path_generator.py:11-14 | the generator keeps the catalog and max_steps it is given |
| LearningPaths.LearningPathGenerator.LookUpPath | learning_path_generator.py:33-44 | the direct lookup and then the fuzzy scan with its break find exactly FindPath's result |
| LearningPaths.LearningPathGenerator.GenerateLearningTrack | learning_path_generator.py:28-61 | the loop, with its inner fuzzy scan and break, builds exactly the track of direct, then first fuzzy, then generic lookups |
| Fit.DetermineVerdict | fit_engine.py:86-93 | the verdict is strong exactly when the score reaches the strong threshold. A weak verdict means the score is below the moderate threshold, and a moderate one that it reaches it |
| Fit.VerdictTiers | fit_engine.py:86-93 | with moderate <= strong, each verdict is given exactly on its score interval, lower bound included |
| Fit.InvertedThresholdsSkipModerate | fit_engine.py:88-91 | with moderate > strong, MODERATE_FIT is never given |
| Fit.VerdictMonotone | fit_engine.py:86-93 | a higher score never gives a lower tier |
| Fit.DefaultBoundaries | config.py:21-22 | under the default thresholds 0.7 is strong, 0.699 and 0.4 are moderate, 0.399 is weak |
| Fit.Blend | fit_engine.py:64 | with both inputs in [0, 1] the blend is in [0, 1]. A full skill score with a non-negative similarity gives at least 0.7 |
| Fit.BlendBounds | fit_engine.py:64 | with both inputs in [0, 1] the blend is in [0, 1] and within 0.3 above 0.7 times the skill score |
| Fit.BlendMonotone | fit_engine.py:64 | the blend never decreases when either input grows |
| Fit.Assemble | fit_engine.py:53-80 | the response's verdict is that of its fit score, which lies in [0, 1] for a similarity in [0, 1]. A track is present only for a non-strong verdict with missing skills, and every missing skill is a job skill |
| Fit.ResponseScoreInUnitInterval | fit_engine.py:53-64 | for a similarity in [0, 1] the response's fit score lies in [0, 1] |
| Fit.TrackOnlyWhenNeeded | fit_engine.py:69-79 | the track is empty for a strong verdict or no missing skills, and is otherwise the generator's track for the missing skills. Matched and missing are the scorer's lists |
| Fit.FullCoverageIsStrong | fit_engine.py:53-72 | under the default settings a resume covering every job skill is a strong fit with an empty track |
| Fit.NoCommonSkillIsWeak | fit_engine.py:53-72 | under the default settings no common skill means a weak fit. With job skills, the track is the track for all job skills |
| Fit.NoJobSkillsIsWeak | fit_engine.py:53-72 | under the default settings an empty job skill list gives WEAK_FIT, nothing missing and no track, for any resume and any similarity up to 1 |
| Fit.ExampleEndToEnd | fit_engine.py:42-80 | resume ["Python","SQL"] against job ["Python","SQL","Rust"] under the defaults, with a similarity below 7/9: the score is 2/3·0.7 + 0.3·similarity, the verdict is not strong, and ["Rust"] is missing with a generic four-step plan |
| Fit.FitEngine.constructor | fit_engine.py:15-40 | the engine holds an extractor built from the skills configuration and a generator using the configured steps per skill |
| Fit.FitEngine.EvaluateFit | fit_engine.py:42-80 | both normalised skill lists are duplicate-free and equal, as sets, to the normalised extraction of their text. The response is the scorer's matched and missing lists, the blended score, its verdict, and the track only for a non-strong verdict with missing skills. The verdict is that of the returned score, which lies in [0, 1] for a similarity in [0, 1]. Matched skills come from the resume text, missing ones from the job text, and no missing skill equals a resume skill up to case. Matched and missing are duplicate-free |

## Left out

- The TF-IDF/cosine text similarity (`calculate_text_similarity`) is a
  parameter of `EvaluateFit`, and so is its 0.0 fallback on failure. Its
  vectoriser and numeric library are outside the model.
- Fit.FitEngine.EvaluateFit: the response's `fit_score` is the unrounded
  blend. `round(fit_score, 2)` is not modelled. The verdict is computed on
  the unrounded value, as in the source (fit_engine.py:67, 75), so the
  contract `verdict == DetermineVerdict(fitScore)` is about the unrounded
  score, not the displayed one. Under the default thresholds a blend of
  0.6951 is returned as `fit_score` 0.7 with `moderate_fit`, and a blend of
  0.3951 as 0.4 with `weak_fit`.
- Floating-point arithmetic is modelled as exact real arithmetic, so the
  blend and the coverage ratio carry no rounding error.
- Text.Lower, Text.Title and Text.SkillInText cover ASCII only. Python's
  Unicode `str.lower`, `str.title` and Unicode `\w` are not modelled.
  Non-ASCII characters are treated as non-letters and non-word characters.
- Reading and parsing the JSON files, logging, and the `initialize`
  exception path are left out. Parsed data is a parameter
  (`SkillsData`, `Catalog`).
- Malformed configuration is not modelled: a record entry without `"name"`,
  non-string values, or a catalog value that is not an object. The
  datatypes represent only well-formed data.
- The HTTP routes, request schemas, settings loading, application start-up,
  and the `config_data` file read by `FitEngine.initialize` are not part of
  this model.
- `async`/`await` is left out: each call completes before the next starts.
- Fit.FitEngine.EvaluateFit: the order of the normalised skill lists is
  unspecified (Python set order). The contract therefore fixes them only as
  sets, and the response is stated in terms of the lists actually chosen.
- Collections.ListOfSet: the particular order Python's set iteration
  produces is not modelled, only that each element appears once.
- Duplicate keys: a catalog (`Catalog`) and the top-level alias table
  (`SkillsData.aliases`) are lists of pairs. Unlike a Python dict, such a
  list can repeat a key. `LearningPaths.DirectLookup` then takes the first
  pair and `SkillExtraction.ApplyWrites` the last. Parsed JSON objects have
  distinct keys, and for them both agree with Python.
