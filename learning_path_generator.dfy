/** LearningPathGenerator.generate_learning_track: a learning plan per missing
    skill, looked up in the catalog directly or by a first-match substring
    scan, and synthesised from four templates when nothing is found. */
module LearningPaths {
  import opened Text

  datatype Option<T> = None | Some(value: T)

  /** A catalog value: a JSON object that may hold a "steps" list.
      otherFields records whether it holds any other key, which decides its
      truth value when "steps" is absent. */
  datatype PathEntry = PathEntry(steps: Option<seq<string>>, otherFields: bool)

  /** Python truthiness of the object: true unless it is {}. */
  predicate IsTruthy(e: PathEntry)
  {
    e.steps.Some? || e.otherFields
  }

  /** learning_path.get('steps', []) */
  function StepsOf(e: PathEntry): seq<string>
  {
    match e.steps
    case Some(s) => s
    case None => []
  }

  datatype LearningStep = LearningStep(skill: string, steps: seq<string>)

  /** The catalog as an insertion-ordered dictionary: (key, entry) pairs in
      stored order. */
  type Catalog = seq<(string, PathEntry)>

  /** Python's s[:n], including a negative n, which drops elements from the end. */
  function PyPrefix(s: seq<string>, n: int): (r: seq<string>)
    ensures |r| <= |s|
    ensures 0 <= n ==> |r| == if n < |s| then n else |s|
    ensures r == s[..|r|]
  {
    if 0 <= n then (if n < |s| then s[..n] else s)
    else if -n < |s| then s[..|s| + n] else []
  }

  /** The four templated steps used when no catalog entry is found. */
  function GenericSteps(skill: string): (r: seq<string>)
    ensures |r| == 4
    ensures forall k :: 0 <= k < |r| ==> IsSubstring(skill, r[k])
  {
    SubstringOfConcat("Research ", skill, " fundamentals and core concepts");
    SubstringOfConcat("Complete online tutorials or courses on ", skill, "");
    SubstringOfConcat("Build a small project using ", skill, "");
    SubstringOfConcat("Practice ", skill, " through hands-on exercises");
    assert "Complete online tutorials or courses on " + skill + "" == "Complete online tutorials or courses on " + skill;
    assert "Build a small project using " + skill + "" == "Build a small project using " + skill;
    [ "Research " + skill + " fundamentals and core concepts",
      "Complete online tutorials or courses on " + skill,
      "Build a small project using " + skill,
      "Practice " + skill + " through hands-on exercises" ]
  }

  /** `key in catalog` followed by `catalog[key]`. */
  function DirectLookup(catalog: Catalog, key: string): (r: Option<PathEntry>)
    ensures r.Some? ==> (key, r.value) in catalog
    ensures r == None ==> forall p :: p in catalog ==> p.0 != key
  {
    if catalog == [] then None
    else if catalog[0].0 == key then Some(catalog[0].1)
    else DirectLookup(catalog[1..], key)
  }

  /** The fuzzy test: the skill is a substring of the key or the key a
      substring of the skill. */
  predicate FuzzyMatch(pathSkill: string, skillLower: string)
  {
    IsSubstring(skillLower, pathSkill) || IsSubstring(pathSkill, skillLower)
  }

  /** The entry of the first key, in stored order, that fuzzily matches. */
  function FuzzyLookup(catalog: Catalog, skillLower: string): (r: Option<PathEntry>)
    ensures r.Some? ==> exists p :: p in catalog && FuzzyMatch(p.0, skillLower) && p.1 == r.value
    ensures r == None ==> forall p :: p in catalog ==> !FuzzyMatch(p.0, skillLower)
  {
    if catalog == [] then None
    else if FuzzyMatch(catalog[0].0, skillLower) then Some(catalog[0].1)
    else FuzzyLookup(catalog[1..], skillLower)
  }

  /** A path is found exactly when some key is related to the lower-cased
      skill, and it is then the entry of such a key. */
  function FindPath(catalog: Catalog, skill: string): (r: Option<PathEntry>)
    ensures r.Some? ==> exists p :: p in catalog && FuzzyMatch(p.0, Lower(skill)) && p.1 == r.value
    ensures r == None <==> forall p :: p in catalog ==> !FuzzyMatch(p.0, Lower(skill))
  {
    var skillLower := Lower(skill);
    SubstringOfSelf(skillLower);
    if DirectLookup(catalog, skillLower).Some? then DirectLookup(catalog, skillLower)
    else FuzzyLookup(catalog, skillLower)
  }

  /** What one missing skill contributes to the track: nothing, or one entry. */
  function TrackEntry(catalog: Catalog, maxSteps: int, skill: string): (r: seq<LearningStep>)
    ensures |r| <= 1
    ensures forall e :: e in r ==> e.skill == skill
    ensures 0 <= maxSteps ==> forall e :: e in r ==> |e.steps| <= maxSteps
    ensures r == [] ==> FindPath(catalog, skill).Some?
  {
    var learningPath := FindPath(catalog, skill);
    if learningPath.Some? && IsTruthy(learningPath.value) then
      var steps := PyPrefix(StepsOf(learningPath.value), maxSteps);
      if steps != [] then [LearningStep(skill, steps)] else []
    else
      [LearningStep(skill, PyPrefix(GenericSteps(skill), maxSteps))]
  }

  /** The track for a list of missing skills, built left to right. */
  function Track(catalog: Catalog, maxSteps: int, skills: seq<string>): (r: seq<LearningStep>)
    ensures |r| <= |skills|
    ensures forall e :: e in r ==> e.skill in skills
    ensures 0 <= maxSteps ==> forall e :: e in r ==> |e.steps| <= maxSteps
  {
    if skills == [] then []
    else Track(catalog, maxSteps, skills[..|skills| - 1]) + TrackEntry(catalog, maxSteps, skills[|skills| - 1])
  }

  // ---------------------------------------------------------------------
  // Lookup order

  lemma {:induction false} DirectLookupFinds(catalog: Catalog, key: string, i: nat)
    requires i < |catalog| && catalog[i].0 == key
    requires forall i' :: 0 <= i' < i ==> catalog[i'].0 != key
    ensures DirectLookup(catalog, key) == Some(catalog[i].1)
  {
    if i > 0 {
      DirectLookupFinds(catalog[1..], key, i - 1);
    }
  }

  lemma {:induction false} DirectLookupMisses(catalog: Catalog, key: string)
    requires forall i :: 0 <= i < |catalog| ==> catalog[i].0 != key
    ensures DirectLookup(catalog, key) == None
  {
    if catalog != [] {
      DirectLookupMisses(catalog[1..], key);
    }
  }

  lemma {:induction false} FuzzyLookupFirst(catalog: Catalog, skillLower: string, i: nat)
    requires i < |catalog| && FuzzyMatch(catalog[i].0, skillLower)
    requires forall i' :: 0 <= i' < i ==> !FuzzyMatch(catalog[i'].0, skillLower)
    ensures FuzzyLookup(catalog, skillLower) == Some(catalog[i].1)
  {
    if i > 0 {
      FuzzyLookupFirst(catalog[1..], skillLower, i - 1);
    }
  }

  lemma {:induction false} FuzzyLookupMisses(catalog: Catalog, skillLower: string)
    requires forall i :: 0 <= i < |catalog| ==> !FuzzyMatch(catalog[i].0, skillLower)
    ensures FuzzyLookup(catalog, skillLower) == None
  {
    if catalog != [] {
      FuzzyLookupMisses(catalog[1..], skillLower);
    }
  }

  /** A key equal to the lower-cased skill wins, even over an earlier key
      that would match fuzzily. */
  lemma DirectTakesPrecedence(catalog: Catalog, skill: string, i: nat)
    requires i < |catalog| && catalog[i].0 == Lower(skill)
    requires forall i' :: 0 <= i' < i ==> catalog[i'].0 != Lower(skill)
    ensures FindPath(catalog, skill) == Some(catalog[i].1)
  {
    DirectLookupFinds(catalog, Lower(skill), i);
  }

  /** Without a direct hit, the first key in stored order that contains the
      lower-cased skill or is contained in it decides, and the scan stops. */
  lemma FuzzyPicksFirstMatch(catalog: Catalog, skill: string, i: nat)
    requires forall i' :: 0 <= i' < |catalog| ==> catalog[i'].0 != Lower(skill)
    requires i < |catalog| && FuzzyMatch(catalog[i].0, Lower(skill))
    requires forall i' :: 0 <= i' < i ==> !FuzzyMatch(catalog[i'].0, Lower(skill))
    ensures FindPath(catalog, skill) == Some(catalog[i].1)
  {
    DirectLookupMisses(catalog, Lower(skill));
    FuzzyLookupFirst(catalog, Lower(skill), i);
  }

  /** With no direct and no fuzzy hit nothing is found. */
  lemma NothingFound(catalog: Catalog, skill: string)
    requires forall i :: 0 <= i < |catalog| ==> !FuzzyMatch(catalog[i].0, Lower(skill))
    ensures FindPath(catalog, skill) == None
  {
    forall i | 0 <= i < |catalog| ensures catalog[i].0 != Lower(skill) {
      if catalog[i].0 == Lower(skill) {
        assert OccursAt(Lower(skill), catalog[i].0, 0);
      }
    }
    DirectLookupMisses(catalog, Lower(skill));
    FuzzyLookupMisses(catalog, Lower(skill));
  }

  // ---------------------------------------------------------------------
  // One skill's contribution

  /** A found entry whose steps survive truncation gives one entry: the
      skill as given, with the first maxSteps steps. */
  lemma FoundEntryWithSteps(catalog: Catalog, maxSteps: int, skill: string, e: PathEntry)
    requires FindPath(catalog, skill) == Some(e) && e.steps.Some?
    requires 0 < maxSteps && e.steps.value != []
    ensures TrackEntry(catalog, maxSteps, skill) == [LearningStep(skill, PyPrefix(e.steps.value, maxSteps))]
    ensures |PyPrefix(e.steps.value, maxSteps)| <= maxSteps
    ensures PyPrefix(e.steps.value, maxSteps)[0] == e.steps.value[0]
  {
  }

  /** A found, truthy entry whose steps are absent, empty, or truncated to
      nothing by maxSteps contributes nothing: not the generic fallback. */
  lemma FoundEntryWithoutSteps(catalog: Catalog, maxSteps: int, skill: string, e: PathEntry)
    requires FindPath(catalog, skill) == Some(e) && IsTruthy(e)
    requires PyPrefix(StepsOf(e), maxSteps) == []
    ensures TrackEntry(catalog, maxSteps, skill) == []
  {
  }

  /** Nothing found, or a found entry equal to {}, gives the generic steps
      naming the skill, truncated to maxSteps; with maxSteps >= 4 these are
      four steps that each mention the skill. */
  lemma GenericWhenNotFound(catalog: Catalog, maxSteps: int, skill: string)
    requires FindPath(catalog, skill) == None || !IsTruthy(FindPath(catalog, skill).value)
    ensures TrackEntry(catalog, maxSteps, skill) == [LearningStep(skill, PyPrefix(GenericSteps(skill), maxSteps))]
    ensures 4 <= maxSteps ==> |TrackEntry(catalog, maxSteps, skill)[0].steps| == 4
    ensures forall k :: 0 <= k < |TrackEntry(catalog, maxSteps, skill)[0].steps|
              ==> IsSubstring(skill, TrackEntry(catalog, maxSteps, skill)[0].steps[k])
  {
  }

  /** The skill "Rust" with no catalog key related to "rust" gets exactly
      four steps, each naming "Rust". */
  lemma ExampleRust(catalog: Catalog)
    requires forall i :: 0 <= i < |catalog| ==> !FuzzyMatch(catalog[i].0, "rust")
    ensures |Track(catalog, 4, ["Rust"])| == 1
    ensures Track(catalog, 4, ["Rust"])[0].skill == "Rust"
    ensures |Track(catalog, 4, ["Rust"])[0].steps| == 4
    ensures forall k :: 0 <= k < 4 ==> IsSubstring("Rust", Track(catalog, 4, ["Rust"])[0].steps[k])
    ensures Track(catalog, 4, ["Rust"]) == [LearningStep("Rust", GenericSteps("Rust"))]
  {
    assert Lower("Rust") == "rust";
    NothingFound(catalog, "Rust");
    GenericWhenNotFound(catalog, 4, "Rust");
    assert PyPrefix(GenericSteps("Rust"), 4) == GenericSteps("Rust");
    assert ["Rust"][..0] == [];
  }

  // ---------------------------------------------------------------------
  // The whole track

  /** The track of a concatenation is the concatenation of the tracks:
      entries follow input order, and a repeated skill gives a repeated entry. */
  lemma {:induction false} TrackAppend(catalog: Catalog, maxSteps: int, s1: seq<string>, s2: seq<string>)
    ensures Track(catalog, maxSteps, s1 + s2) == Track(catalog, maxSteps, s1) + Track(catalog, maxSteps, s2)
    decreases |s2|
  {
    if s2 == [] {
      assert s1 + s2 == s1;
    } else {
      var n := |s2| - 1;
      var both := s1 + s2;
      assert both[..|both| - 1] == s1 + s2[..n];
      assert both[|both| - 1] == s2[n];
      TrackLast(catalog, maxSteps, both);
      TrackLast(catalog, maxSteps, s2);
      TrackAppend(catalog, maxSteps, s1, s2[..n]);
      ConcatAssociative(Track(catalog, maxSteps, s1), Track(catalog, maxSteps, s2[..n]),
                        TrackEntry(catalog, maxSteps, s2[n]));
    }
  }

  /** Track unfolded once: the entry of the last skill comes last. */
  lemma TrackLast(catalog: Catalog, maxSteps: int, skills: seq<string>)
    requires skills != []
    ensures Track(catalog, maxSteps, skills)
            == Track(catalog, maxSteps, skills[..|skills| - 1]) + TrackEntry(catalog, maxSteps, skills[|skills| - 1])
  {
  }

  /** Regrouping a concatenation, stated apart so that TrackAppend's proof
      does not carry the quantified facts about Track while it regroups. */
  lemma ConcatAssociative(a: seq<LearningStep>, b: seq<LearningStep>, c: seq<LearningStep>)
    ensures (a + b) + c == a + (b + c)
  {
  }

  lemma EmptyTrack(catalog: Catalog, maxSteps: int)
    ensures Track(catalog, maxSteps, []) == []
  {
  }

  // ---------------------------------------------------------------------
  // The generator object

  class LearningPathGenerator {
    const maxSteps: int
    const learningPaths: Catalog

    /** __init__ with the catalog initialize loads from its JSON file. */
    constructor (learningPaths: Catalog, maxSteps: int)
      ensures this.learningPaths == learningPaths && this.maxSteps == maxSteps
    {
      this.learningPaths := learningPaths;
      this.maxSteps := maxSteps;
    }

    method GenerateLearningTrack(missingSkills: seq<string>) returns (learningTrack: seq<LearningStep>)
      ensures learningTrack == Track(learningPaths, maxSteps, missingSkills)
    {
      learningTrack := [];
      for i := 0 to |missingSkills|
        invariant learningTrack == Track(learningPaths, maxSteps, missingSkills[..i])
      {
        var skill := missingSkills[i];
        ghost var before := learningTrack;
        var learningPath := LookUpPath(skill);
        if learningPath.Some? && IsTruthy(learningPath.value) {
          var steps := PyPrefix(StepsOf(learningPath.value), maxSteps);
          if steps != [] {
            learningTrack := learningTrack + [LearningStep(skill, steps)];
          }
        } else {
          var genericSteps := PyPrefix(GenericSteps(skill), maxSteps);
          learningTrack := learningTrack + [LearningStep(skill, genericSteps)];
        }
        assert learningTrack == before + TrackEntry(learningPaths, maxSteps, skill);
        assert missingSkills[..i + 1][..i] == missingSkills[..i];
        TrackLast(learningPaths, maxSteps, missingSkills[..i + 1]);
      }
      assert missingSkills[..|missingSkills|] == missingSkills;
    }

    /** The lookup inside the loop of generate_learning_track: the exact
        lower-cased key first, then the first substring match in catalog order. */
    method LookUpPath(skill: string) returns (learningPath: Option<PathEntry>)
      ensures learningPath == FindPath(learningPaths, skill)
    {
      var skillLower := Lower(skill);
      learningPath := DirectLookup(learningPaths, skillLower);
      if learningPath.None? {
        var j := 0;
        while j < |learningPaths|
          invariant 0 <= j <= |learningPaths|
          invariant learningPath == None
          invariant FuzzyLookup(learningPaths, skillLower) == FuzzyLookup(learningPaths[j..], skillLower)
        {
          var (pathSkill, pathData) := learningPaths[j];
          if IsSubstring(skillLower, pathSkill) || IsSubstring(pathSkill, skillLower) {
            learningPath := Some(pathData);
            break;
          }
          assert learningPaths[j..][1..] == learningPaths[j + 1..];
          j := j + 1;
        }
      }
    }
  }
}
