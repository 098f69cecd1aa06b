/** ScoringEngine.calculate_fit_score: coverage of the job's skills by the
    resume's skills, compared case-insensitively, with the matched and missing
    skills reported in their original display form and order. */
module Scoring {
  import opened Text
  import opened Collections

  datatype FitScore = FitScore(score: real, matched: seq<string>, missing: seq<string>)

  /** set(skill.lower() for skill in skills) */
  function LowerSet(skills: seq<string>): set<string>
  {
    set s | s in skills :: Lower(s)
  }

  /** [skill for skill in skills if skill.lower() in keep] */
  function KeepLowerIn(skills: seq<string>, keep: set<string>): seq<string>
  {
    if skills == [] then []
    else (if Lower(skills[0]) in keep then [skills[0]] else []) + KeepLowerIn(skills[1..], keep)
  }

  function Min(a: real, b: real): real
  {
    if a <= b then a else b
  }

  function CalculateFitScore(resumeSkills: seq<string>, jobSkills: seq<string>): (r: FitScore)
    ensures 0.0 <= r.score <= 1.0
    ensures |r.matched| <= |resumeSkills| && |r.missing| <= |jobSkills|
  {
    if resumeSkills == [] || jobSkills == [] then
      FitScore(0.0, [], jobSkills)
    else
      var resumeSkillsSet := LowerSet(resumeSkills);
      var jobSkillsSet := LowerSet(jobSkills);
      var matchedSkillsLower := resumeSkillsSet * jobSkillsSet;
      var matchedSkills := KeepLowerIn(resumeSkills, matchedSkillsLower);
      var missingSkillsLower := jobSkillsSet - resumeSkillsSet;
      var missingSkills := KeepLowerIn(jobSkills, missingSkillsLower);
      assert Lower(jobSkills[0]) in jobSkillsSet;
      KeepLowerInLength(resumeSkills, matchedSkillsLower);
      KeepLowerInLength(jobSkills, missingSkillsLower);
      var score :=
        if jobSkills == [] then 1.0
        else (|matchedSkillsLower| as real) / (|jobSkillsSet| as real);
      DivideMonotone(0.0, |matchedSkillsLower| as real, |jobSkillsSet| as real);
      FitScore(Min(score, 1.0), matchedSkills, missingSkills)
  }

  // ---------------------------------------------------------------------
  // Facts about the filters and the sets

  lemma {:induction false} KeepLowerInLength(skills: seq<string>, keep: set<string>)
    ensures |KeepLowerIn(skills, keep)| <= |skills|
  {
    if skills != [] {
      KeepLowerInLength(skills[1..], keep);
    }
  }

  lemma {:induction false} KeepLowerInMembers(skills: seq<string>, keep: set<string>)
    ensures forall x :: x in KeepLowerIn(skills, keep) <==> x in skills && Lower(x) in keep
  {
    if skills != [] {
      KeepLowerInMembers(skills[1..], keep);
      assert skills == [skills[0]] + skills[1..];
    }
  }

  /** Only the intersection of keep with the list's own lower-case forms
      matters to the filter. */
  lemma {:induction false} KeepLowerInRelevant(skills: seq<string>, keep1: set<string>, keep2: set<string>)
    requires keep1 * LowerSet(skills) == keep2 * LowerSet(skills)
    ensures KeepLowerIn(skills, keep1) == KeepLowerIn(skills, keep2)
  {
    if skills != [] {
      var rest := LowerSet(skills[1..]);
      assert Lower(skills[0]) in LowerSet(skills);
      assert Lower(skills[0]) in keep1 <==> Lower(skills[0]) in keep1 * LowerSet(skills);
      assert Lower(skills[0]) in keep2 <==> Lower(skills[0]) in keep2 * LowerSet(skills);
      forall y | y in rest ensures y in LowerSet(skills) && (y in keep1 <==> y in keep2) {
        var x :| x in skills[1..] && Lower(x) == y;
        assert x in skills;
        assert y in keep1 <==> y in keep1 * LowerSet(skills);
      }
      assert keep1 * rest == keep2 * rest;
      KeepLowerInRelevant(skills[1..], keep1, keep2);
    }
  }

  lemma LowerSetOfKept(skills: seq<string>, keep: set<string>)
    ensures LowerSet(KeepLowerIn(skills, keep)) == LowerSet(skills) * keep
  {
    KeepLowerInMembers(skills, keep);
  }

  lemma LowerSetAppend(skills: seq<string>, x: string)
    ensures LowerSet(skills + [x]) == LowerSet(skills) + {Lower(x)}
  {
  }

  lemma SubsetCardinality(a: set<string>, b: set<string>)
    requires a <= b
    ensures |a| <= |b|
    ensures |a| == |b| ==> a == b
  {
    assert b == a + (b - a);
    assert |b| == |a| + |b - a|;
    if |a| == |b| {
      assert |b - a| == 0;
    }
  }

  lemma DivideMonotone(a: real, b: real, d: real)
    requires 0.0 < d && a <= b
    ensures a / d <= b / d
    ensures a < b ==> a / d < b / d
  {
    assert b / d - a / d == (b - a) / d;
  }

  lemma NonEmptyLowerSet(skills: seq<string>)
    requires skills != []
    ensures |LowerSet(skills)| > 0
  {
    assert Lower(skills[0]) in LowerSet(skills);
  }

  // ---------------------------------------------------------------------
  // The promises of calculate_fit_score

  /** With either list empty the result is a zero score, nothing matched and
      the job skills, unchanged, as missing. */
  lemma EmptyInputs(resumeSkills: seq<string>, jobSkills: seq<string>)
    requires resumeSkills == [] || jobSkills == []
    ensures CalculateFitScore(resumeSkills, jobSkills) == FitScore(0.0, [], jobSkills)
  {
  }

  /** For non-empty lists the score is the coverage
      |resume ∩ job| / |job| of the lower-cased sets, which lies in [0, 1]:
      neither the `score = 1.0` branch nor the clamp to 1.0 ever decides it. */
  lemma ScoreIsCoverage(resumeSkills: seq<string>, jobSkills: seq<string>)
    requires resumeSkills != [] && jobSkills != []
    ensures |LowerSet(jobSkills)| > 0
    ensures CalculateFitScore(resumeSkills, jobSkills).score
            == (|LowerSet(resumeSkills) * LowerSet(jobSkills)| as real) / (|LowerSet(jobSkills)| as real)
    ensures 0.0 <= CalculateFitScore(resumeSkills, jobSkills).score <= 1.0
  {
    var m := LowerSet(resumeSkills) * LowerSet(jobSkills);
    var j := LowerSet(jobSkills);
    NonEmptyLowerSet(jobSkills);
    SubsetCardinality(m, j);
    DivideMonotone(|m| as real, |j| as real, |j| as real);
    assert (|j| as real) / (|j| as real) == 1.0;
    assert CalculateFitScore(resumeSkills, jobSkills).score == Min((|m| as real) / (|j| as real), 1.0);
  }

  /** Every score lies in [0, 1]. */
  lemma ScoreInUnitInterval(resumeSkills: seq<string>, jobSkills: seq<string>)
    ensures 0.0 <= CalculateFitScore(resumeSkills, jobSkills).score <= 1.0
  {
    if resumeSkills != [] && jobSkills != [] {
      ScoreIsCoverage(resumeSkills, jobSkills);
    }
  }

  /** A resume skill that is not a job skill never changes the score. */
  lemma ExtraResumeSkillIgnored(resumeSkills: seq<string>, jobSkills: seq<string>, x: string)
    requires Lower(x) !in LowerSet(jobSkills)
    ensures CalculateFitScore(resumeSkills + [x], jobSkills).score
            == CalculateFitScore(resumeSkills, jobSkills).score
  {
    if jobSkills != [] {
      LowerSetAppend(resumeSkills, x);
      ScoreIsCoverage(resumeSkills + [x], jobSkills);
      if resumeSkills != [] {
        ScoreIsCoverage(resumeSkills, jobSkills);
        assert LowerSet(resumeSkills + [x]) * LowerSet(jobSkills) == LowerSet(resumeSkills) * LowerSet(jobSkills);
      } else {
        assert LowerSet(resumeSkills + [x]) * LowerSet(jobSkills) == {};
      }
    }
  }

  /** Adding a resume skill never lowers the score, and adding a job skill
      the resume did not yet cover strictly raises it: the score is a
      coverage, not a Jaccard index. */
  lemma AddingResumeSkillNeverLowers(resumeSkills: seq<string>, jobSkills: seq<string>, x: string)
    ensures CalculateFitScore(resumeSkills + [x], jobSkills).score
            >= CalculateFitScore(resumeSkills, jobSkills).score
    ensures Lower(x) in LowerSet(jobSkills) && Lower(x) !in LowerSet(resumeSkills)
            ==> CalculateFitScore(resumeSkills + [x], jobSkills).score
                > CalculateFitScore(resumeSkills, jobSkills).score
  {
    if jobSkills != [] {
      var j := LowerSet(jobSkills);
      var before := LowerSet(resumeSkills) * j;
      var after := LowerSet(resumeSkills + [x]) * j;
      LowerSetAppend(resumeSkills, x);
      assert before <= after;
      SubsetCardinality(before, after);
      ScoreIsCoverage(resumeSkills + [x], jobSkills);
      if Lower(x) in j && Lower(x) !in LowerSet(resumeSkills) {
        assert Lower(x) in LowerSet(resumeSkills + [x]);
        assert Lower(x) in after && Lower(x) !in before;
        assert after != before;
      }
      if resumeSkills != [] {
        ScoreIsCoverage(resumeSkills, jobSkills);
        DivideMonotone(|before| as real, |after| as real, |j| as real);
      } else {
        assert |before| == 0;
        DivideMonotone(0.0, |after| as real, |j| as real);
      }
    }
  }

  /** matched is the sub-list of the resume skills, in their order and
      casing, whose lower-case form is a job skill; missing is the sub-list of
      the job skills whose lower-case form no resume skill has. This holds
      for all inputs, the early return for an empty list included. */
  lemma MatchedAndMissingAreFilters(resumeSkills: seq<string>, jobSkills: seq<string>)
    ensures CalculateFitScore(resumeSkills, jobSkills).matched == KeepLowerIn(resumeSkills, LowerSet(jobSkills))
    ensures CalculateFitScore(resumeSkills, jobSkills).missing
            == KeepLowerIn(jobSkills, LowerSet(jobSkills) - LowerSet(resumeSkills))
    ensures forall x :: x in CalculateFitScore(resumeSkills, jobSkills).matched
              <==> x in resumeSkills && Lower(x) in LowerSet(jobSkills)
    ensures forall x :: x in CalculateFitScore(resumeSkills, jobSkills).missing
              <==> x in jobSkills && Lower(x) !in LowerSet(resumeSkills)
  {
    var r := LowerSet(resumeSkills);
    var j := LowerSet(jobSkills);
    if resumeSkills == [] {
      EmptyInputs(resumeSkills, jobSkills);
      assert r == {};
      forall x | x in jobSkills ensures Lower(x) in j - r {
        assert Lower(x) in j;
      }
      KeepAllWhenAllKept(jobSkills, j - r);
    } else if jobSkills == [] {
      EmptyInputs(resumeSkills, jobSkills);
      assert j == {};
      KeepNothing(resumeSkills, j);
    } else {
      KeepLowerInRelevant(resumeSkills, r * j, j);
    }
    KeepLowerInMembers(resumeSkills, j);
    KeepLowerInMembers(jobSkills, j - r);
  }

  /** Whatever the inputs, every missing skill is one of the job's skills,
      as written. */
  lemma MissingAreJobSkills(resumeSkills: seq<string>, jobSkills: seq<string>)
    ensures forall x :: x in CalculateFitScore(resumeSkills, jobSkills).missing ==> x in jobSkills
  {
    MatchedAndMissingAreFilters(resumeSkills, jobSkills);
  }

  /** The filter keeps a duplicate-free list duplicate-free. */
  lemma {:induction false} KeepNoDup(skills: seq<string>, keep: set<string>)
    requires NoDup(skills)
    ensures NoDup(KeepLowerIn(skills, keep))
  {
    if skills != [] {
      var rest := KeepLowerIn(skills[1..], keep);
      KeepNoDup(skills[1..], keep);
      KeepLowerInMembers(skills[1..], keep);
      assert skills[0] !in skills[1..];
      assert skills[0] !in rest;
    }
  }

  /** matched and missing have no repeats when the lists they filter have
      none. */
  lemma FiltersKeepNoDup(resumeSkills: seq<string>, jobSkills: seq<string>)
    ensures NoDup(resumeSkills) ==> NoDup(CalculateFitScore(resumeSkills, jobSkills).matched)
    ensures NoDup(jobSkills) ==> NoDup(CalculateFitScore(resumeSkills, jobSkills).missing)
  {
    MatchedAndMissingAreFilters(resumeSkills, jobSkills);
    if NoDup(resumeSkills) {
      KeepNoDup(resumeSkills, LowerSet(jobSkills));
    }
    if NoDup(jobSkills) {
      KeepNoDup(jobSkills, LowerSet(jobSkills) - LowerSet(resumeSkills));
    }
  }

  /** The lower-cased matched and missing skills are disjoint and together
      are exactly the job's skills. */
  lemma MatchedAndMissingPartitionJob(resumeSkills: seq<string>, jobSkills: seq<string>)
    ensures LowerSet(CalculateFitScore(resumeSkills, jobSkills).matched)
            !! LowerSet(CalculateFitScore(resumeSkills, jobSkills).missing)
    ensures LowerSet(CalculateFitScore(resumeSkills, jobSkills).matched)
            + LowerSet(CalculateFitScore(resumeSkills, jobSkills).missing) == LowerSet(jobSkills)
  {
    var r := LowerSet(resumeSkills);
    var j := LowerSet(jobSkills);
    MatchedAndMissingAreFilters(resumeSkills, jobSkills);
    LowerSetOfKept(resumeSkills, j);
    LowerSetOfKept(jobSkills, j - r);
    assert r * j + j * (j - r) == j;
  }

  /** For non-empty lists the score is 1.0 exactly when nothing is missing. */
  lemma PerfectScoreIffNothingMissing(resumeSkills: seq<string>, jobSkills: seq<string>)
    requires resumeSkills != [] && jobSkills != []
    ensures CalculateFitScore(resumeSkills, jobSkills).score == 1.0
            <==> CalculateFitScore(resumeSkills, jobSkills).missing == []
  {
    var r := LowerSet(resumeSkills);
    var j := LowerSet(jobSkills);
    var fs := CalculateFitScore(resumeSkills, jobSkills);
    ScoreIsCoverage(resumeSkills, jobSkills);
    CoverageIsOneIff(r, j);
    if j <= r {
      NothingMissingWhenCovered(resumeSkills, jobSkills);
    } else {
      var y :| y in j && y !in r;
      var x :| x in jobSkills && Lower(x) == y;
      MatchedAndMissingAreFilters(resumeSkills, jobSkills);
      assert x in fs.missing;
    }
  }

  /** The coverage ratio is 1 exactly when the job's set lies inside the
      resume's. */
  lemma CoverageIsOneIff(r: set<string>, j: set<string>)
    requires |j| > 0
    ensures (|r * j| as real) / (|j| as real) == 1.0 <==> j <= r
  {
    SubsetCardinality(r * j, j);
    if j <= r {
      assert r * j == j;
    } else {
      assert r * j != j;
      DivideMonotone(|r * j| as real, |j| as real, |j| as real);
    }
  }


  /** A filter that keeps nothing of the list gives the empty list. */
  lemma {:induction false} KeepNothing(skills: seq<string>, keep: set<string>)
    requires forall x :: x in skills ==> Lower(x) !in keep
    ensures KeepLowerIn(skills, keep) == []
  {
    if skills != [] {
      assert skills[0] in skills;
      KeepNothing(skills[1..], keep);
    }
  }

  /** When every job skill is on the resume, up to case, nothing is missing. */
  lemma NothingMissingWhenCovered(resumeSkills: seq<string>, jobSkills: seq<string>)
    requires resumeSkills != []
    requires forall x :: x in jobSkills ==> Lower(x) in LowerSet(resumeSkills)
    ensures CalculateFitScore(resumeSkills, jobSkills).missing == []
  {
    KeepNothing(jobSkills, LowerSet(jobSkills) - LowerSet(resumeSkills));
  }

  /** The filter keeps order: filtering a concatenation is concatenating the
      filtered parts, so kept elements stay in input order, repeats included. */
  lemma {:induction false} KeepLowerInAppend(a: seq<string>, b: seq<string>, keep: set<string>)
    ensures KeepLowerIn(a + b, keep) == KeepLowerIn(a, keep) + KeepLowerIn(b, keep)
  {
    if a == [] {
      assert a + b == b;
    } else {
      assert (a + b)[0] == a[0];
      assert (a + b)[1..] == a[1..] + b;
      KeepLowerInAppend(a[1..], b, keep);
    }
  }

  /** A filter that keeps every element gives the list back. */
  lemma {:induction false} KeepAllWhenAllKept(skills: seq<string>, keep: set<string>)
    requires forall x :: x in skills ==> Lower(x) in keep
    ensures KeepLowerIn(skills, keep) == skills
  {
    if skills != [] {
      KeepAllWhenAllKept(skills[1..], keep);
    }
  }

  /** With no skill in common, up to case, the score is 0.0 and the whole job
      list, in order and with its repeats, is missing. */
  lemma AllMissingWhenDisjoint(resumeSkills: seq<string>, jobSkills: seq<string>)
    requires LowerSet(resumeSkills) * LowerSet(jobSkills) == {}
    ensures CalculateFitScore(resumeSkills, jobSkills).score == 0.0
    ensures CalculateFitScore(resumeSkills, jobSkills).missing == jobSkills
  {
    if resumeSkills != [] && jobSkills != [] {
      NoCoverageWhenDisjoint(resumeSkills, jobSkills);
      var r := LowerSet(resumeSkills);
      var j := LowerSet(jobSkills);
      MatchedAndMissingAreFilters(resumeSkills, jobSkills);
      forall x | x in jobSkills ensures Lower(x) in j - r {
        assert Lower(x) in j;
        assert Lower(x) !in r * j;
      }
      KeepAllWhenAllKept(jobSkills, j - r);
    }
  }

  /** The score half of AllMissingWhenDisjoint: the coverage of a disjoint
      pair of lists is zero. */
  lemma NoCoverageWhenDisjoint(resumeSkills: seq<string>, jobSkills: seq<string>)
    requires resumeSkills != [] && jobSkills != []
    requires LowerSet(resumeSkills) * LowerSet(jobSkills) == {}
    ensures CalculateFitScore(resumeSkills, jobSkills).score == 0.0
  {
    ScoreIsCoverage(resumeSkills, jobSkills);
    assert |LowerSet(resumeSkills) * LowerSet(jobSkills)| == 0;
  }

  lemma ExampleOneSkillCovered()
    ensures CalculateFitScore(["Python", "SQL"], ["Python"]) == FitScore(1.0, ["Python"], [])
  {
    var resume := ["Python", "SQL"];
    var job := ["Python"];
    assert Lower("Python") == "python";
    assert Lower("SQL") == "sql";
    assert LowerSet(resume) == {"python", "sql"} by {
      LowerSetAppend(["Python"], "SQL");
      assert resume == ["Python"] + ["SQL"];
      LowerSetAppend([], "Python");
      assert ["Python"] == [] + ["Python"];
    }
    assert LowerSet(job) == {"python"} by {
      LowerSetAppend([], "Python");
      assert job == [] + ["Python"];
    }
    assert KeepLowerIn(resume, {"python"}) == ["Python"] by {
      assert resume[1..] == ["SQL"];
      assert ["SQL"][1..] == [];
    }
    assert KeepLowerIn(job, {}) == [] by {
      assert job[1..] == [];
    }
    assert {"python", "sql"} * {"python"} == {"python"};
    assert {"python"} - {"python", "sql"} == {};
    assert |{"python"}| == 1;
  }

  lemma ExampleLowerSets()
    ensures LowerSet(["Python", "SQL"]) == {"python", "sql"}
    ensures LowerSet(["Python", "SQL", "Rust"]) == {"python", "sql", "rust"}
  {
    assert Lower("Python") == "python";
    assert Lower("SQL") == "sql";
    assert Lower("Rust") == "rust";
    LowerSetAppend([], "Python");
    assert ["Python"] == [] + ["Python"];
    LowerSetAppend(["Python"], "SQL");
    assert ["Python", "SQL"] == ["Python"] + ["SQL"];
    LowerSetAppend(["Python", "SQL"], "Rust");
    assert ["Python", "SQL", "Rust"] == ["Python", "SQL"] + ["Rust"];
  }

  /** Two of three wanted skills covered: score 2/3, Rust missing. */
  lemma ExampleTwoOfThree()
    ensures CalculateFitScore(["Python", "SQL"], ["Python", "SQL", "Rust"])
            == FitScore(2.0 / 3.0, ["Python", "SQL"], ["Rust"])
  {
    var resume := ["Python", "SQL"];
    var job := ["Python", "SQL", "Rust"];
    ExampleLowerSets();
    assert {"python", "sql"} * {"python", "sql", "rust"} == {"python", "sql"};
    assert {"python", "sql", "rust"} - {"python", "sql"} == {"rust"};
    assert |{"python", "sql"}| == 2;
    assert |{"python", "sql", "rust"}| == 3;
    assert Lower("Python") == "python";
    assert Lower("SQL") == "sql";
    assert Lower("Rust") == "rust";
    assert KeepLowerIn(resume, {"python", "sql"}) == ["Python", "SQL"] by {
      assert resume[1..] == ["SQL"];
      assert ["SQL"][1..] == [];
    }
    assert KeepLowerIn(job, {"rust"}) == ["Rust"] by {
      assert job[1..] == ["SQL", "Rust"];
      assert ["SQL", "Rust"][1..] == ["Rust"];
      assert ["Rust"][1..] == [];
    }
  }

  lemma ExampleEmptyResume()
    ensures CalculateFitScore([], ["Python"]) == FitScore(0.0, [], ["Python"])
  {
  }
}
