/** SkillExtractor: the skill dictionary built from the parsed skills
    configuration, whole-word extraction of known skills from free text, and
    normalisation of skill mentions through the alias table. */
module SkillExtraction {
  import opened Text
  import opened Collections

  /** One entry of a category list: a bare skill name, or a record with a
      name and its aliases (a record without "aliases" has []). */
  datatype SkillEntry =
    | Plain(name: string)
    | Detailed(name: string, aliases: seq<string>)

  datatype Category = Category(title: string, skills: seq<SkillEntry>)

  /** The parsed skills configuration: the "categories" object in key order
      and the flat top-level "aliases" object as (alias, canonical) pairs in
      key order. */
  datatype SkillsData = SkillsData(categories: seq<Category>, aliases: seq<(string, string)>)

  // ---------------------------------------------------------------------
  // Specification of the dictionary build

  /** The alias writes one entry performs: (lower(alias), name) for each
      listed alias, in order. */
  function EntryAliasWrites(e: SkillEntry): (ws: seq<(string, string)>)
    ensures forall k :: 0 <= k < |ws| ==> ws[k].1 == e.name
  {
    match e
    case Plain(_) => []
    case Detailed(name, aliases) =>
      seq(|aliases|, k requires 0 <= k < |aliases| => (Lower(aliases[k]), name))
  }

  function EntriesSkills(es: seq<SkillEntry>): set<string>
  {
    if es == [] then {} else EntriesSkills(es[..|es| - 1]) + {Lower(es[|es| - 1].name)}
  }

  function EntriesAliasWrites(es: seq<SkillEntry>): seq<(string, string)>
  {
    if es == [] then [] else EntriesAliasWrites(es[..|es| - 1]) + EntryAliasWrites(es[|es| - 1])
  }

  function CategoriesSkills(cs: seq<Category>): set<string>
  {
    if cs == [] then {} else CategoriesSkills(cs[..|cs| - 1]) + EntriesSkills(cs[|cs| - 1].skills)
  }

  function CategoriesAliasWrites(cs: seq<Category>): seq<(string, string)>
  {
    if cs == [] then [] else CategoriesAliasWrites(cs[..|cs| - 1]) + EntriesAliasWrites(cs[|cs| - 1].skills)
  }

  function TopLevelAliasWrites(pairs: seq<(string, string)>): seq<(string, string)>
  {
    seq(|pairs|, k requires 0 <= k < |pairs| => (Lower(pairs[k].0), pairs[k].1))
  }

  /** Every alias write of the build, in the order the source performs them. */
  function AliasWrites(data: SkillsData): seq<(string, string)>
  {
    CategoriesAliasWrites(data.categories) + TopLevelAliasWrites(data.aliases)
  }

  /** Dictionary assignments m[k] := v performed in order. */
  function ApplyWrites(m: map<string, string>, ws: seq<(string, string)>): (r: map<string, string>)
    ensures m.Keys <= r.Keys
    ensures forall j :: 0 <= j < |ws| ==> ws[j].0 in r
    ensures |ws| > 0 ==> r[ws[|ws| - 1].0] == ws[|ws| - 1].1
  {
    if ws == [] then m
    else ApplyWrites(m, ws[..|ws| - 1])[ws[|ws| - 1].0 := ws[|ws| - 1].1]
  }

  lemma {:induction false} ApplyWritesAppend(m: map<string, string>, p: seq<(string, string)>, q: seq<(string, string)>)
    ensures ApplyWrites(m, p + q) == ApplyWrites(ApplyWrites(m, p), q)
    decreases |q|
  {
    if q == [] {
      assert p + q == p;
    } else {
      assert (p + q)[..|p + q| - 1] == p + q[..|q| - 1];
      ApplyWritesAppend(m, p, q[..|q| - 1]);
    }
  }

  /** Last write wins: after the writes, key k holds the value of the last
      write to k, or its old value when no write names k. */
  lemma {:induction false} LastWriteWins(m: map<string, string>, ws: seq<(string, string)>, k: string)
    ensures k in ApplyWrites(m, ws) <==> k in m || exists j :: 0 <= j < |ws| && ws[j].0 == k
    ensures forall j :: 0 <= j < |ws| && ws[j].0 == k && (forall j' :: j < j' < |ws| ==> ws[j'].0 != k)
              ==> k in ApplyWrites(m, ws) && ApplyWrites(m, ws)[k] == ws[j].1
    ensures ((forall j :: 0 <= j < |ws| ==> ws[j].0 != k) && k in m)
              ==> k in ApplyWrites(m, ws) && ApplyWrites(m, ws)[k] == m[k]
    decreases |ws|
  {
    if ws != [] {
      var n := |ws| - 1;
      LastWriteWins(m, ws[..n], k);
      if ws[n].0 != k {
        forall j | 0 <= j < n && ws[j].0 == k
          ensures ws[..n][j].0 == k
        {
        }
      }
    }
  }

  lemma {:induction false} EntriesSkillsHasEveryEntry(es: seq<SkillEntry>)
    ensures forall e :: e in es ==> Lower(e.name) in EntriesSkills(es)
    ensures forall s :: s in EntriesSkills(es) ==> exists e :: e in es && s == Lower(e.name)
  {
    if es != [] {
      var n := |es| - 1;
      EntriesSkillsHasEveryEntry(es[..n]);
      assert es == es[..n] + [es[n]];
    }
  }

  /** After the build every category entry's lower-cased name is a canonical
      skill, and the canonical skills are exactly those names. */
  lemma {:induction false} CategoriesSkillsAreEntryNames(cs: seq<Category>)
    ensures forall c, e :: c in cs && e in c.skills ==> Lower(e.name) in CategoriesSkills(cs)
    ensures forall s :: s in CategoriesSkills(cs) ==>
              exists c, e :: c in cs && e in c.skills && s == Lower(e.name)
  {
    if cs != [] {
      var n := |cs| - 1;
      CategoriesSkillsAreEntryNames(cs[..n]);
      EntriesSkillsHasEveryEntry(cs[n].skills);
      assert cs == cs[..n] + [cs[n]];
    }
  }

  lemma {:induction false} EntriesAliasWritesHaveEveryAlias(es: seq<SkillEntry>)
    ensures forall e, a :: e in es && e.Detailed? && a in e.aliases ==> (Lower(a), e.name) in EntriesAliasWrites(es)
  {
    if es != [] {
      var n := |es| - 1;
      EntriesAliasWritesHaveEveryAlias(es[..n]);
      assert es == es[..n] + [es[n]];
      forall a | es[n].Detailed? && a in es[n].aliases
        ensures (Lower(a), es[n].name) in EntryAliasWrites(es[n])
      {
        var k :| 0 <= k < |es[n].aliases| && es[n].aliases[k] == a;
        assert EntryAliasWrites(es[n])[k] == (Lower(a), es[n].name);
      }
    }
  }

  /** Each listed alias of a category entry is written, lower-cased, with
      the entry's name as authored. */
  lemma {:induction false} CategoryAliasesAreWritten(cs: seq<Category>)
    ensures forall c, e, a :: c in cs && e in c.skills && e.Detailed? && a in e.aliases
              ==> (Lower(a), e.name) in CategoriesAliasWrites(cs)
  {
    if cs != [] {
      var n := |cs| - 1;
      CategoryAliasesAreWritten(cs[..n]);
      EntriesAliasWritesHaveEveryAlias(cs[n].skills);
      assert cs == cs[..n] + [cs[n]];
    }
  }

  lemma {:induction false} CategoryWriteKeysAreLower(cs: seq<Category>)
    ensures forall j :: 0 <= j < |CategoriesAliasWrites(cs)| ==> IsLowerString(CategoriesAliasWrites(cs)[j].0)
  {
    if cs != [] {
      var n := |cs| - 1;
      CategoryWriteKeysAreLower(cs[..n]);
      EntryWriteKeysAreLower(cs[n].skills);
    }
  }

  lemma {:induction false} EntryWriteKeysAreLower(es: seq<SkillEntry>)
    ensures forall j :: 0 <= j < |EntriesAliasWrites(es)| ==> IsLowerString(EntriesAliasWrites(es)[j].0)
  {
    if es != [] {
      EntryWriteKeysAreLower(es[..|es| - 1]);
      var ws := EntryAliasWrites(es[|es| - 1]);
      forall j | 0 <= j < |ws| ensures IsLowerString(ws[j].0) {
        LowerIdempotent(es[|es| - 1].aliases[j]);
      }
    }
  }

  /** Every key the build writes is lower-case. */
  lemma AliasWriteKeysAreLower(data: SkillsData)
    ensures forall j :: 0 <= j < |AliasWrites(data)| ==> IsLowerString(AliasWrites(data)[j].0)
  {
    CategoryWriteKeysAreLower(data.categories);
    forall k | 0 <= k < |data.aliases| ensures IsLowerString(Lower(data.aliases[k].0)) {
      LowerIdempotent(data.aliases[k].0);
    }
  }

  lemma {:induction false} ApplyLowerWritesKeepsLowerKeys(m: map<string, string>, ws: seq<(string, string)>)
    requires forall k :: k in m ==> IsLowerString(k)
    requires forall j :: 0 <= j < |ws| ==> IsLowerString(ws[j].0)
    ensures forall k :: k in ApplyWrites(m, ws) ==> IsLowerString(k)
    decreases |ws|
  {
    if ws != [] {
      ApplyLowerWritesKeepsLowerKeys(m, ws[..|ws| - 1]);
    }
  }

  /** A top-level alias overrides any category alias with the same
      lower-cased key: the last top-level pair for that key decides. */
  lemma TopLevelAliasOverrides(m: map<string, string>, data: SkillsData, i: nat)
    requires i < |data.aliases|
    requires forall i' :: i < i' < |data.aliases| ==> Lower(data.aliases[i'].0) != Lower(data.aliases[i].0)
    ensures Lower(data.aliases[i].0) in ApplyWrites(m, AliasWrites(data))
    ensures ApplyWrites(m, AliasWrites(data))[Lower(data.aliases[i].0)] == data.aliases[i].1
  {
    var cw := CategoriesAliasWrites(data.categories);
    var ws := AliasWrites(data);
    var j := |cw| + i;
    assert ws[j] == (Lower(data.aliases[i].0), data.aliases[i].1);
    forall j' | j < j' < |ws|
      ensures ws[j'].0 != Lower(data.aliases[i].0)
    {
      assert ws[j'] == TopLevelAliasWrites(data.aliases)[j' - |cw|];
    }
    LastWriteWins(m, ws, Lower(data.aliases[i].0));
  }

  /** A category alias keeps the entry's name when no later category alias
      and no top-level alias writes the same lower-cased key. */
  lemma CategoryAliasSurvives(m: map<string, string>, data: SkillsData, j: nat)
    requires j < |CategoriesAliasWrites(data.categories)|
    requires forall j' :: j < j' < |CategoriesAliasWrites(data.categories)| ==>
               CategoriesAliasWrites(data.categories)[j'].0 != CategoriesAliasWrites(data.categories)[j].0
    requires forall p :: 0 <= p < |data.aliases| ==> Lower(data.aliases[p].0) != CategoriesAliasWrites(data.categories)[j].0
    ensures CategoriesAliasWrites(data.categories)[j].0 in ApplyWrites(m, AliasWrites(data))
    ensures ApplyWrites(m, AliasWrites(data))[CategoriesAliasWrites(data.categories)[j].0]
            == CategoriesAliasWrites(data.categories)[j].1
  {
    var cw := CategoriesAliasWrites(data.categories);
    var ws := AliasWrites(data);
    assert ws[j] == cw[j];
    forall j' | j < j' < |ws|
      ensures ws[j'].0 != cw[j].0
    {
      if j' >= |cw| {
        assert ws[j'] == TopLevelAliasWrites(data.aliases)[j' - |cw|];
      }
    }
    LastWriteWins(m, ws, cw[j].0);
  }

  /** After the build every alias listed anywhere in the configuration is a
      key of the alias table, lower-cased. */
  lemma EveryAliasIsAKey(m: map<string, string>, data: SkillsData)
    ensures forall c, e, a :: c in data.categories && e in c.skills && e.Detailed? && a in e.aliases
              ==> Lower(a) in ApplyWrites(m, AliasWrites(data))
    ensures forall p :: p in data.aliases ==> Lower(p.0) in ApplyWrites(m, AliasWrites(data))
  {
    var ws := AliasWrites(data);
    var cw := CategoriesAliasWrites(data.categories);
    CategoryAliasesAreWritten(data.categories);
    forall c, e, a | c in data.categories && e in c.skills && e.Detailed? && a in e.aliases
      ensures Lower(a) in ApplyWrites(m, ws)
    {
      var j :| 0 <= j < |cw| && cw[j] == (Lower(a), e.name);
      assert ws[j] == cw[j];
      LastWriteWins(m, ws, Lower(a));
    }
    forall p | p in data.aliases
      ensures Lower(p.0) in ApplyWrites(m, ws)
    {
      var i :| 0 <= i < |data.aliases| && data.aliases[i] == p;
      assert ws[|cw| + i] == TopLevelAliasWrites(data.aliases)[i];
      LastWriteWins(m, ws, Lower(p.0));
    }
  }

  // ---------------------------------------------------------------------
  // Specification of extraction and normalisation

  /** Title-cased canonical skills found as whole words in the (lower-cased) text. */
  function SkillHits(skills: set<string>, text: string): set<string>
  {
    set s | s in skills && SkillInText(s, text) :: Title(s)
  }

  /** Canonical names, as authored, of the aliases found as whole words. */
  function AliasHits(aliases: map<string, string>, text: string): set<string>
  {
    set a | a in aliases && SkillInText(a, text) :: aliases[a]
  }

  /** One more canonical skill examined by the scan over allSkills. */
  lemma SkillHitsStep(skills: set<string>, rest: set<string>, skill: string, text: string)
    requires skill in rest
    ensures SkillHits(skills - (rest - {skill}), text)
            == SkillHits(skills - rest, text) + (if skill in skills && SkillInText(skill, text) then {Title(skill)} else {})
  {
    assert skills - (rest - {skill}) == (skills - rest) + (skills * {skill});
  }

  /** One more alias key examined by the scan over the alias table. */
  lemma AliasHitsStep(aliases: map<string, string>, keys: set<string>, alias: string, text: string)
    requires alias in keys && keys <= aliases.Keys
    ensures AliasHits(aliases - (keys - {alias}), text)
            == AliasHits(aliases - keys, text) + (if SkillInText(alias, text) then {aliases[alias]} else {})
  {
    var after := aliases - (keys - {alias});
    var before := aliases - keys;
    var found := if SkillInText(alias, text) then {aliases[alias]} else {};
    forall y | y in AliasHits(after, text) ensures y in AliasHits(before, text) + found {
      var a :| a in after && SkillInText(a, text) && after[a] == y;
      if a != alias {
        assert a in before;
      }
    }
    forall y | y in AliasHits(before, text) + found ensures y in AliasHits(after, text) {
      if y in AliasHits(before, text) {
        var a :| a in before && SkillInText(a, text) && before[a] == y;
        assert a in after;
      } else {
        assert alias in after;
      }
    }
  }

  /** The set extract_skills returns as a list. */
  function Extracted(skills: set<string>, aliases: map<string, string>, text: string): (r: set<string>)
    ensures text == [] ==> r == {}
    ensures forall x :: x in r ==> (exists s :: s in skills && x == Title(s)) || x in aliases.Values
  {
    if text == [] then {} else SkillHits(skills, Lower(text)) + AliasHits(aliases, Lower(text))
  }

  /** The rewrite normalize_skills applies to one mention. */
  function NormalizeMention(aliases: map<string, string>, mention: string): (r: string)
    ensures Lower(mention) in aliases ==> r in aliases.Values
    ensures Lower(mention) !in aliases ==> Lower(r) == Lower(mention)
  {
    if Lower(mention) in aliases then aliases[Lower(mention)]
    else LowerOfTitle(mention); Title(mention)
  }

  function NormalizedSet(aliases: map<string, string>, mentions: set<string>): set<string>
  {
    set m | m in mentions :: NormalizeMention(aliases, m)
  }

  /** Every canonical skill found as a whole word in the lower-cased text
      is extracted in its title-cased form, whatever the alias table holds. */
  lemma CanonicalSkillExtractedWhenFound(skills: set<string>, aliases: map<string, string>, text: string, s: string)
    requires s in skills && OccursAsWord(s, Lower(text))
    ensures Title(s) in Extracted(skills, aliases, text)
  {
    assert Lower(text) != [];
    assert SkillInText(s, Lower(text));
  }

  /** Whole-word matching decides membership of a canonical skill: when no
      alias names Title(s) as its target, Title(s) is extracted exactly when
      s occurs in the lower-cased text with a word boundary at both ends. */
  lemma CanonicalSkillExtractedIff(skills: set<string>, aliases: map<string, string>, text: string, s: string)
    requires forall x :: x in skills ==> IsLowerString(x)
    requires s in skills
    requires forall a :: a in aliases ==> aliases[a] != Title(s)
    ensures Title(s) in Extracted(skills, aliases, text) <==> OccursAsWord(s, Lower(text))
  {
    if text == [] {
      assert !MatchesAt(s, Lower(text), 0) by {
        assert !IsBoundary(Lower(text), 0);
      }
      assert !OccursAsWord(s, Lower(text));
    } else if Title(s) in Extracted(skills, aliases, text) {
      var s' :| s' in skills && SkillInText(s', Lower(text)) && Title(s') == Title(s);
      TitleInjectiveOnLower(s', s);
    }
  }

  /** A skill embedded in a longer word is not extracted: "java" in a text
      that reads "javascripter". */
  lemma JavaNotExtractedFromJavascripter(aliases: map<string, string>)
    requires forall a :: a in aliases ==> aliases[a] != "Java"
    ensures "Java" !in Extracted({"java"}, aliases, "Javascripter")
  {
    assert Title("java") == "Java";
    assert Lower("Javascripter") == "javascripter";
    assert IsLowerString("java");
    JavaNotInJavascripter();
    CanonicalSkillExtractedIff({"java"}, aliases, "Javascripter", "java");
  }

  /** An alias found with word boundaries contributes its canonical name as
      authored, not title-cased. */
  lemma AliasHitAddsCanonicalVerbatim(skills: set<string>, aliases: map<string, string>, text: string, a: string)
    requires a in aliases && SkillInText(a, Lower(text))
    ensures aliases[a] in Extracted(skills, aliases, text)
  {
    assert OccursAsWord(a, Lower(text));
  }

  /** Normalising a mention that is not an alias key twice gives the same as
      normalising it once. */
  lemma NormalizeStableOffAliases(aliases: map<string, string>, m: string)
    requires Lower(m) !in aliases
    ensures NormalizeMention(aliases, NormalizeMention(aliases, m)) == NormalizeMention(aliases, m)
  {
    LowerOfTitle(m);
    TitleIdempotent(m);
  }

  /** An alias table is closed when each target is a fixed point of the
      rewrite: its lower-case form is an alias key naming the target itself,
      or is no key and the target is already title-cased. */
  ghost predicate ClosedAliases(aliases: map<string, string>)
  {
    forall k :: k in aliases ==>
      var v := aliases[k];
      (Lower(v) in aliases && aliases[Lower(v)] == v) || (Lower(v) !in aliases && Title(v) == v)
  }

  /** normalize_skills is idempotent, as sets, for closed alias tables. */
  lemma NormalizeIdempotentWhenClosed(aliases: map<string, string>, mentions: set<string>)
    requires ClosedAliases(aliases)
    ensures NormalizedSet(aliases, NormalizedSet(aliases, mentions)) == NormalizedSet(aliases, mentions)
  {
    forall m | m in mentions
      ensures NormalizeMention(aliases, NormalizeMention(aliases, m)) == NormalizeMention(aliases, m)
    {
      if Lower(m) !in aliases {
        NormalizeStableOffAliases(aliases, m);
      }
    }
    var once := NormalizedSet(aliases, mentions);
    forall x | x in NormalizedSet(aliases, once) ensures x in once {
      var y :| y in once && x == NormalizeMention(aliases, y);
      var m :| m in mentions && y == NormalizeMention(aliases, m);
    }
    forall x | x in once ensures x in NormalizedSet(aliases, once) {
      var m :| m in mentions && x == NormalizeMention(aliases, m);
      assert NormalizeMention(aliases, x) == x;
    }
  }

  /** Without that closure normalising is not idempotent: the alias
      "js" -> "JavaScript" turns "js" into "JavaScript", which a second pass
      title-cases to "Javascript". */
  lemma NormalizeNotIdempotent()
    ensures NormalizeMention(map["js" := "JavaScript"], "js") == "JavaScript"
    ensures NormalizeMention(map["js" := "JavaScript"], "JavaScript") == "Javascript"
  {
    assert Lower("js") == "js";
    LowerJavaScript();
    TitleJavaScript();
  }

  lemma LowerJavaScript()
    ensures Lower("JavaScript") == "javascript"
  {
  }

  lemma TitleJavaScript()
    ensures Title("JavaScript") == "Javascript"
  {
    var t := Title("JavaScript");
    assert t[0] == TitleCharAt("JavaScript", 0);
    assert t[4] == TitleCharAt("JavaScript", 4);
  }

  // ---------------------------------------------------------------------
  // The extractor object

  class SkillExtractor {
    var allSkills: set<string>
    var skillAliases: map<string, string>

    /** Canonical skills and alias keys are stored lower-case. */
    ghost predicate Valid()
      reads this
    {
      (forall s :: s in allSkills ==> IsLowerString(s))
      && (forall k :: k in skillAliases ==> IsLowerString(k))
    }

    constructor ()
      ensures Valid()
      ensures allSkills == {} && skillAliases == map[]
    {
      allSkills := {};
      skillAliases := map[];
    }

    /** The build loop of initialize, once the JSON is parsed: every category
        entry's lower-cased name joins allSkills, every listed alias is
        written, then every top-level alias, so that later writes win. */
    method Initialize(data: SkillsData)
      requires Valid()
      modifies this
      ensures Valid()
      ensures allSkills == old(allSkills) + CategoriesSkills(data.categories)
      ensures skillAliases == ApplyWrites(old(skillAliases), AliasWrites(data))
    {
      ghost var m0 := skillAliases;
      var cs := data.categories;
      for i := 0 to |cs|
        invariant allSkills == old(allSkills) + CategoriesSkills(cs[..i])
        invariant skillAliases == ApplyWrites(m0, CategoriesAliasWrites(cs[..i]))
      {
        AddCategorySkills(cs[i].skills);
        ApplyWritesAppend(m0, CategoriesAliasWrites(cs[..i]), EntriesAliasWrites(cs[i].skills));
        CategoriesPrefixStep(cs, i);
      }
      assert cs[..|cs|] == cs;
      AddTopLevelAliases(data.aliases);
      ApplyWritesAppend(m0, CategoriesAliasWrites(cs), TopLevelAliasWrites(data.aliases));
      BuildKeepsLower(old(allSkills), m0, data);
    }

    /** The inner loop of the build over one category's entries. */
    method AddCategorySkills(es: seq<SkillEntry>)
      modifies this
      ensures allSkills == old(allSkills) + EntriesSkills(es)
      ensures skillAliases == ApplyWrites(old(skillAliases), EntriesAliasWrites(es))
    {
      ghost var m0 := skillAliases;
      for j := 0 to |es|
        invariant allSkills == old(allSkills) + EntriesSkills(es[..j])
        invariant skillAliases == ApplyWrites(m0, EntriesAliasWrites(es[..j]))
      {
        AddSkillEntry(es[j]);
        ApplyWritesAppend(m0, EntriesAliasWrites(es[..j]), EntryAliasWrites(es[j]));
        assert es[..j + 1][..j] == es[..j];
      }
      assert es[..|es|] == es;
    }

    /** One category entry: its lower-cased name joins allSkills and, for a
        record, each alias is written lower-cased to the name as authored. */
    method AddSkillEntry(skillInfo: SkillEntry)
      modifies this
      ensures allSkills == old(allSkills) + {Lower(skillInfo.name)}
      ensures skillAliases == ApplyWrites(old(skillAliases), EntryAliasWrites(skillInfo))
    {
      match skillInfo {
        case Detailed(mainSkill, aliases) =>
          allSkills := allSkills + {Lower(mainSkill)};
          ghost var ws := EntryAliasWrites(skillInfo);
          for k := 0 to |aliases|
            invariant allSkills == old(allSkills) + {Lower(mainSkill)}
            invariant skillAliases == ApplyWrites(old(skillAliases), ws[..k])
          {
            assert ws[..k + 1][..k] == ws[..k];
            skillAliases := skillAliases[Lower(aliases[k]) := mainSkill];
          }
          assert ws[..|aliases|] == ws;
        case Plain(name) =>
          allSkills := allSkills + {Lower(name)};
      }
    }

    /** The top-level alias table, written after the category aliases. */
    method AddTopLevelAliases(pairs: seq<(string, string)>)
      modifies this
      ensures allSkills == old(allSkills)
      ensures skillAliases == ApplyWrites(old(skillAliases), TopLevelAliasWrites(pairs))
    {
      ghost var ws := TopLevelAliasWrites(pairs);
      for p := 0 to |pairs|
        invariant allSkills == old(allSkills)
        invariant skillAliases == ApplyWrites(old(skillAliases), ws[..p])
      {
        assert ws[..p + 1][..p] == ws[..p];
        skillAliases := skillAliases[Lower(pairs[p].0) := pairs[p].1];
      }
      assert ws[..|pairs|] == ws;
    }

    /** extract_skills: each canonical skill found as a whole word adds its
        title-cased form, each alias found adds its canonical name; the
        distinct results come back in unspecified order. */
    method ExtractSkills(text: string) returns (found: seq<string>)
      ensures NoDup(found)
      ensures Elems(found) == Extracted(allSkills, skillAliases, text)
      ensures text == [] ==> found == []
    {
      if text == [] {
        return [];
      }
      var textLower := Lower(text);
      var foundSkills: set<string> := {};
      var rest := allSkills;
      while rest != {}
        invariant rest <= allSkills
        invariant foundSkills == SkillHits(allSkills - rest, textLower)
        decreases rest
      {
        var skill :| skill in rest;
        SkillHitsStep(allSkills, rest, skill, textLower);
        if SkillInText(skill, textLower) {
          foundSkills := foundSkills + {Title(skill)};
        }
        rest := rest - {skill};
      }
      assert allSkills - rest == allSkills;
      ghost var fromSkills := foundSkills;
      var keys := skillAliases.Keys;
      while keys != {}
        invariant keys <= skillAliases.Keys
        invariant foundSkills == fromSkills + AliasHits(skillAliases - keys, textLower)
        decreases keys
      {
        var alias :| alias in keys;
        AliasHitsStep(skillAliases, keys, alias, textLower);
        if SkillInText(alias, textLower) {
          foundSkills := foundSkills + {skillAliases[alias]};
        }
        keys := keys - {alias};
      }
      assert skillAliases - keys == skillAliases;
      found := ListOfSet(foundSkills);
    }

    /** normalize_skills: each mention is replaced by its alias target when
        its lower-case form is an alias key, and title-cased otherwise; the
        distinct results come back in unspecified order. */
    method NormalizeSkills(skills: seq<string>) returns (r: seq<string>)
      ensures NoDup(r)
      ensures Elems(r) == NormalizedSet(skillAliases, Elems(skills))
    {
      var normalized: seq<string> := [];
      var i := 0;
      while i < |skills|
        invariant 0 <= i <= |skills|
        invariant |normalized| == i
        invariant forall k :: 0 <= k < i ==> normalized[k] == NormalizeMention(skillAliases, skills[k])
      {
        var skillLower := Lower(skills[i]);
        if skillLower in skillAliases {
          normalized := normalized + [skillAliases[skillLower]];
        } else {
          normalized := normalized + [Title(skills[i])];
        }
        i := i + 1;
      }
      assert Elems(normalized) == NormalizedSet(skillAliases, Elems(skills)) by {
        forall x | x in NormalizedSet(skillAliases, Elems(skills)) ensures x in Elems(normalized) {
          var m :| m in Elems(skills) && x == NormalizeMention(skillAliases, m);
          var k :| 0 <= k < |skills| && skills[k] == m;
          assert normalized[k] == x;
        }
      }
      r := ListOfSet(Elems(normalized));
    }
  }

  /** The build's two folds over the categories, one category further. */
  lemma CategoriesPrefixStep(cs: seq<Category>, i: int)
    requires 0 <= i < |cs|
    ensures CategoriesSkills(cs[..i + 1]) == CategoriesSkills(cs[..i]) + EntriesSkills(cs[i].skills)
    ensures CategoriesAliasWrites(cs[..i + 1]) == CategoriesAliasWrites(cs[..i]) + EntriesAliasWrites(cs[i].skills)
  {
    assert cs[..i + 1][..i] == cs[..i];
  }

  /** The build adds only lower-case skills and alias keys. */
  lemma BuildKeepsLower(skills: set<string>, m: map<string, string>, data: SkillsData)
    requires forall s :: s in skills ==> IsLowerString(s)
    requires forall k :: k in m ==> IsLowerString(k)
    ensures forall s :: s in skills + CategoriesSkills(data.categories) ==> IsLowerString(s)
    ensures forall k :: k in ApplyWrites(m, AliasWrites(data)) ==> IsLowerString(k)
  {
    CategoriesSkillsLower(data.categories);
    AliasWriteKeysAreLower(data);
    ApplyLowerWritesKeepsLowerKeys(m, AliasWrites(data));
  }

  lemma {:induction false} CategoriesSkillsLower(cs: seq<Category>)
    ensures forall s :: s in CategoriesSkills(cs) ==> IsLowerString(s)
  {
    CategoriesSkillsAreEntryNames(cs);
    forall s | s in CategoriesSkills(cs) ensures IsLowerString(s) {
      var c, e :| c in cs && e in c.skills && s == Lower(e.name);
      LowerIdempotent(e.name);
    }
  }
}
