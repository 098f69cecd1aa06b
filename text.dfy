/** ASCII string primitives used by the skill matcher: Python's str.lower and
    str.title restricted to ASCII, substring containment (Python's `in` on
    strings), and the whole-word search `\bSKILL\b` of a case-insensitive
    regular expression. */
module Text {

  predicate IsUpper(c: char) { 'A' <= c <= 'Z' }
  predicate IsLowerLetter(c: char) { 'a' <= c <= 'z' }
  predicate IsLetter(c: char) { IsUpper(c) || IsLowerLetter(c) }
  predicate IsDigit(c: char) { '0' <= c <= '9' }

  /** The characters `\w` matches: ASCII letters, digits and the underscore. */
  predicate IsWordChar(c: char) { IsLetter(c) || IsDigit(c) || c == '_' }

  function LowerChar(c: char): (r: char)
    ensures !IsUpper(r)
    ensures IsLetter(r) == IsLetter(c) && IsWordChar(r) == IsWordChar(c)
    ensures IsLetter(c) ==> r == c || r as int == c as int + 32
    ensures !IsLetter(c) ==> r == c
  {
    if IsUpper(c) then (c as int + 32) as char else c
  }

  function UpperChar(c: char): (r: char)
    ensures !IsLowerLetter(r)
    ensures IsLetter(r) == IsLetter(c) && LowerChar(r) == LowerChar(c)
    ensures !IsLetter(c) ==> r == c
  {
    if IsLowerLetter(c) then (c as int - 32) as char else c
  }

  /** Python's str.lower over ASCII. */
  function Lower(s: string): (r: string)
    ensures |r| == |s|
    ensures forall i :: 0 <= i < |s| ==> r[i] == LowerChar(s[i])
  {
    seq(|s|, i requires 0 <= i < |s| => LowerChar(s[i]))
  }

  predicate IsLowerString(s: string) { Lower(s) == s }

  /** Python's str.title over ASCII: a letter is upper-cased when the
      character before it is not a letter (or there is none) and lower-cased
      otherwise; every other character is kept. */
  function Title(s: string): (r: string)
    ensures |r| == |s|
    ensures forall i :: 0 <= i < |s| && IsLetter(s[i]) ==>
              IsLetter(r[i]) && LowerChar(r[i]) == LowerChar(s[i])
              && (IsUpper(r[i]) <==> (i == 0 || !IsLetter(s[i - 1])))
    ensures forall i :: 0 <= i < |s| && !IsLetter(s[i]) ==> r[i] == s[i]
  {
    seq(|s|, i requires 0 <= i < |s| => TitleCharAt(s, i))
  }

  function TitleCharAt(s: string, i: nat): char
    requires i < |s|
  {
    if i > 0 && IsLetter(s[i - 1]) then LowerChar(s[i]) else UpperChar(s[i])
  }

  lemma LowerIdempotent(s: string)
    ensures IsLowerString(Lower(s))
  {
  }

  /** Title-casing keeps the lower-case form, so Lower(Title(s)) == Lower(s). */
  lemma LowerOfTitle(s: string)
    ensures Lower(Title(s)) == Lower(s)
  {
    forall i | 0 <= i < |s|
      ensures Lower(Title(s))[i] == Lower(s)[i]
    {
      assert Title(s)[i] == TitleCharAt(s, i);
    }
  }

  lemma TitleIdempotent(s: string)
    ensures Title(Title(s)) == Title(s)
  {
    var t := Title(s);
    forall i | 0 <= i < |s|
      ensures Title(t)[i] == t[i]
    {
      assert t[i] == TitleCharAt(s, i);
      assert i > 0 ==> t[i - 1] == TitleCharAt(s, i - 1);
      assert Title(t)[i] == TitleCharAt(t, i);
    }
  }

  /** On lower-case strings Title is one-to-one. */
  lemma TitleInjectiveOnLower(s1: string, s2: string)
    requires IsLowerString(s1) && IsLowerString(s2)
    requires Title(s1) == Title(s2)
    ensures s1 == s2
  {
    LowerOfTitle(s1);
    LowerOfTitle(s2);
  }

  // Python's `a in b` on strings.

  predicate OccursAt(a: string, b: string, i: int)
  {
    0 <= i && i + |a| <= |b| && b[i..i + |a|] == a
  }

  predicate IsSubstring(a: string, b: string)
  {
    exists i | 0 <= i <= |b| - |a| :: OccursAt(a, b, i)
  }

  lemma SubstringOfSelf(a: string)
    ensures IsSubstring(a, a)
  {
    assert OccursAt(a, a, 0);
  }

  lemma SubstringOfConcat(pre: string, a: string, post: string)
    ensures IsSubstring(a, pre + a + post)
  {
    assert (pre + a + post)[|pre|..|pre| + |a|] == a;
    assert OccursAt(a, pre + a + post, |pre|);
  }

  // The regular expression `\b` + escape(w) + `\b` with re.IGNORECASE.

  /** True when position p of t holds a word character; positions outside the
      text count as non-word characters. */
  predicate WordAt(t: string, p: int)
  {
    0 <= p < |t| && IsWordChar(t[p])
  }

  /** `\b` holds at position p (between t[p-1] and t[p]). */
  predicate IsBoundary(t: string, p: int)
  {
    WordAt(t, p - 1) != WordAt(t, p)
  }

  /** w matches, ignoring case, at position i of t with a word boundary on
      both sides. */
  predicate MatchesAt(w: string, t: string, i: int)
    ensures MatchesAt(w, t, i) ==> OccursAt(Lower(w), Lower(t), i)
    ensures MatchesAt(w, t, i) ==> WordAt(t, i - 1) || WordAt(t, i)
  {
    0 <= i && i + |w| <= |t|
    && Lower(t[i..i + |w|]) == Lower(w)
    && IsBoundary(t, i) && IsBoundary(t, i + |w|)
  }

  /** Reference definition of the whole-word search. */
  ghost predicate OccursAsWord(w: string, t: string)
    ensures OccursAsWord(w, t) ==> t != [] && IsSubstring(Lower(w), Lower(t))
  {
    exists i :: MatchesAt(w, t, i)
  }

  /** The left-to-right search the regular-expression engine performs,
      starting at position i. */
  function SearchFrom(w: string, t: string, i: nat): (found: bool)
    ensures found <==> exists j :: i <= j && MatchesAt(w, t, j)
    decreases |t| - i
  {
    if i + |w| > |t| then false
    else MatchesAt(w, t, i) || SearchFrom(w, t, i + 1)
  }

  /** SkillExtractor._skill_in_text: bool(re.search(r'\b' + re.escape(skill) + r'\b', text, re.IGNORECASE)). */
  function SkillInText(skill: string, text: string): (found: bool)
    ensures found <==> OccursAsWord(skill, text)
  {
    SearchFrom(skill, text, 0)
  }

  /** A non-empty word shorter than a text made only of word characters
      never matches inside it: "java" is not found in "javascripter". */
  lemma NotInsideLongerWord(w: string, t: string)
    requires 0 < |w| < |t|
    requires forall p :: 0 <= p < |t| ==> IsWordChar(t[p])
    ensures !SkillInText(w, t)
  {
    forall i
      ensures !MatchesAt(w, t, i)
    {
      if i == 0 {
        assert WordAt(t, |w| - 1) && WordAt(t, |w|);
      } else if 0 < i < |t| {
        assert WordAt(t, i - 1) && WordAt(t, i);
      }
    }
  }

  lemma JavaNotInJavascripter()
    ensures !SkillInText("java", "javascripter")
  {
    NotInsideLongerWord("java", "javascripter");
  }

  /** A skill ending in a non-word character needs a word character after it:
      "c++" is not found in "c++" alone, but is found in "c++11". */
  lemma CppNeedsWordCharAfter()
    ensures !SkillInText("c++", "c++")
    ensures SkillInText("c++", "c++11")
  {
    forall i
      ensures !MatchesAt("c++", "c++", i)
    {
      if i == 0 {
        assert !IsBoundary("c++", 3);
      }
    }
    var t := "c++11";
    assert t[0..3] == "c++";
    assert Lower("c++") == "c++";
    assert MatchesAt("c++", t, 0);
  }
}
