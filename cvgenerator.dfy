/** The CV generator page's keyword check of a pasted CV against a job type's keyword list:
    found and missing keywords, an ATS score, suggestions and keyword counts. */
module CvAnalysis {
  import opened Text
  import opened Collections

  /** `jobKeywords[jobType] || []`: the keyword list of a job type, empty for an unknown
      one. */
  function KeywordsFor(table: map<string, seq<string>>, jobType: string): (r: seq<string>)
    ensures jobType !in table ==> r == []
    ensures jobType in table ==> r == table[jobType]
  {
    if jobType in table then table[jobType] else []
  }

  /** The test `text.includes(keyword.toLowerCase())`. */
  function Mentioned(text: string): string -> bool
  {
    (keyword: string) => Contains(text, Lower(keyword))
  }

  /** `foundKeywords`: the keywords the lower-cased text includes, in list order. */
  function Found(text: string, keywords: seq<string>): seq<string>
  {
    Filter(keywords, Mentioned(text))
  }

  /** `missingKeywords`: the keywords the lower-cased text does not include, in list order. */
  function Missing(text: string, keywords: seq<string>): seq<string>
  {
    Filter(keywords, (keyword: string) => !Contains(text, Lower(keyword)))
  }

  /** Each keyword lands in exactly one of found and missing, and both keep the keyword
      list's order. */
  lemma KeywordPartition(text: string, keywords: seq<string>)
    ensures forall k :: k in keywords ==>
              (k in Found(text, keywords) <==> k !in Missing(text, keywords))
    ensures forall k :: k in Found(text, keywords) <==> k in keywords && Contains(text, Lower(k))
    ensures forall k :: k in Missing(text, keywords) <==> k in keywords && !Contains(text, Lower(k))
    ensures Subsequence(Found(text, keywords), keywords)
    ensures Subsequence(Missing(text, keywords), keywords)
    ensures |Found(text, keywords)| + |Missing(text, keywords)| == |keywords|
    ensures multiset(Found(text, keywords)) + multiset(Missing(text, keywords)) == multiset(keywords)
  {
    FilterMembership(keywords, Mentioned(text));
    FilterMembership(keywords, (keyword: string) => !Contains(text, Lower(keyword)));
    FilterIsSubsequence(keywords, Mentioned(text));
    FilterIsSubsequence(keywords, (keyword: string) => !Contains(text, Lower(keyword)));
    FilterPartition(keywords, Mentioned(text), (keyword: string) => !Contains(text, Lower(keyword)));
  }

  /** The bonus for a CV longer than 500 UTF-16 code units. */
  function LengthBonus(text: string): int
  {
    if Utf16Length(text) > 500 then 20 else 0
  }

  /** The points added to the keyword share: length, and the words 'experience' and
      'skills'. */
  function Bonus(text: string): int
  {
    LengthBonus(text) + (if Contains(text, "experience") then 15 else 0) +
    (if Contains(text, "skills") then 15 else 0)
  }

  /** `Math.min(100, Math.max(0, x))`. */
  function Clamp(x: real): real
  {
    var atLeastZero := if x < 0.0 then 0.0 else x;
    if atLeastZero > 100.0 then 100.0 else atLeastZero
  }

  /** `Math.round(x)`: the nearest integer, halves rounded up. */
  function Round(x: real): int
  {
    (x + 0.5).Floor
  }

  /** The rounded ATS score: the share of keywords found, as a percentage, plus the bonus,
      clamped to 0..100 before rounding. With no keywords the share is `0 / 0`, which is
      `NaN` in JavaScript: no number. */
  function AtsScore(found: nat, total: nat, bonus: int): (r: Option<int>)
    ensures r.Some? <==> total > 0
    ensures r.Some? ==> 0 <= r.value <= 100
  {
    if total == 0 then None
    else Some(Round(Clamp((found as real / total as real) * 100.0 + bonus as real)))
  }

  /** Finding every keyword scores 100, whatever the bonus. */
  lemma AllFoundScoresHundred(total: nat, bonus: int)
    requires total > 0 && bonus >= 0
    ensures AtsScore(total, total, bonus) == Some(100)
  {
    assert total as real / total as real == 1.0;
  }

  /** Finding more keywords never lowers the score. */
  lemma {:induction false} ScoreMonotonic(f1: nat, f2: nat, total: nat, bonus: int)
    requires f1 <= f2 && total > 0
    ensures AtsScore(f1, total, bonus).value <= AtsScore(f2, total, bonus).value
  {
    var t := total as real;
    assert f1 as real / t <= f2 as real / t by {
      assert f1 as real / t * t == f1 as real;
      assert f2 as real / t * t == f2 as real;
    }
  }

  /** What the analysis suggests; `SuggestionText` gives the sentence the page shows. */
  datatype Suggestion =
    | AddMissingKeywords(names: seq<string>)
    | ExpandExperience
    | IncludeAchievements
    | AddMetrics

  /** The sentence shown for a suggestion. */
  function SuggestionText(s: Suggestion): string
  {
    match s
    case AddMissingKeywords(names) => "Add missing keywords: " + Join(names, ", ")
    case ExpandExperience => "Expand your experience descriptions with more details"
    case IncludeAchievements => "Include specific achievements with quantifiable results"
    case AddMetrics => "Add metrics and numbers to demonstrate impact"
  }

  /** `s.slice(0, n)`. */
  function Take<T>(s: seq<T>, n: nat): (r: seq<T>)
    ensures |r| <= n && |r| <= |s|
    ensures r == s[..|r|]
  {
    if |s| <= n then s else s[..n]
  }

  /** The suggestions, pushed in the page's order. */
  function Suggestions(text: string, missing: seq<string>): seq<Suggestion>
  {
    var s0 := PushIf([], |missing| > 0, AddMissingKeywords(Take(missing, 3)));
    var s1 := PushIf(s0, Utf16Length(text) < 500, ExpandExperience);
    var s2 := PushIf(s1, !Contains(text, "achievements"), IncludeAchievements);
    PushIf(s2, !Contains(text, "metrics"), AddMetrics)
  }

  /** The missing-keyword suggestion comes first, exactly when some keyword is missing, and
      names the first (at most three) missing keywords. */
  lemma MissingKeywordsSuggestion(text: string, missing: seq<string>)
    ensures (exists i :: 0 <= i < |Suggestions(text, missing)| &&
                         Suggestions(text, missing)[i].AddMissingKeywords?) <==> |missing| > 0
    ensures forall i :: 0 <= i < |Suggestions(text, missing)| &&
                        Suggestions(text, missing)[i].AddMissingKeywords? ==>
              i == 0 && Suggestions(text, missing)[i].names == missing[..if |missing| < 3 then |missing| else 3]
  {
    var s0 := PushIf([], |missing| > 0, AddMissingKeywords(Take(missing, 3)));
    var r := Suggestions(text, missing);
    assert r[..|s0|] == s0;
    assert forall i :: |s0| <= i < |r| ==> !r[i].AddMissingKeywords?;
    if |missing| > 0 {
      assert r[0] == AddMissingKeywords(Take(missing, 3));
    }
  }

  /** The "Expand" suggestion appears exactly for a text shorter than 500 UTF-16 code
      units, the length bonus exactly for one longer than 500: a text of exactly 500 code
      units gets neither. */
  lemma ExpandSuggestion(text: string, missing: seq<string>)
    ensures ExpandExperience in Suggestions(text, missing) <==> Utf16Length(text) < 500
    ensures LengthBonus(text) > 0 <==> Utf16Length(text) > 500
  {
    var s0 := PushIf([], |missing| > 0, AddMissingKeywords(Take(missing, 3)));
    var s1 := PushIf(s0, Utf16Length(text) < 500, ExpandExperience);
    var s2 := PushIf(s1, !Contains(text, "achievements"), IncludeAchievements);
    var y := ExpandExperience;
    PushIfContains([], |missing| > 0, AddMissingKeywords(Take(missing, 3)), y);
    PushIfContains(s0, Utf16Length(text) < 500, ExpandExperience, y);
    PushIfContains(s1, !Contains(text, "achievements"), IncludeAchievements, y);
    PushIfContains(s2, !Contains(text, "metrics"), AddMetrics, y);
  }

  /** The achievements suggestion appears exactly when the text lacks 'achievements'. */
  lemma AchievementsSuggestion(text: string, missing: seq<string>)
    ensures IncludeAchievements in Suggestions(text, missing) <==> !Contains(text, "achievements")
  {
    var s0 := PushIf([], |missing| > 0, AddMissingKeywords(Take(missing, 3)));
    var s1 := PushIf(s0, Utf16Length(text) < 500, ExpandExperience);
    var s2 := PushIf(s1, !Contains(text, "achievements"), IncludeAchievements);
    var y := IncludeAchievements;
    PushIfContains([], |missing| > 0, AddMissingKeywords(Take(missing, 3)), y);
    PushIfContains(s0, Utf16Length(text) < 500, ExpandExperience, y);
    PushIfContains(s1, !Contains(text, "achievements"), IncludeAchievements, y);
    PushIfContains(s2, !Contains(text, "metrics"), AddMetrics, y);
  }

  /** The metrics suggestion appears exactly when the text lacks 'metrics'. */
  lemma MetricsSuggestion(text: string, missing: seq<string>)
    ensures AddMetrics in Suggestions(text, missing) <==> !Contains(text, "metrics")
  {
    var s0 := PushIf([], |missing| > 0, AddMissingKeywords(Take(missing, 3)));
    var s1 := PushIf(s0, Utf16Length(text) < 500, ExpandExperience);
    var s2 := PushIf(s1, !Contains(text, "achievements"), IncludeAchievements);
    var y := AddMetrics;
    PushIfContains([], |missing| > 0, AddMissingKeywords(Take(missing, 3)), y);
    PushIfContains(s0, Utf16Length(text) < 500, ExpandExperience, y);
    PushIfContains(s1, !Contains(text, "achievements"), IncludeAchievements, y);
    PushIfContains(s2, !Contains(text, "metrics"), AddMetrics, y);
  }

  /** The number of matches of the global regular expression built from a keyword with no
      metacharacters: a literal pattern matches at its non-overlapping occurrences, and the
      empty pattern matches once at every code-unit position. */
  function LiteralMatchCount(text: string, pattern: string): nat
  {
    if pattern == [] then Utf16Length(text) + 1 else CountOccurrences(text, pattern)
  }

  /** `keywordDensity[keyword]` as the evidently intended count: the keyword matched
      literally in the lower-cased text. */
  function KeywordDensity(text: string, keyword: string): nat
  {
    LiteralMatchCount(text, Lower(keyword))
  }

  /** A keyword's count is zero exactly when the keyword is missing. */
  lemma DensityZeroIffMissing(text: string, keywords: seq<string>, keyword: string)
    requires keyword in keywords
    ensures KeywordDensity(text, keyword) == 0 <==> keyword in Missing(text, keywords)
  {
    KeywordPartition(text, keywords);
    if Lower(keyword) == [] {
      EmptyIsContained(text);
    } else {
      CountZeroIffAbsent(text, Lower(keyword));
    }
  }

  /** The characters a regular expression's `.` does not match. */
  predicate IsLineTerminator(c: char)
  {
    c == '\n' || c == '\r' || c == '\U{2028}' || c == '\U{2029}'
  }

  /** A pattern whose only metacharacter is `.` matches at the start of `s`. */
  predicate WildcardPrefix(p: string, s: string)
  {
    |p| <= |s| && forall i :: 0 <= i < |p| ==> s[i] == p[i] || (p[i] == '.' && !IsLineTerminator(s[i]))
  }

  /** `text.match(new RegExp(pattern, 'g')).length` for a non-empty pattern whose only
      metacharacter is `.`, as the page computes the keyword counts: matches are
      non-overlapping, leftmost first. */
  function WildcardMatchCount(text: string, pattern: string): nat
    requires |pattern| > 0
    decreases |text|
  {
    if |text| < |pattern| then 0
    else if WildcardPrefix(pattern, text) then 1 + WildcardMatchCount(text[|pattern|..], pattern)
    else WildcardMatchCount(text[1..], pattern)
  }

  /** `keywordDensity[keyword]` as written: the raw keyword becomes a regular expression. */
  function KeywordDensityAsWritten(text: string, keyword: string): nat
    requires |keyword| > 0
  {
    WildcardMatchCount(text, Lower(keyword))
  }

  lemma LowerNodeJs()
    ensures Lower("Node.js") == "node.js"
  {
  }

  /** As written, the pattern 'node.js' matches "node-js" once. */
  lemma WildcardMatchesNodeDashJs()
    ensures WildcardMatchCount("node-js", "node.js") == 1
  {
    assert WildcardPrefix("node.js", "node-js");
    assert "node-js"[7..] == "";
  }

  /** The text "node-js" does not include "node.js". */
  lemma NodeDashJsLacksNodeJs()
    ensures !Contains("node-js", "node.js")
  {
    assert !IsPrefix("node.js", "node-js") by {
      assert "node-js"[..7][4] != "node.js"[4];
    }
    TooLongNotContained("node-js"[1..], "node.js");
  }

  /** As written, 'Node.js' is counted in a CV that says "node-js": the keyword is missing,
      yet its count is one; the literal count is zero. */
  lemma NodeJsMiscounted()
    ensures KeywordDensityAsWritten("node-js", "Node.js") == 1
    ensures "Node.js" in Missing("node-js", ["Node.js"])
    ensures KeywordDensity("node-js", "Node.js") == 0
  {
    LowerNodeJs();
    WildcardMatchesNodeDashJs();
    NodeDashJsLacksNodeJs();
    DensityZeroIffMissing("node-js", ["Node.js"], "Node.js");
  }

  /** The analysis the page shows (its random readability and impact scores aside). */
  datatype Analysis = Analysis(
    atsScore: Option<int>,
    missingKeywords: seq<string>,
    suggestions: seq<Suggestion>,
    keywordDensity: map<string, nat>)

  /** `a` is the analysis of the CV text `cvText` against `keywords`: on the lower-cased
      text, the score of the keywords found and the bonus, the missing keywords, the
      suggestions for them, and a count for exactly the listed keywords. */
  predicate Describes(a: Analysis, cvText: string, keywords: seq<string>)
  {
    var text := Lower(cvText);
    a.atsScore == AtsScore(|Found(text, keywords)|, |keywords|, Bonus(text)) &&
    a.missingKeywords == Missing(text, keywords) &&
    a.suggestions == Suggestions(text, a.missingKeywords) &&
    a.keywordDensity.Keys == set k | k in keywords &&
    forall k :: k in a.keywordDensity ==> a.keywordDensity[k] == KeywordDensity(text, k)
  }

  /** The pushes of `analyzeCV` onto `suggestions`, in the page's order. */
  method PushSuggestions(text: string, missing: seq<string>) returns (suggestions: seq<Suggestion>)
    ensures suggestions == Suggestions(text, missing)
  {
    suggestions := [];
    if |missing| > 0 {
      suggestions := suggestions + [AddMissingKeywords(Take(missing, 3))];
    }
    if Utf16Length(text) < 500 {
      suggestions := suggestions + [ExpandExperience];
    }
    if !Contains(text, "achievements") {
      suggestions := suggestions + [IncludeAchievements];
    }
    if !Contains(text, "metrics") {
      suggestions := suggestions + [AddMetrics];
    }
  }

  /** The `forEach` of `analyzeCV` that fills `keywordDensity`: one entry per keyword, holding
      that keyword's count. */
  method CountKeywords(text: string, keywords: seq<string>) returns (density: map<string, nat>)
    ensures density.Keys == set k | k in keywords
    ensures forall k :: k in density ==> density[k] == KeywordDensity(text, k)
  {
    density := map[];
    var i := 0;
    while i < |keywords|
      invariant 0 <= i <= |keywords|
      invariant density.Keys == set j | 0 <= j < i :: keywords[j]
      invariant forall k :: k in density ==> density[k] == KeywordDensity(text, k)
    {
      density := density[keywords[i] := KeywordDensity(text, keywords[i])];
      i := i + 1;
    }
    assert (set j | 0 <= j < |keywords| :: keywords[j]) == set k | k in keywords;
  }

  /** `analyzeCV`: refuses a CV that is empty once trimmed; otherwise analyses its
      lower-cased text, pushing the suggestions and filling the keyword counts one keyword
      at a time. */
  method Analyze(cvText: string, keywords: seq<string>) returns (r: Option<Analysis>)
    ensures r.None? <==> Trim(cvText) == ""
    ensures r.Some? ==> Describes(r.value, cvText, keywords)
  {
    if Trim(cvText) == "" {
      return None;
    }
    var text := Lower(cvText);
    var missing := Missing(text, keywords);
    var atsScore := AtsScore(|Found(text, keywords)|, |keywords|, Bonus(text));

    var suggestions := PushSuggestions(text, missing);
    var density := CountKeywords(text, keywords);
    r := Some(Analysis(atsScore, missing, suggestions, density));
  }
}

/** The CV generator page's form: the CV record, its edits, and the CV text generated
    from it. */
module CvGenerator {
  import opened Text
  import opened Collections

  /** The contact block; the portfolio is absent until entered. */
  datatype PersonalInfo = PersonalInfo(
    name: string, email: string, phone: string, location: string, linkedin: string,
    portfolio: Option<string>)

  datatype Experience = Experience(
    title: string, company: string, duration: string, description: string,
    achievements: seq<string>)

  datatype Education = Education(degree: string, institution: string, year: string, gpa: Option<string>)

  datatype Project = Project(name: string, description: string, technologies: seq<string>, link: Option<string>)

  datatype Certification = Certification(name: string, issuer: string, year: string)

  /** The form's record (`CVData`); projects and certifications are optional lists. */
  datatype CvData = CvData(
    personal: PersonalInfo,
    summary: string,
    experience: seq<Experience>,
    education: seq<Education>,
    technical: seq<string>,
    soft: seq<string>,
    projects: Option<seq<Project>>,
    certifications: Option<seq<Certification>>)

  datatype PersonalField = Name | Email | Phone | Location | LinkedIn | Portfolio
  datatype ExperienceField = Title | Company | Duration | Description
  datatype EducationField = Degree | Institution | Year | Gpa
  datatype SkillKind = Technical | Soft

  const EmptyExperience := Experience("", "", "", "", [])
  const EmptyEducation := Education("", "", "", None)

  /** The form as first shown: one empty experience entry and one empty education entry. */
  const InitialCv := CvData(PersonalInfo("", "", "", "", "", None), "", [EmptyExperience],
                            [EmptyEducation], [], [], None, None)

  /** `{ ...info, [field]: value }`. */
  function WithPersonalField(info: PersonalInfo, field: PersonalField, value: string): PersonalInfo
  {
    match field
    case Name => info.(name := value)
    case Email => info.(email := value)
    case Phone => info.(phone := value)
    case Location => info.(location := value)
    case LinkedIn => info.(linkedin := value)
    case Portfolio => info.(portfolio := Some(value))
  }

  function WithExperienceField(e: Experience, field: ExperienceField, value: string): Experience
  {
    match field
    case Title => e.(title := value)
    case Company => e.(company := value)
    case Duration => e.(duration := value)
    case Description => e.(description := value)
  }

  function WithEducationField(e: Education, field: EducationField, value: string): Education
  {
    match field
    case Degree => e.(degree := value)
    case Institution => e.(institution := value)
    case Year => e.(year := value)
    case Gpa => e.(gpa := Some(value))
  }

  /** `value.split(',').map(s => s.trim())`. */
  function SplitSkills(value: string): seq<string>
  {
    var pieces := Pieces(value, ",");
    seq(|pieces|, i requires 0 <= i < |pieces| => Trim(pieces[i]))
  }

  /** The skill list has one entry per comma-separated piece, each the piece trimmed: no
      entry holds a comma or starts or ends with whitespace, and the pieces joined back with
      commas give the input. */
  lemma SplitSkillsSpec(value: string)
    ensures |SplitSkills(value)| == CountOccurrences(value, ",") + 1
    ensures forall i :: 0 <= i < |SplitSkills(value)| ==>
              Trimmed(SplitSkills(value)[i]) && !Contains(SplitSkills(value)[i], ",")
    ensures Join(Pieces(value, ","), ",") == value
  {
    var pieces := Pieces(value, ",");
    PiecesJoin(value, ",", ",");
    PiecesAvoidSeparator(value, ",");
    forall i | 0 <= i < |pieces|
      ensures Trimmed(SplitSkills(value)[i]) && !Contains(SplitSkills(value)[i], ",")
    {
      TrimSpec(pieces[i]);
      TrimContains(pieces[i], ",");
    }
  }

  /** A text with no comma becomes a one-entry list: the text trimmed. */
  lemma SplitSkillsWithoutComma(value: string)
    requires ',' !in value
    ensures SplitSkills(value) == [Trim(value)]
  {
    PiecesWithoutSeparator(value, ',');
  }

  /** The bullet the generated CV puts before an achievement: the page's source holds the
      three characters U+201A U+00C4 U+00A2 there, the Mac Roman reading of the UTF-8
      bytes of '•'. */
  const Bullet: string := "\U{201A}\U{00C4}\U{00A2}"

  /** One experience entry of the generated CV; empty when it has no title. */
  function ExperienceBlock(e: Experience): string
  {
    if e.title == "" then ""
    else
      var achievements :=
        if |e.achievements| > 0 then
          "\n**Key Achievements:**\n" +
          Join(seq(|e.achievements|, i requires 0 <= i < |e.achievements| => Bullet + " " + e.achievements[i]), "\n")
        else "";
      "**" + e.title + "** at " + e.company + " (" + e.duration + ")\n" + e.description + "\n" + achievements
  }

  /** One education line; empty when it has no degree. */
  function EducationLine(e: Education): string
  {
    if e.degree == "" then ""
    else
      e.degree + " - " + e.institution + " (" + e.year + ")" +
      (if Truthy(e.gpa) then " - GPA: " + e.gpa.value else "")
  }

  function ProjectBlock(p: Project): string
  {
    "**" + p.name + "**\n" + p.description + "\nTechnologies: " + Join(p.technologies, ", ") +
    (if Truthy(p.link) then "\nLink: " + p.link.value else "")
  }

  function CertificationLine(c: Certification): string
  {
    c.name + " - " + c.issuer + " (" + c.year + ")"
  }

  /** The Projects section, present when the list is present and not empty. */
  function ProjectsSection(projects: Option<seq<Project>>): string
  {
    if projects.Some? && |projects.value| > 0 then
      var ps := projects.value;
      "\n## Projects\n" + Join(seq(|ps|, i requires 0 <= i < |ps| => ProjectBlock(ps[i])), "\n\n")
    else ""
  }

  /** The Certifications section, present when the list is present and not empty. */
  function CertificationsSection(certifications: Option<seq<Certification>>): string
  {
    if certifications.Some? && |certifications.value| > 0 then
      var cs := certifications.value;
      "\n## Certifications\n" + Join(seq(|cs|, i requires 0 <= i < |cs| => CertificationLine(cs[i])), "\n")
    else ""
  }

  /** Everything of the CV template before the Technical Skills heading. */
  function CvHead(d: CvData): string
  {
    var p := d.personal;
    "\n# " + p.name + "\n\n**" + p.email + "** | **" + p.phone + "** | **" + p.location + "**\n" +
    (if p.linkedin != "" then "LinkedIn: " + p.linkedin else "") + "\n" +
    (if Truthy(p.portfolio) then "Portfolio: " + p.portfolio.value else "") +
    "\n\n## Professional Summary\n" + d.summary +
    "\n\n## Professional Experience\n" +
    Join(seq(|d.experience|, i requires 0 <= i < |d.experience| => ExperienceBlock(d.experience[i])), "\n\n") +
    "\n\n## Education\n" +
    Join(seq(|d.education|, i requires 0 <= i < |d.education| => EducationLine(d.education[i])), "\n") +
    "\n\n"
  }

  /** The Technical Skills section: the heading and the skills joined by ', '. */
  function TechnicalSkillsSection(technical: seq<string>): string
  {
    "## Technical Skills\n" + Join(technical, ", ")
  }

  /** Everything of the CV template after the technical skills. */
  function CvTail(d: CvData): string
  {
    "\n\n## Soft Skills\n" + Join(d.soft, ", ") + "\n\n" + ProjectsSection(d.projects) + "\n\n" +
    CertificationsSection(d.certifications) + "\n    "
  }

  /** `generateCV`: the filled-in template, trimmed. */
  function CvDocument(d: CvData): (r: string)
    ensures Trimmed(r)
  {
    TrimSpec(CvHead(d) + TechnicalSkillsSection(d.technical) + CvTail(d));
    Trim(CvHead(d) + TechnicalSkillsSection(d.technical) + CvTail(d))
  }

  /** The generated CV shows the technical skills, joined by ', ', under their heading. */
  lemma CvShowsTechnicalSkills(d: CvData)
    ensures Contains(CvDocument(d), "## Technical Skills\n" + Join(d.technical, ", "))
  {
    ContainsAfterTrim(CvHead(d), TechnicalSkillsSection(d.technical), CvTail(d), 2);
  }

  /** An experience entry is shown exactly when it has a title. */
  lemma ExperienceShownIffTitled(e: Experience)
    ensures ExperienceBlock(e) == "" <==> e.title == ""
  {
  }

  /** An education line is shown exactly when it has a degree, and it ends with the GPA
      exactly when a GPA was entered. */
  lemma EducationLineSpec(e: Education)
    ensures EducationLine(e) == "" <==> e.degree == ""
    ensures e.degree != "" && Truthy(e.gpa) ==>
              EducationLine(e) == e.degree + " - " + e.institution + " (" + e.year + ")" + " - GPA: " + e.gpa.value
    ensures e.degree != "" && !Truthy(e.gpa) ==>
              EducationLine(e) == e.degree + " - " + e.institution + " (" + e.year + ")"
  {
  }
  /** The generator page's form state: the CV record and the generated CV text. */
  class CvForm {
    var cv: CvData
    var generatedCV: string

    /** The form as first shown. */
    constructor ()
      ensures cv == InitialCv && generatedCV == ""
    {
      cv := InitialCv;
      generatedCV := "";
    }

    /** `handleCVInputChange('personalInfo', field, value)`. */
    method SetPersonalField(field: PersonalField, value: string)
      modifies this
      ensures cv == old(cv).(personal := WithPersonalField(old(cv.personal), field, value))
      ensures generatedCV == old(generatedCV)
    {
      cv := cv.(personal := WithPersonalField(cv.personal, field, value));
    }

    /** `handleCVInputChange('summary', '', value)`. */
    method SetSummary(value: string)
      modifies this
      ensures cv == old(cv).(summary := value)
      ensures generatedCV == old(generatedCV)
    {
      cv := cv.(summary := value);
    }

    /** `handleCVInputChange('experience', field, value, index)`: a copy of the list with
        that one entry's field replaced. */
    method SetExperienceField(index: nat, field: ExperienceField, value: string)
      requires index < |cv.experience|
      modifies this
      ensures cv == old(cv).(experience := cv.experience)
      ensures |cv.experience| == |old(cv.experience)|
      ensures cv.experience[index] == WithExperienceField(old(cv.experience[index]), field, value)
      ensures forall j :: 0 <= j < |cv.experience| && j != index ==> cv.experience[j] == old(cv.experience[j])
      ensures generatedCV == old(generatedCV)
    {
      var newExperience := cv.experience;
      newExperience := newExperience[index := WithExperienceField(newExperience[index], field, value)];
      cv := cv.(experience := newExperience);
    }

    /** `handleCVInputChange('education', field, value, index)`. */
    method SetEducationField(index: nat, field: EducationField, value: string)
      requires index < |cv.education|
      modifies this
      ensures cv == old(cv).(education := cv.education)
      ensures |cv.education| == |old(cv.education)|
      ensures cv.education[index] == WithEducationField(old(cv.education[index]), field, value)
      ensures forall j :: 0 <= j < |cv.education| && j != index ==> cv.education[j] == old(cv.education[j])
      ensures generatedCV == old(generatedCV)
    {
      var newEducation := cv.education;
      newEducation := newEducation[index := WithEducationField(newEducation[index], field, value)];
      cv := cv.(education := newEducation);
    }

    /** `handleCVInputChange('skills', kind, value)`: that list becomes the trimmed
        comma-separated pieces; the other list is unchanged. */
    method SetSkills(kind: SkillKind, value: string)
      modifies this
      ensures kind == Technical ==> cv == old(cv).(technical := SplitSkills(value))
      ensures kind == Soft ==> cv == old(cv).(soft := SplitSkills(value))
      ensures generatedCV == old(generatedCV)
    {
      if kind == Technical {
        cv := cv.(technical := SplitSkills(value));
      } else {
        cv := cv.(soft := SplitSkills(value));
      }
    }

    /** `addExperience`: one empty entry at the end. */
    method AddExperience()
      modifies this
      ensures cv == old(cv).(experience := old(cv.experience) + [EmptyExperience])
      ensures generatedCV == old(generatedCV)
    {
      cv := cv.(experience := cv.experience + [EmptyExperience]);
    }

    /** `addEducation`: one empty entry at the end. */
    method AddEducation()
      modifies this
      ensures cv == old(cv).(education := old(cv.education) + [EmptyEducation])
      ensures generatedCV == old(generatedCV)
    {
      cv := cv.(education := cv.education + [EmptyEducation]);
    }

    /** `generateCV`: the generated text is the trimmed template of the form. */
    method GenerateCV()
      modifies this
      ensures generatedCV == CvDocument(cv) && Trimmed(generatedCV)
      ensures cv == old(cv)
    {
      generatedCV := CvDocument(cv);
    }

  }
}

/** The page's keyword lists by job type. */
module CvKeywordData {
  import opened CvAnalysis

  const JobKeywords: map<string, seq<string>> := map[
    "software-engineer" := ["JavaScript", "Python", "React", "Node.js", "SQL", "Git", "AWS", "Docker", "API", "REST"],
    "data-scientist" := ["Python", "R", "SQL", "Machine Learning", "Statistics", "Pandas", "NumPy", "Scikit-learn", "TensorFlow", "Data Analysis"],
    "product-manager" := ["Product Strategy", "User Research", "Agile", "Scrum", "Market Analysis", "Roadmap", "Stakeholder Management", "Analytics", "A/B Testing"],
    "marketing" := ["Digital Marketing", "SEO", "Social Media", "Content Marketing", "Google Analytics", "Email Marketing", "Campaign Management", "Brand Strategy"],
    "sales" := ["Sales Strategy", "CRM", "Lead Generation", "Client Relationship", "Negotiation", "Pipeline Management", "Revenue Growth", "B2B Sales"]
  ]

  /** 'Node.js', the keyword the regular expression miscounts, is on the software engineer's
      list. */
  lemma NodeJsIsASoftwareKeyword()
    ensures "Node.js" in KeywordsFor(JobKeywords, "software-engineer")
  {
    assert KeywordsFor(JobKeywords, "software-engineer")[3] == "Node.js";
  }
}
