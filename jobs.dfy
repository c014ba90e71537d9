/** The career questionnaire: a five-step walk through multiple-choice questions whose
    answers are matched against a fixed rule table to recommend career paths, and the
    lookup of the job platforms each recommended path names. */
module CareerQuestionnaire {
  import opened Collections

  /** The ids of the seven career paths ('software-engineering', 'data-science',
      'product-management', 'consulting', 'finance', 'healthcare', 'design'). */
  datatype PathId =
    SoftwareEngineering | DataScience | ProductManagement | Consulting | Finance | Healthcare | Design

  /** A career path: its id, its title and the names of the job platforms it suggests. */
  datatype CareerPath = CareerPath(id: PathId, title: string, platforms: seq<string>)

  /** The values of the questionnaire's options ('fast-paced-innovative',
      'structured-professional', ... 'remote-distributed'), the only values an answer
      takes. */
  datatype AnswerValue =
      FastPacedInnovative | StructuredProfessional | CreativeFlexible | ImpactDriven
    | TechnicalComplex | BusinessStrategic | CreativeDesign | PeopleRelationships
    | IndependentDeep | CollaborativeTeam | ClientFacing | CreativeAutonomous
    | HighSalaryGrowth | WorkLifeBalance | MeaningfulImpact | InnovationCreativity
    | StartupSmall | MediumGrowing | LargeEstablished | RemoteDistributed

  /** One choice of a question: the value recorded as the answer and the story shown. */
  datatype AnswerOption = AnswerOption(value: AnswerValue, story: string)

  /** A questionnaire step: its number and its options. */
  datatype Step = Step(id: int, options: seq<AnswerOption>)

  /** A job platform: its name, link and category. */
  datatype Platform = Platform(name: string, url: string, category: string)

  /** Answers by step number; a step not yet answered has no entry (`undefined`). */
  type Answers = map<int, AnswerValue>

  /** `answers[step] === value`: false for a step that has no answer. */
  predicate Answered(a: Answers, step: int, value: AnswerValue)
  {
    step in a && a[step] == value
  }

  // The seven rules of `generateRecommendations`, each as the page writes it.

  predicate SoftwareEngineeringRule(a: Answers)
  {
    (Answered(a, 1, FastPacedInnovative) && Answered(a, 2, TechnicalComplex)) ||
    (Answered(a, 2, TechnicalComplex) && Answered(a, 4, InnovationCreativity))
  }

  predicate DataScienceRule(a: Answers)
  {
    (Answered(a, 2, TechnicalComplex) && Answered(a, 4, InnovationCreativity)) ||
    (Answered(a, 1, FastPacedInnovative) && Answered(a, 2, TechnicalComplex))
  }

  predicate ProductManagementRule(a: Answers)
  {
    (Answered(a, 2, BusinessStrategic) && Answered(a, 3, CollaborativeTeam)) ||
    (Answered(a, 1, StructuredProfessional) && Answered(a, 2, BusinessStrategic))
  }

  predicate ConsultingRule(a: Answers)
  {
    (Answered(a, 4, HighSalaryGrowth) && Answered(a, 3, ClientFacing)) ||
    (Answered(a, 1, StructuredProfessional) && Answered(a, 2, BusinessStrategic))
  }

  predicate FinanceRule(a: Answers)
  {
    (Answered(a, 4, HighSalaryGrowth) && Answered(a, 1, StructuredProfessional)) ||
    (Answered(a, 2, BusinessStrategic) && Answered(a, 4, HighSalaryGrowth))
  }

  predicate HealthcareRule(a: Answers)
  {
    Answered(a, 1, ImpactDriven) || Answered(a, 4, MeaningfulImpact)
  }

  predicate DesignRule(a: Answers)
  {
    Answered(a, 2, CreativeDesign) || Answered(a, 3, CreativeAutonomous)
  }

  /** The rule that recommends the path with this id. */
  predicate RuleFor(id: PathId, a: Answers)
  {
    match id
    case SoftwareEngineering => SoftwareEngineeringRule(a)
    case DataScience => DataScienceRule(a)
    case ProductManagement => ProductManagementRule(a)
    case Consulting => ConsultingRule(a)
    case Finance => FinanceRule(a)
    case Healthcare => HealthcareRule(a)
    case Design => DesignRule(a)
  }

  /** The test "the rule for this path fires under these answers". */
  function Fires(a: Answers): CareerPath -> bool
  {
    (p: CareerPath) => RuleFor(p.id, a)
  }

  /** Whether any of the seven rules fires. */
  predicate AnyRuleFires(a: Answers)
  {
    SoftwareEngineeringRule(a) || DataScienceRule(a) || ProductManagementRule(a) ||
    ConsultingRule(a) || FinanceRule(a) || HealthcareRule(a) || DesignRule(a)
  }

  /** What `generateRecommendations` recommends, stated independently of its pushes: the
      career paths whose rule fires, in the page's order; the first three paths when none
      does. */
  function Recommendations(paths: seq<CareerPath>, a: Answers): (r: seq<CareerPath>)
    requires PathTable(paths)
    ensures |r| > 0
    ensures Subsequence(r, paths)
  {
    var fired := Filter(paths, Fires(a));
    FilterIsSubsequence(paths, Fires(a));
    if fired == [] then PrefixIsSubsequence(paths, 3); paths[..3] else fired
  }

  /** A prefix of a list is an order-preserving sub-list of it. */
  lemma {:induction false} PrefixIsSubsequence<T>(s: seq<T>, n: nat)
    requires n <= |s|
    ensures Subsequence(s[..n], s)
  {
    if n > 0 {
      PrefixIsSubsequence(s[1..], n - 1);
      assert s[..n][1..] == s[1..][..n - 1];
    }
  }

  /** The shape of the career-path table the rules are written against: seven paths,
      with the rules' ids in the rules' order. */
  predicate PathTable(paths: seq<CareerPath>)
  {
    |paths| == 7 &&
    paths[0].id == SoftwareEngineering && paths[1].id == DataScience &&
    paths[2].id == ProductManagement && paths[3].id == Consulting &&
    paths[4].id == Finance && paths[5].id == Healthcare && paths[6].id == Design
  }

  /** `careerPaths.find(p => p.id === id)`; `FindPathAt` states that it is the first path
      with the id. */
  function FindPath(paths: seq<CareerPath>, id: PathId): (r: Option<CareerPath>)
    ensures r.Some? <==> exists i :: 0 <= i < |paths| && paths[i].id == id
    ensures r.Some? ==> r.value in paths && r.value.id == id
  {
    if paths == [] then None
    else if paths[0].id == id then Some(paths[0])
    else
      var r := FindPath(paths[1..], id);
      assert forall i :: 1 <= i < |paths| ==> paths[i] == paths[1..][i - 1];
      r
  }

  /** Each career path occurs once in the table: the ids are pairwise different. */
  lemma {:induction false} PathTableDistinct(paths: seq<CareerPath>)
    requires PathTable(paths)
    ensures Distinct(paths)
  {
    forall i, j | 0 <= i < j < |paths| ensures paths[i] != paths[j] {
      assert paths[i].id != paths[j].id;
    }
  }

  /** On the table, each path's test is that path's rule. */
  lemma {:induction false} RulesOfTable(paths: seq<CareerPath>, a: Answers)
    requires PathTable(paths)
    ensures Fires(a)(paths[0]) == SoftwareEngineeringRule(a)
    ensures Fires(a)(paths[1]) == DataScienceRule(a)
    ensures Fires(a)(paths[2]) == ProductManagementRule(a)
    ensures Fires(a)(paths[3]) == ConsultingRule(a)
    ensures Fires(a)(paths[4]) == FinanceRule(a)
    ensures Fires(a)(paths[5]) == HealthcareRule(a)
    ensures Fires(a)(paths[6]) == DesignRule(a)
  {
  }

  /** The paths of the rules that fire, pushed rule by rule in the table's order. */
  function RulePicks(paths: seq<CareerPath>, a: Answers): seq<CareerPath>
    requires |paths| == 7
  {
    var r0 := PushIf([], SoftwareEngineeringRule(a), paths[0]);
    var r1 := PushIf(r0, DataScienceRule(a), paths[1]);
    var r2 := PushIf(r1, ProductManagementRule(a), paths[2]);
    var r3 := PushIf(r2, ConsultingRule(a), paths[3]);
    var r4 := PushIf(r3, FinanceRule(a), paths[4]);
    var r5 := PushIf(r4, HealthcareRule(a), paths[5]);
    PushIf(r5, DesignRule(a), paths[6])
  }

  /** The paths whose test passes are the paths of the rules that fire. */
  lemma {:induction false} FiredUnfold(paths: seq<CareerPath>, a: Answers)
    requires PathTable(paths)
    ensures Filter(paths, Fires(a)) == RulePicks(paths, a)
  {
    RulesOfTable(paths, a);
    FilterSeven(paths, Fires(a));
  }

  /** Filtering one element further pushes it when it passes. */
  lemma {:induction false} FilterStep<T>(s: seq<T>, f: T -> bool, k: nat, r: seq<T>)
    requires k < |s| && Filter(s[..k], f) == r
    ensures Filter(s[..k + 1], f) == PushIf(r, f(s[k]), s[k])
  {
    FilterSnoc(s, f, k);
  }

  /** A filter over seven elements, spelled out element by element. */
  lemma {:induction false} FilterSeven<T>(s: seq<T>, f: T -> bool)
    requires |s| == 7
    ensures Filter(s, f) ==
            PushIf(PushIf(PushIf(PushIf(PushIf(PushIf(PushIf([],
              f(s[0]), s[0]), f(s[1]), s[1]), f(s[2]), s[2]), f(s[3]), s[3]), f(s[4]), s[4]),
              f(s[5]), s[5]), f(s[6]), s[6])
  {
    assert s[..0] == [];
    var r0 := PushIf([], f(s[0]), s[0]);
    FilterStep(s, f, 0, []);
    var r1 := PushIf(r0, f(s[1]), s[1]);
    FilterStep(s, f, 1, r0);
    var r2 := PushIf(r1, f(s[2]), s[2]);
    FilterStep(s, f, 2, r1);
    var r3 := PushIf(r2, f(s[3]), s[3]);
    FilterStep(s, f, 3, r2);
    var r4 := PushIf(r3, f(s[4]), s[4]);
    FilterStep(s, f, 4, r3);
    var r5 := PushIf(r4, f(s[5]), s[5]);
    FilterStep(s, f, 5, r4);
    FilterStep(s, f, 6, r5);
    assert s[..7] == s;
  }

  /** `generateRecommendations`: each rule that fires pushes its path (looked up by id), in
      the page's order; when none fired, the first three paths are pushed. */
  method GenerateRecommendations(paths: seq<CareerPath>, a: Answers)
    returns (recommendations: seq<CareerPath>)
    requires PathTable(paths)
    ensures recommendations == Recommendations(paths, a)
  {
    PathLookups(paths);
    recommendations := [];
    if SoftwareEngineeringRule(a) {
      recommendations := recommendations + [FindPath(paths, SoftwareEngineering).value];
    }
    if DataScienceRule(a) {
      recommendations := recommendations + [FindPath(paths, DataScience).value];
    }
    if ProductManagementRule(a) {
      recommendations := recommendations + [FindPath(paths, ProductManagement).value];
    }
    if ConsultingRule(a) {
      recommendations := recommendations + [FindPath(paths, Consulting).value];
    }
    if FinanceRule(a) {
      recommendations := recommendations + [FindPath(paths, Finance).value];
    }
    if HealthcareRule(a) {
      recommendations := recommendations + [FindPath(paths, Healthcare).value];
    }
    if DesignRule(a) {
      recommendations := recommendations + [FindPath(paths, Design).value];
    }
    assert recommendations == RulePicks(paths, a);
    FiredUnfold(paths, a);
    if |recommendations| == 0 {
      recommendations := recommendations + [paths[0], paths[1], paths[2]];
      FirstThree(paths);
    }
  }

  /** The first three elements of a list, one by one. */
  lemma {:induction false} FirstThree<T>(s: seq<T>)
    requires |s| >= 3
    ensures s[..3] == [s[0], s[1], s[2]]
  {
  }

  /** `find` returns the first path with the id. */
  lemma {:induction false} FindPathAt(paths: seq<CareerPath>, id: PathId, i: nat)
    requires i < |paths| && paths[i].id == id
    requires forall j :: 0 <= j < i ==> paths[j].id != id
    ensures FindPath(paths, id) == Some(paths[i])
  {
    if i > 0 {
      FindPathAt(paths[1..], id, i - 1);
    }
  }

  /** Looking up each rule's id finds that rule's path. */
  lemma {:induction false} PathLookups(paths: seq<CareerPath>)
    requires PathTable(paths)
    ensures FindPath(paths, SoftwareEngineering) == Some(paths[0])
    ensures FindPath(paths, DataScience) == Some(paths[1])
    ensures FindPath(paths, ProductManagement) == Some(paths[2])
    ensures FindPath(paths, Consulting) == Some(paths[3])
    ensures FindPath(paths, Finance) == Some(paths[4])
    ensures FindPath(paths, Healthcare) == Some(paths[5])
    ensures FindPath(paths, Design) == Some(paths[6])
  {
    FindPathAt(paths, SoftwareEngineering, 0);
    FindPathAt(paths, DataScience, 1);
    FindPathAt(paths, ProductManagement, 2);
    FindPathAt(paths, Consulting, 3);
    FindPathAt(paths, Finance, 4);
    FindPathAt(paths, Healthcare, 5);
    FindPathAt(paths, Design, 6);
  }

  /** Whether a path with this id is among the recommendations. */
  predicate Recommends(paths: seq<CareerPath>, a: Answers, id: PathId)
    requires PathTable(paths)
  {
    exists i :: 0 <= i < |Recommendations(paths, a)| && Recommendations(paths, a)[i].id == id
  }

  /** The position of a path in the table. */
  function Position(id: PathId): (k: nat)
    ensures k < 7
  {
    match id
    case SoftwareEngineering => 0
    case DataScience => 1
    case ProductManagement => 2
    case Consulting => 3
    case Finance => 4
    case Healthcare => 5
    case Design => 6
  }

  /** Some path's test passes exactly when some rule fires. */
  lemma {:induction false} SomePathFires(paths: seq<CareerPath>, a: Answers)
    requires PathTable(paths)
    ensures Filter(paths, Fires(a)) != [] <==> AnyRuleFires(a)
  {
    var fired := Filter(paths, Fires(a));
    FilterMembership(paths, Fires(a));
    if AnyRuleFires(a) {
      var id := if SoftwareEngineeringRule(a) then SoftwareEngineering
                else if DataScienceRule(a) then DataScience
                else if ProductManagementRule(a) then ProductManagement
                else if ConsultingRule(a) then Consulting
                else if FinanceRule(a) then Finance
                else if HealthcareRule(a) then Healthcare
                else Design;
      assert paths[Position(id)].id == id;
      assert paths[Position(id)] in fired;
    }
    if fired != [] {
      assert fired[0] in fired;
      assert RuleFor(fired[0].id, a);
    }
  }

  /** A path whose rule fires is among the fired paths. */
  lemma {:induction false} FiredHasPath(paths: seq<CareerPath>, a: Answers, id: PathId)
    requires PathTable(paths) && RuleFor(id, a)
    ensures exists i :: 0 <= i < |Filter(paths, Fires(a))| && Filter(paths, Fires(a))[i].id == id
  {
    var fired := Filter(paths, Fires(a));
    var k := Position(id);
    assert paths[k].id == id;
    FilterMembership(paths, Fires(a));
    assert paths[k] in fired;
    var i :| 0 <= i < |fired| && fired[i] == paths[k];
  }

  /** Every fired path's rule fires. */
  lemma {:induction false} FiredPathRule(paths: seq<CareerPath>, a: Answers, i: nat)
    requires i < |Filter(paths, Fires(a))|
    ensures RuleFor(Filter(paths, Fires(a))[i].id, a)
  {
    FilterMembership(paths, Fires(a));
    assert Filter(paths, Fires(a))[i] in Filter(paths, Fires(a));
  }

  /** When some rule fires, a path is recommended exactly when its rule fires. */
  lemma {:induction false} RecommendsWhenFired(paths: seq<CareerPath>, a: Answers, id: PathId)
    requires PathTable(paths) && Filter(paths, Fires(a)) != []
    ensures Recommends(paths, a, id) <==> RuleFor(id, a)
  {
    var r := Recommendations(paths, a);
    assert r == Filter(paths, Fires(a));
    if RuleFor(id, a) {
      FiredHasPath(paths, a, id);
    }
    if Recommends(paths, a, id) {
      var i :| 0 <= i < |r| && r[i].id == id;
      FiredPathRule(paths, a, i);
    }
  }

  /** When no rule fires, a path is recommended exactly when it is one of the first
      three. */
  lemma {:induction false} RecommendsByDefault(paths: seq<CareerPath>, a: Answers, id: PathId)
    requires PathTable(paths) && Filter(paths, Fires(a)) == []
    ensures Recommends(paths, a, id) <==> Position(id) < 3
  {
    var r := Recommendations(paths, a);
    var k := Position(id);
    assert paths[k].id == id;
    assert r == paths[..3];
    if Recommends(paths, a, id) {
      var i :| 0 <= i < |r| && r[i].id == id;
      assert r[i] == paths[i];
    }
    if k < 3 {
      assert r[k].id == id;
    }
  }

  /** A path is recommended exactly when its rule fires, or, when no rule fires, when it
      is one of the first three. */
  lemma {:induction false} RecommendsIff(paths: seq<CareerPath>, a: Answers, id: PathId)
    requires PathTable(paths)
    ensures Recommends(paths, a, id) <==>
            RuleFor(id, a) ||
            (!AnyRuleFires(a) &&
             (id == SoftwareEngineering || id == DataScience || id == ProductManagement))
  {
    SomePathFires(paths, a);
    if Filter(paths, Fires(a)) != [] {
      RecommendsWhenFired(paths, a, id);
    } else {
      RecommendsByDefault(paths, a, id);
      assert !RuleFor(id, a);
    }
  }

  /** Software engineering and data science rest on the same disjunction: either both are
      recommended or neither is. */
  lemma {:induction false} SoftwareEngineeringIffDataScience(paths: seq<CareerPath>, a: Answers)
    requires PathTable(paths)
    ensures Recommends(paths, a, SoftwareEngineering) <==> Recommends(paths, a, DataScience)
  {
    RecommendsIff(paths, a, SoftwareEngineering);
    RecommendsIff(paths, a, DataScience);
  }

  /** Healthcare is recommended exactly for a mission-driven environment or a meaningful
      impact. */
  lemma {:induction false} HealthcareIff(paths: seq<CareerPath>, a: Answers)
    requires PathTable(paths)
    ensures Recommends(paths, a, Healthcare) <==>
            Answered(a, 1, ImpactDriven) || Answered(a, 4, MeaningfulImpact)
  {
    RecommendsIff(paths, a, Healthcare);
  }

  /** Design is recommended exactly for creative problems or creative autonomy. */
  lemma {:induction false} DesignIff(paths: seq<CareerPath>, a: Answers)
    requires PathTable(paths)
    ensures Recommends(paths, a, Design) <==>
            Answered(a, 2, CreativeDesign) || Answered(a, 3, CreativeAutonomous)
  {
    RecommendsIff(paths, a, Design);
  }

  /** The default list (the first three paths) is what the page shows exactly when no
      rule fires: no answers make exactly those three fire, since software engineering
      needs technical problems and product management business ones. */
  lemma {:induction false} DefaultIffNoRuleFires(paths: seq<CareerPath>, a: Answers)
    requires PathTable(paths)
    ensures Recommendations(paths, a) == paths[..3] <==> !AnyRuleFires(a)
  {
    SomePathFires(paths, a);
    var fired := Filter(paths, Fires(a));
    if AnyRuleFires(a) {
      assert Recommendations(paths, a) == fired;
      FilterMembership(paths, Fires(a));
      var k := if SoftwareEngineeringRule(a) then 2 else 0;
      assert !RuleFor(paths[k].id, a);
      assert paths[k] !in fired;
      assert paths[k] in paths[..3];
    }
  }

  /** Each path is recommended at most once. */
  lemma {:induction false} RecommendationsDistinct(paths: seq<CareerPath>, a: Answers)
    requires PathTable(paths)
    ensures Distinct(Recommendations(paths, a))
  {
    PathTableDistinct(paths);
    SubsequenceDistinct(Recommendations(paths, a), paths);
  }

  /** The test `p => p.name === name`. */
  function HasName(name: string): Platform -> bool
  {
    (p: Platform) => p.name == name
  }

  /** `jobPlatforms.find(p => p.name === name)`: the first platform with the name. */
  function FindPlatform(platforms: seq<Platform>, name: string): (r: Option<Platform>)
    ensures r.Some? <==> exists i :: 0 <= i < |platforms| && platforms[i].name == name
    ensures r.Some? ==> r.value in platforms && r.value.name == name
    ensures r.Some? ==> exists i :: 0 <= i < |platforms| && platforms[i] == r.value &&
                                    forall j :: 0 <= j < i ==> platforms[j].name != name
  {
    Find(platforms, HasName(name))
  }

  /** `names.map(find)` with the names no platform carries dropped. */
  function FoundPlatforms(names: seq<string>, platforms: seq<Platform>): seq<Platform>
  {
    if names == [] then []
    else
      var p := FindPlatform(platforms, names[0]);
      (if p.Some? then [p.value] else []) + FoundPlatforms(names[1..], platforms)
  }

  /** The "Recommended for Your Path" cards:
      `recommendedPaths.flatMap(path => path.platforms.map(find)).filter(Boolean)`. */
  function PlatformCards(paths: seq<CareerPath>, platforms: seq<Platform>): seq<Platform>
  {
    if paths == [] then []
    else FoundPlatforms(paths[0].platforms, platforms) + PlatformCards(paths[1..], platforms)
  }

  /** A platform is found for a list of names exactly when it is what `find` returns for
      one of them. */
  lemma {:induction false} FoundPlatformsSpec(names: seq<string>, platforms: seq<Platform>)
    ensures forall p :: p in FoundPlatforms(names, platforms) <==>
              exists j :: 0 <= j < |names| && FindPlatform(platforms, names[j]) == Some(p)
    ensures |FoundPlatforms(names, platforms)| <= |names|
  {
    if names != [] {
      FoundPlatformsSpec(names[1..], platforms);
      forall p ensures p in FoundPlatforms(names, platforms) <==>
                       exists j :: 0 <= j < |names| && FindPlatform(platforms, names[j]) == Some(p)
      {
        if exists j :: 0 <= j < |names| && FindPlatform(platforms, names[j]) == Some(p) {
          var j :| 0 <= j < |names| && FindPlatform(platforms, names[j]) == Some(p);
          if j > 0 {
            assert names[1..][j - 1] == names[j];
          }
        }
        if p in FoundPlatforms(names[1..], platforms) {
          var j :| 0 <= j < |names[1..]| && FindPlatform(platforms, names[1..][j]) == Some(p);
          assert names[j + 1] == names[1..][j];
        }
      }
    }
  }

  /** The cards show exactly the known platforms that some recommended path names; each
      card is a platform of the page's list carrying that name. */
  lemma {:induction false} PlatformCardsSpec(paths: seq<CareerPath>, platforms: seq<Platform>)
    ensures forall p :: p in PlatformCards(paths, platforms) <==>
              exists i, j :: 0 <= i < |paths| && 0 <= j < |paths[i].platforms| &&
                             FindPlatform(platforms, paths[i].platforms[j]) == Some(p)
    ensures forall p :: p in PlatformCards(paths, platforms) ==> p in platforms
  {
    if paths != [] {
      PlatformCardsSpec(paths[1..], platforms);
      FoundPlatformsSpec(paths[0].platforms, platforms);
      forall p ensures p in PlatformCards(paths, platforms) <==>
                       exists i, j :: 0 <= i < |paths| && 0 <= j < |paths[i].platforms| &&
                                      FindPlatform(platforms, paths[i].platforms[j]) == Some(p)
      {
        if exists i, j :: 0 <= i < |paths| && 0 <= j < |paths[i].platforms| &&
                          FindPlatform(platforms, paths[i].platforms[j]) == Some(p) {
          var i, j :| 0 <= i < |paths| && 0 <= j < |paths[i].platforms| &&
                      FindPlatform(platforms, paths[i].platforms[j]) == Some(p);
          if i > 0 {
            assert paths[1..][i - 1] == paths[i];
          }
        }
        if p in PlatformCards(paths[1..], platforms) {
          var i, j :| 0 <= i < |paths[1..]| && 0 <= j < |paths[1..][i].platforms| &&
                      FindPlatform(platforms, paths[1..][i].platforms[j]) == Some(p);
          assert paths[i + 1] == paths[1..][i];
        }
      }
    }
  }

  /** The test `s => s.id === id`. */
  function Numbered(id: int): Step -> bool
  {
    (s: Step) => s.id == id
  }

  /** `questionnaireSteps.find(s => s.id === id)`: the first step with the number. */
  function FindStep(steps: seq<Step>, id: int): (r: Option<Step>)
    ensures r.Some? <==> exists i :: 0 <= i < |steps| && steps[i].id == id
    ensures r.Some? ==> r.value in steps && r.value.id == id
    ensures r.Some? ==> exists i :: 0 <= i < |steps| && steps[i] == r.value &&
                                    forall j :: 0 <= j < i ==> steps[j].id != id
  {
    Find(steps, Numbered(id))
  }

  /** The test `o => o.value === value`. */
  function Valued(value: AnswerValue): AnswerOption -> bool
  {
    (o: AnswerOption) => o.value == value
  }

  /** `step.options.find(o => o.value === value)`: the first option with the value. */
  function FindOption(options: seq<AnswerOption>, value: AnswerValue): (r: Option<AnswerOption>)
    ensures r.Some? <==> exists i :: 0 <= i < |options| && options[i].value == value
    ensures r.Some? ==> r.value in options && r.value.value == value
    ensures r.Some? ==> exists i :: 0 <= i < |options| && options[i] == r.value &&
                                    forall j :: 0 <= j < i ==> options[j].value != value
  {
    Find(options, Valued(value))
  }

  /** The story of the option with this value at the step with this number, if both exist. */
  function StoryFor(steps: seq<Step>, stepId: int, value: AnswerValue): (r: Option<string>)
    ensures r.Some? <==> FindStep(steps, stepId).Some? &&
                         exists i :: 0 <= i < |FindStep(steps, stepId).value.options| &&
                                     FindStep(steps, stepId).value.options[i].value == value
    ensures r.Some? ==> exists o :: o in FindStep(steps, stepId).value.options &&
                                    o.value == value && o.story == r.value
    ensures r.Some? ==> var options := FindStep(steps, stepId).value.options;
                        exists i :: 0 <= i < |options| && options[i].value == value &&
                                    options[i].story == r.value &&
                                    forall j :: 0 <= j < i ==> options[j].value != value
  {
    match FindStep(steps, stepId)
    case None => None
    case Some(step) =>
      match FindOption(step.options, value)
      case None => None
      case Some(option) => Some(option.story)
  }


  /** The page's state: the step on screen, the answers so far, whether the results are
      shown, the recommended paths and the story of the last answer, over the page's
      questionnaire and career-path table. */
  class Questionnaire {
    const steps: seq<Step>
    const paths: seq<CareerPath>
    var currentStep: int
    var answers: Answers
    var showResults: bool
    var recommendedPaths: seq<CareerPath>
    var currentStory: string

    /** The step on screen is one of the questionnaire's. */
    predicate Valid()
      reads this
    {
      PathTable(paths) && 1 <= currentStep <= |steps|
    }

    /** The page as first shown, over its questionnaire (`questionnaireSteps`) and its
        career paths (`careerPaths`). */
    constructor (steps: seq<Step>, paths: seq<CareerPath>)
      requires |steps| > 0 && PathTable(paths)
      ensures Valid()
      ensures this.steps == steps && this.paths == paths
      ensures currentStep == 1 && answers == map[] && !showResults
      ensures recommendedPaths == [] && currentStory == ""
    {
      this.steps := steps;
      this.paths := paths;
      currentStep := 1;
      answers := map[];
      showResults := false;
      recommendedPaths := [];
      currentStory := "";
    }

    /** `handleAnswer`: records the value for that step only, and shows the chosen
        option's story when the step offers that option. */
    method HandleAnswer(stepId: int, value: AnswerValue)
      requires Valid()
      modifies this
      ensures Valid()
      ensures answers == old(answers)[stepId := value]
      ensures forall k :: k != stepId ==> (k in answers <==> k in old(answers))
      ensures forall k :: k != stepId && k in answers ==> answers[k] == old(answers)[k]
      ensures currentStory == match StoryFor(steps, stepId, value)
                              case Some(story) => story
                              case None => old(currentStory)
      ensures currentStep == old(currentStep) && showResults == old(showResults)
      ensures recommendedPaths == old(recommendedPaths)
    {
      answers := answers[stepId := value];
      var story := StoryFor(steps, stepId, value);
      if story.Some? {
        currentStory := story.value;
      }
    }

    /** `nextStep`: below the last step, moves on and clears the story; at the last step,
        shows the recommendations for the answers given. */
    method NextStep()
      requires Valid()
      modifies this
      ensures Valid()
      ensures old(currentStep) < |steps| ==>
                currentStep == old(currentStep) + 1 && currentStory == "" &&
                showResults == old(showResults) && recommendedPaths == old(recommendedPaths)
      ensures old(currentStep) == |steps| ==>
                currentStep == old(currentStep) && currentStory == old(currentStory) &&
                showResults && recommendedPaths == Recommendations(paths, answers)
      ensures answers == old(answers)
    {
      if currentStep < |steps| {
        currentStep := currentStep + 1;
        currentStory := "";
      } else {
        recommendedPaths := GenerateRecommendations(paths, answers);
        showResults := true;
      }
    }

    /** `prevStep`: above the first step, moves back and clears the story. */
    method PrevStep()
      requires Valid()
      modifies this
      ensures Valid()
      ensures old(currentStep) > 1 ==> currentStep == old(currentStep) - 1 && currentStory == ""
      ensures old(currentStep) == 1 ==> currentStep == 1 && currentStory == old(currentStory)
      ensures answers == old(answers) && showResults == old(showResults)
      ensures recommendedPaths == old(recommendedPaths)
    {
      if currentStep > 1 {
        currentStep := currentStep - 1;
        currentStory := "";
      }
    }

    /** `restartQuestionnaire`: back to the first step with nothing answered or shown. */
    method Restart()
      requires Valid()
      modifies this
      ensures Valid()
      ensures currentStep == 1 && answers == map[] && !showResults
      ensures recommendedPaths == [] && currentStory == ""
    {
      currentStep := 1;
      answers := map[];
      showResults := false;
      recommendedPaths := [];
      currentStory := "";
    }
  }

}

/** The questionnaire page's tables: the career paths, the questions and the job
    platforms. */
module CareerData {
  import opened CareerQuestionnaire

  /** The seven career paths, in the order the page lists them. */
  const CareerPaths: seq<CareerPath> := [
    CareerPath(SoftwareEngineering, "Software Engineering",
      ["LinkedIn", "Indeed", "AngelList", "Stack Overflow Jobs", "GitHub Jobs", "Hired", "Triplebyte", "LeetCode Jobs"]),
    CareerPath(DataScience, "Data Science",
      ["LinkedIn", "Indeed", "Kaggle Jobs", "Data Science Central", "Analytics Vidhya", "DataJobs", "AI Jobs", "ML Jobs"]),
    CareerPath(ProductManagement, "Product Management",
      ["LinkedIn", "Indeed", "AngelList", "Product Hunt Jobs", "Mind the Product", "Product School", "ProductCraft"]),
    CareerPath(Consulting, "Management Consulting",
      ["LinkedIn", "Indeed", "Consulting.com", "Management Consulted", "Vault", "Consulting Careers", "Strategy&"]),
    CareerPath(Finance, "Finance & Banking",
      ["LinkedIn", "Indeed", "eFinancialCareers", "Wall Street Oasis", "Finance Jobs", "eFinancialCareers", "Toptal Finance"]),
    CareerPath(Healthcare, "Healthcare & Medicine",
      ["LinkedIn", "Indeed", "Doximity", "PracticeLink", "Health eCareers", "Medscape", "Physician Jobs"]),
    CareerPath(Design, "Design & Creative",
      ["LinkedIn", "Indeed", "Behance Jobs", "Dribbble Jobs", "AIGA", "Design Jobs", "Creative Market"])
  ]

  /** The five questionnaire steps with the value and story of each option. */
  const QuestionnaireSteps: seq<Step> := [FirstStep, SecondStep, ThirdStep, FourthStep, FifthStep]

  /** The questionnaire has five steps, numbered 1 to 5 in order. */
  lemma QuestionnaireStepsShape()
    ensures |QuestionnaireSteps| == 5
    ensures forall i :: 0 <= i < 5 ==> QuestionnaireSteps[i].id == i + 1
  {
  }

  /** Step: the working environment. */
  const FirstStep: Step := Step(1, [
    AnswerOption(FastPacedInnovative,
      "The air crackles with energy. Whiteboards are covered in ideas, and the coffee never stops flowing. You're surrounded by people who believe they can change the world."),
    AnswerOption(StructuredProfessional,
      "The building stands tall and proud. Inside, everything runs like clockwork. You're part of something bigger than yourself, with clear paths to success."),
    AnswerOption(CreativeFlexible,
      "The space is alive with color and creativity. Music plays softly in the background. You have the freedom to explore, experiment, and bring your wildest ideas to life."),
    AnswerOption(ImpactDriven,
      "Every project you touch has the potential to change lives. You're surrounded by people who share your passion for making the world a better place.")
  ])

  /** Step: the problems to solve. */
  const SecondStep: Step := Step(2, [
    AnswerOption(TechnicalComplex,
      "You see beauty in elegant solutions to complex problems. The satisfaction of making something work perfectly drives you forward."),
    AnswerOption(BusinessStrategic,
      "You think in terms of systems and strategies. Every decision you make has ripple effects across the entire organization."),
    AnswerOption(CreativeDesign,
      "You see the world as a canvas for improvement. Every interaction is an opportunity to delight and surprise."),
    AnswerOption(PeopleRelationships,
      "You have a natural ability to read people and situations. Your superpower is bringing out the best in others.")
  ])

  /** Step: the way of working. */
  const ThirdStep: Step := Step(3, [
    AnswerOption(IndependentDeep,
      "You find your flow in quiet, focused work. When you emerge, you have something remarkable to share with the team."),
    AnswerOption(CollaborativeTeam,
      "The best ideas come from bouncing thoughts off others. You love the energy of brainstorming sessions and team huddles."),
    AnswerOption(ClientFacing,
      "You're the bridge between your organization and the outside world. Every client interaction is an opportunity to build trust."),
    AnswerOption(CreativeAutonomous,
      "You work best when given the freedom to explore. Your best ideas come when you're free to follow your curiosity.")
  ])

  /** Step: the definition of success. */
  const FourthStep: Step := Step(4, [
    AnswerOption(HighSalaryGrowth,
      "You're ambitious and driven. You want your hard work to be recognized and rewarded with both growth and compensation."),
    AnswerOption(WorkLifeBalance,
      "Success isn't just about your career. You want to excel at work while having time for the things that matter most."),
    AnswerOption(MeaningfulImpact,
      "You measure success by the lives you touch and the positive change you create. Money is important, but purpose is essential."),
    AnswerOption(InnovationCreativity,
      "You're drawn to the unknown and the unexplored. You want to be part of creating the future, not just maintaining the present.")
  ])

  /** Step: the size of the organisation. */
  const FifthStep: Step := Step(5, [
    AnswerOption(StartupSmall,
      "You love the energy of a small team where everyone's contribution matters. You're comfortable with uncertainty and rapid change."),
    AnswerOption(MediumGrowing,
      "You appreciate having processes and support while still being close to the action. You can see your impact while having room to grow."),
    AnswerOption(LargeEstablished,
      "You appreciate the resources and stability that come with scale. You're comfortable in well-defined roles with clear advancement paths."),
    AnswerOption(RemoteDistributed,
      "You're not bound by geography. You want to work with the best people, regardless of where they are in the world.")
  ])

  /** The job platforms the page knows, with their links and categories. */
  const JobPlatforms: seq<Platform> := [
    Platform("LinkedIn", "https://www.linkedin.com/jobs/", "Professional"),
    Platform("Indeed", "https://www.indeed.com/", "General"),
    Platform("AngelList", "https://angel.co/jobs", "Startup"),
    Platform("Stack Overflow Jobs", "https://stackoverflow.com/jobs", "Tech"),
    Platform("GitHub Jobs", "https://jobs.github.com/", "Tech"),
    Platform("Hired", "https://hired.com/", "Tech"),
    Platform("Triplebyte", "https://triplebyte.com/", "Tech"),
    Platform("LeetCode Jobs", "https://jobs.leetcode.com/", "Tech"),
    Platform("Kaggle Jobs", "https://www.kaggle.com/jobs", "Data Science"),
    Platform("Data Science Central", "https://www.datasciencecentral.com/jobs/", "Data Science"),
    Platform("Analytics Vidhya", "https://datahack.analyticsvidhya.com/jobs/", "Data Science"),
    Platform("Product Hunt Jobs", "https://www.producthunt.com/jobs", "Product"),
    Platform("Mind the Product", "https://www.mindtheproduct.com/jobs/", "Product"),
    Platform("Product School", "https://productschool.com/jobs/", "Product"),
    Platform("Consulting.com", "https://www.consulting.com/jobs", "Consulting"),
    Platform("Management Consulted", "https://managementconsulted.com/jobs/", "Consulting"),
    Platform("Vault", "https://www.vault.com/jobs", "Professional"),
    Platform("eFinancialCareers", "https://www.efinancialcareers.com/", "Finance"),
    Platform("Wall Street Oasis", "https://www.wallstreetoasis.com/jobs", "Finance"),
    Platform("Doximity", "https://www.doximity.com/jobs", "Healthcare"),
    Platform("PracticeLink", "https://www.practicelink.com/", "Healthcare"),
    Platform("Health eCareers", "https://www.healthecareers.com/", "Healthcare"),
    Platform("Behance Jobs", "https://www.behance.net/joblist", "Design"),
    Platform("Dribbble Jobs", "https://dribbble.com/jobs", "Design"),
    Platform("AIGA", "https://www.aiga.org/jobs/", "Design"),
    Platform("Naukri.com", "https://www.naukri.com/", "General"),
    Platform("Internshala", "https://internshala.com/", "Entry Level"),
    Platform("Shine", "https://www.shine.com/", "General"),
    Platform("Monster India", "https://www.monsterindia.com/", "General")
  ]

  /** The page's career-path table has the shape the rules are written against. */
  lemma {:induction false} CareerPathsTable()
    ensures PathTable(CareerPaths)
  {
  }
}
