// The CV checker page: the plain-text rendering of a gallery template that the copy button
// puts on the clipboard, the company and college listings, and the page state that the
// upload, analyse and reset controls change.

module CvChecker {
  import opened Text
  import opened Collections

  datatype TemplateType = College | Company

  datatype Header = Header(name: string, title: string, contact: string, location: string)

  datatype Experience = Experience(title: string, company: string, duration: string, achievements: seq<string>)

  datatype Education = Education(degree: string, school: string, year: string, gpa: Option<string>)

  datatype Project = Project(name: string, description: string, tech: seq<string>)

  datatype Content = Content(
    header: Header,
    summary: string,
    experience: seq<Experience>,
    education: seq<Education>,
    skills: seq<string>,
    projects: Option<seq<Project>>)

  datatype CvTemplate = CvTemplate(
    id: string,
    name: string,
    kind: TemplateType,
    institution: string,
    description: string,
    category: string,
    tags: seq<string>,
    content: Content)

  /** Name, title, contact and location on consecutive lines. */
  function HeaderLines(h: Header): string
  {
    h.name + "\n" + h.title + "\n" + h.contact + "\n" + h.location
  }

  /** Each achievement on its own line behind a bullet. */
  function AchievementLines(achievements: seq<string>): string
  {
    Join(seq(|achievements|, i requires 0 <= i < |achievements| => "• " + achievements[i]), "\n")
  }

  function ExperienceEntry(e: Experience): string
  {
    "\n" + e.title + " | " + e.company + " | " + e.duration + "\n" + AchievementLines(e.achievements) + "\n"
  }

  function ExperienceText(experience: seq<Experience>): string
  {
    Join(seq(|experience|, i requires 0 <= i < |experience| => ExperienceEntry(experience[i])), "\n")
  }

  function EducationEntry(e: Education): string
  {
    "\n" + e.degree + "\n" + e.school + " | " + e.year +
    (if Truthy(e.gpa) then " | GPA: " + e.gpa.value else "") + "\n"
  }

  function EducationText(education: seq<Education>): string
  {
    Join(seq(|education|, i requires 0 <= i < |education| => EducationEntry(education[i])), "\n")
  }

  function SkillsLine(skills: seq<string>): string
  {
    Join(skills, ", ")
  }

  function ProjectEntry(p: Project): string
  {
    "\n" + p.name + "\n" + p.description + "\nTechnologies: " + Join(p.tech, ", ") + "\n"
  }

  /** The PROJECTS section; an empty list still prints its heading. */
  function ProjectsPart(projects: Option<seq<Project>>): string
  {
    if projects.None? then ""
    else
      var ps := projects.value;
      "\nPROJECTS\n" + Join(seq(|ps|, i requires 0 <= i < |ps| => ProjectEntry(ps[i])), "\n")
  }

  /** The blank line, the header lines and the blank line before SUMMARY. */
  function Head(h: Header): string
  {
    "\n" + HeaderLines(h) + "\n\n"
  }

  /** SUMMARY, EXPERIENCE, EDUCATION and the SKILLS heading, in that order, each heading
      followed by its content. */
  function Sections(c: Content): string
  {
    "SUMMARY\n" + c.summary + "\n\nEXPERIENCE\n" + ExperienceText(c.experience) +
    "\n\nEDUCATION\n" + EducationText(c.education) + "\n\nSKILLS"
  }

  /** The text from the header through the skills line. */
  function ThroughSkills(c: Content): string
  {
    Head(c.header) + Sections(c) + "\n" + SkillsLine(c.skills)
  }

  /** What follows the skills line: the blank line, the PROJECTS section and the
      indentation before the closing quote. */
  function ProjectsTail(projects: Option<seq<Project>>): string
  {
    "\n\n" + ProjectsPart(projects) + "\n    "
  }

  /** The template literal before `trim`. */
  function RawDocument(c: Content): string
  {
    ThroughSkills(c) + ProjectsTail(c.projects)
  }

  /** `copyTemplate`: the text put on the clipboard. */
  function CopyTemplate(t: CvTemplate): (r: string)
    ensures Trimmed(r)
  {
    TrimSpec(RawDocument(t.content));
    Trim(RawDocument(t.content))
  }

  lemma SectionsBoundaries(c: Content)
    ensures Sections(c)[0] == 'S' && Sections(c)[|Sections(c)| - 1] == 'S'
  {
    var x := "SUMMARY\n" + c.summary + "\n\nEXPERIENCE\n" + ExperienceText(c.experience) +
             "\n\nEDUCATION\n" + EducationText(c.education);
    assert Sections(c) == x + "\n\nSKILLS";
    assert x[0] == 'S';
  }

  lemma HeadLineFirst(h: Header, m: string)
    requires |h.name| > 0
    ensures (HeaderLines(h) + "\n\n" + m)[0] == h.name[0]
  {
  }

  lemma ProjectsTailSplit(list: string)
    ensures "\n\n" + ("\nPROJECTS\n" + list) + "\n    " == "\n\n\nPROJECTS" + ("\n" + list + "\n    ")
  {
  }

  lemma NoProjectsTailBlank()
    ensures AllWhitespace(ProjectsTail(None))
  {
    var w := ProjectsTail(None);
    assert w == "\n\n\n    ";
    forall i | 0 <= i < |w| ensures IsWhitespace(w[i]) {
    }
  }

  /** The copied text holds the four sections in order; when the name starts with a visible
      character, it also holds the four header lines directly before them. */
  lemma CopyTemplateSections(t: CvTemplate)
    ensures Contains(CopyTemplate(t), Sections(t.content))
    ensures |t.content.header.name| > 0 && !IsWhitespace(t.content.header.name[0]) ==>
              Contains(CopyTemplate(t), HeaderLines(t.content.header) + "\n\n" + Sections(t.content))
  {
    var c := t.content;
    var m := Sections(c);
    var rest := "\n" + SkillsLine(c.skills) + ProjectsTail(c.projects);
    assert Head(c.header) + m + "\n" + SkillsLine(c.skills) + ProjectsTail(c.projects) ==
           Head(c.header) + m + rest;
    assert RawDocument(c) == Head(c.header) + m + rest;
    SectionsBoundaries(c);
    ContainsInsideTrim(Head(c.header), m, rest);
    if |c.header.name| > 0 && !IsWhitespace(c.header.name[0]) {
      var h := HeaderLines(c.header) + "\n\n" + m;
      assert "\n" + HeaderLines(c.header) + "\n\n" + m + rest == "\n" + h + rest;
      HeadLineFirst(c.header, m);
      ContainsInsideTrim("\n", h, rest);
    }
  }

  /** The skills line follows the SKILLS heading whenever it ends with a visible character. */
  lemma CopyTemplateSkills(t: CvTemplate)
    requires |SkillsLine(t.content.skills)| > 0
    requires !IsWhitespace(SkillsLine(t.content.skills)[|SkillsLine(t.content.skills)| - 1])
    ensures Contains(CopyTemplate(t), Sections(t.content) + "\n" + SkillsLine(t.content.skills))
  {
    var c := t.content;
    var m := Sections(c) + "\n" + SkillsLine(c.skills);
    assert Head(c.header) + Sections(c) + "\n" + SkillsLine(c.skills) + ProjectsTail(c.projects) ==
           Head(c.header) + m + ProjectsTail(c.projects);
    ContainsAfterSections(Head(c.header), m, ProjectsTail(c.projects));
  }

  lemma ContainsAfterSections(a: string, m: string, b: string)
    requires |m| > 0 && !IsWhitespace(m[|m| - 1])
    requires m[0] == 'S'
    ensures Contains(Trim(a + m + b), m)
  {
    ContainsInsideTrim(a, m, b);
  }

  /** With projects, the PROJECTS heading follows the skills line; without them, the copied
      text ends with the skills line. */
  lemma CopyTemplateProjects(t: CvTemplate)
    ensures t.content.projects.Some? ==>
              Contains(CopyTemplate(t), Sections(t.content) + "\n" + SkillsLine(t.content.skills) + "\n\n\nPROJECTS")
    ensures t.content.projects.None? ==> CopyTemplate(t) == Trim(ThroughSkills(t.content))
  {
    var c := t.content;
    if c.projects.Some? {
      var ps := c.projects.value;
      var list := Join(seq(|ps|, i requires 0 <= i < |ps| => ProjectEntry(ps[i])), "\n");
      var rest := "\n" + list + "\n    ";
      ProjectsTailSplit(list);
      assert Head(c.header) + Sections(c) + "\n" + SkillsLine(c.skills) + ("\n\n\nPROJECTS" + rest) ==
             Head(c.header) + (Sections(c) + "\n" + SkillsLine(c.skills) + "\n\n\nPROJECTS") + rest;
      ContainsAfterSections(Head(c.header), Sections(c) + "\n" + SkillsLine(c.skills) + "\n\n\nPROJECTS", rest);
    } else {
      NoProjectsTailBlank();
      TrimDropsWhitespaceTail(ThroughSkills(c), ProjectsTail(None));
    }
  }

  /** Split at line breaks, the achievement lines give back each achievement behind a bullet,
      in the original order, provided no achievement itself holds a line break. */
  lemma AchievementLinesSpec(achievements: seq<string>)
    requires |achievements| > 0
    requires forall i :: 0 <= i < |achievements| ==> '\n' !in achievements[i]
    ensures |Pieces(AchievementLines(achievements), "\n")| == |achievements|
    ensures forall i :: 0 <= i < |achievements| ==>
              Pieces(AchievementLines(achievements), "\n")[i] == "• " + achievements[i]
  {
    var lines := seq(|achievements|, i requires 0 <= i < |achievements| => "• " + achievements[i]);
    forall i | 0 <= i < |lines| ensures '\n' !in lines[i] {
      assert lines[i] == "• " + achievements[i];
    }
    PiecesOfJoin(lines, '\n');
  }

  /** The school line carries the GPA exactly when one is given. */
  lemma EducationEntryGpa(e: Education)
    ensures Truthy(e.gpa) ==>
              EducationEntry(e) == "\n" + e.degree + "\n" + e.school + " | " + e.year + " | GPA: " + e.gpa.value + "\n"
    ensures !Truthy(e.gpa) ==>
              EducationEntry(e) == "\n" + e.degree + "\n" + e.school + " | " + e.year + "\n"
  {
  }

  predicate IsCompanyTemplate(t: CvTemplate) { t.kind == Company }

  predicate IsCollegeTemplate(t: CvTemplate) { t.kind == College }

  /** The company listing. */
  function CompanyTemplates(templates: seq<CvTemplate>): seq<CvTemplate>
  {
    Filter(templates, IsCompanyTemplate)
  }

  /** The college listing. */
  function CollegeTemplates(templates: seq<CvTemplate>): seq<CvTemplate>
  {
    Filter(templates, IsCollegeTemplate)
  }

  /** The two listings split the gallery: each keeps the gallery order, together they hold
      every template exactly once, and a template is listed under its own type. */
  lemma TemplateListingsPartition(templates: seq<CvTemplate>)
    ensures multiset(CompanyTemplates(templates)) + multiset(CollegeTemplates(templates)) == multiset(templates)
    ensures Subsequence(CompanyTemplates(templates), templates)
    ensures Subsequence(CollegeTemplates(templates), templates)
    ensures forall t :: t in CompanyTemplates(templates) <==> t in templates && t.kind == Company
    ensures forall t :: t in CollegeTemplates(templates) <==> t in templates && t.kind == College
  {
    FilterPartition(templates, IsCompanyTemplate, IsCollegeTemplate);
    FilterIsSubsequence(templates, IsCompanyTemplate);
    FilterIsSubsequence(templates, IsCollegeTemplate);
    FilterMembership(templates, IsCompanyTemplate);
    FilterMembership(templates, IsCollegeTemplate);
  }

  /** The result the analyse button stores; its scores are drawn at random by the page. */
  datatype Analysis = Analysis(
    score: int,
    atsScore: int,
    readabilityScore: int,
    impactScore: int,
    missingKeywords: seq<string>)

  /** A file chosen or dropped by the user; its contents reach the page through `FileRead`. */
  datatype UploadedFile = UploadedFile(name: string)

  datatype Tab = Analyzer | Templates

  /** The page state. `fileInput` is the value of the hidden file input, absent when that
      input is not on screen. */
  class CheckerPage {
    var cvText: string
    var uploadedFile: Option<UploadedFile>
    var fileName: string
    var jobType: string
    var isAnalyzing: bool
    var analysis: Option<Analysis>
    var activeTab: Tab
    var selectedTemplate: Option<CvTemplate>
    var fileInput: Option<string>

    constructor ()
      ensures cvText == "" && uploadedFile == None && fileName == "" && jobType == "software-engineer"
      ensures !isAnalyzing && analysis == None && activeTab == Analyzer && selectedTemplate == None
      ensures fileInput == Some("")
      ensures Valid()
    {
      cvText := "";
      uploadedFile := None;
      fileName := "";
      jobType := "software-engineer";
      isAnalyzing := false;
      analysis := None;
      activeTab := Analyzer;
      selectedTemplate := None;
      fileInput := Some("");
    }

    /** The file input exists exactly while the analyser tab is shown. */
    predicate Valid()
      reads this
    {
      fileInput.Some? <==> activeTab == Analyzer
    }

    /** The analyse button is enabled while no analysis runs and there is a file or some
        non-blank text. */
    predicate CanAnalyze()
      reads this
    {
      !isAnalyzing && (uploadedFile.Some? || Trim(cvText) != "")
    }

    /** A chosen or dropped file (absent when the picker was dismissed): the file and its
        name are kept and a reader is started; the CV text is left to `FileRead`. */
    method ReceiveFile(file: Option<UploadedFile>)
      modifies this
      requires Valid()
      ensures Valid()
      ensures file.Some? ==> uploadedFile == file && fileName == file.value.name
      ensures file.None? ==> uploadedFile == old(uploadedFile) && fileName == old(fileName)
      ensures cvText == old(cvText) && isAnalyzing == old(isAnalyzing) && analysis == old(analysis)
      ensures jobType == old(jobType)
      ensures activeTab == old(activeTab) && selectedTemplate == old(selectedTemplate) && fileInput == old(fileInput)
    {
      if file.Some? {
        uploadedFile := file;
        fileName := file.value.name;
      }
    }

    /** The reader's `onload` callback: the text it read replaces the CV text. Readers run
        independently, so a caller may deliver the texts of several files in any order. */
    method FileRead(text: string)
      modifies this
      requires Valid()
      ensures Valid()
      ensures cvText == text
      ensures uploadedFile == old(uploadedFile) && fileName == old(fileName) && jobType == old(jobType)
      ensures isAnalyzing == old(isAnalyzing) && analysis == old(analysis)
      ensures activeTab == old(activeTab) && selectedTemplate == old(selectedTemplate) && fileInput == old(fileInput)
    {
      cvText := text;
    }

    /** Pressing the analyse button starts an analysis when the button is enabled and does
        nothing otherwise. */
    method PressAnalyze()
      modifies this
      requires Valid()
      ensures Valid()
      ensures old(CanAnalyze()) ==> isAnalyzing
      ensures !old(CanAnalyze()) ==> isAnalyzing == old(isAnalyzing)
      ensures cvText == old(cvText) && uploadedFile == old(uploadedFile) && fileName == old(fileName)
      ensures jobType == old(jobType) && analysis == old(analysis)
      ensures activeTab == old(activeTab) && selectedTemplate == old(selectedTemplate) && fileInput == old(fileInput)
    {
      if CanAnalyze() {
        isAnalyzing := true;
      }
    }

    /** The delayed callback: the (random) analysis is stored and the analysis ends. */
    method FinishAnalysis(result: Analysis)
      modifies this
      requires Valid()
      ensures Valid()
      ensures analysis == Some(result) && !isAnalyzing
      ensures cvText == old(cvText) && uploadedFile == old(uploadedFile) && fileName == old(fileName)
      ensures jobType == old(jobType)
      ensures activeTab == old(activeTab) && selectedTemplate == old(selectedTemplate) && fileInput == old(fileInput)
    {
      analysis := Some(result);
      isAnalyzing := false;
    }

    /** `resetAnalysis`: the analysis, the CV text, the file and its name are cleared, and so
        is the file input when it is on screen; the job type, tab and template stay. */
    method ResetAnalysis()
      modifies this
      requires Valid()
      ensures Valid()
      ensures analysis == None && cvText == "" && uploadedFile == None && fileName == ""
      ensures fileInput == (if old(fileInput).Some? then Some("") else None)
      ensures jobType == old(jobType) && isAnalyzing == old(isAnalyzing)
      ensures activeTab == old(activeTab) && selectedTemplate == old(selectedTemplate)
    {
      analysis := None;
      cvText := "";
      uploadedFile := None;
      fileName := "";
      if fileInput.Some? {
        fileInput := Some("");
      }
    }

    /** The job-type select of the analyser. */
    method SetJobType(t: string)
      modifies this
      requires Valid()
      ensures Valid()
      ensures jobType == t
      ensures cvText == old(cvText) && uploadedFile == old(uploadedFile) && fileName == old(fileName)
      ensures isAnalyzing == old(isAnalyzing) && analysis == old(analysis)
      ensures activeTab == old(activeTab) && selectedTemplate == old(selectedTemplate) && fileInput == old(fileInput)
    {
      jobType := t;
    }

    /** The tab buttons. The file input is only on screen under the analyser tab: leaving it
        removes the input, and coming back mounts a fresh, empty one. */
    method SetActiveTab(tab: Tab)
      modifies this
      requires Valid()
      ensures Valid()
      ensures activeTab == tab
      ensures tab == Templates ==> fileInput == None
      ensures tab == Analyzer && old(activeTab) == Analyzer ==> fileInput == old(fileInput)
      ensures tab == Analyzer && old(activeTab) == Templates ==> fileInput == Some("")
      ensures cvText == old(cvText) && uploadedFile == old(uploadedFile) && fileName == old(fileName)
      ensures jobType == old(jobType) && isAnalyzing == old(isAnalyzing) && analysis == old(analysis)
      ensures selectedTemplate == old(selectedTemplate)
    {
      if tab == Templates {
        fileInput := None;
      } else if activeTab == Templates {
        fileInput := Some("");
      }
      activeTab := tab;
    }

    /** Opening a template from either listing, or closing it. */
    method SelectTemplate(template: Option<CvTemplate>)
      modifies this
      requires Valid()
      ensures Valid()
      ensures selectedTemplate == template
      ensures cvText == old(cvText) && uploadedFile == old(uploadedFile) && fileName == old(fileName)
      ensures jobType == old(jobType) && isAnalyzing == old(isAnalyzing) && analysis == old(analysis)
      ensures activeTab == old(activeTab) && fileInput == old(fileInput)
    {
      selectedTemplate := template;
    }
  }
}

/** The four templates of the gallery. */
module CvTemplateData {
  import opened Collections
  import opened CvChecker

  const CvTemplates: seq<CvTemplate> := [GoogleSoftwareTemplate, MicrosoftProductTemplate, StanfordCsTemplate, HarvardBusinessTemplate]

  const GoogleSoftwareTemplate: CvTemplate := CvTemplate(
    "google-software", "Google Software Engineer CV", Company, "Google",
    "Software engineer CV template used by Google employees",
    "Software Engineering",
    ["Scalability", "System Design", "Code Quality", "Performance"],
    Content(
      Header("Sarah Chen", "Senior Software Engineer",
        "sarah.chen@email.com | (555) 123-4567 | linkedin.com/in/sarahchen", "San Francisco, CA"),
      "Experienced software engineer with 5+ years building scalable systems at Google. Led development of microservices serving 10M+ users, improved system performance by 40%, and mentored 3 junior engineers. Expert in Java, Python, and distributed systems.",
      [
        Experience("Senior Software Engineer", "Google", "2021 - Present",
          ["Led development of payment processing system serving 10M+ daily transactions", "Improved API response time by 40% through optimization and caching strategies", "Designed and implemented microservices architecture reducing deployment time by 60%", "Mentored 3 junior engineers and conducted 20+ technical interviews"]),
        Experience("Software Engineer", "Microsoft", "2019 - 2021",
          ["Developed Azure cloud services used by 5M+ enterprise customers", "Reduced system downtime by 80% through automated monitoring and alerting", "Collaborated with cross-functional teams to deliver features on time"])],
      [
        Education("Master of Science in Computer Science", "Stanford University", "2019", Some("3.9/4.0")),
        Education("Bachelor of Science in Computer Science", "UC Berkeley", "2017", Some("3.8/4.0"))],
      ["Java", "Python", "Go", "JavaScript", "React", "Kubernetes", "Docker", "AWS", "Google Cloud", "System Design", "Microservices", "REST APIs", "GraphQL", "MongoDB", "PostgreSQL"],
      None))

  const MicrosoftProductTemplate: CvTemplate := CvTemplate(
    "microsoft-product", "Microsoft Product Manager CV", Company, "Microsoft",
    "Product manager CV template from Microsoft",
    "Product Management",
    ["Product Strategy", "User Research", "Data Analysis", "Leadership"],
    Content(
      Header("Alex Rodriguez", "Senior Product Manager",
        "alex.rodriguez@email.com | (555) 987-6543 | linkedin.com/in/alexrodriguez", "Seattle, WA"),
      "Strategic product manager with 6+ years experience launching successful products at Microsoft. Led product strategy for Office 365 features used by 200M+ users, increased user engagement by 35%, and managed $50M product budget. Expert in user research, data analysis, and cross-functional leadership.",
      [
        Experience("Senior Product Manager", "Microsoft", "2020 - Present",
          ["Led product strategy for Office 365 collaboration features used by 200M+ users", "Increased user engagement by 35% through data-driven feature optimization", "Managed $50M product budget and delivered 15+ features on schedule", "Led cross-functional team of 25 engineers, designers, and marketers"]),
        Experience("Product Manager", "Adobe", "2018 - 2020",
          ["Launched Creative Cloud features driving $20M in additional revenue", "Conducted user research with 500+ customers to inform product decisions", "Collaborated with engineering teams to deliver features on time"])],
      [
        Education("Master of Business Administration", "Harvard Business School", "2018", Some("3.7/4.0")),
        Education("Bachelor of Science in Engineering", "MIT", "2016", Some("3.9/4.0"))],
      ["Product Strategy", "User Research", "Data Analysis", "A/B Testing", "SQL", "Python", "Tableau", "Figma", "Agile", "Scrum", "Stakeholder Management", "Roadmapping", "Market Analysis", "Competitive Analysis"],
      None))

  const StanfordCsTemplate: CvTemplate := CvTemplate(
    "stanford-cs", "Stanford CS Graduate CV", College, "Stanford University",
    "Computer Science graduate CV template with strong technical focus",
    "Computer Science",
    ["Machine Learning", "AI", "Software Engineering", "Research"],
    Content(
      Header("David Kim", "Computer Science Graduate",
        "david.kim@email.com | (555) 456-7890 | linkedin.com/in/davidkim", "Palo Alto, CA"),
      "Recent Stanford CS graduate with strong foundation in machine learning and software engineering. Completed research on computer vision algorithms, built full-stack applications, and led technical projects. Seeking software engineering roles in AI/ML companies.",
      [
        Experience("Research Assistant", "Stanford AI Lab", "2022 - 2023",
          ["Researched computer vision algorithms improving accuracy by 15%", "Published paper on \"Efficient Object Detection in Real-time Applications\"", "Implemented deep learning models using PyTorch and TensorFlow", "Presented findings at Stanford AI Symposium"]),
        Experience("Software Engineering Intern", "Meta", "Summer 2022",
          ["Developed recommendation system features used by 1M+ users", "Optimized database queries reducing response time by 30%", "Collaborated with senior engineers on production code"])],
      [
        Education("Master of Science in Computer Science", "Stanford University", "2023", Some("3.9/4.0")),
        Education("Bachelor of Science in Computer Science", "UC Berkeley", "2021", Some("3.8/4.0"))],
      ["Python", "Java", "JavaScript", "React", "TensorFlow", "PyTorch", "SQL", "Git", "Docker", "AWS", "Machine Learning", "Computer Vision", "Natural Language Processing", "Data Structures", "Algorithms"],
      Some([
        Project("Real-time Object Detection System", "Built computer vision system using YOLO for real-time object detection", ["Python", "OpenCV", "PyTorch", "Flask"]),
        Project("E-commerce Platform", "Full-stack web application with user authentication and payment processing", ["React", "Node.js", "MongoDB", "Stripe"])])))

  const HarvardBusinessTemplate: CvTemplate := CvTemplate(
    "harvard-business", "Harvard Business CV", College, "Harvard Business School",
    "Business graduate CV template with leadership and strategic focus",
    "Business",
    ["Leadership", "Strategy", "Analytics", "Management"],
    Content(
      Header("Emily Johnson", "Business Strategy Consultant",
        "emily.johnson@email.com | (555) 321-6547 | linkedin.com/in/emilyjohnson", "Boston, MA"),
      "Harvard Business School graduate with strong analytical and leadership skills. Led strategic initiatives at McKinsey, managed $10M client projects, and developed business strategies for Fortune 500 companies. Expert in financial modeling, market analysis, and team leadership.",
      [
        Experience("Associate Consultant", "McKinsey & Company", "2021 - Present",
          ["Led strategic initiatives for Fortune 500 companies worth $10M+", "Developed market entry strategies for 3 international markets", "Managed cross-functional teams of 8+ consultants and analysts", "Presented findings to C-suite executives and board members"]),
        Experience("Business Analyst", "Goldman Sachs", "2019 - 2021",
          ["Analyzed investment opportunities worth $500M+ in total value", "Built financial models for M&A transactions and IPOs", "Conducted due diligence for 5+ major deals"])],
      [
        Education("Master of Business Administration", "Harvard Business School", "2021", Some("3.8/4.0")),
        Education("Bachelor of Arts in Economics", "Yale University", "2019", Some("3.9/4.0"))],
      ["Strategic Planning", "Financial Modeling", "Market Analysis", "Excel", "PowerPoint", "SQL", "Tableau", "Leadership", "Project Management", "Client Relations", "Data Analysis", "Business Development", "M&A", "Due Diligence"],
      None))
}
