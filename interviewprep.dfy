// The mock interview of the interview preparation page: a stepper over the selected
// company's questions, with its sample answer shown beside each one.

module InterviewPrep {
  import opened Collections

  datatype CompanyPrep = CompanyPrep(
    id: int,
    name: string,
    logo: string,
    color: string,
    description: string,
    commonQuestions: seq<string>,
    sampleAnswers: seq<string>,
    expertTips: seq<string>,
    interviewProcess: seq<string>)

  /** Every company of the page asks this many questions. */
  const QuestionCount: nat := 6

  /** A company has the usual number of questions and one sample answer per question. */
  predicate Uniform(c: CompanyPrep)
  {
    |c.commonQuestions| == QuestionCount && |c.sampleAnswers| == QuestionCount
  }

  /** The step after pressing Next on `step` of `questionCount` questions, or nothing when
      the press ends the interview. */
  function AfterNext(step: nat, questionCount: nat): (r: Option<nat>)
    ensures r.Some? <==> step + 1 < questionCount
    ensures r.Some? ==> r.value == step + 1
  {
    if step < questionCount - 1 then Some(step + 1) else None
  }

  /** The step after `presses` presses of Next, or nothing once the interview has ended. */
  function AfterPresses(step: nat, questionCount: nat, presses: nat): Option<nat>
  {
    if presses == 0 then Some(step)
    else
      match AfterPresses(step, questionCount, presses - 1)
      case None => None
      case Some(s) => AfterNext(s, questionCount)
  }

  /** A mock interview started on a company with `n` questions shows question `k` after
      `k` presses, for every `k < n`, and ends at the `n`-th press: every question is shown
      exactly once, in order. */
  lemma {:induction false} InterviewWalk(questionCount: nat, presses: nat)
    requires questionCount > 0
    ensures presses < questionCount ==> AfterPresses(0, questionCount, presses) == Some(presses)
    ensures presses >= questionCount ==> AfterPresses(0, questionCount, presses) == None
  {
    if presses > 0 {
      InterviewWalk(questionCount, presses - 1);
    }
  }

  datatype PrepTab = Companies | Generic | MockInterviewTab

  /** The page state the mock interview uses. */
  class PrepPage {
    var selectedCompany: Option<CompanyPrep>
    var showMockInterview: bool
    var mockInterviewStep: nat
    var activeTab: PrepTab

    /** The step is a valid question index for every company of the page, and the selected
        company is one of that shape; so the question and the answer shown at the current
        step always exist. */
    predicate Valid()
      reads this
      ensures Valid() && selectedCompany.Some? ==>
                mockInterviewStep < |selectedCompany.value.commonQuestions| &&
                mockInterviewStep < |selectedCompany.value.sampleAnswers|
    {
      mockInterviewStep < QuestionCount &&
      (selectedCompany.Some? ==> Uniform(selectedCompany.value))
    }

    constructor ()
      ensures Valid()
      ensures selectedCompany == None && !showMockInterview && mockInterviewStep == 0 && activeTab == Companies
    {
      selectedCompany := None;
      showMockInterview := false;
      mockInterviewStep := 0;
      activeTab := Companies;
    }

    /** A company card opens that company's details; Close clears the selection. */
    method SelectCompany(company: Option<CompanyPrep>)
      modifies this
      requires Valid()
      requires company.Some? ==> Uniform(company.value)
      ensures Valid()
      ensures selectedCompany == company
      ensures showMockInterview == old(showMockInterview) && mockInterviewStep == old(mockInterviewStep)
      ensures activeTab == old(activeTab)
    {
      selectedCompany := company;
    }

    method SetActiveTab(tab: PrepTab)
      modifies this
      requires Valid()
      ensures Valid()
      ensures activeTab == tab
      ensures selectedCompany == old(selectedCompany) && showMockInterview == old(showMockInterview)
      ensures mockInterviewStep == old(mockInterviewStep)
    {
      activeTab := tab;
    }

    /** `startMockInterview`: the company is selected, the interview is shown at its first
        question and the mock-interview tab becomes active. */
    method StartMockInterview(company: CompanyPrep)
      modifies this
      requires Valid()
      requires Uniform(company)
      ensures Valid()
      ensures selectedCompany == Some(company) && showMockInterview && mockInterviewStep == 0
      ensures activeTab == MockInterviewTab
    {
      selectedCompany := Some(company);
      showMockInterview := true;
      mockInterviewStep := 0;
      activeTab := MockInterviewTab;
    }

    /** `nextMockInterviewStep`: before the last question the step advances; at the last
        question, or with no company, the interview is hidden and the step stays. */
    method NextMockInterviewStep()
      modifies this
      requires Valid()
      ensures Valid()
      ensures old(selectedCompany).Some? &&
              AfterNext(old(mockInterviewStep), |old(selectedCompany).value.commonQuestions|).Some? ==>
                mockInterviewStep == old(mockInterviewStep) + 1 && showMockInterview == old(showMockInterview)
      ensures old(selectedCompany).None? ||
              AfterNext(old(mockInterviewStep), |old(selectedCompany).value.commonQuestions|).None? ==>
                mockInterviewStep == old(mockInterviewStep) && !showMockInterview
      ensures selectedCompany == old(selectedCompany) && activeTab == old(activeTab)
    {
      if selectedCompany.Some? && mockInterviewStep < |selectedCompany.value.commonQuestions| - 1 {
        mockInterviewStep := mockInterviewStep + 1;
      } else {
        showMockInterview := false;
      }
    }

    /** Exit hides the interview and keeps the step and the company. */
    method ExitMockInterview()
      modifies this
      requires Valid()
      ensures Valid()
      ensures !showMockInterview
      ensures mockInterviewStep == old(mockInterviewStep) && selectedCompany == old(selectedCompany)
      ensures activeTab == old(activeTab)
    {
      showMockInterview := false;
    }
  }
}

/** The ten companies of the preparation page. */
module InterviewData {
  import opened InterviewPrep

  const CompanyData: seq<CompanyPrep> := [GooglePrep, AmazonPrep, MicrosoftPrep, ApplePrep, MetaFacebookPrep, NetflixPrep, DeloittePrep, MckinseyPrep, GoldmanSachsPrep, JpMorganPrep]

  const GoogleQuestions: seq<string> := [
    "How would you solve this coding problem?",
    "Tell me about a time you failed and what you learned",
    "How would you improve Google Maps?",
    "Design a system to handle millions of requests",
    "How do you approach algorithm optimization?",
    "Tell me about a time you had to make a technical decision"]

  const GoogleAnswers: seq<string> := [
    "I would approach this systematically, first understanding the constraints, then breaking it down into smaller subproblems...",
    "I once led a project that didn't meet our initial goals, but I learned valuable lessons about communication and planning...",
    "I would focus on real-time traffic updates, user-generated content, and AI-powered route optimization...",
    "I'd use a distributed system with load balancers, caching layers, and microservices architecture...",
    "I start by analyzing time and space complexity, then optimize based on the most critical constraints...",
    "I gathered input from the team, evaluated trade-offs, and made a data-driven decision..."]

  /* Each company asks six questions and gives one sample answer per question, so any
     company can be selected whatever the current step. */
  lemma GoogleUniform()
    ensures Uniform(GooglePrep)
  {
  }

  lemma AmazonUniform()
    ensures Uniform(AmazonPrep)
  {
  }

  lemma MicrosoftUniform()
    ensures Uniform(MicrosoftPrep)
  {
  }

  lemma AppleUniform()
    ensures Uniform(ApplePrep)
  {
  }

  lemma MetaFacebookUniform()
    ensures Uniform(MetaFacebookPrep)
  {
  }

  lemma NetflixUniform()
    ensures Uniform(NetflixPrep)
  {
  }

  lemma DeloitteUniform()
    ensures Uniform(DeloittePrep)
  {
  }

  lemma MckinseyUniform()
    ensures Uniform(MckinseyPrep)
  {
  }

  lemma GoldmanSachsUniform()
    ensures Uniform(GoldmanSachsPrep)
  {
  }

  lemma JpMorganUniform()
    ensures Uniform(JpMorganPrep)
  {
  }

  /** Every company on the page can be selected or started. */
  lemma CompanyDataUniform()
    ensures forall c :: c in CompanyData ==> Uniform(c)
  {
    GoogleUniform();
    AmazonUniform();
    MicrosoftUniform();
    AppleUniform();
    MetaFacebookUniform();
    NetflixUniform();
    DeloitteUniform();
    MckinseyUniform();
    GoldmanSachsUniform();
    JpMorganUniform();
  }

  const GooglePrep: CompanyPrep := CompanyPrep(
    1, "Google", "\U{1F50D}", "from-blue-500 to-blue-600",
    "Focus on problem-solving, algorithms, and behavioral questions. Google values creativity and innovation.",
    GoogleQuestions,
    GoogleAnswers,
    [
      "Practice coding problems on LeetCode",
      "Focus on clean, readable code",
      "Think out loud during problem-solving",
      "Show passion for technology and innovation",
      "Research Google's products and culture",
      "Prepare for system design questions"],
    [
      "Phone screen with recruiter",
      "Technical phone interview",
      "Onsite interviews (4-5 rounds)",
      "Coding, system design, and behavioral"])

  const AmazonQuestions: seq<string> := [
    "Tell me about a time you disagreed with your manager",
    "How do you handle competing priorities?",
    "Describe a situation where you had to make a decision with incomplete data",
    "What's your approach to customer feedback?",
    "Tell me about a time you had to deliver bad news",
    "How do you handle operational challenges?"]

  const AmazonAnswers: seq<string> := [
    "I respectfully presented data and alternative solutions, focusing on customer impact and business outcomes...",
    "I prioritize based on customer impact and business urgency, communicating clearly with stakeholders...",
    "I gather available information, assess risks, make the best decision possible, and iterate based on results...",
    "I listen actively, validate understanding, and take immediate action to address concerns...",
    "I delivered the news directly, explained the context, and proposed solutions to mitigate the impact...",
    "I analyze the root cause, implement immediate fixes, and develop long-term solutions..."]

  const AmazonPrep: CompanyPrep := CompanyPrep(
    2, "Amazon", "\U{1F4E6}", "from-orange-500 to-orange-600",
    "Emphasize leadership principles, customer obsession, and operational excellence. Prepare for STAR method questions.",
    AmazonQuestions,
    AmazonAnswers,
    [
      "Memorize Amazon's 16 Leadership Principles",
      "Use STAR method for all behavioral questions",
      "Focus on customer impact in all answers",
      "Show bias for action and ownership",
      "Research Amazon's business model",
      "Prepare for operational excellence questions"],
    [
      "Online assessment",
      "Phone screen",
      "Onsite interviews (4-5 rounds)",
      "Leadership principles and technical skills"])

  const MicrosoftQuestions: seq<string> := [
    "How do you stay updated with technology trends?",
    "Tell me about a challenging technical problem you solved",
    "How do you handle working with difficult team members?",
    "What's your experience with cloud technologies?",
    "How do you approach learning new technologies?",
    "Tell me about a time you had to adapt to change"]

  const MicrosoftAnswers: seq<string> := [
    "I follow industry blogs, attend conferences, and experiment with new technologies in personal projects...",
    "I tackled a performance issue by profiling the code, identifying bottlenecks, and implementing optimizations...",
    "I focus on common goals, communicate clearly, and find ways to leverage each person's strengths...",
    "I have experience with Azure services, including compute, storage, and networking components...",
    "I start with documentation, build small projects, and gradually increase complexity...",
    "I embraced the change, learned the new requirements, and helped my team adapt..."]

  const MicrosoftPrep: CompanyPrep := CompanyPrep(
    3, "Microsoft", "\U{1FA9F}", "from-green-500 to-green-600",
    "Focus on technical skills, collaboration, and growth mindset. Microsoft values learning and adaptability.",
    MicrosoftQuestions,
    MicrosoftAnswers,
    [
      "Show passion for technology and learning",
      "Demonstrate collaboration skills",
      "Be prepared for system design questions",
      "Research Microsoft's products and culture",
      "Focus on growth mindset",
      "Prepare for Azure-specific questions"],
    [
      "Initial phone screen",
      "Technical phone interview",
      "Onsite interviews (3-4 rounds)",
      "Coding, design, and behavioral"])

  const AppleQuestions: seq<string> := [
    "How do you approach user experience design?",
    "Tell me about a time you had to balance form and function",
    "How do you handle feedback from users?",
    "What's your experience with iOS development?",
    "How do you ensure quality in your work?",
    "Tell me about a time you had to think differently"]

  const AppleAnswers: seq<string> := [
    "I start by understanding user needs, then iterate through design and testing phases...",
    "I prioritize user needs while maintaining aesthetic appeal and technical feasibility...",
    "I listen carefully, validate understanding, and iterate based on user feedback...",
    "I have experience with Swift, UIKit, and following Apple's design guidelines...",
    "I implement thorough testing, code reviews, and continuous integration processes...",
    "I challenged conventional thinking and proposed an innovative solution..."]

  const ApplePrep: CompanyPrep := CompanyPrep(
    4, "Apple", "\U{1F34E}", "from-gray-600 to-gray-700",
    "Focus on design thinking, user experience, and attention to detail. Apple values creativity and quality.",
    AppleQuestions,
    AppleAnswers,
    [
      "Research Apple's design philosophy",
      "Show attention to detail",
      "Demonstrate creativity and innovation",
      "Prepare for iOS-specific questions",
      "Focus on user-centric thinking",
      "Understand Apple's ecosystem"],
    [
      "Phone screen",
      "Technical interview",
      "Onsite interviews (3-4 rounds)",
      "Design, technical, and behavioral"])

  const MetaFacebookQuestions: seq<string> := [
    "How would you design a social media feature?",
    "Tell me about a time you had to scale a system",
    "How do you handle user privacy concerns?",
    "What's your experience with React?",
    "How do you approach rapid prototyping?",
    "Tell me about a time you had to make a quick decision"]

  const MetaFacebookAnswers: seq<string> := [
    "I'd start with user research, design the feature, and iterate based on user feedback...",
    "I identified bottlenecks, implemented caching, and used horizontal scaling techniques...",
    "I prioritize user privacy by implementing proper data handling and security measures...",
    "I have extensive experience with React, including hooks, context, and performance optimization...",
    "I use rapid prototyping tools and focus on core functionality first...",
    "I gathered available information, made the best decision possible, and iterated based on results..."]

  const MetaFacebookPrep: CompanyPrep := CompanyPrep(
    5, "Meta (Facebook)", "\U{1F4D8}", "from-blue-600 to-blue-700",
    "Focus on scale, social impact, and rapid iteration. Meta values moving fast and breaking things.",
    MetaFacebookQuestions,
    MetaFacebookAnswers,
    [
      "Research Meta's products and culture",
      "Show passion for social impact",
      "Demonstrate ability to move fast",
      "Prepare for React-specific questions",
      "Focus on scale and performance",
      "Understand social media challenges"],
    [
      "Phone screen",
      "Technical phone interview",
      "Onsite interviews (4-5 rounds)",
      "Coding, system design, and behavioral"])

  const NetflixQuestions: seq<string> := [
    "How do you handle freedom and responsibility?",
    "Tell me about a time you had to make a data-driven decision",
    "How do you approach performance optimization?",
    "What's your experience with microservices?",
    "How do you handle ambiguity?",
    "Tell me about a time you had to innovate"]

  const NetflixAnswers: seq<string> := [
    "I take ownership of my work, make informed decisions, and hold myself accountable for results...",
    "I analyzed user data, identified patterns, and made recommendations based on evidence...",
    "I profile the system, identify bottlenecks, and implement targeted optimizations...",
    "I have experience designing and implementing microservices with proper communication patterns...",
    "I break down complex problems, gather information, and make the best decision possible...",
    "I identified an opportunity, proposed a solution, and successfully implemented it..."]

  const NetflixPrep: CompanyPrep := CompanyPrep(
    6, "Netflix", "\U{1F3AC}", "from-red-500 to-red-600",
    "Focus on freedom and responsibility, high performance, and data-driven decisions. Netflix values autonomy.",
    NetflixQuestions,
    NetflixAnswers,
    [
      "Research Netflix's culture and values",
      "Show autonomy and responsibility",
      "Demonstrate data-driven thinking",
      "Prepare for performance questions",
      "Focus on innovation and creativity",
      "Understand streaming technology"],
    [
      "Phone screen",
      "Technical interview",
      "Onsite interviews (3-4 rounds)",
      "Technical, behavioral, and culture fit"])

  const DeloitteQuestions: seq<string> := [
    "How would you approach a client problem with limited information?",
    "Tell me about a time you had to influence without authority",
    "How do you handle ambiguity in projects?",
    "What's your experience with data analysis?",
    "How do you build client relationships?",
    "Tell me about a time you had to present to senior stakeholders"]

  const DeloitteAnswers: seq<string> := [
    "I would start by asking clarifying questions, conducting research, and developing a structured approach...",
    "I built relationships, presented compelling data, and focused on mutual benefits to gain buy-in...",
    "I break down complex problems, create clear milestones, and maintain open communication...",
    "I have experience with Excel, SQL, and visualization tools to derive insights from data...",
    "I listen actively, understand their needs, and deliver value consistently...",
    "I prepared thoroughly, focused on key messages, and adapted to their feedback..."]

  const DeloittePrep: CompanyPrep := CompanyPrep(
    7, "Deloitte", "\U{1F3E2}", "from-green-600 to-green-700",
    "Focus on consulting skills, business acumen, and client relationships. Deloitte values analytical thinking and communication.",
    DeloitteQuestions,
    DeloitteAnswers,
    [
      "Practice case studies and frameworks",
      "Show strong communication skills",
      "Demonstrate analytical thinking",
      "Research Deloitte's service offerings",
      "Focus on client-centric approach",
      "Prepare for consulting-specific questions"],
    [
      "Initial phone screen",
      "Case study interview",
      "Behavioral interview",
      "Partner interview"])

  const MckinseyQuestions: seq<string> := [
    "How would you estimate the market size for electric vehicles?",
    "Tell me about a time you had to work with incomplete data",
    "How do you approach ambiguous problems?",
    "What's your experience with Excel and PowerPoint?",
    "How do you handle client relationships?",
    "Tell me about a time you had to influence senior leaders"]

  const MckinseyAnswers: seq<string> := [
    "I'd use a top-down approach: total cars sold annually, penetration rate, and average price...",
    "I identified what data was available, made reasonable assumptions, and validated with stakeholders...",
    "I break down the problem, identify key drivers, and develop a structured hypothesis...",
    "I'm proficient with advanced Excel functions, pivot tables, and creating compelling presentations...",
    "I build trust through consistent delivery, clear communication, and understanding their needs...",
    "I presented compelling data, focused on their priorities, and demonstrated clear value..."]

  const MckinseyPrep: CompanyPrep := CompanyPrep(
    8, "McKinsey", "\U{1F4CA}", "from-blue-600 to-blue-700",
    "Focus on problem-solving frameworks, quantitative skills, and structured thinking. McKinsey values intellectual curiosity.",
    MckinseyQuestions,
    MckinseyAnswers,
    [
      "Practice mental math and estimation",
      "Learn consulting frameworks (MECE, etc.)",
      "Show structured thinking",
      "Demonstrate intellectual curiosity",
      "Focus on quantitative skills",
      "Prepare for case study questions"],
    [
      "Online assessment",
      "First round case interview",
      "Second round case interview",
      "Final round with partners"])

  const GoldmanSachsQuestions: seq<string> := [
    "How do you handle financial risk?",
    "Tell me about a time you had to analyze complex data",
    "What's your experience with financial modeling?",
    "How do you stay updated with market trends?",
    "Tell me about a time you had to work under pressure",
    "How do you approach regulatory compliance?"]

  const GoldmanSachsAnswers: seq<string> := [
    "I assess risk systematically, implement controls, and monitor outcomes continuously...",
    "I used statistical analysis, identified patterns, and presented clear insights to stakeholders...",
    "I have experience building financial models in Excel, including DCF and sensitivity analysis...",
    "I follow financial news, attend industry events, and analyze market data regularly...",
    "I prioritize tasks, maintain focus, and deliver high-quality results under tight deadlines...",
    "I stay informed about regulations, implement proper controls, and maintain documentation..."]

  const GoldmanSachsPrep: CompanyPrep := CompanyPrep(
    9, "Goldman Sachs", "\U{1F4B0}", "from-yellow-500 to-yellow-600",
    "Focus on financial knowledge, risk management, and analytical skills. Goldman Sachs values precision and attention to detail.",
    GoldmanSachsQuestions,
    GoldmanSachsAnswers,
    [
      "Research financial markets and products",
      "Show strong analytical skills",
      "Demonstrate attention to detail",
      "Prepare for financial modeling questions",
      "Focus on risk management",
      "Understand regulatory environment"],
    [
      "Phone screen",
      "Technical interview",
      "Superday (multiple interviews)",
      "Technical, behavioral, and case studies"])

  const JpMorganQuestions: seq<string> := [
    "How do you approach financial technology?",
    "Tell me about a time you had to work with legacy systems",
    "What's your experience with cybersecurity?",
    "How do you handle regulatory requirements?",
    "Tell me about a time you had to innovate",
    "How do you build trust with clients?"]

  const JpMorganAnswers: seq<string> := [
    "I focus on user needs, implement robust security, and ensure regulatory compliance...",
    "I analyzed the existing system, planned the migration carefully, and minimized disruption...",
    "I implement security best practices, conduct regular audits, and stay updated with threats...",
    "I stay informed about regulations, implement proper controls, and maintain documentation...",
    "I identified an opportunity, proposed a solution, and successfully implemented it...",
    "I deliver consistent value, communicate clearly, and always act with integrity..."]

  const JpMorganPrep: CompanyPrep := CompanyPrep(
    10, "JP Morgan", "\U{1F3E6}", "from-blue-700 to-blue-800",
    "Focus on financial services, technology innovation, and client relationships. JP Morgan values integrity and excellence.",
    JpMorganQuestions,
    JpMorganAnswers,
    [
      "Research JP Morgan's business lines",
      "Show understanding of financial services",
      "Demonstrate technology expertise",
      "Prepare for regulatory questions",
      "Focus on client-centric approach",
      "Understand banking technology"],
    [
      "Phone screen",
      "Technical interview",
      "Onsite interviews (3-4 rounds)",
      "Technical, behavioral, and case studies"])
}
