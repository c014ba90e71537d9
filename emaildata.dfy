/** The page's email templates as data, and what the job-decline template does with
    its `[DECLINE_REASON]` field. */
module EmailTemplateData {
  import opened Text
  import opened Collections
  import opened EmailDrafting

  /** The parts before, at and after the decline reason hold no '['. */
  lemma DeclineOpeningAvoidsOpen()
    ensures PartsAvoidOpen(JobDeclineParts, 0, 6)
  {
  }

  lemma DeclineReasonAvoidsOpen()
    ensures PartsAvoidOpen(JobDeclineParts, 6, 7)
  {
    DeclineGuidanceAvoidsOpen();
    DeclineTailAvoidsOpen();
    ChunksAvoidOpenAppend(DeclineReasonGuidance, DeclineReasonTail);
    assert JobDeclineParts[6] == DeclineReasonGuidance + DeclineReasonTail;
    PartAvoidsOpen(JobDeclineParts, 6);
  }

  lemma DeclineGuidanceAvoidsOpen()
    ensures ChunksAvoidOpen(DeclineReasonGuidance)
  {
  }

  lemma DeclineTailAvoidsOpen()
    ensures ChunksAvoidOpen(DeclineReasonTail)
  {
  }

  lemma DeclineClosingAvoidsOpen()
    ensures PartsAvoidOpen(JobDeclineParts, 7, |JobDeclineParts|)
  {
  }

  /** Where each part after the first stops matching the rest of the key. */
  lemma DeclineFirstChunks()
    ensures forall j :: 1 <= j < |JobDeclineParts| && j != 6 ==>
              |JobDeclineParts[j]| > 0 && |JobDeclineParts[j][0]| > 0 &&
              JobDeclineParts[j][0][0] != 'D'
    ensures |JobDeclineParts| > 6 && |JobDeclineParts[6]| > 0 &&
            |JobDeclineParts[6][0]| > 14 && JobDeclineParts[6][0][14] != ']'
  {
  }

  /** No '[' inside a part of the decline text, and no part begins with the rest of the
      `[DECLINE_REASON]` key. */
  lemma DeclinePartsSpec()
    ensures forall j :: 0 <= j < |JobDeclineParts| ==> '[' !in Concats(JobDeclineParts)[j]
    ensures forall j :: 1 <= j < |JobDeclineParts| ==>
              !IsPrefix(DeclineReasonKey[1..], Concats(JobDeclineParts)[j])
  {
    var parts := JobDeclineParts;
    DeclineOpeningAvoidsOpen();
    DeclineReasonAvoidsOpen();
    DeclineClosingAvoidsOpen();
    forall j | 0 <= j < |parts| ensures '[' !in Concats(parts)[j] {
      ConcatAvoids(parts[j], '[');
    }
    var w := DeclineReasonKey[1..];
    assert w == "DECLINE_REASON]";
    DeclineFirstChunks();
    forall j | 1 <= j < |parts| ensures !IsPrefix(w, Concats(parts)[j]) {
      ConcatNotPrefix(w, parts[j], if j == 6 then 14 else 0);
    }
  }

  /** As written, the job-decline template never contains its `[DECLINE_REASON]` key: the
      text has `[DECLINE_REASON - …]` instead. Filling that field leaves the text as it
      is. */
  lemma DeclineReasonInert(value: string)
    ensures DeclineReasonKey in JobDecline.placeholders
    ensures !Contains(JobDecline.text, DeclineReasonKey)
    ensures Substitute(JobDecline.text, [(DeclineReasonKey, value)]) == JobDecline.text
  {
    DeclinePartsSpec();
    assert DeclineReasonKey[0] == '[';
    assert '[' !in DeclineReasonKey[1..];
    NoKeyInJoin(Concats(JobDeclineParts), '[', DeclineReasonKey);
    ReplaceAbsent(JobDecline.text, DeclineReasonKey, value);
  }

  /** The decline template with the placeholder written as its key, the guidance text
      dropped. */
  const CorrectedDeclineParts: seq<seq<string>> :=
    JobDeclineParts[6 := ["DECLINE_REASON]"] + DeclineReasonTail]

  const CorrectedJobDecline: Template := JobDecline.(text := Assemble(CorrectedDeclineParts))

  /** Corrected, the key occurs in the text, and entering a reason after any other
      fields puts the reason into the preview. */
  lemma CorrectedDeclineFills(fields: Fields, value: string)
    requires PlaceholderKeys(fields) && DeclineReasonKey !in FieldKeys(fields)
    ensures Contains(CorrectedJobDecline.text, DeclineReasonKey)
    ensures KeysNonEmpty(SetField(fields, DeclineReasonKey, value))
    ensures Contains(Substitute(CorrectedJobDecline.text, SetField(fields, DeclineReasonKey, value)), value)
  {
    var parts := Concats(CorrectedDeclineParts);
    ConcatPrefix("DECLINE_REASON]", CorrectedDeclineParts[6]);
    JoinPartPrefix(parts, '[', 6, "DECLINE_REASON]");
    assert ['['] + "DECLINE_REASON]" == DeclineReasonKey;
    assert Placeholder(DeclineReasonKey);
    FilledKeyShowsValue(CorrectedJobDecline.text, fields, DeclineReasonKey, value);
  }

  // ---------------------------------------------------------------------------
  // Template data

  /** The text of the `cover-letter` template. */
  const CoverLetterParts: seq<seq<string>> := [
    ["Dear "],
    ["HIRING_MANAGER],", "\n\nI am writing t", "o express my str", "ong interest in ",
     "the "],
    ["POSITION] role a", "t "],
    ["COMPANY]. With m", "y background in "],
    ["FIELD] and "],
    ["YEARS] years of ", "experience, I am", " excited about t", "he opportunity t",
     "o contribute to ", "your team.\n\nIn m", "y previous role ", "at "],
    ["PREVIOUS_COMPANY", "], I "],
    ["ACHIEVEMENT_1]. ", "This experience ", "has equipped me ", "with "],
    ["SKILL_1] and "],
    ["SKILL_2], which ", "I believe align ", "perfectly with y", "our requirements",
     ".\n\nWhat particul", "arly attracts me", " to "],
    ["COMPANY] is "],
    ["COMPANY_REASON].", " I am impressed ", "by "],
    ["SPECIFIC_DETAIL]", " and would love ", "to be part of a ", "team that "],
    ["COMPANY_VALUE].\n", "\nKey highlights ", "of my qualificat", "ions include:\n• "],
    ["QUALIFICATION_1]", "\n• "],
    ["QUALIFICATION_2]", "  \n• "],
    ["QUALIFICATION_3]", "\n\nI would welcom", "e the opportunit", "y to discuss how",
     " my skills and p", "assion can contr", "ibute to "],
    ["COMPANY]'s conti", "nued success. Th", "ank you for cons", "idering my appli",
     "cation.\n\nBest re", "gards,\n"],
    ["YOUR_NAME]"]
  ]

  const CoverLetter: Template := Template("cover-letter", "Cover Letter", "Application", Assemble(CoverLetterParts),
    ["[HIRING_MANAGER]", "[POSITION]", "[COMPANY]", "[FIELD]", "[YEARS]", "[PREVIOUS_COMPANY]", "[ACHIEVEMENT_1]", "[SKILL_1]", "[SKILL_2]", "[COMPANY_REASON]", "[SPECIFIC_DETAIL]", "[COMPANY_VALUE]", "[QUALIFICATION_1]", "[QUALIFICATION_2]", "[QUALIFICATION_3]", "[YOUR_NAME]"])

  /** The text of the `follow-up-application` template. */
  const ApplicationFollowUpParts: seq<seq<string>> := [
    ["Subject: Followi", "ng up on "],
    ["POSITION] Applic", "ation - "],
    ["YOUR_NAME]\n\nDear", " "],
    ["HIRING_MANAGER],", "\n\nI hope this em", "ail finds you we", "ll. I am writing",
     " to follow up on", " my application ", "for the "],
    ["POSITION] role a", "t "],
    ["COMPANY], which ", "I submitted on "],
    ["DATE].\n\nI remain", " very interested", " in this opportu", "nity and believe",
     " my "],
    ["KEY_SKILL] exper", "ience would be v", "aluable to your ", "team. Since subm",
     "itting my applic", "ation, I have "],
    ["RECENT_ACHIEVEME", "NT], which furth", "er strengthens m", "y candidacy.\n\nI ",
     "understand you l", "ikely receive ma", "ny applications ", "and appreciate t",
     "he time needed f", "or review. If th", "ere are any addi", "tional materials",
     " or information ", "I can provide to", " support my cand", "idacy, please le",
     "t me know.\n\nI wo", "uld be happy to ", "schedule a brief", " call to discuss",
     " how I can contr", "ibute to "],
    ["COMPANY]'s "],
    ["SPECIFIC_GOAL]. ", "Thank you for yo", "ur time and cons", "ideration.\n\nBest",
     " regards,\n"],
    ["YOUR_NAME]\n"],
    ["PHONE_NUMBER]\n"],
    ["EMAIL]"]
  ]

  const ApplicationFollowUp: Template := Template("follow-up-application", "Application Follow-up", "Follow-up", Assemble(ApplicationFollowUpParts),
    ["[POSITION]", "[YOUR_NAME]", "[HIRING_MANAGER]", "[COMPANY]", "[DATE]", "[KEY_SKILL]", "[RECENT_ACHIEVEMENT]", "[SPECIFIC_GOAL]", "[PHONE_NUMBER]", "[EMAIL]"])

  /** The text of the `networking-cold-outreach` template. */
  const NetworkingOutreachParts: seq<seq<string>> := [
    ["Subject: "],
    ["MUTUAL_CONNECTIO", "N] suggested I r", "each out\n\nHello "],
    ["CONTACT_NAME],\n\n", "I hope this mess", "age finds you we", "ll. "],
    ["MUTUAL_CONNECTIO", "N] suggested I r", "each out to you ", "when I mentioned",
     " my interest in "],
    ["INDUSTRY/FIELD].", "\n\nI am a "],
    ["YOUR_ROLE] with "],
    ["YEARS] years of ", "experience in "],
    ["YOUR_FIELD]. I'm", " particularly in", "terested in "],
    ["SPECIFIC_AREA] a", "nd have been fol", "lowing "],
    ["COMPANY]'s work ", "in this space.\n\n", "I would love to ", "learn more about",
     " your experience", " at "],
    ["COMPANY] and you", "r insights into "],
    ["SPECIFIC_TOPIC].", " If you have 15-", "20 minutes for a", " brief coffee ch",
     "at or phone call", " in the coming w", "eeks, I would gr", "eatly appreciate",
     " it.\n\nI understa", "nd you're busy, ", "so if now isn't ", "a good time, ple",
     "ase feel free to", " suggest a bette", "r time that work", "s for you.\n\nThan",
     "k you for consid", "ering my request", ".\n\nBest regards,", "\n"],
    ["YOUR_NAME]\n"],
    ["YOUR_TITLE]\n"],
    ["PHONE_NUMBER]\n"],
    ["EMAIL]"]
  ]

  const NetworkingOutreach: Template := Template("networking-cold-outreach", "Networking Outreach", "Networking", Assemble(NetworkingOutreachParts),
    ["[MUTUAL_CONNECTION]", "[CONTACT_NAME]", "[INDUSTRY/FIELD]", "[YOUR_ROLE]", "[YEARS]", "[YOUR_FIELD]", "[SPECIFIC_AREA]", "[COMPANY]", "[SPECIFIC_TOPIC]", "[YOUR_NAME]", "[YOUR_TITLE]", "[PHONE_NUMBER]", "[EMAIL]"])

  /** The text of the `interview-thank-you` template. */
  const InterviewThankYouParts: seq<seq<string>> := [
    ["Subject: Thank y", "ou for today's i", "nterview - "],
    ["POSITION]\n\nDear "],
    ["INTERVIEWER_NAME", "],\n\nThank you fo", "r taking the tim", "e to meet with m",
     "e today to discu", "ss the "],
    ["POSITION] role a", "t "],
    ["COMPANY]. I enjo", "yed our conversa", "tion about "],
    ["SPECIFIC_TOPIC] ", "and learning mor", "e about "],
    ["TEAM/PROJECT].\n\n", "Our discussion r", "einforced my ent", "husiasm for this",
     " opportunity. I'", "m particularly e", "xcited about "],
    ["SPECIFIC_ASPECT]", " and how I could", " contribute with", " my experience i",
     "n "],
    ["RELEVANT_EXPERIE", "NCE].\n\nI wanted ", "to follow up on "],
    ["QUESTION/TOPIC] ", "that came up dur", "ing our conversa", "tion. "],
    ["ADDITIONAL_INFO]", "\n\nPlease let me ", "know if you need", " any additional ",
     "information from", " me. I look forw", "ard to the next ", "steps in the pro",
     "cess.\n\nThank you", " again for your ", "time and conside", "ration.\n\nBest re",
     "gards,\n"],
    ["YOUR_NAME]"]
  ]

  const InterviewThankYou: Template := Template("interview-thank-you", "Interview Thank You", "Follow-up", Assemble(InterviewThankYouParts),
    ["[INTERVIEWER_NAME]", "[POSITION]", "[COMPANY]", "[SPECIFIC_TOPIC]", "[TEAM/PROJECT]", "[SPECIFIC_ASPECT]", "[RELEVANT_EXPERIENCE]", "[QUESTION/TOPIC]", "[ADDITIONAL_INFO]", "[YOUR_NAME]"])

  /** The text of the `linkedin-connection` template. */
  const LinkedInConnectionParts: seq<seq<string>> := [
    ["Hi "],
    ["CONTACT_NAME],\n\n", "I'd love to conn", "ect with you! I "],
    ["CONNECTION_REASO", "N] and was impre", "ssed by your wor", "k in "],
    ["FIELD/AREA].\n\nI'", "m a "],
    ["YOUR_ROLE] with ", "experience in "],
    ["YOUR_EXPERTISE].", " I'd be interest", "ed in "],
    ["MUTUAL_INTEREST]", ".\n\nBest regards,", "\n"],
    ["YOUR_NAME]"]
  ]

  const LinkedInConnection: Template := Template("linkedin-connection", "LinkedIn Connection Request", "Networking", Assemble(LinkedInConnectionParts),
    ["[CONTACT_NAME]", "[CONNECTION_REASON]", "[FIELD/AREA]", "[YOUR_ROLE]", "[YOUR_EXPERTISE]", "[MUTUAL_INTEREST]", "[YOUR_NAME]"])

  /** The text of the `salary-negotiation` template. */
  const SalaryNegotiationParts: seq<seq<string>> := [
    ["Subject: "],
    ["POSITION] Offer ", "Discussion\n\nDear", " "],
    ["HIRING_MANAGER],", "\n\nThank you for ", "extending the of", "fer for the "],
    ["POSITION] role a", "t "],
    ["COMPANY]. I'm ex", "cited about the ", "opportunity to j", "oin your team an",
     "d contribute to "],
    ["COMPANY_GOAL].\n\n", "After careful co", "nsideration of t", "he offer and res",
     "earch into marke", "t rates for simi", "lar positions, I", " would like to d",
     "iscuss the compe", "nsation package.", " Based on my "],
    ["YEARS] years of ", "experience in "],
    ["FIELD] and my tr", "ack record of "],
    ["ACHIEVEMENT], I ", "believe a salary", " of "],
    ["DESIRED_SALARY] ", "would be more al", "igned with marke", "t standards and ",
     "the value I can ", "bring to the rol", "e.\n\n"],
    ["ADDITIONAL_JUSTI", "FICATION]\n\nI'm o", "pen to discussin", "g the complete c",
     "ompensation pack", "age, including "],
    ["OTHER_BENEFITS].", " I remain very e", "nthusiastic abou", "t joining "],
    ["COMPANY] and am ", "confident we can", " reach a mutuall", "y beneficial agr",
     "eement.\n\nI would", " appreciate the ", "opportunity to d", "iscuss this furt",
     "her. Thank you f", "or your understa", "nding.\n\nBest reg", "ards,\n"],
    ["YOUR_NAME]"]
  ]

  const SalaryNegotiation: Template := Template("salary-negotiation", "Salary Negotiation", "Negotiation", Assemble(SalaryNegotiationParts),
    ["[POSITION]", "[HIRING_MANAGER]", "[COMPANY]", "[COMPANY_GOAL]", "[YEARS]", "[FIELD]", "[ACHIEVEMENT]", "[DESIRED_SALARY]", "[ADDITIONAL_JUSTIFICATION]", "[OTHER_BENEFITS]", "[YOUR_NAME]"])

  /** The text of the `job-decline` template. */
  const JobDeclineParts: seq<seq<string>> := [
    ["Subject: "],
    ["POSITION] Offer ", "- "],
    ["YOUR_NAME]\n\nDear", " "],
    ["HIRING_MANAGER],", "\n\nThank you for ", "offering me the "],
    ["POSITION] role a", "t "],
    ["COMPANY]. I appr", "eciate the time ", "you and your tea", "m invested in th",
     "e interview proc", "ess and the conf", "idence you've sh", "own in my abilit",
     "ies.\n\nAfter care", "ful consideratio", "n, I have decide", "d to decline the",
     " offer. "],
    DeclineReasonGuidance + DeclineReasonTail,
    ["POSITIVE_ASPECT]", " and the "],
    ["TEAM/CULTURE]. I", " hope our paths ", "may cross again ", "in the future.\n\n",
     "Thank you again ", "for this opportu", "nity. I wish you", " and the team al",
     "l the best in fi", "nding the right ", "candidate for th", "is role.\n\nBest r",
     "egards,\n"],
    ["YOUR_NAME]"]
  ]

  const JobDecline: Template := Template("job-decline", "Job Offer Decline", "Professional", Assemble(JobDeclineParts),
    ["[POSITION]", "[YOUR_NAME]", "[HIRING_MANAGER]", "[COMPANY]", "[DECLINE_REASON]", "[POSITIVE_ASPECT]", "[TEAM/CULTURE]"])

  /** The text of the `referral-request` template. */
  const ReferralRequestParts: seq<seq<string>> := [
    ["Subject: Referra", "l Request for "],
    ["POSITION] at "],
    ["COMPANY]\n\nHi "],
    ["CONTACT_NAME],\n\n", "I hope you're do", "ing well! I saw ", "that "],
    ["COMPANY] has an ", "opening for a "],
    ["POSITION] role, ", "and I'm very int", "erested in apply", "ing. \n\nGiven you",
     "r experience at "],
    ["COMPANY], I was ", "wondering if you", " might be able t", "o provide some i",
     "nsights about th", "e role and team.", " I have "],
    ["YEARS] years of ", "experience in "],
    ["FIELD] and have ", "worked on "],
    ["RELEVANT_EXPERIE", "NCE].\n\nIf you fe", "el comfortable d", "oing so, would y",
     "ou be willing to", " refer me for th", "is position? I u", "nderstand this i",
     "s asking a favor", ", and I want to ", "make sure my bac", "kground aligns w",
     "ell with what th", "e team is lookin", "g for.\n\nI've att", "ached my resume ",
     "for your review.", " If you think I'", "d be a good fit,", " I'd be grateful",
     " for a referral.", " If not, I compl", "etely understand", " and would still",
     " appreciate any ", "advice you might", " have.\n\nThanks f", "or considering t",
     "his, and I hope ", "we can catch up ", "soon!\n\nBest,\n"],
    ["YOUR_NAME]"]
  ]

  const ReferralRequest: Template := Template("referral-request", "Employee Referral Request", "Networking", Assemble(ReferralRequestParts),
    ["[CONTACT_NAME]", "[POSITION]", "[COMPANY]", "[YEARS]", "[FIELD]", "[RELEVANT_EXPERIENCE]", "[YOUR_NAME]"])

  /** The decline reason as the template writes it: guidance inside the brackets. */
  const DeclineReasonGuidance: seq<string> :=
    ["DECLINE_REASON -", " this was a diff", "icult decision, ", "but I have accep",
     "ted another oppo", "rtunity that ali", "gns more closely", " with my current",
     " career goals / ", "I have decided t", "o pursue a diffe", "rent direction a",
     "t this time]"]

  /** What follows the reason up to the next placeholder. */
  const DeclineReasonTail: seq<string> := [".\n\nI was impress", "ed by "]

  /** `emailTemplates`, in page order, with the job-decline text as the page has it
      (`CorrectedJobDecline` is the intended text, kept apart). */
  const EmailTemplates: seq<Template> := [
    CoverLetter, ApplicationFollowUp, NetworkingOutreach, InterviewThankYou,
    LinkedInConnection, SalaryNegotiation, JobDecline, ReferralRequest
  ]

  /** The page's templates give the category bar 'All' followed by the five categories
      in order of first use. */
  lemma EmailTemplatesCategories()
    ensures Categories(EmailTemplates) ==
            ["All", "Application", "Follow-up", "Networking", "Negotiation", "Professional"]
  {
    EightCategories(CoverLetter, ApplicationFollowUp, NetworkingOutreach, InterviewThankYou,
                    LinkedInConnection, SalaryNegotiation, JobDecline, ReferralRequest);
    PageCategories(EmailTemplates);
  }

  lemma EightCategories(t0: Template, t1: Template, t2: Template, t3: Template,
                        t4: Template, t5: Template, t6: Template, t7: Template)
    requires [t0.category, t1.category, t2.category, t3.category,
              t4.category, t5.category, t6.category, t7.category] == PageCategoryNames
    ensures CategoryNames([t0, t1, t2, t3, t4, t5, t6, t7]) == PageCategoryNames
  {
  }
}
