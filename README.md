# Career tools pages — a Dafny model

This project models the logic behind the interactive pages of a career-tools web
application. Each page keeps its state in the browser and changes it through event
handlers.

- **Application tracker.** A list of job-application records. It supports adding,
  updating by id, deleting by id, a status and search filter, the dashboard statistics
  (status counts, response and offer rates, applications per company, top five
  companies), the CSV export, and the detail modal that appends interviews and
  follow-ups.
- **Email drafting.** A gallery of email templates with a category menu, a
  category filter, and a placeholder form. Each edit stores the value for one
  placeholder and rebuilds the email by replacing every occurrence of every filled
  placeholder in the template text.
- **Career questionnaire.** A five-step questionnaire, the seven rules that turn the
  answers into recommended career paths (three defaults when no rule fires), the story
  shown for an answer, and the job platforms shown for the recommended paths.
- **CV generator.** The CV form: per-field edits, skills split on commas, added
  experience and education entries, and the generated markdown CV. It also covers
  the keyword analyser: found and missing keywords, the ATS score, suggestions, and
  keyword density.
- **CV checker.** The upload, analyse and reset flow, the tabs, and the template
  gallery with its company and college listings. It also covers the plain-text CV
  that the copy button produces from a template.
- **Mentorship directory.** The fetched mentors ordered featured-first, the search and
  specialty filter, the specialty menu, and the results line.
- **Interview preparation.** The company cards and the mock-interview stepper over a
  company's questions and sample answers.

Two modules model the JavaScript built-ins these pages use:
- `Text`: `toLowerCase`, `includes`, `split`/`join`, global literal `replace`, `trim`.
- `Collections`: `filter`, the `Set` dedup that keeps first occurrences, subsequences.

Pure computations are functions with lemmas. Each page's component state is a class
whose methods are the handlers, and each method states the page's whole new state.
Page data lives in separate modules: `CareerData`, `CvKeywordData`, `CvTemplateData`,
`InterviewData` and `EmailTemplateData`.

## Model

| member | source | states |
|---|---|---|
| Text.Lower | src/app/mentorship/page.tsx:89-93 | `toLowerCase` keeps the length and lower-cases each character |
| Text.LowerIdempotent | src/app/mentorship/page.tsx:89-93 | lower-casing an already lower-cased string changes nothing |
| Text.ContainsIff | src/app/application-tracker/page.tsx:107-108 | `includes` holds exactly when the key occurs at some position |
| Text.CountZeroIffAbsent | src/app/cv-generator/page.tsx:285-287 | a non-empty key is counted zero times exactly when it does not occur |
| Text.PiecesJoin | src/app/cv-generator/page.tsx:161 | joining the `split` pieces with the separator gives the text back, with another value gives the global replacement, and there is one piece more than occurrences |
| Text.PiecesAvoidSeparator | src/app/cv-generator/page.tsx:161 | no piece of a `split` contains the separator |
| Text.PiecesOfJoin | src/app/application-tracker/page.tsx:462-463 | splitting a join of parts free of the one-character separator gives the parts back |
| Text.ReplaceAbsent | src/app/email-drafting/page.tsx:377 | replacing a key that does not occur leaves the text unchanged |
| Text.ReplaceLength | src/app/email-drafting/page.tsx:377 | the replaced text grows by `|value| - |key|` per occurrence |
| Text.FillInsertsValue | src/app/email-drafting/page.tsx:377 | replacing a key that occurs makes the value occur |
| Text.TrimSpec | src/app/cv-checker/page.tsx:451 | `trim` gives a middle slice with only whitespace cut at both ends and no whitespace at its ends |
| Text.TrimEmptyIff | src/app/cv-generator/page.tsx:248 | the trimmed text is empty exactly when the text is all whitespace |
| Text.TrimKeeps | src/app/cv-checker/page.tsx:451 | a slice between two non-whitespace characters survives the trim |
| Text.TrimDropsWhitespaceTail | src/app/cv-checker/page.tsx:449-451 | trailing whitespace does not change the trimmed text |
| Collections.FilterMembership | src/app/application-tracker/page.tsx:105 | an element is kept by `filter` exactly when it is in the list and passes |
| Collections.FilterIsSubsequence | src/app/application-tracker/page.tsx:105 | `filter` keeps the order of the kept elements |
| Collections.FilterPartition | src/app/application-tracker/page.tsx:102 | filtering by a predicate and by its negation splits the list (as a multiset) |
| Collections.FilterKeepsAll | src/app/email-drafting/page.tsx:359-361 | `filter` keeps the whole list exactly when every element passes |
| Collections.FilterIdempotent | src/app/mentorship/page.tsx:88 | filtering twice by the same predicate is filtering once |
| Collections.FindFirst | src/app/jobs/page.tsx:584-585 | `find` gives the element at the first index that passes, so a later element that also passes is never returned |
| Collections.DedupSpec | src/app/email-drafting/page.tsx:357 | the `Set` dedup has no repeats, the same elements, and keeps first-occurrence order |
| ApplicationTracker.PatchLaws | src/app/application-tracker/page.tsx:95-96 | a patch with no key only refreshes `lastUpdated`; applying a patch twice is applying it once |
| ApplicationTracker.SaveReplacesRecord | src/app/application-tracker/page.tsx:954-957 | saving the edit form replaces every field of the record by the edited one, with a new timestamp |
| ApplicationTracker.UpdateByIdSpec | src/app/application-tracker/page.tsx:93-99 | the records with the id are patched and stamped, every other record is unchanged, the length is kept |
| ApplicationTracker.DeleteByIdSpec | src/app/application-tracker/page.tsx:101-103 | a record remains exactly when it was there and has another id, in the old order |
| ApplicationTracker.DeleteByIdPartition | src/app/application-tracker/page.tsx:101-103 | the kept and the removed records together are the old list |
| ApplicationTracker.Store.constructor | src/app/application-tracker/page.tsx:63 | the tracker starts with no application |
| ApplicationTracker.Store.AddApplication | src/app/application-tracker/page.tsx:83-91 | the new record, with the given id and timestamp, is put in front of the old list |
| ApplicationTracker.Store.UpdateApplication | src/app/application-tracker/page.tsx:93-99 | the list becomes the by-id update of the old list; records with another id are unchanged |
| ApplicationTracker.Store.DeleteApplication | src/app/application-tracker/page.tsx:101-103 | the list becomes the by-id deletion of the old list and no record has the id |
| ApplicationTracker.Store.AddInterview | src/app/application-tracker/page.tsx:959-971 | the interview is appended to the current record with the id (corrected form, see Findings) |
| ApplicationTracker.Store.AddFollowUp | src/app/application-tracker/page.tsx:973-984 | the follow-up is appended to the current record with the id (corrected form, see Findings) |
| ApplicationTracker.AddSpec | src/app/application-tracker/page.tsx:83-91 | adding grows the list by one, with the new record first, carrying the id and timestamp, and the old records after it |
| ApplicationTracker.AppendInterviewSpec | src/app/application-tracker/page.tsx:959-971 | the records with the id gain the interview at the end and a new timestamp; the others are unchanged |
| ApplicationTracker.AppendFollowUpSpec | src/app/application-tracker/page.tsx:973-984 | the records with the id gain the follow-up at the end and a new timestamp; the others are unchanged |
| ApplicationTracker.SnapshotAddLosesInterview | src/app/application-tracker/page.tsx:959-971 | as written, a second interview added from the same modal snapshot overwrites the first |
| ApplicationTracker.SnapshotAddLosesFollowUp | src/app/application-tracker/page.tsx:973-984 | as written, a second follow-up added from the same modal snapshot overwrites the first |
| ApplicationTracker.SnapshotAddExample | src/app/application-tracker/page.tsx:959-971 | a concrete record for which the first of two added interviews is lost |
| ApplicationTracker.AppendInterviewKeepsBoth | src/app/application-tracker/page.tsx:959-971 | appending to the current record keeps both interviews, in order |
| ApplicationTracker.AppendFollowUpKeepsBoth | src/app/application-tracker/page.tsx:973-984 | appending to the current record keeps both follow-ups, in order |
| ApplicationTracker.FilteredSpec | src/app/application-tracker/page.tsx:105-110 | a record is shown exactly when its status matches (or the filter is 'all') and the lower-cased term occurs in its company or position; order is kept; 'all' with no term shows everything |
| ApplicationTracker.StatusCountsSum | src/app/application-tracker/page.tsx:113-119 | the six status counts add up to the total |
| ApplicationTracker.RatesDefined | src/app/application-tracker/page.tsx:120-121 | each rate is zero exactly when its denominator is zero, and is otherwise a ratio of at most one |
| ApplicationTracker.CompanyCountPositive | src/app/application-tracker/page.tsx:138-141 | a company has a positive count exactly when some application names it |
| ApplicationTracker.EntryIndex | src/app/application-tracker/page.tsx:139 | the index of the first entry for the company, or the entry count when there is none |
| ApplicationTracker.CompanyStats | src/app/application-tracker/page.tsx:138-142 | the entries are the first-seen tally listed in `Object.entries` order; every company has one entry holding its number of applications, and the counts add up to the number of applications |
| ApplicationTracker.ObjectEntriesSpec | src/app/application-tracker/page.tsx:142 | `Object.entries` lists the same entries: array-index keys first, by ascending number, then the other keys in insertion order |
| ApplicationTracker.ObjectEntriesKeepStats | src/app/application-tracker/page.tsx:138-142 | listing the tally in property order keeps every company, every count and the total |
| ApplicationTracker.TallyIsFirstSeen | src/app/application-tracker/page.tsx:138-141 | the reduction's tally is each company once, in first-seen order, with its count |
| ApplicationTracker.IndexNamedCompanyFirst | src/app/application-tracker/page.tsx:138-144 | a company named "42" added after "Acme" with as many applications is listed, and ranked, before it |
| ApplicationTracker.SortByIndexSpec | src/app/application-tracker/page.tsx:142 | the array-index keys are put in ascending numeric order, as a permutation |
| ApplicationTracker.SumCountsPermutation | src/app/application-tracker/page.tsx:138-142 | reordering the entries keeps the total count |
| ApplicationTracker.InsertPermutes | src/app/application-tracker/page.tsx:143 | inserting an entry into the sorted list keeps every entry |
| ApplicationTracker.SortByCountSpec | src/app/application-tracker/page.tsx:142-143 | the sort by count is non-increasing, a permutation, and stable (entries with equal counts keep their order) |
| ApplicationTracker.TopCompaniesSpec | src/app/application-tracker/page.tsx:142-144 | at most five entries, non-increasing, all taken from the tally; any entry left out has a count no larger than the fifth |
| ApplicationTracker.LineRoundTrip | src/app/application-tracker/page.tsx:464 | a row of fields free of commas and newlines comes back from its CSV line by splitting on commas |
| ApplicationTracker.HeaderRoundTrip | src/app/application-tracker/page.tsx:462 | the header line splits back into the five column names |
| ApplicationTracker.RecordRoundTrip | src/app/application-tracker/page.tsx:463 | a record whose fields avoid commas and newlines comes back from its CSV line |
| ApplicationTracker.ExportLines | src/app/application-tracker/page.tsx:453-464 | the export (`CsvRows` builds one row per application, `JoinRows` joins each with commas) has, when no field holds a comma or a newline, one line more than there are applications; split on newlines and commas, the first line gives the header and line `i + 1` gives application `i`'s company, position, status, applied date and salary |
| ApplicationTracker.CommaInFieldSplitsRow | src/app/application-tracker/page.tsx:463-464 | a company name with a comma makes its CSV line split into six fields instead of five |
| EmailDrafting.CategoriesSpec | src/app/email-drafting/page.tsx:357 | the menu starts with 'All', then each template category once, in order of first appearance |
| EmailDrafting.PageCategoryNamesDedup | src/app/email-drafting/page.tsx:357 | the page's categories in template order reduce to Application, Follow-up, Networking, Negotiation, Professional |
| EmailDrafting.PageCategories | src/app/email-drafting/page.tsx:357 | templates with the page's categories give the menu All, Application, Follow-up, Networking, Negotiation, Professional |
| EmailTemplateData.EmailTemplatesCategories | src/app/email-drafting/page.tsx:17-357 | the page's eight templates give the menu All, Application, Follow-up, Networking, Negotiation, Professional |
| EmailDrafting.FilteredTemplatesSpec | src/app/email-drafting/page.tsx:359-361 | 'All' shows every template; any other category shows exactly the templates of that category, in order |
| EmailDrafting.SetFieldStores | src/app/email-drafting/page.tsx:370 | after an edit the placeholder maps to the new value |
| EmailDrafting.SetFieldKeepsOther | src/app/email-drafting/page.tsx:370 | an edit leaves every other placeholder's value alone |
| EmailDrafting.SetFieldKeys | src/app/email-drafting/page.tsx:370 | an edit keeps the key order, adding a new key at the end |
| EmailDrafting.SetFieldTwice | src/app/email-drafting/page.tsx:370 | storing a value that is already there changes nothing; a second edit of the same key overrides the first |
| EmailDrafting.SetFieldKeysNonEmpty | src/app/email-drafting/page.tsx:370 | edits keep the keys non-empty and distinct |
| EmailDrafting.SubstituteAbsent | src/app/email-drafting/page.tsx:375-377 | a text containing no filled placeholder is left unchanged |
| EmailDrafting.FillSpec | src/app/email-drafting/page.tsx:377 | the replacement joins the pieces of the text around the key with the value; the pieces contain no key; the length changes by `|value| - |key|` per occurrence |
| EmailDrafting.EmptiedValueDeletes | src/app/email-drafting/page.tsx:377 | an emptied field deletes every occurrence of its placeholder |
| EmailDrafting.FilledKeyShowsValue | src/app/email-drafting/page.tsx:370-377 | entering a value for a `[KEY]` placeholder that occurs in the template and has no value yet makes the value appear in the email built from every entered field |
| EmailDrafting.UnfilledPlaceholderKept | src/app/email-drafting/page.tsx:375-377 | a `[KEY]` placeholder with no value entered keeps at least as many occurrences in the email as in the template, whatever the other `[KEY]` values |
| EmailDrafting.PlaceholderCount | src/app/email-drafting/page.tsx:377 | a `[KEY]` placeholder never overlaps itself, so the global replace meets every position where it starts |
| EmailDrafting.ReplaceKeepsPlaceholder | src/app/email-drafting/page.tsx:377 | replacing one `[KEY]` placeholder keeps every occurrence of another |
| EmailDrafting.PrefixPlaceholders | src/app/email-drafting/page.tsx:377 | two `[KEY]` placeholders starting at the same place are equal |
| EmailDrafting.SetFieldNewKey | src/app/email-drafting/page.tsx:370-374 | a new key is added after all the entered ones |
| EmailDrafting.ReenteredValueCanVanish | src/app/email-drafting/page.tsx:374-377 | in "[A[K]B]", the value "x" re-entered for `[K]` forms the later key `[AxB]` and disappears from the email |
| EmailDrafting.EmailDraft.constructor | src/app/email-drafting/page.tsx:351-354 | no template is selected, the email and form are empty, and the category is 'All' |
| EmailDrafting.EmailDraft.SetCategory | src/app/email-drafting/page.tsx:423 | only the active category changes |
| EmailDrafting.EmailDraft.SelectTemplate | src/app/email-drafting/page.tsx:363-367 | the template is selected, its text becomes the email, and the form is cleared |
| EmailDrafting.EmailDraft.ChangeField | src/app/email-drafting/page.tsx:369-381 | the form stores the value, and the email becomes the selected template with every filled placeholder replaced |
| EmailDrafting.ChangeFieldIdempotent | src/app/email-drafting/page.tsx:369-381 | repeating an edit leaves the form and the email as they were after the first |
| EmailTemplateData.DeclinePartsSpec | src/app/email-drafting/page.tsx:274-308 | the job-decline text, split at '[', has no piece that starts with `DECLINE_REASON]` |
| EmailTemplateData.DeclineReasonInert | src/app/email-drafting/page.tsx:274-308 | as written, `[DECLINE_REASON]` is a listed placeholder that never occurs in the text, so filling it changes nothing |
| EmailTemplateData.CorrectedDeclineFills | src/app/email-drafting/page.tsx:274-308 | with the placeholder written as `[DECLINE_REASON]`, entering a reason after any other `[KEY]` fields shows the reason in the email |
| CareerQuestionnaire.Recommendations | src/app/jobs/page.tsx:607-658 | the recommendation is never empty and keeps the career-path table order |
| CareerQuestionnaire.FindPath | src/app/jobs/page.tsx:614 | `find` by id succeeds exactly when some path has the id, and gives such a path |
| CareerQuestionnaire.PathTableDistinct | src/app/jobs/page.tsx:101-207 | the career paths are distinct |
| CareerQuestionnaire.RulesOfTable | src/app/jobs/page.tsx:611-649 | each of the seven paths is recommended by its own rule |
| CareerQuestionnaire.PathLookups | src/app/jobs/page.tsx:611-649 | each `find` by id in the rules gives the path at that id's table position |
| CareerQuestionnaire.GenerateRecommendations | src/app/jobs/page.tsx:607-658 | the pushes of the seven rules, then the default when nothing was pushed, give the recommendation function |
| CareerQuestionnaire.SomePathFires | src/app/jobs/page.tsx:651-654 | some path is pushed exactly when some rule fires |
| CareerQuestionnaire.RecommendsWhenFired | src/app/jobs/page.tsx:611-649 | when some rule fires, a path is recommended exactly when its rule fires |
| CareerQuestionnaire.RecommendsByDefault | src/app/jobs/page.tsx:651-654 | when no rule fires, exactly the first three paths are recommended |
| CareerQuestionnaire.RecommendsIff | src/app/jobs/page.tsx:607-658 | a path is recommended exactly when its rule fires, or when no rule fires and it is software engineering, data science or product management |
| CareerQuestionnaire.SoftwareEngineeringIffDataScience | src/app/jobs/page.tsx:613-622 | software engineering and data science share one rule, so one is recommended exactly when the other is |
| CareerQuestionnaire.HealthcareIff | src/app/jobs/page.tsx:642-644 | healthcare is recommended exactly when question 1 is impact-driven or question 4 is meaningful impact |
| CareerQuestionnaire.DesignIff | src/app/jobs/page.tsx:647-649 | design is recommended exactly when question 2 is creative design or question 3 is creative and autonomous |
| CareerQuestionnaire.DefaultIffNoRuleFires | src/app/jobs/page.tsx:651-654 | the recommendation is the first three paths exactly when no rule fires |
| CareerQuestionnaire.RecommendationsDistinct | src/app/jobs/page.tsx:607-658 | no path is recommended twice |
| CareerQuestionnaire.FindPlatform | src/app/jobs/page.tsx:819-820 | `find` by name succeeds exactly when some platform has the name, and gives the first platform with it |
| CareerQuestionnaire.FoundPlatformsSpec | src/app/jobs/page.tsx:819-836 | a card is shown exactly for each platform name of the path that is found, at most one per name |
| CareerQuestionnaire.PlatformCardsSpec | src/app/jobs/page.tsx:817-836 | the cards are exactly the found platforms of the recommended paths' platform names, all from the platform table |
| CareerQuestionnaire.FindStep | src/app/jobs/page.tsx:584 | `find` by step id succeeds exactly when some step has the id, and gives the first step with it |
| CareerQuestionnaire.FindOption | src/app/jobs/page.tsx:585 | `find` by answer value succeeds exactly when some option has the value, and gives the first option with it |
| CareerQuestionnaire.StoryFor | src/app/jobs/page.tsx:584-588 | a story is found exactly when the step exists and has an option with the value; it is the story of the first such option of the first step with the number |
| CareerQuestionnaire.Questionnaire.constructor | src/app/jobs/page.tsx:574-578 | step 1, no answers, no results, no recommendation, no story |
| CareerQuestionnaire.Questionnaire.HandleAnswer | src/app/jobs/page.tsx:580-589 | the answer is recorded for the step and others are kept; the story changes only when the option is found; the step on screen stays valid |
| CareerData.QuestionnaireStepsShape | src/app/jobs/page.tsx:209-365 | the questionnaire has five steps, numbered 1 to 5 in order |
| CareerQuestionnaire.Questionnaire.NextStep | src/app/jobs/page.tsx:591-598 | before the last step it advances and clears the story; on the last it shows the recommendation for the answers |
| CareerQuestionnaire.Questionnaire.PrevStep | src/app/jobs/page.tsx:600-605 | above step 1 it goes back and clears the story; at step 1 nothing changes |
| CareerQuestionnaire.Questionnaire.Restart | src/app/jobs/page.tsx:660-666 | everything returns to the initial state |
| CareerData.CareerPathsTable | src/app/jobs/page.tsx:101-207 | the page's table lists the seven paths with their ids in rule order |
| CvKeywordData.NodeJsIsASoftwareKeyword | src/app/cv-generator/page.tsx:104-258 | 'Node.js' is one of the keywords `KeywordsFor` (`jobKeywords[jobType] \|\| []`) gives for the software-engineer job type |
| CvAnalysis.KeywordPartition | src/app/cv-generator/page.tsx:259-260 | every keyword is either found (its lower-cased form occurs) or missing, never both, with both lists in keyword order |
| CvAnalysis.AtsScore | src/app/cv-generator/page.tsx:262-267 | the score exists exactly when there are keywords, and is then clamped to 0..100 |
| CvAnalysis.AllFoundScoresHundred | src/app/cv-generator/page.tsx:262-267 | finding every keyword scores 100 |
| CvAnalysis.ScoreMonotonic | src/app/cv-generator/page.tsx:262-267 | finding more keywords never lowers the score |
| CvAnalysis.MissingKeywordsSuggestion | src/app/cv-generator/page.tsx:270-272 | the missing-keywords suggestion appears exactly when some keyword is missing, first, naming the first three missing keywords |
| CvAnalysis.ExpandSuggestion | src/app/cv-generator/page.tsx:264-275 | the expand suggestion appears exactly below 500 UTF-16 code units and the length bonus exactly above 500 |
| Text.Utf16Length | src/app/cv-generator/page.tsx:264-273 | `length` counts one code unit per character up to U+FFFF and two beyond it: between the number of characters and twice that, equal to it exactly when no character is beyond U+FFFF |
| CvAnalysis.AchievementsSuggestion | src/app/cv-generator/page.tsx:276-278 | the achievements suggestion appears exactly when the text lacks 'achievements' |
| CvAnalysis.MetricsSuggestion | src/app/cv-generator/page.tsx:279-281 | the metrics suggestion appears exactly when the text lacks 'metrics' |
| CvAnalysis.DensityZeroIffMissing | src/app/cv-generator/page.tsx:283-288 | with a literal match, a keyword's density is zero exactly when it is listed missing |
| CvAnalysis.NodeJsMiscounted | src/app/cv-generator/page.tsx:285-286 | as written, 'node-js' counts one match of 'Node.js' although 'Node.js' is listed missing |
| CvAnalysis.PushSuggestions | src/app/cv-generator/page.tsx:269-281 | the conditional pushes give the suggestion list |
| CvAnalysis.CountKeywords | src/app/cv-generator/page.tsx:283-288 | one density entry per keyword, each the (literal) occurrence count |
| CvAnalysis.Analyze | src/app/cv-generator/page.tsx:247-299 | blank text gives no analysis; otherwise the analysis carries the missing keywords, the rounded and clamped score, the suggestions and the literal keyword counts of the lower-cased text |
| CvGenerator.SplitSkillsSpec | src/app/cv-generator/page.tsx:159-165 | the skills box gives one trimmed, comma-free entry per comma-separated piece |
| CvGenerator.SplitSkillsWithoutComma | src/app/cv-generator/page.tsx:161 | a value without a comma gives its trimmed self |
| CvGenerator.CvDocument | src/app/cv-generator/page.tsx:185-229 | the generated CV is trimmed |
| CvGenerator.CvShowsTechnicalSkills | src/app/cv-generator/page.tsx:208-209 | the CV shows the technical skills joined with ', ' under their heading |
| CvGenerator.ExperienceShownIffTitled | src/app/cv-generator/page.tsx:197-201 | an experience entry prints nothing exactly when it has no title |
| CvGenerator.EducationLineSpec | src/app/cv-generator/page.tsx:203-206 | an education line is empty exactly without a degree, and it shows the GPA exactly when one is given |
| CvGenerator.CvForm.constructor | src/app/cv-generator/page.tsx:115-127 | the form starts with one empty experience, one empty education and no skills |
| CvGenerator.CvForm.SetPersonalField | src/app/cv-generator/page.tsx:156-158 | only the named personal field changes |
| CvGenerator.CvForm.SetSummary | src/app/cv-generator/page.tsx:166 | only the summary changes |
| CvGenerator.CvForm.SetExperienceField | src/app/cv-generator/page.tsx:146-150 | only the named field of the indexed experience entry changes |
| CvGenerator.CvForm.SetEducationField | src/app/cv-generator/page.tsx:151-155 | only the named field of the indexed education entry changes (the page renders no control that sends this edit) |
| CvGenerator.CvForm.SetSkills | src/app/cv-generator/page.tsx:159-165 | the technical or soft list becomes the split of the value |
| CvGenerator.CvForm.AddExperience | src/app/cv-generator/page.tsx:171-176 | an empty experience entry is appended |
| CvGenerator.CvForm.AddEducation | src/app/cv-generator/page.tsx:178-183 | an empty education entry is appended (the page renders no button for it) |
| CvGenerator.CvForm.GenerateCV | src/app/cv-generator/page.tsx:185-229 | the generated CV is the trimmed document of the form, and the form is unchanged |
| CvChecker.CopyTemplate | src/app/cv-checker/page.tsx:419-451 | the copied text is trimmed |
| CvChecker.CopyTemplateSections | src/app/cv-checker/page.tsx:419-451 | the copied text contains the summary, experience and education sections, after the header when the name starts with a visible character |
| CvChecker.CopyTemplateSkills | src/app/cv-checker/page.tsx:441-442 | the skills line follows the sections |
| CvChecker.CopyTemplateProjects | src/app/cv-checker/page.tsx:444-451 | a template with projects gets a PROJECTS heading after the skills; without, the text ends after the skills |
| CvChecker.AchievementLinesSpec | src/app/cv-checker/page.tsx:432 | the achievements print one bulleted line each |
| CvChecker.EducationEntryGpa | src/app/cv-checker/page.tsx:436-439 | an education entry shows ' \| GPA: ' exactly when a GPA is given |
| CvChecker.TemplateListingsPartition | src/app/cv-checker/page.tsx:767-803 | the company and college listings split the templates by kind, in order |
| CvChecker.CheckerPage.constructor | src/app/cv-checker/page.tsx:311-319 | empty text, no file, software-engineer, not analysing, no analysis, analyser tab, no template |
| CvChecker.CheckerPage.ReceiveFile | src/app/cv-checker/page.tsx:321-334 | a chosen or dropped file and its name are kept; no file changes nothing |
| CvChecker.CheckerPage.FileRead | src/app/cv-checker/page.tsx:328-331 | the reader's text replaces the CV text |
| CvChecker.CheckerPage.PressAnalyze | src/app/cv-checker/page.tsx:554-555 | analysis starts exactly when the button is enabled |
| CvChecker.CheckerPage.FinishAnalysis | src/app/cv-checker/page.tsx:385-386 | the analysis is stored and analysing ends |
| CvChecker.CheckerPage.ResetAnalysis | src/app/cv-checker/page.tsx:390-398 | analysis, text, file and name are cleared, and so is the file input when present |
| CvChecker.CheckerPage.SetJobType | src/app/cv-checker/page.tsx:509 | only the job type changes |
| CvChecker.CheckerPage.SetActiveTab | src/app/cv-checker/page.tsx:474-484 | the tab changes; the file input is there exactly under the analyser tab, fresh when re-mounted |
| CvChecker.CheckerPage.SelectTemplate | src/app/cv-checker/page.tsx:768 | only the opened template changes |
| Mentorship.CompareFeatured | src/app/mentorship/page.tsx:70-74 | the comparator is negative exactly for featured-before-regular and positive exactly for the reverse |
| Mentorship.FeaturedFirstSpec | src/app/mentorship/page.tsx:70-74 | the sort is a permutation with every featured mentor first, keeping the order within each group |
| Mentorship.FilteredMentorsSpec | src/app/mentorship/page.tsx:87-103 | a mentor is shown exactly when listed and matching both search and specialty, in directory order |
| Mentorship.EmptySearchMatchesEveryone | src/app/mentorship/page.tsx:89-93 | an empty search matches every mentor |
| Mentorship.SearchIgnoresTermCase | src/app/mentorship/page.tsx:89-93 | lower-casing the search term does not change the match |
| Mentorship.InitialFilterShowsEveryone | src/app/mentorship/page.tsx:87-103 | no search with 'All' shows the whole directory |
| Mentorship.ShowingAllIff | src/app/mentorship/page.tsx:219-224 | the results line `Results` builds shows 'all N mentors' exactly when every mentor matches the search and the specialty, and the match count otherwise |
| Mentorship.AllSpecialtiesSpec | src/app/mentorship/page.tsx:105 | the menu `AllSpecialties` builds holds, after 'All', each specialty of some mentor once, in order of first appearance, and nothing else |
| Mentorship.ListedSpecialtyShowsSomeone | src/app/mentorship/page.tsx:105 | choosing any listed specialty with no search shows at least one mentor |
| Mentorship.Directory.constructor | src/app/mentorship/page.tsx:51-64 | the directory starts empty, loading, with no search and 'All' |
| Mentorship.Directory.Load | src/app/mentorship/page.tsx:66-85 | a successful fetch installs the featured-first order and refilters; loading ends either way |
| Mentorship.Directory.SetSearchTerm | src/app/mentorship/page.tsx:183 | the term changes and the shown mentors are refiltered |
| Mentorship.Directory.ToggleFilters | src/app/mentorship/page.tsx:189 | only the filter panel flag flips |
| Mentorship.Directory.SelectSpecialty | src/app/mentorship/page.tsx:201-202 | the specialty changes, the panel closes, and the shown mentors are refiltered |
| InterviewPrep.InterviewWalk | src/app/interview-prep/page.tsx:450-457 | from the first question, `k` presses of Next (`AfterNext`, one press) show question `k` while `k` is below the count, and the count-th press ends the interview |
| InterviewPrep.PrepPage.constructor | src/app/interview-prep/page.tsx:437-440 | no company, no mock interview, step 0, companies tab |
| InterviewPrep.PrepPage.SelectCompany | src/app/interview-prep/page.tsx:529 | only the selected company changes |
| InterviewPrep.PrepPage.SetActiveTab | src/app/interview-prep/page.tsx:475-491 | only the tab changes |
| InterviewPrep.PrepPage.StartMockInterview | src/app/interview-prep/page.tsx:443-448 | the company is selected, the interview is shown at step 0, on the mock-interview tab |
| InterviewPrep.PrepPage.NextMockInterviewStep | src/app/interview-prep/page.tsx:450-457 | Next moves one step while a later question exists and otherwise closes the interview |
| InterviewPrep.PrepPage.ExitMockInterview | src/app/interview-prep/page.tsx:738 | only the interview closes |
| InterviewData.GoogleUniform | src/app/interview-prep/page.tsx:64-100 | Google has six questions and six sample answers |
| InterviewData.AmazonUniform | src/app/interview-prep/page.tsx:101-137 | Amazon has six questions and six sample answers |
| InterviewData.MicrosoftUniform | src/app/interview-prep/page.tsx:138-174 | Microsoft has six questions and six sample answers |
| InterviewData.AppleUniform | src/app/interview-prep/page.tsx:175-211 | Apple has six questions and six sample answers |
| InterviewData.MetaFacebookUniform | src/app/interview-prep/page.tsx:212-248 | Meta has six questions and six sample answers |
| InterviewData.NetflixUniform | src/app/interview-prep/page.tsx:249-285 | Netflix has six questions and six sample answers |
| InterviewData.DeloitteUniform | src/app/interview-prep/page.tsx:286-322 | Deloitte has six questions and six sample answers |
| InterviewData.MckinseyUniform | src/app/interview-prep/page.tsx:323-359 | McKinsey has six questions and six sample answers |
| InterviewData.GoldmanSachsUniform | src/app/interview-prep/page.tsx:360-396 | Goldman Sachs has six questions and six sample answers |
| InterviewData.JpMorganUniform | src/app/interview-prep/page.tsx:397-433 | JP Morgan has six questions and six sample answers |
| InterviewData.CompanyDataUniform | src/app/interview-prep/page.tsx:63-434 | every company on the page has six questions and six sample answers, so each can be selected or started |

## Left out

- Persistence in `localStorage`, the `fetch` of the mentor file, the `FileReader`, the clipboard, `alert`, `setTimeout` and `window.open` are browser I/O. The fetch result, the file and the text a reader produces are parameters (`Directory.Load`, `CheckerPage.ReceiveFile`, `CheckerPage.FileRead`).
- Ids, timestamps and today's date come from the clock and are parameters of the tracker operations.
- The average time to response and the in-place interview sort it performs are date arithmetic and are not modelled.
- ApplicationTracker.RatesDefined: the rates are exact ratios. `toFixed(1)`, the percentage scaling and `Math.round` are not modelled.
- CvAnalysis.Analyze: the readability and impact scores are drawn with `Math.random` and are not modelled. The ATS score has no value when there are no keywords, where the page computes NaN. The keyword densities are the literal counts; the regular-expression count the page performs is `CvAnalysis.KeywordDensityAsWritten` (see Findings).
- CvAnalysis.KeywordDensityAsWritten: a `.` in the pattern matches one character, where a regular expression without the `u` flag matches one UTF-16 code unit, half of a character beyond U+FFFF.
- CvChecker.CheckerPage.FinishAnalysis: the stored analysis is a parameter, because the page fills it with random scores and fixed texts.
- Text.Lower: lower-cases ASCII letters only.
- EmailDrafting.EmailDraft.ChangeField: `$` patterns in a replacement value are taken literally, where `replace` would expand them.
- ApplicationTracker.ExportLines: the export does no quoting, so the round trip needs fields without commas or newlines. `CommaInFieldSplitsRow` shows what happens otherwise.
- CvAnalysis.AtsScore: the score is computed on exact rationals, where the page uses double-precision numbers. A product that lands within rounding error of a half can round the other way: with 23 of 40 keywords found and no bonus, the page computes 57.49999999999999 and shows 57, where the model gives 58. Such a tie needs a keyword list of 40 or more entries, and the page's lists hold at most ten, so no input of the page reaches one.
- Mentorship.Directory.Load: the featured-first sort is modelled on values, as a stable partition, not as the in-place array sort.
- CvChecker.CheckerPage.ReceiveFile: the file input's value is modelled only as present and cleared. The path the browser writes into it on a pick is left out.
- The interview-prep generic-question tab with its question-type selector, the mentorship connect modal and the testimonials only display data.
- `generateCoverLetter` and `generateImprovedCV` in the CV generator are template text over the form and the analysis.
- The CV generator's template picker and tab state only change what is displayed.
- The `handleCVInputChange` fallthrough is modelled for the summary only, the one section the page sends through it.
- InterviewPrep.PrepPage.SelectCompany and InterviewPrep.PrepPage.StartMockInterview require a company with one sample answer per question. `InterviewData.CompanyDataUniform` proves this for every company on the page.
- CareerQuestionnaire.Recommendations requires the career-path table shape (`PathTable`), and `CareerData.CareerPathsTable` proves it for the page's table.
- CvChecker.CopyTemplateSections and CvChecker.CopyTemplateSkills speak of the header and skills only when these start or end with a visible character, since `trim` could otherwise cut into them.
- EmailDrafting.PageCategories takes the category names of the templates as a precondition, and `EmailTemplateData.EmailTemplatesCategories` discharges it for the page's templates.
- EmailDrafting.FilledKeyShowsValue: proved for a key entered for the first time, which the page puts after every other key. A value re-entered for an earlier key is replaced before the later keys, and a later key can then swallow it; `EmailDrafting.ReenteredValueCanVanish` gives such a template.
- ApplicationTracker.CompanyStats: a company named like a property every object inherits is not modelled. For "constructor", "toString", "valueOf", "hasOwnProperty" and the other names on `Object.prototype`, the page starts from the inherited function and concatenates text instead of adding; "__proto__" is not stored at all. The model counts such names like any other.
- The CV generator prints its bullet as the three characters U+201A U+00C4 U+00A2 (a mis-decoded '•'). The model keeps those characters as they are in the file, while the CV checker uses a real '•'.
- CvGenerator.CvForm.SetExperienceField and CvGenerator.CvForm.SetEducationField require an index within the list. The page only passes indices of rendered entries.

## Findings

| source | as written | input that shows it | evidently intended | confidence | as-written member | corrected member |
|---|---|---|---|---|---|---|
| src/app/application-tracker/page.tsx:959-984 | the detail modal builds the new interview and follow-up lists from its `application` prop, the snapshot taken when the modal opened | open a record with no interviews and press "add interview" twice: the second update replaces the list with `[second]` | append to the record's current list, keeping both additions | not executed | ApplicationTracker.SnapshotAddLosesInterview | ApplicationTracker.AppendInterviewKeepsBoth |
| src/app/email-drafting/page.tsx:285, 305 | the job-decline text contains `[DECLINE_REASON - this was a difficult decision …]` while the form fills the key `[DECLINE_REASON]` | any value typed into the decline-reason field leaves the email unchanged | the text holds the placeholder `[DECLINE_REASON]` itself, so the typed reason appears | not executed | EmailTemplateData.DeclineReasonInert | EmailTemplateData.CorrectedDeclineFills |
| src/app/cv-generator/page.tsx:285-287 | the density regex is built from the raw keyword, so the '.' in 'Node.js' matches any character | CV text "node-js" with the software-engineer keywords: density of 'Node.js' is 1 while 'Node.js' is listed missing | count literal occurrences, as the found/missing test does | not executed | CvAnalysis.NodeJsMiscounted | CvAnalysis.DensityZeroIffMissing |
