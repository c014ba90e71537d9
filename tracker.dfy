/** The job-application tracker: an in-memory list of application records that the page
    adds to, updates by id and deletes from; the filtered list it shows; the dashboard
    statistics; and the CSV export. Ids and timestamps come from the clock in the page and
    are parameters here. */
module ApplicationTracker {
  import opened Collections
  import opened Text

  datatype Status = Applied | Interview | Offer | Rejected | Withdrawn | Ghosted
  datatype Priority = Low | Medium | High
  datatype InterviewKind = Phone | Video | Onsite | Technical | Behavioral | Final
  datatype InterviewStatus = Scheduled | Completed | Cancelled
  datatype InterviewOutcome = Positive | Negative | Neutral
  datatype FollowUpKind = Email | Call | LinkedIn | Other

  datatype Interview = Interview(
    id: string, kind: InterviewKind, date: string, time: string,
    interviewer: Option<string>, notes: Option<string>,
    status: InterviewStatus, outcome: Option<InterviewOutcome>)

  datatype FollowUp = FollowUp(
    id: string, kind: FollowUpKind, date: string, notes: string, response: Option<string>)

  datatype Application = Application(
    id: string, company: string, position: string, location: string,
    salary: Option<string>, status: Status, appliedDate: string, lastUpdated: string,
    jobUrl: Option<string>, companyUrl: Option<string>, jobDescription: Option<string>,
    notes: Option<string>, interviews: seq<Interview>, followUps: seq<FollowUp>,
    resumeVersion: Option<string>, coverLetterVersion: Option<string>,
    referral: Option<string>, priority: Priority, tags: seq<string>)

  /** A `Partial<JobApplication>`: `None` for a key the update object does not carry. */
  datatype Patch = Patch(
    id: Option<string>, company: Option<string>, position: Option<string>,
    location: Option<string>, salary: Option<Option<string>>, status: Option<Status>,
    appliedDate: Option<string>, lastUpdated: Option<string>,
    jobUrl: Option<Option<string>>, companyUrl: Option<Option<string>>,
    jobDescription: Option<Option<string>>, notes: Option<Option<string>>,
    interviews: Option<seq<Interview>>, followUps: Option<seq<FollowUp>>,
    resumeVersion: Option<Option<string>>, coverLetterVersion: Option<Option<string>>,
    referral: Option<Option<string>>, priority: Option<Priority>, tags: Option<seq<string>>)

  /** The status as the page spells it in its filter. */
  function StatusName(s: Status): string
  {
    match s
    case Applied => "applied"
    case Interview => "interview"
    case Offer => "offer"
    case Rejected => "rejected"
    case Withdrawn => "withdrawn"
    case Ghosted => "ghosted"
  }

  function Pick<T>(update: Option<T>, current: T): T
  {
    if update.Some? then update.value else current
  }

  /** `{ ...app, ...updates, lastUpdated: now }`. */
  function ApplyPatch(a: Application, p: Patch, now: string): Application
  {
    Application(
      Pick(p.id, a.id), Pick(p.company, a.company), Pick(p.position, a.position),
      Pick(p.location, a.location), Pick(p.salary, a.salary), Pick(p.status, a.status),
      Pick(p.appliedDate, a.appliedDate), now,
      Pick(p.jobUrl, a.jobUrl), Pick(p.companyUrl, a.companyUrl),
      Pick(p.jobDescription, a.jobDescription), Pick(p.notes, a.notes),
      Pick(p.interviews, a.interviews), Pick(p.followUps, a.followUps),
      Pick(p.resumeVersion, a.resumeVersion), Pick(p.coverLetterVersion, a.coverLetterVersion),
      Pick(p.referral, a.referral), Pick(p.priority, a.priority), Pick(p.tags, a.tags))
  }

  /** The update object that carries no key. */
  const EmptyPatch := Patch(None, None, None, None, None, None, None, None, None, None,
                            None, None, None, None, None, None, None, None, None)

  /** An update that carries only the `interviews` key. */
  function InterviewsPatch(interviews: seq<Interview>): Patch
  {
    EmptyPatch.(interviews := Some(interviews))
  }

  /** An update that carries only the `followUps` key. */
  function FollowUpsPatch(followUps: seq<FollowUp>): Patch
  {
    EmptyPatch.(followUps := Some(followUps))
  }

  /** Applying an update that carries no key only refreshes the timestamp; applying the
      same update twice is applying it once. */
  lemma {:induction false} PatchLaws(a: Application, p: Patch, now: string)
    ensures ApplyPatch(a, EmptyPatch, now) == a.(lastUpdated := now)
    ensures ApplyPatch(ApplyPatch(a, p, now), p, now) == ApplyPatch(a, p, now)
  {
  }

  /** The update `handleSave` sends: the dialog's whole edited record. */
  function FullPatch(a: Application): Patch
  {
    Patch(Some(a.id), Some(a.company), Some(a.position), Some(a.location), Some(a.salary),
          Some(a.status), Some(a.appliedDate), Some(a.lastUpdated), Some(a.jobUrl),
          Some(a.companyUrl), Some(a.jobDescription), Some(a.notes), Some(a.interviews),
          Some(a.followUps), Some(a.resumeVersion), Some(a.coverLetterVersion),
          Some(a.referral), Some(a.priority), Some(a.tags))
  }

  /** Saving the edited record replaces every field of the stored one; only the timestamp
      is the update's own. */
  lemma {:induction false} SaveReplacesRecord(stored: Application, edited: Application, now: string)
    ensures ApplyPatch(stored, FullPatch(edited), now) == edited.(lastUpdated := now)
  {
  }

  /** `prev.map(app => app.id === id ? { ...app, ...updates, lastUpdated } : app)`. */
  function UpdateById(apps: seq<Application>, id: string, p: Patch, now: string): (r: seq<Application>)
    ensures |r| == |apps|
  {
    if apps == [] then []
    else [if apps[0].id == id then ApplyPatch(apps[0], p, now) else apps[0]]
         + UpdateById(apps[1..], id, p, now)
  }

  /** Updating changes exactly the records whose id is the given one, in place. */
  lemma {:induction false} UpdateByIdSpec(apps: seq<Application>, id: string, p: Patch, now: string)
    ensures forall i :: 0 <= i < |apps| ==>
              UpdateById(apps, id, p, now)[i] ==
                (if apps[i].id == id then ApplyPatch(apps[i], p, now) else apps[i])
  {
    if apps != [] {
      UpdateByIdSpec(apps[1..], id, p, now);
      var r := UpdateById(apps, id, p, now);
      assert forall i :: 1 <= i < |apps| ==> r[i] == UpdateById(apps[1..], id, p, now)[i - 1];
    }
  }

  /** `prev.filter(app => app.id !== id)`. */
  function DeleteById(apps: seq<Application>, id: string): seq<Application>
  {
    Filter(apps, (a: Application) => a.id != id)
  }

  /** After a delete no record carries the id, and every other record is kept in its
      order. */
  lemma {:induction false} DeleteByIdSpec(apps: seq<Application>, id: string)
    ensures forall a :: a in DeleteById(apps, id) <==> a in apps && a.id != id
    ensures Subsequence(DeleteById(apps, id), apps)
  {
    FilterMembership(apps, (a: Application) => a.id != id);
    FilterIsSubsequence(apps, (a: Application) => a.id != id);
  }

  /** The records a delete removes. */
  function Removed(apps: seq<Application>, id: string): seq<Application>
  {
    Filter(apps, (a: Application) => a.id == id)
  }

  /** A delete drops exactly the records with the id: what remains and what was removed
      together hold every record as often as the list did. */
  lemma {:induction false} DeleteByIdPartition(apps: seq<Application>, id: string)
    ensures multiset(DeleteById(apps, id)) + multiset(Removed(apps, id)) == multiset(apps)
  {
    FilterPartition(apps, (a: Application) => a.id != id, (a: Application) => a.id == id);
  }

  /** The list state of the page, replaced through `setApplications`. */
  class Store {
    var applications: seq<Application>

    constructor ()
      ensures applications == []
    {
      applications := [];
    }

    /** `addApplication`: the new record, stamped with its id and time, goes in front. */
    method AddApplication(form: Application, id: string, now: string)
      modifies this
      ensures applications == [form.(id := id, lastUpdated := now)] + old(applications)
      ensures applications[1..] == old(applications)
    {
      applications := [form.(id := id, lastUpdated := now)] + applications;
    }

    /** `updateApplication`. */
    method UpdateApplication(id: string, updates: Patch, now: string)
      modifies this
      ensures applications == UpdateById(old(applications), id, updates, now)
      ensures |applications| == |old(applications)|
      ensures forall i :: 0 <= i < |applications| && old(applications)[i].id != id ==>
                applications[i] == old(applications)[i]
    {
      UpdateByIdSpec(applications, id, updates, now);
      applications := UpdateById(applications, id, updates, now);
    }

    /** `deleteApplication`. */
    method DeleteApplication(id: string)
      modifies this
      ensures applications == DeleteById(old(applications), id)
      ensures forall a :: a in applications ==> a.id != id
    {
      DeleteByIdSpec(applications, id);
      applications := DeleteById(applications, id);
    }

    /** `addInterview` as the detail dialog should behave: the new interview is appended to
        the record's current interviews. */
    method AddInterview(id: string, interview: Interview, now: string)
      modifies this
      ensures applications == AppendInterview(old(applications), id, interview, now)
    {
      applications := AppendInterview(applications, id, interview, now);
    }

    /** `addFollowUp` as the detail dialog should behave. */
    method AddFollowUp(id: string, followUp: FollowUp, now: string)
      modifies this
      ensures applications == AppendFollowUp(old(applications), id, followUp, now)
    {
      applications := AppendFollowUp(applications, id, followUp, now);
    }
  }

  /** Adding keeps every earlier record, in order, behind the new one. */
  lemma {:induction false} AddSpec(apps: seq<Application>, form: Application, id: string, now: string)
    ensures var r := [form.(id := id, lastUpdated := now)] + apps;
            |r| == |apps| + 1 && r[0].id == id && r[0].lastUpdated == now &&
            forall i :: 0 <= i < |apps| ==> r[i + 1] == apps[i]
  {
  }

  // ---------------------------------------------------------------------------
  // Interviews and follow-ups added from the detail dialog

  /** The interview `addInterview` creates. */
  function NewInterview(id: string, today: string): Interview
  {
    Interview.Interview(id, Phone, today, "10:00", None, Some(""), Scheduled, None)
  }

  /** The follow-up `addFollowUp` creates. */
  function NewFollowUp(id: string, today: string): FollowUp
  {
    FollowUp(id, Email, today, "", None)
  }

  /** The update `addInterview` sends as written: the dialog's `application` prop is the
      record as it was when the dialog opened, and its interview list is extended. */
  function SnapshotInterviewPatch(snapshot: Application, interview: Interview): Patch
  {
    InterviewsPatch(snapshot.interviews + [interview])
  }

  /** The update `addFollowUp` sends as written. */
  function SnapshotFollowUpPatch(snapshot: Application, followUp: FollowUp): Patch
  {
    FollowUpsPatch(snapshot.followUps + [followUp])
  }

  /** Corrected: each record with the id gets the interview appended to its own current
      list. */
  function AppendInterview(apps: seq<Application>, id: string, interview: Interview, now: string): (r: seq<Application>)
    ensures |r| == |apps|
  {
    if apps == [] then []
    else [if apps[0].id == id
          then ApplyPatch(apps[0], InterviewsPatch(apps[0].interviews + [interview]), now)
          else apps[0]]
         + AppendInterview(apps[1..], id, interview, now)
  }

  /** Corrected: each record with the id gets the follow-up appended to its own list. */
  function AppendFollowUp(apps: seq<Application>, id: string, followUp: FollowUp, now: string): (r: seq<Application>)
    ensures |r| == |apps|
  {
    if apps == [] then []
    else [if apps[0].id == id
          then ApplyPatch(apps[0], FollowUpsPatch(apps[0].followUps + [followUp]), now)
          else apps[0]]
         + AppendFollowUp(apps[1..], id, followUp, now)
  }

  lemma {:induction false} AppendInterviewSpec(apps: seq<Application>, id: string, interview: Interview, now: string)
    ensures forall i :: 0 <= i < |apps| ==>
              AppendInterview(apps, id, interview, now)[i] ==
                (if apps[i].id == id
                 then apps[i].(interviews := apps[i].interviews + [interview], lastUpdated := now)
                 else apps[i])
  {
    if apps != [] {
      AppendInterviewSpec(apps[1..], id, interview, now);
      var r := AppendInterview(apps, id, interview, now);
      assert forall i :: 1 <= i < |apps| ==> r[i] == AppendInterview(apps[1..], id, interview, now)[i - 1];
    }
  }

  lemma {:induction false} AppendFollowUpSpec(apps: seq<Application>, id: string, followUp: FollowUp, now: string)
    ensures forall i :: 0 <= i < |apps| ==>
              AppendFollowUp(apps, id, followUp, now)[i] ==
                (if apps[i].id == id
                 then apps[i].(followUps := apps[i].followUps + [followUp], lastUpdated := now)
                 else apps[i])
  {
    if apps != [] {
      AppendFollowUpSpec(apps[1..], id, followUp, now);
      var r := AppendFollowUp(apps, id, followUp, now);
      assert forall i :: 1 <= i < |apps| ==> r[i] == AppendFollowUp(apps[1..], id, followUp, now)[i - 1];
    }
  }

  /** As written, two interviews added in one opening of the dialog leave only the second:
      the second update starts again from the snapshot's list. */
  lemma {:induction false} SnapshotAddLosesInterview(apps: seq<Application>, k: nat, i1: Interview, i2: Interview, t1: string, t2: string)
    requires k < |apps|
    ensures var snapshot := apps[k];
            var once := UpdateById(apps, snapshot.id, SnapshotInterviewPatch(snapshot, i1), t1);
            var twice := UpdateById(once, snapshot.id, SnapshotInterviewPatch(snapshot, i2), t2);
            twice[k].interviews == snapshot.interviews + [i2]
  {
    var snapshot := apps[k];
    var once := UpdateById(apps, snapshot.id, SnapshotInterviewPatch(snapshot, i1), t1);
    UpdateByIdSpec(apps, snapshot.id, SnapshotInterviewPatch(snapshot, i1), t1);
    UpdateByIdSpec(once, snapshot.id, SnapshotInterviewPatch(snapshot, i2), t2);
    assert once[k].id == snapshot.id;
  }

  /** As written, the same happens to follow-ups. */
  lemma {:induction false} SnapshotAddLosesFollowUp(apps: seq<Application>, k: nat, f1: FollowUp, f2: FollowUp, t1: string, t2: string)
    requires k < |apps|
    ensures var snapshot := apps[k];
            var once := UpdateById(apps, snapshot.id, SnapshotFollowUpPatch(snapshot, f1), t1);
            var twice := UpdateById(once, snapshot.id, SnapshotFollowUpPatch(snapshot, f2), t2);
            twice[k].followUps == snapshot.followUps + [f2]
  {
    var snapshot := apps[k];
    var once := UpdateById(apps, snapshot.id, SnapshotFollowUpPatch(snapshot, f1), t1);
    UpdateByIdSpec(apps, snapshot.id, SnapshotFollowUpPatch(snapshot, f1), t1);
    UpdateByIdSpec(once, snapshot.id, SnapshotFollowUpPatch(snapshot, f2), t2);
    assert once[k].id == snapshot.id;
  }

  /** A concrete case: a record with no interviews, two interviews added in a row; the
      first one is gone. */
  lemma {:induction false} SnapshotAddExample(a: Application)
    requires a.interviews == []
    ensures var i1 := NewInterview("1", "2024-01-01");
            var i2 := NewInterview("2", "2024-01-01");
            var once := UpdateById([a], a.id, SnapshotInterviewPatch(a, i1), "t1");
            var twice := UpdateById(once, a.id, SnapshotInterviewPatch(a, i2), "t2");
            i1 !in twice[0].interviews
  {
    SnapshotAddLosesInterview([a], 0, NewInterview("1", "2024-01-01"), NewInterview("2", "2024-01-01"), "t1", "t2");
  }

  /** Corrected, two interviews added in a row are both kept, in order. */
  lemma {:induction false} AppendInterviewKeepsBoth(apps: seq<Application>, k: nat, i1: Interview, i2: Interview, t1: string, t2: string)
    requires k < |apps|
    ensures var id := apps[k].id;
            var twice := AppendInterview(AppendInterview(apps, id, i1, t1), id, i2, t2);
            twice[k].interviews == apps[k].interviews + [i1, i2]
  {
    var id := apps[k].id;
    var once := AppendInterview(apps, id, i1, t1);
    AppendInterviewSpec(apps, id, i1, t1);
    AppendInterviewSpec(once, id, i2, t2);
    assert once[k].interviews == apps[k].interviews + [i1];
    assert apps[k].interviews + [i1] + [i2] == apps[k].interviews + [i1, i2];
  }

  /** Corrected, two follow-ups added in a row are both kept, in order. */
  lemma {:induction false} AppendFollowUpKeepsBoth(apps: seq<Application>, k: nat, f1: FollowUp, f2: FollowUp, t1: string, t2: string)
    requires k < |apps|
    ensures var id := apps[k].id;
            var twice := AppendFollowUp(AppendFollowUp(apps, id, f1, t1), id, f2, t2);
            twice[k].followUps == apps[k].followUps + [f1, f2]
  {
    var id := apps[k].id;
    var once := AppendFollowUp(apps, id, f1, t1);
    AppendFollowUpSpec(apps, id, f1, t1);
    AppendFollowUpSpec(once, id, f2, t2);
    assert once[k].followUps == apps[k].followUps + [f1];
    assert apps[k].followUps + [f1] + [f2] == apps[k].followUps + [f1, f2];
  }

  // ---------------------------------------------------------------------------
  // The filtered list

  /** The test `filteredApplications` applies to one record. */
  predicate Matches(a: Application, statusFilter: string, searchTerm: string)
  {
    var matchesStatus := statusFilter == "all" || StatusName(a.status) == statusFilter;
    var matchesSearch := Contains(Lower(a.company), Lower(searchTerm)) ||
                         Contains(Lower(a.position), Lower(searchTerm));
    matchesStatus && matchesSearch
  }

  function FilteredApplications(apps: seq<Application>, statusFilter: string, searchTerm: string): seq<Application>
  {
    Filter(apps, (a: Application) => Matches(a, statusFilter, searchTerm))
  }

  /** The filtered list is an order-preserving sub-list holding exactly the matching
      records; with 'all' and an empty search it is the whole list. */
  lemma {:induction false} FilteredSpec(apps: seq<Application>, statusFilter: string, searchTerm: string)
    ensures Subsequence(FilteredApplications(apps, statusFilter, searchTerm), apps)
    ensures forall a :: a in FilteredApplications(apps, statusFilter, searchTerm) <==>
              a in apps && Matches(a, statusFilter, searchTerm)
    ensures FilteredApplications(apps, "all", "") == apps
  {
    var m := (a: Application) => Matches(a, statusFilter, searchTerm);
    FilterIsSubsequence(apps, m);
    FilterMembership(apps, m);
    forall i | 0 <= i < |apps| ensures Matches(apps[i], "all", "") {
      EmptyIsContained(Lower(apps[i].company));
    }
    FilterKeepsAll(apps, (a: Application) => Matches(a, "all", ""));
  }

  // ---------------------------------------------------------------------------
  // Statistics

  function CountStatus(apps: seq<Application>, s: Status): nat
  {
    |Filter(apps, (a: Application) => a.status == s)|
  }

  /** A percentage the page formats with `toFixed(1)`: `Zero` is the literal '0' the page
      shows instead of dividing by zero, `Ratio(n, d)` is `n / d * 100`. */
  datatype Rate = Zero | Ratio(num: nat, den: nat)

  datatype Stats = Stats(
    total: nat, applied: nat, interviewing: nat, offers: nat, rejected: nat,
    withdrawn: nat, ghosted: nat, responseRate: Rate, offerRate: Rate)

  /** `getStats` without the clock-dependent average and the company ranking. */
  function GetStats(apps: seq<Application>): Stats
  {
    var total := |apps|;
    var interviewing := CountStatus(apps, Status.Interview);
    var offers := CountStatus(apps, Offer);
    Stats(total, CountStatus(apps, Applied), interviewing, offers,
          CountStatus(apps, Rejected), CountStatus(apps, Withdrawn), CountStatus(apps, Ghosted),
          if total > 0 then Ratio(interviewing + offers, total) else Zero,
          if interviewing + offers > 0 then Ratio(offers, interviewing + offers) else Zero)
  }

  /** Every record has exactly one of the six statuses, so the six counts add up to the
      total. */
  lemma {:induction false} StatusCountsSum(apps: seq<Application>)
    ensures var st := GetStats(apps);
            st.applied + st.interviewing + st.offers + st.rejected + st.withdrawn + st.ghosted == st.total
  {
    if apps != [] {
      StatusCountsSum(apps[1..]);
    }
  }

  /** Neither rate divides by zero, and neither exceeds 100%. */
  lemma {:induction false} RatesDefined(apps: seq<Application>)
    ensures var st := GetStats(apps);
            (st.responseRate.Zero? <==> st.total == 0) &&
            (st.responseRate.Ratio? ==> 0 < st.responseRate.den && st.responseRate.num <= st.responseRate.den) &&
            (st.offerRate.Zero? <==> st.interviewing + st.offers == 0) &&
            (st.offerRate.Ratio? ==> 0 < st.offerRate.den && st.offerRate.num <= st.offerRate.den)
  {
    StatusCountsSum(apps);
  }

  // ---------------------------------------------------------------------------
  // Applications per company and the top five

  /** The number of records for one company. */
  function CompanyCount(apps: seq<Application>, company: string): nat
  {
    |Filter(apps, (a: Application) => a.company == company)|
  }

  function Companies(apps: seq<Application>): (r: seq<string>)
    ensures |r| == |apps|
    ensures forall i :: 0 <= i < |apps| ==> r[i] == apps[i].company
  {
    seq(|apps|, i requires 0 <= i < |apps| => apps[i].company)
  }

  function Keys(entries: seq<(string, nat)>): (r: seq<string>)
    ensures |r| == |entries|
    ensures forall i :: 0 <= i < |entries| ==> r[i] == entries[i].0
  {
    seq(|entries|, i requires 0 <= i < |entries| => entries[i].0)
  }

  function SumCounts(entries: seq<(string, nat)>): nat
  {
    if entries == [] then 0 else entries[0].1 + SumCounts(entries[1..])
  }

  lemma {:induction false} SumCountsAppend(entries: seq<(string, nat)>, e: (string, nat))
    ensures SumCounts(entries + [e]) == SumCounts(entries) + e.1
  {
    if entries != [] {
      assert (entries + [e])[1..] == entries[1..] + [e];
      SumCountsAppend(entries[1..], e);
    }
  }

  lemma {:induction false} SumCountsBump(entries: seq<(string, nat)>, j: nat)
    requires j < |entries|
    ensures SumCounts(entries[j := (entries[j].0, entries[j].1 + 1)]) == SumCounts(entries) + 1
  {
    if j > 0 {
      SumCountsBump(entries[1..], j - 1);
      assert entries[j := (entries[j].0, entries[j].1 + 1)][1..] ==
             entries[1..][j - 1 := (entries[j].0, entries[j].1 + 1)];
    }
  }

  /** A company has records exactly when it is among the records' companies. */
  lemma {:induction false} CompanyCountPositive(apps: seq<Application>, c: string)
    ensures CompanyCount(apps, c) > 0 <==> c in Companies(apps)
  {
    var f := Filter(apps, (a: Application) => a.company == c);
    FilterMembership(apps, (a: Application) => a.company == c);
    if |f| > 0 {
      assert f[0] in f;
      var x := f[0];
      var k :| 0 <= k < |apps| && apps[k] == x;
      assert Companies(apps)[k] == c;
    }
    if c in Companies(apps) {
      var k :| 0 <= k < |apps| && Companies(apps)[k] == c;
      assert apps[k] in f;
    }
  }

  lemma {:induction false} CompanyCountStep(apps: seq<Application>, i: nat, c: string)
    requires i < |apps|
    ensures CompanyCount(apps[..i + 1], c) ==
            CompanyCount(apps[..i], c) + (if apps[i].company == c then 1 else 0)
  {
    assert apps[..i + 1] == apps[..i] + [apps[i]];
    FilterAppend(apps[..i], [apps[i]], (a: Application) => a.company == c);
  }

  /** `entries` is the company tally of the first `i` records. */
  predicate Tally(apps: seq<Application>, i: nat, entries: seq<(string, nat)>)
  {
    i <= |apps| &&
    Keys(entries) == Dedup(Companies(apps[..i])) &&
    (forall k :: 0 <= k < |entries| ==> entries[k].1 == CompanyCount(apps[..i], entries[k].0)) &&
    SumCounts(entries) == i
  }

  /** Counting a record of a company already in the tally. */
  lemma {:induction false} TallyBump(apps: seq<Application>, i: nat, entries: seq<(string, nat)>, j: nat)
    requires Tally(apps, i, entries) && i < |apps|
    requires j < |entries| && entries[j].0 == apps[i].company
    ensures Tally(apps, i + 1, entries[j := (entries[j].0, entries[j].1 + 1)])
  {
    TallyBumpKeys(apps, i, entries, j);
    TallyBumpCounts(apps, i, entries, j);
    SumCountsBump(entries, j);
  }

  lemma TallyBumpKeys(apps: seq<Application>, i: nat, entries: seq<(string, nat)>, j: nat)
    requires Tally(apps, i, entries) && i < |apps|
    requires j < |entries| && entries[j].0 == apps[i].company
    ensures Keys(entries[j := (entries[j].0, entries[j].1 + 1)]) == Dedup(Companies(apps[..i + 1]))
    ensures Distinct(Keys(entries))
  {
    var c := apps[i].company;
    assert Companies(apps[..i + 1]) == Companies(apps[..i]) + [c];
    DedupSpec(Companies(apps[..i]));
    assert c in Keys(entries);
    DedupAppend(Companies(apps[..i]), c);
    assert Keys(entries[j := (entries[j].0, entries[j].1 + 1)]) == Keys(entries);
  }

  lemma TallyBumpCounts(apps: seq<Application>, i: nat, entries: seq<(string, nat)>, j: nat)
    requires Tally(apps, i, entries) && i < |apps| && Distinct(Keys(entries))
    requires j < |entries| && entries[j].0 == apps[i].company
    ensures forall k :: 0 <= k < |entries| ==>
              entries[j := (entries[j].0, entries[j].1 + 1)][k].1 ==
              CompanyCount(apps[..i + 1], entries[k].0)
  {
    var next := entries[j := (entries[j].0, entries[j].1 + 1)];
    forall k | 0 <= k < |entries| ensures next[k].1 == CompanyCount(apps[..i + 1], entries[k].0) {
      CompanyCountStep(apps, i, entries[k].0);
      if k != j {
        assert Keys(entries)[k] != Keys(entries)[j];
      }
    }
  }

  /** Counting the first record of a company. */
  lemma {:induction false} TallyAdd(apps: seq<Application>, i: nat, entries: seq<(string, nat)>)
    requires Tally(apps, i, entries) && i < |apps|
    requires forall k :: 0 <= k < |entries| ==> entries[k].0 != apps[i].company
    ensures Tally(apps, i + 1, entries + [(apps[i].company, 1)])
  {
    var c := apps[i].company;
    var cs := Companies(apps[..i]);
    var next := entries + [(c, 1)];
    assert Companies(apps[..i + 1]) == cs + [c];
    assert c !in cs by {
      assert c !in Keys(entries);
      DedupSpec(cs);
    }
    assert Keys(next) == Dedup(Companies(apps[..i + 1])) by {
      DedupAppend(cs, c);
      assert Keys(next) == Keys(entries) + [c];
    }
    assert CompanyCount(apps[..i], c) == 0 by {
      CompanyCountPositive(apps[..i], c);
    }
    forall k | 0 <= k < |next| ensures next[k].1 == CompanyCount(apps[..i + 1], next[k].0) {
      CompanyCountStep(apps, i, next[k].0);
    }
    SumCountsAppend(entries, (c, 1));
  }

  /** Looking a company up in the tally, `acc[app.company]`: the index of its entry, or
      the number of entries when it has none. */
  method EntryIndex(entries: seq<(string, nat)>, c: string) returns (j: nat)
    ensures j <= |entries|
    ensures j < |entries| ==> entries[j].0 == c
    ensures forall k :: 0 <= k < j ==> entries[k].0 != c
  {
    j := 0;
    while j < |entries| && entries[j].0 != c
      invariant j <= |entries|
      invariant forall k :: 0 <= k < j ==> entries[k].0 != c
    {
      j := j + 1;
    }
  }

  /** The company tally the reduction builds, keys in insertion order: each company once,
      in the order it first appears, with its number of records. */
  function FirstSeenTally(apps: seq<Application>): (r: seq<(string, nat)>)
    ensures Keys(r) == Dedup(Companies(apps))
  {
    var cs := Dedup(Companies(apps));
    seq(|cs|, i requires 0 <= i < |cs| => (cs[i], CompanyCount(apps, cs[i])))
  }

  predicate IsDigit(c: char)
  {
    '0' <= c <= '9'
  }

  function DigitValue(c: char): nat
  {
    if IsDigit(c) then c as int - '0' as int else 0
  }

  /** The number a string of decimal digits denotes. */
  function DecimalValue(s: string): nat
  {
    if s == [] then 0 else DecimalValue(s[..|s| - 1]) * 10 + DigitValue(s[|s| - 1])
  }

  /** An array index in JavaScript's sense: the canonical decimal form of an integer below
      2^32 - 1, such as "42" but not "042" or "4.2". */
  predicate IsArrayIndex(s: string)
  {
    |s| > 0 && (forall i :: 0 <= i < |s| ==> IsDigit(s[i])) &&
    (s[0] == '0' ==> |s| == 1) && DecimalValue(s) < 0xFFFF_FFFF
  }

  predicate IndexKeyed(e: (string, nat))
  {
    IsArrayIndex(e.0)
  }

  predicate NameKeyed(e: (string, nat))
  {
    !IsArrayIndex(e.0)
  }

  /** Insertion by numeric key, after the entries with a smaller or equal key. */
  function InsertByIndex(e: (string, nat), sorted: seq<(string, nat)>): seq<(string, nat)>
  {
    if sorted == [] || DecimalValue(e.0) <= DecimalValue(sorted[0].0) then [e] + sorted
    else [sorted[0]] + InsertByIndex(e, sorted[1..])
  }

  function SortByIndex(entries: seq<(string, nat)>): seq<(string, nat)>
  {
    if entries == [] then [] else InsertByIndex(entries[0], SortByIndex(entries[1..]))
  }

  /** Numeric keys never decrease along the list. */
  predicate IndexAscending(entries: seq<(string, nat)>)
  {
    forall i, j :: 0 <= i < j < |entries| ==> DecimalValue(entries[i].0) <= DecimalValue(entries[j].0)
  }

  /** `Object.entries` of a plain object, whose own keys come in the order ECMA-262's
      OrdinaryOwnPropertyKeys gives: the array-index keys in ascending numeric order,
      then the other string keys in the order they were added. */
  function ObjectEntries(tally: seq<(string, nat)>): seq<(string, nat)>
  {
    SortByIndex(Filter(tally, IndexKeyed)) + Filter(tally, NameKeyed)
  }

  lemma {:induction false} InsertByIndexPermutes(e: (string, nat), sorted: seq<(string, nat)>)
    ensures multiset(InsertByIndex(e, sorted)) == multiset(sorted) + multiset{e}
  {
    if !(sorted == [] || DecimalValue(e.0) <= DecimalValue(sorted[0].0)) {
      InsertByIndexPermutes(e, sorted[1..]);
      assert sorted == [sorted[0]] + sorted[1..];
    }
  }

  /** Inserting keeps a lower bound every key respects. */
  lemma {:induction false} InsertByIndexBounded(e: (string, nat), sorted: seq<(string, nat)>, b: nat)
    requires b <= DecimalValue(e.0)
    requires forall k :: 0 <= k < |sorted| ==> b <= DecimalValue(sorted[k].0)
    ensures forall k :: 0 <= k < |InsertByIndex(e, sorted)| ==> b <= DecimalValue(InsertByIndex(e, sorted)[k].0)
  {
    if !(sorted == [] || DecimalValue(e.0) <= DecimalValue(sorted[0].0)) {
      InsertByIndexBounded(e, sorted[1..], b);
      var rest := InsertByIndex(e, sorted[1..]);
      assert forall k :: 0 < k < |InsertByIndex(e, sorted)| ==> InsertByIndex(e, sorted)[k] == rest[k - 1];
    }
  }

  lemma {:induction false} InsertByIndexSorted(e: (string, nat), sorted: seq<(string, nat)>)
    requires IndexAscending(sorted)
    ensures IndexAscending(InsertByIndex(e, sorted))
  {
    if sorted == [] || DecimalValue(e.0) <= DecimalValue(sorted[0].0) {
      var r := [e] + sorted;
      assert forall k :: 0 < k < |r| ==> r[k] == sorted[k - 1];
    } else {
      var tail := sorted[1..];
      var rest := InsertByIndex(e, tail);
      InsertByIndexSorted(e, tail);
      InsertByIndexBounded(e, tail, DecimalValue(sorted[0].0));
      var r := [sorted[0]] + rest;
      assert forall k :: 0 < k < |r| ==> r[k] == rest[k - 1];
    }
  }

  lemma {:induction false} SortByIndexSpec(entries: seq<(string, nat)>)
    ensures IndexAscending(SortByIndex(entries))
    ensures multiset(SortByIndex(entries)) == multiset(entries)
  {
    if entries != [] {
      SortByIndexSpec(entries[1..]);
      InsertByIndexSorted(entries[0], SortByIndex(entries[1..]));
      InsertByIndexPermutes(entries[0], SortByIndex(entries[1..]));
      assert entries == [entries[0]] + entries[1..];
    }
  }

  /** `Object.entries` lists the same entries as were added: first those with an
      array-index key, by ascending number, then the others in the order they were
      added. */
  lemma ObjectEntriesSpec(tally: seq<(string, nat)>)
    ensures multiset(ObjectEntries(tally)) == multiset(tally)
    ensures var r := ObjectEntries(tally);
            var n := |Filter(tally, IndexKeyed)|;
            n <= |r| &&
            (forall i :: 0 <= i < n ==> IsArrayIndex(r[i].0)) &&
            IndexAscending(r[..n]) &&
            r[n..] == Filter(tally, NameKeyed)
  {
    var indexed := Filter(tally, IndexKeyed);
    var sorted := SortByIndex(indexed);
    var named := Filter(tally, NameKeyed);
    SortByIndexSpec(indexed);
    FilterPartition(tally, IndexKeyed, NameKeyed);
    FilterMembership(tally, IndexKeyed);
    IndexKeysFirst(indexed, sorted);
    ConcatSplit(sorted, named);
    assert |sorted| == |indexed| by {
      assert |multiset(sorted)| == |multiset(indexed)|;
    }
    var r := ObjectEntries(tally);
    assert r == sorted + named;
  }

  lemma IndexKeysFirst(indexed: seq<(string, nat)>, sorted: seq<(string, nat)>)
    requires forall e :: e in indexed ==> IsArrayIndex(e.0)
    requires multiset(sorted) == multiset(indexed)
    ensures forall i :: 0 <= i < |sorted| ==> IsArrayIndex(sorted[i].0)
  {
    forall i | 0 <= i < |sorted| ensures IsArrayIndex(sorted[i].0) {
      assert sorted[i] in multiset(indexed);
    }
  }

  lemma ConcatSplit<T>(a: seq<T>, b: seq<T>)
    ensures (a + b)[..|a|] == a && (a + b)[|a|..] == b
  {
  }

  /** A company named "42", added after "Acme" with as many records, is listed before it,
      and so ranks before it among the top companies. */
  lemma IndexNamedCompanyFirst()
    ensures ObjectEntries([("Acme", 1), ("42", 1)]) == [("42", 1), ("Acme", 1)]
    ensures TopCompanies(ObjectEntries([("Acme", 1), ("42", 1)])) == [("42", 1), ("Acme", 1)]
  {
    var tally: seq<(string, nat)> := [("Acme", 1), ("42", 1)];
    assert IsArrayIndex("42") by {
      assert DecimalValue("42") == 42 by {
        assert "42"[..1] == "4";
        assert "4"[..0] == "";
      }
    }
    assert !IsArrayIndex("Acme") by {
      assert !IsDigit("Acme"[0]);
    }
    assert Filter(tally, IndexKeyed) == [("42", 1)] by {
      assert tally[1..][1..] == [];
    }
    assert Filter(tally, NameKeyed) == [("Acme", 1)] by {
      assert tally[1..][1..] == [];
    }
    assert SortByIndex([("42", 1)]) == [("42", 1)];
    var r := [("42", 1), ("Acme", 1)];
    assert SortByCount(r) == r by {
      assert r[1..] == [("Acme", 1)];
      assert SortByCount([("Acme", 1)]) == [("Acme", 1)];
    }
  }

  lemma {:induction false} SumCountsConcat(a: seq<(string, nat)>, b: seq<(string, nat)>)
    ensures SumCounts(a + b) == SumCounts(a) + SumCounts(b)
  {
    if a == [] {
      assert a + b == b;
    } else {
      SumCountsConcat(a[1..], b);
      assert (a + b)[1..] == a[1..] + b;
    }
  }

  /** Reordering entries keeps the total. */
  lemma {:induction false} SumCountsPermutation(a: seq<(string, nat)>, b: seq<(string, nat)>)
    requires multiset(a) == multiset(b)
    ensures SumCounts(a) == SumCounts(b)
    decreases |a|
  {
    if a == [] {
      assert |multiset(b)| == 0;
    } else {
      var x := a[0];
      assert x in multiset(b);
      var i :| 0 <= i < |b| && b[i] == x;
      var rest := b[..i] + b[i + 1..];
      assert b == b[..i] + [x] + b[i + 1..];
      SumCountsConcat(b[..i] + [x], b[i + 1..]);
      SumCountsConcat(b[..i], [x]);
      SumCountsConcat(b[..i], b[i + 1..]);
      assert multiset(b) == multiset(rest) + multiset{x};
      assert a == [x] + a[1..];
      assert multiset(a) == multiset(a[1..]) + multiset{x};
      assert multiset(a[1..]) == multiset(a) - multiset{x};
      assert multiset(rest) == multiset(b) - multiset{x};
      SumCountsPermutation(a[1..], rest);
    }
  }

  /** The `companyStats` reduction followed by `Object.entries`: the first-seen tally in
      property order. Every company has one entry holding its number of records, and the
      counts add up to the number of records. */
  method CompanyStats(apps: seq<Application>) returns (entries: seq<(string, nat)>)
    ensures entries == ObjectEntries(FirstSeenTally(apps))
    ensures multiset(entries) == multiset(FirstSeenTally(apps))
    ensures forall c :: c in Keys(entries) <==> c in Companies(apps)
    ensures forall k :: 0 <= k < |entries| ==> entries[k].1 == CompanyCount(apps, entries[k].0)
    ensures SumCounts(entries) == |apps|
  {
    var tally: seq<(string, nat)> := [];
    var i := 0;
    while i < |apps|
      invariant Tally(apps, i, tally)
    {
      var c := apps[i].company;
      var j := EntryIndex(tally, c);
      if j < |tally| {
        TallyBump(apps, i, tally, j);
        tally := tally[j := (c, tally[j].1 + 1)];
      } else {
        TallyAdd(apps, i, tally);
        tally := tally + [(c, 1)];
      }
      i := i + 1;
    }
    assert apps[..i] == apps;
    TallyIsFirstSeen(apps, tally);
    entries := ObjectEntries(tally);
    ObjectEntriesKeepStats(apps, tally);
  }

  /** The finished tally is the first-seen tally. */
  lemma TallyIsFirstSeen(apps: seq<Application>, tally: seq<(string, nat)>)
    requires Tally(apps, |apps|, tally)
    ensures tally == FirstSeenTally(apps)
  {
    var first := FirstSeenTally(apps);
    assert apps[..|apps|] == apps;
    assert |tally| == |Keys(tally)| == |Keys(first)| == |first|;
    forall k | 0 <= k < |tally| ensures tally[k] == first[k] {
      assert tally[k].0 == Keys(tally)[k] == Keys(first)[k] == first[k].0;
    }
  }

  /** Listing the tally in property order keeps every company, every count and the
      total. */
  lemma ObjectEntriesKeepStats(apps: seq<Application>, tally: seq<(string, nat)>)
    requires Keys(tally) == Dedup(Companies(apps))
    requires forall k :: 0 <= k < |tally| ==> tally[k].1 == CompanyCount(apps, tally[k].0)
    requires SumCounts(tally) == |apps|
    ensures multiset(ObjectEntries(tally)) == multiset(tally)
    ensures forall c :: c in Keys(ObjectEntries(tally)) <==> c in Companies(apps)
    ensures forall k :: 0 <= k < |ObjectEntries(tally)| ==>
              ObjectEntries(tally)[k].1 == CompanyCount(apps, ObjectEntries(tally)[k].0)
    ensures SumCounts(ObjectEntries(tally)) == |apps|
  {
    var entries := ObjectEntries(tally);
    ObjectEntriesSpec(tally);
    SumCountsPermutation(entries, tally);
    DedupSpec(Companies(apps));
    forall c ensures c in Keys(entries) <==> c in Companies(apps) {
      if c in Keys(entries) {
        var k :| 0 <= k < |entries| && entries[k].0 == c;
        assert entries[k] in multiset(tally);
      }
      if c in Companies(apps) {
        assert c in Keys(tally);
        var k :| 0 <= k < |tally| && tally[k].0 == c;
        assert tally[k] in multiset(entries);
      }
    }
    forall k | 0 <= k < |entries| ensures entries[k].1 == CompanyCount(apps, entries[k].0) {
      assert entries[k] in multiset(tally);
    }
  }

  /** `Array.prototype.sort` with `(a, b) => b.count - a.count`, which is stable: a
      descending insertion sort that puts an element before the equal ones after it. */
  function SortByCount(entries: seq<(string, nat)>): seq<(string, nat)>
  {
    if entries == [] then [] else Insert(entries[0], SortByCount(entries[1..]))
  }

  function Insert(e: (string, nat), sorted: seq<(string, nat)>): seq<(string, nat)>
  {
    if sorted == [] || e.1 >= sorted[0].1 then [e] + sorted
    else [sorted[0]] + Insert(e, sorted[1..])
  }

  /** Counts never increase along the list. */
  predicate NonIncreasing(entries: seq<(string, nat)>)
  {
    forall i, j :: 0 <= i < j < |entries| ==> entries[i].1 >= entries[j].1
  }

  /** The entries with a given count, in list order. */
  function WithCount(entries: seq<(string, nat)>, c: nat): seq<(string, nat)>
  {
    Filter(entries, (x: (string, nat)) => x.1 == c)
  }

  lemma {:induction false} InsertPermutes(e: (string, nat), sorted: seq<(string, nat)>)
    ensures multiset(Insert(e, sorted)) == multiset(sorted) + multiset{e}
  {
    if !(sorted == [] || e.1 >= sorted[0].1) {
      InsertPermutes(e, sorted[1..]);
      assert sorted == [sorted[0]] + sorted[1..];
    }
  }

  /** Inserting keeps a bound every count respects. */
  lemma {:induction false} InsertBounded(e: (string, nat), sorted: seq<(string, nat)>, b: nat)
    requires e.1 <= b
    requires forall k :: 0 <= k < |sorted| ==> sorted[k].1 <= b
    ensures forall k :: 0 <= k < |Insert(e, sorted)| ==> Insert(e, sorted)[k].1 <= b
  {
    if !(sorted == [] || e.1 >= sorted[0].1) {
      InsertBounded(e, sorted[1..], b);
      var rest := Insert(e, sorted[1..]);
      assert forall k :: 0 < k < |Insert(e, sorted)| ==> Insert(e, sorted)[k] == rest[k - 1];
    }
  }

  lemma {:induction false} InsertSorted(e: (string, nat), sorted: seq<(string, nat)>)
    requires NonIncreasing(sorted)
    ensures NonIncreasing(Insert(e, sorted))
  {
    if sorted == [] || e.1 >= sorted[0].1 {
      var r := [e] + sorted;
      assert forall k :: 0 < k < |r| ==> r[k] == sorted[k - 1];
    } else {
      var tail := sorted[1..];
      var rest := Insert(e, tail);
      InsertSorted(e, tail);
      InsertBounded(e, tail, sorted[0].1);
      var r := [sorted[0]] + rest;
      assert forall k :: 0 < k < |r| ==> r[k] == rest[k - 1];
    }
  }

  lemma {:induction false} InsertStable(e: (string, nat), sorted: seq<(string, nat)>, c: nat)
    ensures WithCount(Insert(e, sorted), c) ==
            if e.1 == c then [e] + WithCount(sorted, c) else WithCount(sorted, c)
  {
    if sorted == [] || e.1 >= sorted[0].1 {
      assert ([e] + sorted)[1..] == sorted;
    } else {
      InsertStable(e, sorted[1..], c);
      assert ([sorted[0]] + Insert(e, sorted[1..]))[1..] == Insert(e, sorted[1..]);
    }
  }

  /** The sort orders by non-increasing count, is a permutation, and keeps the original
      order among entries with the same count. */
  lemma {:induction false} SortByCountSpec(entries: seq<(string, nat)>)
    ensures NonIncreasing(SortByCount(entries))
    ensures multiset(SortByCount(entries)) == multiset(entries)
    ensures forall c :: WithCount(SortByCount(entries), c) == WithCount(entries, c)
  {
    if entries != [] {
      SortByCountSpec(entries[1..]);
      InsertSorted(entries[0], SortByCount(entries[1..]));
      InsertPermutes(entries[0], SortByCount(entries[1..]));
      assert entries == [entries[0]] + entries[1..];
      forall c ensures WithCount(SortByCount(entries), c) == WithCount(entries, c) {
        InsertStable(entries[0], SortByCount(entries[1..]), c);
      }
    }
  }

  /** `.slice(0, 5)` of the sorted entries. */
  function TopCompanies(entries: seq<(string, nat)>): seq<(string, nat)>
  {
    var sorted := SortByCount(entries);
    if |sorted| <= 5 then sorted else sorted[..5]
  }

  /** At most five entries, by non-increasing count, all taken from the statistics; any
      entry left out has no more records than the fifth. */
  lemma {:induction false} TopCompaniesSpec(entries: seq<(string, nat)>)
    ensures var top := TopCompanies(entries);
            |top| <= 5 && NonIncreasing(top) &&
            (forall e :: e in top ==> e in entries) &&
            (forall e :: e in entries && e !in top ==> |top| == 5 && e.1 <= top[4].1)
  {
    var sorted := SortByCount(entries);
    SortByCountSpec(entries);
    var top := TopCompanies(entries);
    assert forall k :: 0 <= k < |top| ==> top[k] == sorted[k];
    forall e | e in top ensures e in entries {
      var k :| 0 <= k < |top| && top[k] == e;
      assert sorted[k] in multiset(sorted);
    }
    forall e | e in entries && e !in top ensures |top| == 5 && e.1 <= top[4].1 {
      assert e in multiset(sorted);
      var k :| 0 <= k < |sorted| && sorted[k] == e;
      if |sorted| <= 5 {
        assert false;
      } else {
        assert k >= 5;
      }
    }
  }

  // ---------------------------------------------------------------------------
  // CSV export

  const CsvHeader: seq<string> := ["Company", "Position", "Status", "Applied Date", "Salary"]

  /** The five exported fields of one record; a missing salary is an empty field. */
  function CsvFields(a: Application): seq<string>
  {
    [a.company, a.position, StatusName(a.status), a.appliedDate,
     if a.salary.Some? then a.salary.value else ""]
  }

  function CsvRows(apps: seq<Application>): (r: seq<seq<string>>)
    ensures |r| == |apps|
    ensures forall i :: 0 <= i < |apps| ==> r[i] == CsvFields(apps[i])
  {
    seq(|apps|, i requires 0 <= i < |apps| => CsvFields(apps[i]))
  }

  function JoinRows(rows: seq<seq<string>>): (r: seq<string>)
    ensures |r| == |rows|
    ensures forall i :: 0 <= i < |rows| ==> r[i] == Join(rows[i], ",")
  {
    seq(|rows|, i requires 0 <= i < |rows| => Join(rows[i], ","))
  }

  /** The export: the header row and one row per record, fields joined by ',' and rows
      by a newline. */
  function ExportCsv(apps: seq<Application>): string
  {
    Join(JoinRows([CsvHeader] + CsvRows(apps)), "\n")
  }

  /** No field of a record holds the separator `c`. */
  predicate FieldsAvoid(a: Application, c: char)
  {
    forall f :: f in CsvFields(a) ==> c !in f
  }

  lemma {:induction false} JoinAvoids(parts: seq<string>, sep: string, c: char)
    requires c !in sep
    requires forall i :: 0 <= i < |parts| ==> c !in parts[i]
    ensures c !in Join(parts, sep)
  {
    if |parts| > 1 {
      JoinAvoids(parts[1..], sep, c);
    }
  }

  /** One row written and read back: the line holds no newline, and splitting it at
      commas gives the fields. */
  lemma {:induction false} LineRoundTrip(row: seq<string>)
    requires |row| > 0
    requires forall f :: 0 <= f < |row| ==> '\n' !in row[f] && ',' !in row[f]
    ensures '\n' !in Join(row, ",")
    ensures Pieces(Join(row, ","), ",") == row
  {
    JoinAvoids(row, ",", '\n');
    PiecesOfJoin(row, ',');
  }

  lemma {:induction false} HeaderRoundTrip()
    ensures '\n' !in Join(CsvHeader, ",")
    ensures Pieces(Join(CsvHeader, ","), ",") == CsvHeader
  {
    forall f | 0 <= f < |CsvHeader| ensures '\n' !in CsvHeader[f] && ',' !in CsvHeader[f] {
      assert CsvHeader[f] in {"Company", "Position", "Status", "Applied Date", "Salary"};
    }
    LineRoundTrip(CsvHeader);
  }

  lemma {:induction false} RecordRoundTrip(a: Application)
    requires FieldsAvoid(a, '\n') && FieldsAvoid(a, ',')
    ensures '\n' !in Join(CsvFields(a), ",")
    ensures Pieces(Join(CsvFields(a), ","), ",") == CsvFields(a)
  {
    var row := CsvFields(a);
    forall f | 0 <= f < |row| ensures '\n' !in row[f] && ',' !in row[f] {
      assert row[f] in row;
    }
    LineRoundTrip(row);
  }

  /** Reading the export back: with no newline and no comma inside a field, the lines are
      the header followed by one line per record in list order, and each line splits into
      its five fields. The export does not quote, so a comma or a newline inside a field
      breaks this. */
  lemma {:induction false} ExportLines(apps: seq<Application>)
    requires forall a :: a in apps ==> FieldsAvoid(a, '\n') && FieldsAvoid(a, ',')
    ensures var lines := Pieces(ExportCsv(apps), "\n");
            |lines| == |apps| + 1 &&
            Pieces(lines[0], ",") == CsvHeader &&
            forall i :: 0 <= i < |apps| ==> Pieces(lines[i + 1], ",") == CsvFields(apps[i])
  {
    var lines := JoinRows([CsvHeader] + CsvRows(apps));
    HeaderRoundTrip();
    forall i | 0 <= i < |apps|
      ensures lines[i + 1] == Join(CsvFields(apps[i]), ",")
      ensures '\n' !in lines[i + 1]
    {
      assert apps[i] in apps;
      RecordRoundTrip(apps[i]);
    }
    assert forall i :: 0 <= i < |lines| ==> '\n' !in lines[i] by {
      forall i | 0 <= i < |lines| ensures '\n' !in lines[i] {
        if i > 0 {
          assert lines[(i - 1) + 1] == lines[i];
        }
      }
    }
    PiecesOfJoin(lines, '\n');
    forall i | 0 <= i < |apps| ensures Pieces(lines[i + 1], ",") == CsvFields(apps[i]) {
      assert apps[i] in apps;
      RecordRoundTrip(apps[i]);
    }
  }

  /** A first field holding the separator joins like two fields. */
  lemma JoinSplitHead(x: string, y: string, rest: seq<string>, sep: string)
    requires |rest| > 0
    ensures Join([x + sep + y] + rest, sep) == Join([x, y] + rest, sep)
  {
    assert ([x + sep + y] + rest)[1..] == rest;
    assert ([x, y] + rest)[1..] == [y] + rest;
    assert ([y] + rest)[1..] == rest;
  }

  /** The counterexample: one comma in a company name makes the first line split into
      six fields. */
  lemma {:induction false} CommaInFieldSplitsRow(a: Application)
    requires a.company == "Acme, Inc" && a.salary == None
    requires a.position == "Dev" && a.appliedDate == "2024-01-01" && a.status == Applied
    ensures |Pieces(Join(CsvFields(a), ","), ",")| == 6
  {
    var rest := ["Dev", "applied", "2024-01-01", ""];
    assert "Acme" + "," + " Inc" == a.company;
    assert StatusName(a.status) == "applied";
    assert CsvFields(a) == [a.company] + rest;
    JoinSplitHead("Acme", " Inc", rest, ",");
    var parts := ["Acme", " Inc"] + rest;
    forall i | 0 <= i < |parts| ensures ',' !in parts[i] {}
    PiecesOfJoin(parts, ',');
  }
}
