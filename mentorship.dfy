// The mentor directory: the featured-first ordering of the fetched mentors, the search and
// specialty filter, the specialty menu and the results line.

module Mentorship {
  import opened Text
  import opened Collections

  /** A mentor record; `featured` is false when the record leaves it out. Photo, bio,
      experience, location and the founder flag are only displayed. */
  datatype Mentor = Mentor(
    id: int,
    name: string,
    role: string,
    company: string,
    specialties: seq<string>,
    featured: bool)

  predicate IsFeatured(m: Mentor) { m.featured }

  predicate IsRegular(m: Mentor) { !m.featured }

  /** The comparator handed to `sort`: negative when `a` is featured and `b` is not,
      positive in the opposite case, zero otherwise. */
  function CompareFeatured(a: Mentor, b: Mentor): (r: int)
    ensures r < 0 <==> a.featured && !b.featured
    ensures r > 0 <==> !a.featured && b.featured
  {
    if a.featured && !b.featured then -1
    else if !a.featured && b.featured then 1
    else 0
  }

  /** The order `sort` produces with that comparator. `Array.prototype.sort` is stable,
      so mentors that compare equal keep their relative order: the featured mentors in
      their original order, then the others in theirs. */
  function FeaturedFirst(mentors: seq<Mentor>): seq<Mentor>
  {
    Filter(mentors, IsFeatured) + Filter(mentors, IsRegular)
  }

  /** Filtering a list for a property none of its elements has leaves nothing. */
  lemma {:induction false} FilterNonePass<T>(s: seq<T>, p: T -> bool, q: T -> bool)
    requires forall x :: q(x) == !p(x)
    ensures Filter(Filter(s, q), p) == []
  {
    if s != [] {
      FilterNonePass(s[1..], p, q);
      var t := Filter(s[1..], q);
      assert q(s[0]) == !p(s[0]);
      if q(s[0]) {
        assert Filter(s, q) == [s[0]] + t;
        assert ([s[0]] + t)[1..] == t;
      } else {
        assert Filter(s, q) == t;
      }
    }
  }

  /** The sorted list is a permutation of the fetched one, no mentor is placed after one
      it compares below, and the sort is stable within each group. */
  lemma FeaturedFirstSpec(mentors: seq<Mentor>)
    ensures multiset(FeaturedFirst(mentors)) == multiset(mentors)
    ensures forall i, j :: 0 <= i < j < |FeaturedFirst(mentors)| ==>
              CompareFeatured(FeaturedFirst(mentors)[j], FeaturedFirst(mentors)[i]) >= 0
    ensures Filter(FeaturedFirst(mentors), IsFeatured) == Filter(mentors, IsFeatured)
    ensures Filter(FeaturedFirst(mentors), IsRegular) == Filter(mentors, IsRegular)
  {
    var f, g := Filter(mentors, IsFeatured), Filter(mentors, IsRegular);
    var r := f + g;
    FilterPartition(mentors, IsFeatured, IsRegular);
    FilterAllPass(mentors, IsFeatured);
    FilterAllPass(mentors, IsRegular);
    forall i, j | 0 <= i < j < |r| ensures CompareFeatured(r[j], r[i]) >= 0 {
      if j < |f| {
        assert r[j] == f[j] && r[i] == f[i];
      } else if i >= |f| {
        assert r[j] == g[j - |f|] && r[i] == g[i - |f|];
      } else {
        assert r[i] == f[i];
      }
    }
    FilterAppend(f, g, IsFeatured);
    FilterAppend(f, g, IsRegular);
    FilterIdempotent(mentors, IsFeatured);
    FilterIdempotent(mentors, IsRegular);
    FilterNonePass(mentors, IsFeatured, IsRegular);
    FilterNonePass(mentors, IsRegular, IsFeatured);
  }

  /** Some specialty of the mentor includes the (lower-cased) term. */
  predicate SpecialtyMentions(m: Mentor, term: string)
  {
    exists i :: 0 <= i < |m.specialties| && Contains(Lower(m.specialties[i]), term)
  }

  /** The search box: the lower-cased term occurs in the lower-cased name, role, company
      or some specialty. */
  predicate MatchesSearch(m: Mentor, searchTerm: string)
  {
    var term := Lower(searchTerm);
    Contains(Lower(m.name), term) || Contains(Lower(m.role), term) ||
    Contains(Lower(m.company), term) || SpecialtyMentions(m, term)
  }

  /** The specialty menu: 'All' keeps everyone, any other entry needs an exact,
      case-sensitive entry in the mentor's specialties. */
  predicate MatchesSpecialty(m: Mentor, selectedSpecialty: string)
  {
    selectedSpecialty == "All" || selectedSpecialty in m.specialties
  }

  function Matches(searchTerm: string, selectedSpecialty: string): Mentor -> bool
  {
    (m: Mentor) => MatchesSearch(m, searchTerm) && MatchesSpecialty(m, selectedSpecialty)
  }

  /** The mentors shown for a search term and a selected specialty. */
  function FilteredMentors(mentors: seq<Mentor>, searchTerm: string, selectedSpecialty: string): seq<Mentor>
  {
    Filter(mentors, Matches(searchTerm, selectedSpecialty))
  }

  /** The shown mentors keep the directory's order, and a mentor is shown exactly when it
      is in the directory and matches both the search and the specialty. */
  lemma FilteredMentorsSpec(mentors: seq<Mentor>, searchTerm: string, selectedSpecialty: string)
    ensures Subsequence(FilteredMentors(mentors, searchTerm, selectedSpecialty), mentors)
    ensures forall m :: m in FilteredMentors(mentors, searchTerm, selectedSpecialty) <==>
              m in mentors && MatchesSearch(m, searchTerm) && MatchesSpecialty(m, selectedSpecialty)
  {
    FilterIsSubsequence(mentors, Matches(searchTerm, selectedSpecialty));
    FilterMembership(mentors, Matches(searchTerm, selectedSpecialty));
  }

  /** An empty search box matches every mentor. */
  lemma EmptySearchMatchesEveryone(m: Mentor)
    ensures MatchesSearch(m, "")
  {
    EmptyIsContained(Lower(m.name));
  }

  /** The search ignores the case of the term. */
  lemma SearchIgnoresTermCase(m: Mentor, searchTerm: string)
    ensures MatchesSearch(m, Lower(searchTerm)) == MatchesSearch(m, searchTerm)
  {
    LowerIdempotent(searchTerm);
  }

  /** With an empty search box and 'All' selected, the whole directory is shown. */
  lemma InitialFilterShowsEveryone(mentors: seq<Mentor>)
    ensures FilteredMentors(mentors, "", "All") == mentors
  {
    forall i | 0 <= i < |mentors| ensures Matches("", "All")(mentors[i]) {
      EmptySearchMatchesEveryone(mentors[i]);
    }
    FilterKeepsAll(mentors, Matches("", "All"));
  }

  /** The line above the grid. */
  datatype ResultsLine = ShowingAll(total: nat) | Found(count: nat)

  function Results(filteredCount: nat, total: nat): (r: ResultsLine)
    ensures r.ShowingAll? ==> r.total == total
    ensures r.Found? ==> r.count == filteredCount
  {
    if filteredCount == total then ShowingAll(total) else Found(filteredCount)
  }

  /** "Showing all" appears exactly when every mentor in the directory matches. */
  lemma ShowingAllIff(mentors: seq<Mentor>, searchTerm: string, selectedSpecialty: string)
    ensures Results(|FilteredMentors(mentors, searchTerm, selectedSpecialty)|, |mentors|).ShowingAll?
            <==> forall i :: 0 <= i < |mentors| ==>
                   MatchesSearch(mentors[i], searchTerm) && MatchesSpecialty(mentors[i], selectedSpecialty)
    ensures var line := Results(|FilteredMentors(mentors, searchTerm, selectedSpecialty)|, |mentors|);
            line == ShowingAll(|mentors|) ||
            line == Found(|FilteredMentors(mentors, searchTerm, selectedSpecialty)|)
  {
    FilterKeepsAll(mentors, Matches(searchTerm, selectedSpecialty));
  }

  /** `flatMap` over the mentors' specialties. */
  function AllListed(mentors: seq<Mentor>): seq<string>
  {
    if mentors == [] then [] else mentors[0].specialties + AllListed(mentors[1..])
  }

  lemma {:induction false} AllListedMembership(mentors: seq<Mentor>, s: string)
    ensures s in AllListed(mentors) <==> exists i :: 0 <= i < |mentors| && s in mentors[i].specialties
  {
    if mentors != [] {
      AllListedMembership(mentors[1..], s);
      if s in AllListed(mentors[1..]) {
        var i :| 0 <= i < |mentors[1..]| && s in mentors[1..][i].specialties;
        assert s in mentors[i + 1].specialties;
      }
      if exists i :: 0 <= i < |mentors| && s in mentors[i].specialties {
        var i :| 0 <= i < |mentors| && s in mentors[i].specialties;
        if i > 0 {
          assert mentors[1..][i - 1] == mentors[i];
        }
      }
    }
  }

  /** The entries of the specialty menu. */
  function AllSpecialties(mentors: seq<Mentor>): (r: seq<string>)
    ensures |r| > 0 && r[0] == "All"
  {
    ["All"] + Dedup(AllListed(mentors))
  }

  /** After 'All', the menu lists every specialty some mentor has, once each, in the
      order of first occurrence, and nothing else. */
  lemma AllSpecialtiesSpec(mentors: seq<Mentor>)
    ensures Distinct(AllSpecialties(mentors)[1..])
    ensures forall s :: s in AllSpecialties(mentors)[1..] <==>
              exists i :: 0 <= i < |mentors| && s in mentors[i].specialties
    ensures forall i, j :: 1 <= i < j < |AllSpecialties(mentors)| ==>
              AllSpecialties(mentors)[i] in AllListed(mentors) &&
              AllSpecialties(mentors)[j] in AllListed(mentors) &&
              FirstIndex(AllListed(mentors), AllSpecialties(mentors)[i]) <
              FirstIndex(AllListed(mentors), AllSpecialties(mentors)[j])
  {
    var d := Dedup(AllListed(mentors));
    DedupSpec(AllListed(mentors));
    assert AllSpecialties(mentors)[1..] == d;
    forall s ensures s in d <==> exists i :: 0 <= i < |mentors| && s in mentors[i].specialties {
      AllListedMembership(mentors, s);
    }
    forall i, j | 1 <= i < j < |AllSpecialties(mentors)|
      ensures AllSpecialties(mentors)[i] in AllListed(mentors) &&
              AllSpecialties(mentors)[j] in AllListed(mentors) &&
              FirstIndex(AllListed(mentors), AllSpecialties(mentors)[i]) <
              FirstIndex(AllListed(mentors), AllSpecialties(mentors)[j])
    {
      assert AllSpecialties(mentors)[i] == d[i - 1] && AllSpecialties(mentors)[j] == d[j - 1];
    }
  }

  /** Picking a listed specialty with an empty search box always shows some mentor. */
  lemma ListedSpecialtyShowsSomeone(mentors: seq<Mentor>, k: nat)
    requires 1 <= k < |AllSpecialties(mentors)|
    ensures FilteredMentors(mentors, "", AllSpecialties(mentors)[k]) != []
  {
    AllSpecialtiesSpec(mentors);
    var s := AllSpecialties(mentors)[k];
    assert s in AllSpecialties(mentors)[1..];
    var i :| 0 <= i < |mentors| && s in mentors[i].specialties;
    EmptySearchMatchesEveryone(mentors[i]);
    FilteredMentorsSpec(mentors, "", s);
    assert mentors[i] in FilteredMentors(mentors, "", s);
  }

  /** The page state: the fetched directory, the shown mentors and the controls. */
  class Directory {
    var mentors: seq<Mentor>
    var filteredMentors: seq<Mentor>
    var searchTerm: string
    var selectedSpecialty: string
    var showFilters: bool
    var loading: bool

    /** The filter effect has run on the current directory and controls. */
    predicate Valid()
      reads this
    {
      filteredMentors == FilteredMentors(mentors, searchTerm, selectedSpecialty)
    }

    constructor ()
      ensures Valid()
      ensures mentors == [] && filteredMentors == [] && searchTerm == "" &&
              selectedSpecialty == "All" && !showFilters && loading
    {
      mentors := [];
      filteredMentors := [];
      searchTerm := "";
      selectedSpecialty := "All";
      showFilters := false;
      loading := true;
    }

    /** The fetch completes: on success the directory becomes the sorted records and the
        filter effect runs; on failure the directory stays as it was. Loading ends either
        way. */
    method Load(fetched: Option<seq<Mentor>>)
      modifies this
      requires Valid()
      ensures Valid()
      ensures mentors == (if fetched.Some? then FeaturedFirst(fetched.value) else old(mentors))
      ensures !loading
      ensures searchTerm == old(searchTerm) && selectedSpecialty == old(selectedSpecialty)
      ensures showFilters == old(showFilters)
    {
      if fetched.Some? {
        mentors := FeaturedFirst(fetched.value);
        filteredMentors := FilteredMentors(mentors, searchTerm, selectedSpecialty);
      }
      loading := false;
    }

    /** Typing in the search box re-runs the filter. */
    method SetSearchTerm(term: string)
      modifies this
      requires Valid()
      ensures Valid()
      ensures searchTerm == term
      ensures mentors == old(mentors) && selectedSpecialty == old(selectedSpecialty)
      ensures showFilters == old(showFilters) && loading == old(loading)
    {
      searchTerm := term;
      filteredMentors := FilteredMentors(mentors, searchTerm, selectedSpecialty);
    }

    /** The filter button opens or closes the specialty menu. */
    method ToggleFilters()
      modifies this
      requires Valid()
      ensures Valid()
      ensures showFilters == !old(showFilters)
      ensures mentors == old(mentors) && filteredMentors == old(filteredMentors)
      ensures searchTerm == old(searchTerm) && selectedSpecialty == old(selectedSpecialty)
      ensures loading == old(loading)
    {
      showFilters := !showFilters;
    }

    /** Picking a menu entry selects it, closes the menu and re-runs the filter. */
    method SelectSpecialty(specialty: string)
      modifies this
      requires Valid()
      ensures Valid()
      ensures selectedSpecialty == specialty && !showFilters
      ensures mentors == old(mentors) && searchTerm == old(searchTerm) && loading == old(loading)
    {
      selectedSpecialty := specialty;
      showFilters := false;
      filteredMentors := FilteredMentors(mentors, searchTerm, selectedSpecialty);
    }
  }
}
