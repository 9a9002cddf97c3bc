/** The in-memory lead store (lib/lead-storage.ts): an array of leads that
    `addLead` appends to, `updateLead` overwrites at the first matching id and
    `deleteLead` splices at the first matching id, together with the faceted
    search, the status counts and the distinct facet values read from it.
    The clock and the generated id are parameters; timestamps are integer
    milliseconds. This store uses its own field names, which differ from the
    shared lead record of the scoring engine. */
module Storage {
  import opened Util
  import opened LeadTypes

  /** A lead as this store holds it. */
  datatype StoredLead = StoredLead(
    id: string,
    companyName: string,
    contactName: string,
    description: string,
    industry: string,
    businessType: string,
    employeeCount: string,
    revenue: string,
    city: string,
    state: string,
    rating: real,
    status: Status,
    tags: seq<string>,
    createdAt: int,
    updatedAt: int)

  /** The input of `addLead`: a lead without its id and timestamps. */
  datatype NewLead = NewLead(
    companyName: string,
    contactName: string,
    description: string,
    industry: string,
    businessType: string,
    employeeCount: string,
    revenue: string,
    city: string,
    state: string,
    rating: real,
    status: Status,
    tags: seq<string>)

  /** `Partial<Lead>`: every field may be given or left out. */
  datatype LeadPatch = LeadPatch(
    id: Option<string>,
    companyName: Option<string>,
    contactName: Option<string>,
    description: Option<string>,
    industry: Option<string>,
    businessType: Option<string>,
    employeeCount: Option<string>,
    revenue: Option<string>,
    city: Option<string>,
    state: Option<string>,
    rating: Option<real>,
    status: Option<Status>,
    tags: Option<seq<string>>,
    createdAt: Option<int>,
    updatedAt: Option<int>)

  /** The patch that gives no field. */
  const EmptyPatch := LeadPatch(None, None, None, None, None, None, None, None,
                                None, None, None, None, None, None, None)

  /** `Partial<SearchFilters>` of the store. An absent facet list and an
      empty one behave alike, so both are the empty sequence; an absent and
      an empty city or state are both `""`. */
  datatype SearchFilters = SearchFilters(
    industry: seq<string>,
    businessType: seq<string>,
    employeeCount: seq<string>,
    revenue: seq<string>,
    city: string,
    state: string,
    ratingMin: Option<real>,
    ratingMax: Option<real>,
    keywords: seq<string>)

  /** No facet given at all. */
  const NoFilters := SearchFilters([], [], [], [], "", "", None, None, [])

  datatype LeadStats = LeadStats(
    totalLeads: nat, prospects: nat, contacted: nat, replied: nat, converted: nat)

  datatype FilterOptions = FilterOptions(
    industries: seq<string>,
    businessTypes: seq<string>,
    cities: seq<string>,
    states: seq<string>,
    tags: seq<string>)

  // ---------------------------------------------------------------------
  // Building and patching leads

  /** `{ ...lead, id, createdAt: now, updatedAt: now }`. */
  function Stamp(input: NewLead, id: string, now: int): (l: StoredLead)
    ensures l.id == id && l.createdAt == now && l.updatedAt == now
    ensures Unstamp(l) == input
  {
    StoredLead(id, input.companyName, input.contactName, input.description,
               input.industry, input.businessType, input.employeeCount, input.revenue,
               input.city, input.state, input.rating, input.status, input.tags, now, now)
  }

  /** The fields of a stored lead that `addLead` copies from its input. */
  function Unstamp(l: StoredLead): NewLead {
    NewLead(l.companyName, l.contactName, l.description, l.industry, l.businessType,
            l.employeeCount, l.revenue, l.city, l.state, l.rating, l.status, l.tags)
  }

  /** A given field wins over the current one. */
  function Override<T>(given: Option<T>, current: T): (r: T)
    ensures given.Some? ==> r == given.value
    ensures given.None? ==> r == current
  {
    if given.Some? then given.value else current
  }

  /** `{ ...lead, ...updates, updatedAt: now }`: every field the patch gives
      replaces the lead's, except `updatedAt`, which is always `now`. */
  function ApplyPatch(l: StoredLead, patch: LeadPatch, now: int): (r: StoredLead)
    ensures r.updatedAt == now
    ensures patch.id.Some? ==> r.id == patch.id.value
    ensures patch.id.None? ==> r.id == l.id
    ensures patch.createdAt.Some? ==> r.createdAt == patch.createdAt.value
    ensures patch.createdAt.None? ==> r.createdAt == l.createdAt
    ensures patch.status.Some? ==> r.status == patch.status.value
    ensures patch.status.None? ==> r.status == l.status
    ensures patch.rating.Some? ==> r.rating == patch.rating.value
    ensures patch.rating.None? ==> r.rating == l.rating
    ensures r.companyName == Override(patch.companyName, l.companyName)
    ensures r.contactName == Override(patch.contactName, l.contactName)
    ensures r.description == Override(patch.description, l.description)
    ensures r.industry == Override(patch.industry, l.industry)
    ensures r.businessType == Override(patch.businessType, l.businessType)
    ensures r.employeeCount == Override(patch.employeeCount, l.employeeCount)
    ensures r.revenue == Override(patch.revenue, l.revenue)
    ensures r.city == Override(patch.city, l.city)
    ensures r.state == Override(patch.state, l.state)
    ensures r.tags == Override(patch.tags, l.tags)
  {
    StoredLead(
      Override(patch.id, l.id),
      Override(patch.companyName, l.companyName),
      Override(patch.contactName, l.contactName),
      Override(patch.description, l.description),
      Override(patch.industry, l.industry),
      Override(patch.businessType, l.businessType),
      Override(patch.employeeCount, l.employeeCount),
      Override(patch.revenue, l.revenue),
      Override(patch.city, l.city),
      Override(patch.state, l.state),
      Override(patch.rating, l.rating),
      Override(patch.status, l.status),
      Override(patch.tags, l.tags),
      Override(patch.createdAt, l.createdAt),
      now)
  }

  /** The empty patch only refreshes `updatedAt`, and a given `updatedAt`
      makes no difference. */
  lemma EmptyPatchTouchesOnly(l: StoredLead, now: int, t: int)
    ensures ApplyPatch(l, EmptyPatch, now) == l.(updatedAt := now)
    ensures ApplyPatch(l, EmptyPatch.(updatedAt := Some(t)), now) == l.(updatedAt := now)
  {
  }

  /** Applying the same patch at the same instant twice is applying it once. */
  lemma ApplyPatchIdempotent(l: StoredLead, patch: LeadPatch, now: int)
    ensures ApplyPatch(ApplyPatch(l, patch, now), patch, now) == ApplyPatch(l, patch, now)
  {
  }

  // ---------------------------------------------------------------------
  // Locating a lead

  /** `findIndex((lead) => lead.id === id)`: the first position holding
      `id`, or -1 when no lead has it. */
  function FindIndex(leads: seq<StoredLead>, id: string): (i: int)
    ensures -1 <= i < |leads|
    ensures i == -1 <==> forall l :: l in leads ==> l.id != id
    ensures i >= 0 ==> leads[i].id == id && forall j :: 0 <= j < i ==> leads[j].id != id
  {
    if leads == [] then -1
    else if leads[0].id == id then 0
    else
      var i := FindIndex(leads[1..], id);
      assert forall l :: l in leads ==> l == leads[0] || l in leads[1..];
      if i == -1 then -1 else i + 1
  }

  /** `splice(i, 1)`: the sequence without position `i`. */
  function RemoveAt<T>(s: seq<T>, i: nat): (r: seq<T>)
    requires i < |s|
    ensures |r| == |s| - 1
    ensures forall j :: 0 <= j < i ==> r[j] == s[j]
    ensures forall j :: i <= j < |r| ==> r[j] == s[j + 1]
  {
    s[..i] + s[i + 1..]
  }

  /** Removing one position loses exactly that element and keeps the rest in
      their original order. */
  lemma RemoveAtKeepsOthers<T>(s: seq<T>, i: nat)
    requires i < |s|
    ensures IsSubsequence(RemoveAt(s, i), s)
    ensures multiset(RemoveAt(s, i)) + multiset{s[i]} == multiset(s)
  {
    RemoveAtSubsequence(s, i);
    RemoveAtMultiset(s, i);
  }

  /** Removing one position keeps the rest in their original order. */
  lemma {:induction false} RemoveAtSubsequence<T>(s: seq<T>, i: nat)
    requires i < |s|
    ensures IsSubsequence(RemoveAt(s, i), s)
  {
    var r := RemoveAt(s, i);
    if i == 0 {
      assert r == s[1..];
      SubsequenceReflexive(s[1..]);
      SubsequenceCons(s[0], s[1..], s[1..]);
      assert [s[0]] + s[1..] == s;
    } else {
      RemoveAtSubsequence(s[1..], i - 1);
      assert r == [s[0]] + RemoveAt(s[1..], i - 1);
      SubsequenceCons(s[0], RemoveAt(s[1..], i - 1), s[1..]);
      assert [s[0]] + s[1..] == s;
    }
  }

  /** Removing one position loses exactly one occurrence of that element. */
  lemma RemoveAtMultiset<T>(s: seq<T>, i: nat)
    requires i < |s|
    ensures multiset(RemoveAt(s, i)) + multiset{s[i]} == multiset(s)
  {
    assert s == s[..i] + [s[i]] + s[i + 1..];
  }

  // ---------------------------------------------------------------------
  // Faceted search

  /** A facet list passes a value when it is empty or contains it. */
  predicate ListFacet(allowed: seq<string>, value: string) {
    allowed == [] || value in allowed
  }

  /** `filters.location?.city`: a case-insensitive substring of the lead's city. */
  predicate CityFacet(city: string, l: StoredLead) {
    city == "" || IsSubstring(Lower(city), Lower(l.city))
  }

  /** `filters.location?.state`: exactly the lead's state. */
  predicate StateFacet(state: string, l: StoredLead) {
    state == "" || l.state == state
  }

  /** A rating bound only applies when it is present and not 0. */
  predicate ActiveBound(bound: Option<real>) {
    bound.Some? && bound.value != 0.0
  }

  predicate RatingFacet(f: SearchFilters, l: StoredLead) {
    && (ActiveBound(f.ratingMin) ==> l.rating >= f.ratingMin.value)
    && (ActiveBound(f.ratingMax) ==> l.rating <= f.ratingMax.value)
  }

  /** The lower-cased text the keywords are searched in. */
  function SearchText(l: StoredLead): string {
    Lower(l.companyName + " " + l.contactName + " " + l.description + " " + Join(l.tags, " "))
  }

  /** Some keyword, lower-cased, occurs in the search text. */
  predicate KeywordFacet(keywords: seq<string>, l: StoredLead) {
    keywords == [] || exists k :: k in keywords && IsSubstring(Lower(k), SearchText(l))
  }

  /** The callback of `searchLeads`: every facet must pass. */
  predicate Matches(l: StoredLead, f: SearchFilters) {
    && ListFacet(f.industry, l.industry)
    && ListFacet(f.businessType, l.businessType)
    && ListFacet(f.employeeCount, l.employeeCount)
    && ListFacet(f.revenue, l.revenue)
    && CityFacet(f.city, l)
    && StateFacet(f.state, l)
    && RatingFacet(f, l)
    && KeywordFacet(f.keywords, l)
  }

  /** `searchLeads`: the leads passing every facet, in store order. */
  function Search(leads: seq<StoredLead>, f: SearchFilters): (r: seq<StoredLead>)
    ensures IsSubsequence(r, leads)
    ensures forall l :: l in r <==> l in leads && Matches(l, f)
    ensures forall l :: multiset(r)[l] == (if Matches(l, f) then multiset(leads)[l] else 0)
  {
    FilterMultiset(leads, (l: StoredLead) => Matches(l, f));
    FilterSubsequence(leads, (l: StoredLead) => Matches(l, f));
    FilterMembers(leads, (l: StoredLead) => Matches(l, f));
    Filter(leads, (l: StoredLead) => Matches(l, f))
  }

  /** Without any facet every lead is found, in order. */
  lemma NoFiltersFindAll(leads: seq<StoredLead>)
    ensures Search(leads, NoFilters) == leads
  {
    forall l | l in leads
      ensures Matches(l, NoFilters)
    {
      assert KeywordFacet([], l);
    }
    FilterAll(leads, (l: StoredLead) => Matches(l, NoFilters));
  }

  /** A rating bound of 0 is the same as no bound. */
  lemma ZeroRatingBoundIgnored(leads: seq<StoredLead>, f: SearchFilters)
    ensures Search(leads, f.(ratingMin := Some(0.0))) == Search(leads, f.(ratingMin := None))
    ensures Search(leads, f.(ratingMax := Some(0.0))) == Search(leads, f.(ratingMax := None))
  {
    var f1, f2 := f.(ratingMin := Some(0.0)), f.(ratingMin := None);
    FilterCongruent(leads, (l: StoredLead) => Matches(l, f1), (l: StoredLead) => Matches(l, f2));
    var g1, g2 := f.(ratingMax := Some(0.0)), f.(ratingMax := None);
    FilterCongruent(leads, (l: StoredLead) => Matches(l, g1), (l: StoredLead) => Matches(l, g2));
  }

  /** The city facet ignores the case of the city asked for. */
  lemma CityIgnoresCase(l: StoredLead, city: string)
    ensures CityFacet(city, l) <==> CityFacet(Lower(city), l)
  {
    LowerIdempotent(city);
  }

  /** A lead passes the city facet for its own city. */
  lemma OwnCityMatches(l: StoredLead)
    ensures CityFacet(l.city, l)
  {
    SubstringTrivial(Lower(l.city));
  }

  /** A lead is found by its own company name as keyword. */
  lemma KeywordFindsCompany(l: StoredLead)
    ensures KeywordFacet([l.companyName], l)
  {
    var rest := " " + l.contactName + " " + l.description + " " + Join(l.tags, " ");
    var text := l.companyName + " " + l.contactName + " " + l.description + " " + Join(l.tags, " ");
    assert text == l.companyName + rest;
    LowerAppend(l.companyName, rest);
    var t := SearchText(l);
    assert t == Lower(l.companyName) + Lower(rest);
    assert Lower(l.companyName) <= t[0..];
    assert IsSubstring(Lower(l.companyName), t);
    assert l.companyName in [l.companyName];
  }

  /** The empty keyword finds every lead. */
  lemma EmptyKeywordFindsAll(l: StoredLead)
    ensures KeywordFacet([""], l)
  {
    assert Lower("") == "";
    SubstringTrivial(SearchText(l));
    assert "" in [""];
  }

  /** Searching the result of a search again with the same facets changes
      nothing. */
  lemma SearchIdempotent(leads: seq<StoredLead>, f: SearchFilters)
    ensures Search(Search(leads, f), f) == Search(leads, f)
  {
    FilterAll(Search(leads, f), (l: StoredLead) => Matches(l, f));
  }

  // ---------------------------------------------------------------------
  // Status counts and facet options

  /** `filter((l) => l.status === st).length`. */
  function CountStatus(leads: seq<StoredLead>, st: Status): (n: nat)
    ensures n <= |leads|
  {
    Count(leads, (l: StoredLead) => l.status == st)
  }

  /** Counting one status peels off the first lead. */
  lemma CountStatusCons(leads: seq<StoredLead>, st: Status)
    requires leads != []
    ensures CountStatus(leads, st) == CountStatus(leads[1..], st) + (if leads[0].status == st then 1 else 0)
  {
    CountCons(leads, (l: StoredLead) => l.status == st);
  }

  /** The four funnel statuses never count more leads than the store holds;
      the difference is the rejected leads. */
  lemma {:induction false} FunnelCountsBounded(leads: seq<StoredLead>)
    ensures CountStatus(leads, Prospect) + CountStatus(leads, Contacted)
      + CountStatus(leads, Replied) + CountStatus(leads, Converted)
      == |leads| - CountStatus(leads, Rejected)
  {
    if leads != [] {
      FunnelCountsBounded(leads[1..]);
      CountStatusCons(leads, Prospect);
      CountStatusCons(leads, Contacted);
      CountStatusCons(leads, Replied);
      CountStatusCons(leads, Converted);
      CountStatusCons(leads, Rejected);
    }
  }

  /** `list` holds every value of `values` exactly once and nothing else,
      in the order of their first occurrences in `values`. */
  predicate EachOnce(list: seq<string>, values: seq<string>) {
    && NoDuplicates(list)
    && IsSubsequence(list, values)
    && InFirstOccurrenceOrder(list, values)
    && (forall x :: x in list ==> x in values)
    && (forall x :: x in values ==> x in list)
  }

  function Industries(leads: seq<StoredLead>): (r: seq<string>)
    ensures forall x :: x in r <==> exists l :: l in leads && l.industry == x
  {
    var r := seq(|leads|, i requires 0 <= i < |leads| => leads[i].industry);
    assert forall l :: l in leads ==> l.industry in r by {
      forall l | l in leads ensures l.industry in r {
        var i :| 0 <= i < |leads| && leads[i] == l;
        assert r[i] == l.industry;
      }
    }
    r
  }

  function BusinessTypes(leads: seq<StoredLead>): (r: seq<string>)
    ensures forall x :: x in r <==> exists l :: l in leads && l.businessType == x
  {
    var r := seq(|leads|, i requires 0 <= i < |leads| => leads[i].businessType);
    assert forall l :: l in leads ==> l.businessType in r by {
      forall l | l in leads ensures l.businessType in r {
        var i :| 0 <= i < |leads| && leads[i] == l;
        assert r[i] == l.businessType;
      }
    }
    r
  }

  function Cities(leads: seq<StoredLead>): (r: seq<string>)
    ensures forall x :: x in r <==> exists l :: l in leads && l.city == x
  {
    var r := seq(|leads|, i requires 0 <= i < |leads| => leads[i].city);
    assert forall l :: l in leads ==> l.city in r by {
      forall l | l in leads ensures l.city in r {
        var i :| 0 <= i < |leads| && leads[i] == l;
        assert r[i] == l.city;
      }
    }
    r
  }

  function States(leads: seq<StoredLead>): (r: seq<string>)
    ensures forall x :: x in r <==> exists l :: l in leads && l.state == x
  {
    var r := seq(|leads|, i requires 0 <= i < |leads| => leads[i].state);
    assert forall l :: l in leads ==> l.state in r by {
      forall l | l in leads ensures l.state in r {
        var i :| 0 <= i < |leads| && leads[i] == l;
        assert r[i] == l.state;
      }
    }
    r
  }

  /** `flatMap((l) => l.tags)`. */
  function AllTags(leads: seq<StoredLead>): (r: seq<string>)
    ensures forall x :: x in r <==> exists l :: l in leads && x in l.tags
  {
    var tagLists := seq(|leads|, i requires 0 <= i < |leads| => leads[i].tags);
    var r := Flatten(tagLists);
    assert forall l, x :: l in leads && x in l.tags ==> x in r by {
      forall l, x | l in leads && x in l.tags ensures x in r {
        var i :| 0 <= i < |leads| && leads[i] == l;
        assert tagLists[i] == l.tags;
      }
    }
    r
  }

  // ---------------------------------------------------------------------
  // The store

  class LeadStorage {
    var leads: seq<StoredLead>

    /** The store starts from the leads it loaded. */
    constructor (loaded: seq<StoredLead>)
      ensures leads == loaded
    {
      leads := loaded;
    }

    method GetAllLeads() returns (r: seq<StoredLead>)
      ensures r == leads
    {
      r := leads;
    }

    /** `getLeadsByStatus`: exactly the leads with that status, in order. */
    method GetLeadsByStatus(status: Status) returns (r: seq<StoredLead>)
      ensures IsSubsequence(r, leads)
      ensures forall l :: l in r <==> l in leads && l.status == status
      ensures |r| == CountStatus(leads, status)
      ensures forall l :: multiset(r)[l] == (if l.status == status then multiset(leads)[l] else 0)
    {
      r := Filter(leads, (l: StoredLead) => l.status == status);
      FilterMultiset(leads, (l: StoredLead) => l.status == status);
      FilterSubsequence(leads, (l: StoredLead) => l.status == status);
      FilterMembers(leads, (l: StoredLead) => l.status == status);
    }

    /** `addLead`: appends the stamped lead and returns it. */
    method AddLead(input: NewLead, id: string, now: int) returns (l: StoredLead)
      modifies this
      ensures l == Stamp(input, id, now)
      ensures leads == old(leads) + [l]
    {
      l := Stamp(input, id, now);
      leads := leads + [l];
    }

    /** `updateLead`: null and no change for an unknown id; otherwise the
        first lead with that id is replaced by its patched version, which is
        returned. */
    method UpdateLead(id: string, patch: LeadPatch, now: int) returns (r: Option<StoredLead>)
      modifies this
      ensures FindIndex(old(leads), id) == -1 ==> r.None? && leads == old(leads)
      ensures FindIndex(old(leads), id) >= 0 ==>
        var i := FindIndex(old(leads), id);
        r == Some(ApplyPatch(old(leads)[i], patch, now)) && leads == old(leads)[i := r.value]
    {
      var index := FindIndex(leads, id);
      if index == -1 {
        return None;
      }
      var updated := ApplyPatch(leads[index], patch, now);
      leads := leads[index := updated];
      r := Some(updated);
    }

    /** `deleteLead`: false and no change for an unknown id; otherwise the
        first lead with that id is spliced out. */
    method DeleteLead(id: string) returns (deleted: bool)
      modifies this
      ensures deleted <==> FindIndex(old(leads), id) >= 0
      ensures !deleted ==> leads == old(leads)
      ensures deleted ==> leads == RemoveAt(old(leads), FindIndex(old(leads), id))
    {
      var index := FindIndex(leads, id);
      if index == -1 {
        return false;
      }
      leads := RemoveAt(leads, index);
      deleted := true;
    }

    method SearchLeads(f: SearchFilters) returns (r: seq<StoredLead>)
      ensures r == Search(leads, f)
    {
      r := Search(leads, f);
    }

    /** `getStats` without the average rating: the size of the store and the
        number of leads in each funnel status, which together never exceed
        the size. */
    method GetStats() returns (s: LeadStats)
      ensures s.totalLeads == |leads|
      ensures s.prospects == CountStatus(leads, Prospect)
      ensures s.contacted == CountStatus(leads, Contacted)
      ensures s.replied == CountStatus(leads, Replied)
      ensures s.converted == CountStatus(leads, Converted)
      ensures s.prospects + s.contacted + s.replied + s.converted <= s.totalLeads
    {
      FunnelCountsBounded(leads);
      s := LeadStats(|leads|, CountStatus(leads, Prospect), CountStatus(leads, Contacted),
                     CountStatus(leads, Replied), CountStatus(leads, Converted));
    }

    /** `getAvailableFilterOptions`: each list holds every value some lead
        has, once, in the order of first appearance in the store. */
    method GetAvailableFilterOptions() returns (o: FilterOptions)
      ensures EachOnce(o.industries, Industries(leads))
      ensures EachOnce(o.businessTypes, BusinessTypes(leads))
      ensures EachOnce(o.cities, Cities(leads))
      ensures EachOnce(o.states, States(leads))
      ensures EachOnce(o.tags, AllTags(leads))
    {
      o := FilterOptions(Distinct(Industries(leads)), Distinct(BusinessTypes(leads)),
                         Distinct(Cities(leads)), Distinct(States(leads)),
                         Distinct(AllTags(leads)));
      DistinctFirstOccurrence(Industries(leads));
      DistinctFirstOccurrence(BusinessTypes(leads));
      DistinctFirstOccurrence(Cities(leads));
      DistinctFirstOccurrence(States(leads));
      DistinctFirstOccurrence(AllTags(leads));
    }
  }
}
