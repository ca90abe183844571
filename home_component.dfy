/** The venue search of the home page (`HomeComponent.filterVenues`): a
    case-insensitive substring search over name, location and description,
    combined with optional status and capacity-class filters. */
module Home {
  import opened Seqs
  import opened Model

  /** ASCII lower-casing of one character. */
  function LowerChar(c: char): (r: char)
    ensures 'A' <= c <= 'Z' ==> r as int == c as int + 32
    ensures !('A' <= c <= 'Z') ==> r == c
  {
    if 'A' <= c <= 'Z' then (c as int + 32) as char else c
  }

  /** `toLowerCase`, restricted to ASCII letters. */
  function ToLower(s: string): (r: string)
    ensures |r| == |s|
    ensures forall i :: 0 <= i < |s| ==> r[i] == LowerChar(s[i])
  {
    if s == [] then [] else [LowerChar(s[0])] + ToLower(s[1..])
  }

  /** Lower-casing twice is lower-casing once. */
  lemma ToLowerIdempotent(s: string)
    ensures ToLower(ToLower(s)) == ToLower(s)
  {
    var once := ToLower(s);
    assert forall i :: 0 <= i < |s| ==> LowerChar(once[i]) == once[i];
  }

  /** `t` occurs in `s` starting at index `i`. */
  predicate OccursAt(s: string, t: string, i: int) {
    0 <= i && i + |t| <= |s| && s[i..i + |t|] == t
  }

  /** `t` occurs in `s` at some position. */
  ghost predicate Occurs(s: string, t: string) {
    exists i :: OccursAt(s, t, i)
  }

  /** `String.prototype.includes`: whether `t` occurs in `s` at some position. */
  function Includes(s: string, t: string): (r: bool)
    ensures r <==> exists i :: OccursAt(s, t, i)
    decreases |s|
  {
    if |t| > |s| then false
    else if s[..|t|] == t then assert OccursAt(s, t, 0); true
    else (IncludesShift(s, t); Includes(s[1..], t))
  }

  /** When `t` is not a prefix of `s`, its occurrences in `s` are those in `s[1..]`, shifted by one. */
  lemma IncludesShift(s: string, t: string)
    requires |t| <= |s| && s[..|t|] != t
    ensures (exists i :: OccursAt(s, t, i)) <==> (exists i :: OccursAt(s[1..], t, i))
  {
    if exists i :: OccursAt(s, t, i) {
      var i :| OccursAt(s, t, i);
      assert i != 0;
      assert s[1..][i - 1..i - 1 + |t|] == s[i..i + |t|];
      assert OccursAt(s[1..], t, i - 1);
    }
    if exists i :: OccursAt(s[1..], t, i) {
      var i :| OccursAt(s[1..], t, i);
      assert s[i + 1..i + 1 + |t|] == s[1..][i..i + |t|];
      assert OccursAt(s, t, i + 1);
    }
  }

  /** The three controls of the search bar; an empty select is `None`. */
  datatype Criteria = Criteria(searchTerm: string, selectedFilter: Option<VenueStatus>,
                               capacityFilter: Option<CapacityType>)
  {
    /** Some control is set: the condition for the "No Results" notice. */
    predicate AnySet() {
      searchTerm != "" || selectedFilter.Some? || capacityFilter.Some?
    }
  }

  /** `matchesSearch`: the lower-cased term occurs at some position of the lower-cased
      name, location or description. */
  predicate MatchesSearch(v: Venue, term: string)
    ensures MatchesSearch(v, term) <==>
              Occurs(ToLower(v.name), ToLower(term)) || Occurs(ToLower(v.location), ToLower(term))
              || Occurs(ToLower(v.description), ToLower(term))
  {
    var t := ToLower(term);
    Includes(ToLower(v.name), t) || Includes(ToLower(v.location), t) || Includes(ToLower(v.description), t)
  }

  /** The predicate passed to `filter`: search, status and capacity class all match. */
  predicate Matches(v: Venue, c: Criteria)
    ensures !c.AnySet() ==> Matches(v, c)
    ensures c.selectedFilter.Some? && v.status != c.selectedFilter.value ==> !Matches(v, c)
    ensures c.capacityFilter.Some? && v.capacityType != c.capacityFilter.value ==> !Matches(v, c)
    ensures c.selectedFilter.None? && c.capacityFilter.None? ==> (Matches(v, c) <==> MatchesSearch(v, c.searchTerm))
  {
    EmptySearchMatchesAll(v);
    && MatchesSearch(v, c.searchTerm)
    && (c.selectedFilter.None? || v.status == c.selectedFilter.value)
    && (c.capacityFilter.None? || v.capacityType == c.capacityFilter.value)
  }

  /** An empty search term matches every venue. */
  lemma EmptySearchMatchesAll(v: Venue)
    ensures MatchesSearch(v, "")
  {
    assert OccursAt(ToLower(v.name), ToLower(""), 0);
  }

  /** The search ignores the case of the term. */
  lemma SearchIgnoresTermCase(v: Venue, term: string)
    ensures MatchesSearch(v, term) <==> MatchesSearch(v, ToLower(term))
  {
    ToLowerIdempotent(term);
  }

  /** The venues `filterVenues` keeps: exactly those matching all three criteria,
      in their original order; with no criterion set, all of them. */
  function FilteredVenues(venues: seq<Venue>, c: Criteria): (r: seq<Venue>)
    ensures forall i :: 0 <= i < |r| ==> r[i] in venues && Matches(r[i], c)
    ensures forall i :: 0 <= i < |venues| && Matches(venues[i], c) ==> venues[i] in r
    ensures c.selectedFilter.Some? ==> forall i :: 0 <= i < |r| ==> r[i].status == c.selectedFilter.value
    ensures c.capacityFilter.Some? ==> forall i :: 0 <= i < |r| ==> r[i].capacityType == c.capacityFilter.value
    ensures !c.AnySet() ==> r == venues
  {
    var r := Filter(venues, (v: Venue) => Matches(v, c));
    if c.AnySet() then r
    else
      (FilterKeepsAll(venues, (v: Venue) => Matches(v, c));
       r)
  }

  /** Filtering is order-preserving: the result for a concatenation is the
      concatenation of the results. */
  lemma FilteredVenuesConcat(a: seq<Venue>, b: seq<Venue>, c: Criteria)
    ensures FilteredVenues(a + b, c) == FilteredVenues(a, c) + FilteredVenues(b, c)
  {
    FilterConcat(a, b, (v: Venue) => Matches(v, c));
  }

  /** Re-applying the same criteria to the result changes nothing. */
  lemma FilteredVenuesIdempotent(venues: seq<Venue>, c: Criteria)
    ensures FilteredVenues(FilteredVenues(venues, c), c) == FilteredVenues(venues, c)
  {
    FilterIdempotent(venues, (v: Venue) => Matches(v, c));
  }

  class HomeComponent {
    var venues: seq<Venue>
    var filteredVenues: seq<Venue>
    var searchTerm: string
    var selectedFilter: Option<VenueStatus>
    var capacityFilter: Option<CapacityType>

    constructor ()
      ensures venues == [] && filteredVenues == []
      ensures searchTerm == "" && selectedFilter.None? && capacityFilter.None?
    {
      venues, filteredVenues := [], [];
      searchTerm, selectedFilter, capacityFilter := "", None, None;
    }

    function CurrentCriteria(): Criteria
      reads this
    {
      Criteria(searchTerm, selectedFilter, capacityFilter)
    }

    /** `filterVenues`: store the matching venues; `noResults` is the
        "No Results" notice, raised when nothing matches a non-empty search. */
    method FilterVenues() returns (noResults: bool)
      modifies this`filteredVenues
      ensures filteredVenues == FilteredVenues(venues, CurrentCriteria())
      ensures noResults <==> filteredVenues == [] && CurrentCriteria().AnySet()
    {
      filteredVenues := FilteredVenues(venues, CurrentCriteria());
      noResults := |filteredVenues| == 0 && CurrentCriteria().AnySet();
    }

    /** The subscription in `ngOnInit`: take the new venue list and filter it. */
    method OnVenues(newVenues: seq<Venue>) returns (noResults: bool)
      modifies this`venues, this`filteredVenues
      ensures venues == newVenues
      ensures filteredVenues == FilteredVenues(newVenues, CurrentCriteria())
      ensures noResults <==> filteredVenues == [] && CurrentCriteria().AnySet()
    {
      venues := newVenues;
      noResults := FilterVenues();
    }
  }
}
