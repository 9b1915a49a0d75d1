/** The search form's airport helpers (the component version of the
    service): the travel-class options, the one-line text of an airport,
    the airport picker's filter and the lookup by id. */
module FlightSearch {
  import opened Wrappers
  import opened Sequences
  import opened JsBuiltins
  import opened FlightTypes

  // ---------------------------------------------------------------------
  // getTravelClasses
  // ---------------------------------------------------------------------

  /** The values of a list of options, in order. */
  function OptionValues(opts: seq<TravelClassOption>): (vs: seq<string>)
    ensures |vs| == |opts| && forall i :: 0 <= i < |opts| ==> vs[i] == opts[i].value
  {
    seq(|opts|, (i: int) requires 0 <= i < |opts| => opts[i].value)
  }

  /** The captions of a list of options, in order. */
  function OptionCaptions(opts: seq<TravelClassOption>): (cs: seq<string>)
    ensures |cs| == |opts| && forall i :: 0 <= i < |opts| ==> cs[i] == opts[i].caption
  {
    seq(|opts|, (i: int) requires 0 <= i < |opts| => opts[i].caption)
  }

  const TravelClassCaptions: seq<string> := ["Economy", "Premium Economy", "Business", "First"]

  /** The travel classes the form offers, in display order. */
  function GetTravelClasses(): (r: seq<TravelClassOption>)
    ensures OptionValues(r) == ["ECONOMY", "PREMIUM_ECONOMY", "BUSINESS", "FIRST"]
    ensures OptionCaptions(r) == TravelClassCaptions
    ensures forall i, j :: 0 <= i < j < |r| ==> r[i].value != r[j].value && r[i].caption != r[j].caption
  {
    [ TravelClassOption("Economy", "ECONOMY"),
      TravelClassOption("Premium Economy", "PREMIUM_ECONOMY"),
      TravelClassOption("Business", "BUSINESS"),
      TravelClassOption("First", "FIRST") ]
  }

  /** The travel classes with the provider's cabin codes as values, the
      codes the search form's validation accepts: the same captions, in
      the same order. */
  function CabinClasses(): (r: seq<TravelClassOption>)
    ensures OptionValues(r) == ["M", "W", "C", "F"]
    ensures OptionCaptions(r) == TravelClassCaptions
    ensures forall i, j :: 0 <= i < j < |r| ==> r[i].value != r[j].value && r[i].caption != r[j].caption
  {
    [ TravelClassOption("Economy", "M"),
      TravelClassOption("Premium Economy", "W"),
      TravelClassOption("Business", "C"),
      TravelClassOption("First", "F") ]
  }

  /** The caption the form shows for a travel-class value. */
  function CaptionOf(value: string): Option<string>
  {
    match Find(GetTravelClasses(), (o: TravelClassOption) => o.value == value)
    case Some(o) => Some(o.caption)
    case None => None
  }

  /** Each option's value names that option and only it. */
  lemma CaptionOfOptions()
    ensures forall i :: 0 <= i < |GetTravelClasses()| ==>
              CaptionOf(GetTravelClasses()[i].value) == Some(GetTravelClasses()[i].caption)
    ensures forall v :: CaptionOf(v).Some? <==> exists i :: 0 <= i < |GetTravelClasses()| && GetTravelClasses()[i].value == v
  {
    var r := GetTravelClasses();
    forall i | 0 <= i < |r|
      ensures CaptionOf(r[i].value) == Some(r[i].caption)
    {
      var p := (o: TravelClassOption) => o.value == r[i].value;
      var k := FirstIndex(r, p);
      assert p(r[i]);
      assert k.value == i;
    }
  }

  // ---------------------------------------------------------------------
  // getAirportAsString
  // ---------------------------------------------------------------------

  /** The one-line text of an airport: "city, state (ID)" when the airport
      has a non-empty state, otherwise "city - country (ID)", with the id
      upper-cased. */
  function GetAirportAsString(a: Airport): (r: string)
    ensures Truthy(a.state) ==>
              && |r| == |a.city| + 2 + |a.state.value| + |a.id| + 3
              && r[..|a.city| + 2] == a.city + ", "
              && r[|a.city| + 2..|r| - |a.id| - 3] == a.state.value
    ensures !Truthy(a.state) ==>
              && |r| == |a.city| + 3 + |a.country| + |a.id| + 3
              && r[..|a.city| + 3] == a.city + " - "
              && r[|a.city| + 3..|r| - |a.id| - 3] == a.country
    ensures r[|r| - |a.id| - 3..] == " (" + Upper(a.id) + ")"
  {
    var tail := " (" + Upper(a.id) + ")";
    if Truthy(a.state) then a.city + ", " + a.state.value + tail
    else a.city + " - " + a.country + tail
  }

  /** The code in the trailing "(...)" of a text, if it ends with one. */
  function TrailingCode(s: string): Option<string>
  {
    if |s| == 0 || s[|s| - 1] != ')' then None
    else match LastIndexOf(s, '(')
      case Some(i) => if i < |s| - 1 then Some(s[i + 1..|s| - 1]) else None
      case None => None
  }

  /** The upper-cased id can be read back from the end of the text, as
      long as the id itself holds no parenthesis. */
  lemma AirportStringRoundTrip(a: Airport)
    requires '(' !in a.id
    ensures TrailingCode(GetAirportAsString(a)) == Some(Upper(a.id))
  {
    var u := Upper(a.id);
    UpperKeepsOtherChars(a.id, '(');
    var front := if Truthy(a.state) then a.city + ", " + a.state.value + " " else a.city + " - " + a.country + " ";
    assert GetAirportAsString(a) == front + ['('] + u + [')'];
    TrailingCodeOf(front, u);
  }

  /** The code between the last "(" and a closing ")" is read back whole. */
  lemma TrailingCodeOf(front: string, code: string)
    requires '(' !in code
    ensures TrailingCode(front + ['('] + code + [')']) == Some(code)
  {
    var s := front + ['('] + code + [')'];
    assert s == front + ['('] + (code + [')']);
    LastIndexOfBeforeTail(front, '(', code + [')']);
    assert s[|front| + 1..|s| - 1] == code;
  }

  // ---------------------------------------------------------------------
  // filterAirports
  // ---------------------------------------------------------------------

  /** The airport fields the picker searches. */
  datatype AirportField = Id | City | Country | City2 | State | StateShort

  const SearchableFields: seq<AirportField> := [Id, City, Country, City2, State, StateShort]

  /** `airport[field]`, None when an optional field is absent. */
  function FieldValue(a: Airport, f: AirportField): Option<string>
  {
    match f
    case Id => Some(a.id)
    case City => Some(a.city)
    case Country => Some(a.country)
    case City2 => a.city2
    case State => a.state
    case StateShort => a.stateShort
  }

  /** `airport[field]?.toLowerCase().includes(input.toLowerCase())`. */
  predicate FieldMatches(a: Airport, f: AirportField, input: string)
  {
    FieldValue(a, f).Some? && Includes(Lower(FieldValue(a, f).value), Lower(input))
  }

  /** `searchableFields.some(...)`. */
  predicate MatchesSearch(a: Airport, input: string)
  {
    exists k :: 0 <= k < |SearchableFields| && FieldMatches(a, SearchableFields[k], input)
  }

  /** `filterAirports(airports, input)`: the airports one of whose
      searchable fields contains the input, ignoring case, in their
      original order. */
  function FilterAirports(airports: seq<Airport>, input: string): (r: seq<Airport>)
    ensures |r| <= |airports|
    ensures forall i :: 0 <= i < |r| ==> r[i] in airports && MatchesSearch(r[i], input)
    ensures forall i :: 0 <= i < |airports| && MatchesSearch(airports[i], input) ==> airports[i] in r
  {
    Filter(airports, (a: Airport) => MatchesSearch(a, input))
  }

  /** The filter keeps the airports in their original order. */
  lemma FilterAirportsKeepsOrder(airports: seq<Airport>, input: string)
    ensures SubsequenceOf(FilterAirports(airports, input), airports)
  {
    FilterIsSubsequence(airports, (a: Airport) => MatchesSearch(a, input));
  }

  /** An empty input keeps every airport (every id includes ""). */
  lemma EmptyInputKeepsAll(airports: seq<Airport>)
    ensures FilterAirports(airports, "") == airports
  {
    forall i | 0 <= i < |airports|
      ensures MatchesSearch(airports[i], "")
    {
      IncludesEmpty(Lower(airports[i].id));
      assert FieldMatches(airports[i], SearchableFields[0], "");
    }
    FilterKeepsAll(airports, (a: Airport) => MatchesSearch(a, ""));
  }

  /** Typing the input in capitals finds the same airports. */
  lemma FilterIgnoresInputCase(airports: seq<Airport>, input: string)
    ensures FilterAirports(airports, Upper(input)) == FilterAirports(airports, input)
  {
    LowerOfUpper(input);
    forall i | 0 <= i < |airports|
      ensures MatchesSearch(airports[i], Upper(input)) == MatchesSearch(airports[i], input)
    {
      forall k | 0 <= k < |SearchableFields|
        ensures FieldMatches(airports[i], SearchableFields[k], Upper(input))
                == FieldMatches(airports[i], SearchableFields[k], input)
      {
      }
    }
    FilterCongruent(airports, (a: Airport) => MatchesSearch(a, Upper(input)),
                    (a: Airport) => MatchesSearch(a, input));
  }

  /** An airport with a non-empty state is found by its state. */
  lemma FoundByState(airports: seq<Airport>, i: nat)
    requires i < |airports| && airports[i].state.Some?
    ensures airports[i] in FilterAirports(airports, airports[i].state.value)
  {
    var s := airports[i].state.value;
    assert OccursAt(Lower(s), Lower(s), 0);
    assert FieldMatches(airports[i], SearchableFields[4], s);
  }

  // ---------------------------------------------------------------------
  // getAirport
  // ---------------------------------------------------------------------

  /** `getAirport(airports, id)`: the first airport with exactly that id. */
  function GetAirport(airports: seq<Airport>, airportId: string): (r: Option<Airport>)
    ensures r.None? <==> forall i :: 0 <= i < |airports| ==> airports[i].id != airportId
    ensures r.Some? ==> exists i :: && 0 <= i < |airports| && airports[i] == r.value && r.value.id == airportId
                                    && forall j :: 0 <= j < i ==> airports[j].id != airportId
  {
    Find(airports, (x: Airport) => airportId == x.id)
  }

  /** In a list with distinct ids, looking an airport up by its own id
      gives that airport back. */
  lemma GetAirportOfListed(airports: seq<Airport>, i: nat)
    requires i < |airports|
    requires forall j, k :: 0 <= j < k < |airports| ==> airports[j].id != airports[k].id
    ensures GetAirport(airports, airports[i].id) == Some(airports[i])
  {
    var r := GetAirport(airports, airports[i].id);
    var j :| 0 <= j < |airports| && airports[j] == r.value && r.value.id == airports[i].id;
    assert j == i;
  }
}
