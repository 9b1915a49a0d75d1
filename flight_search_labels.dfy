/** The plain-text version of the search form's airport helpers: here an
    airport's label is a single string, "city, state - country | ID" or
    "city - country | ID", and the picker filters on that label. Its
    travel classes and lookup by id are the same as the component
    version's and are modelled once, in `FlightSearch`. */
module FlightSearchLabels {
  import opened Wrappers
  import opened Sequences
  import opened JsBuiltins
  import opened FlightTypes

  /** `getAirportLabel(airport)`. */
  function GetAirportLabel(a: Airport): (r: string)
    ensures |r| >= |a.city| + |a.id| + 3 && r[..|a.city|] == a.city
    ensures Truthy(a.state) ==> r[|a.city|..|r| - |a.id| - 3] == ", " + a.state.value + " - " + a.country
    ensures !Truthy(a.state) ==> r[|a.city|..|r| - |a.id| - 3] == " - " + a.country
    ensures r[|r| - |a.id| - 3..] == " | " + Upper(a.id)
    ensures Truthy(a.state) ==> Includes(r, a.state.value)
  {
    var code := " | " + Upper(a.id);
    if Truthy(a.state) then
      var middle := ", " + a.state.value + " - " + a.country;
      var r := a.city + middle + code;
      assert r[|a.city| + 2..|a.city| + 2 + |a.state.value|] == a.state.value;
      assert OccursAt(r, a.state.value, |a.city| + 2);
      assert r[|a.city|..|r| - |a.id| - 3] == middle;
      r
    else
      var middle := " - " + a.country;
      var r := a.city + middle + code;
      assert r[|a.city|..|r| - |a.id| - 3] == middle;
      r
  }

  /** The code after the last "| " of a label. */
  function LabelCode(text: string): Option<string>
  {
    match LastIndexOf(text, '|')
    case Some(i) => if i + 1 < |text| && text[i + 1] == ' ' then Some(text[i + 2..]) else None
    case None => None
  }

  /** The upper-cased id can be read back from a label, as long as the id
      itself holds no "|". */
  lemma LabelRoundTrip(a: Airport)
    requires '|' !in a.id
    ensures LabelCode(GetAirportLabel(a)) == Some(Upper(a.id))
  {
    var u := Upper(a.id);
    UpperKeepsOtherChars(a.id, '|');
    var front := if Truthy(a.state) then a.city + ", " + a.state.value + " - " + a.country + " "
                 else a.city + " - " + a.country + " ";
    assert GetAirportLabel(a) == front + ['|', ' '] + u;
    LabelCodeOf(front, u);
  }

  /** The code after a last "| " is read back whole. */
  lemma LabelCodeOf(front: string, code: string)
    requires '|' !in code
    ensures LabelCode(front + ['|', ' '] + code) == Some(code)
  {
    var s := front + ['|', ' '] + code;
    assert s == front + ['|'] + ([' '] + code);
    LastIndexOfBeforeTail(front, '|', [' '] + code);
    assert s[|front| + 2..] == code;
  }

  /** `filterAirports(airports, input)`: the airports whose label contains
      the input, ignoring case, in their original order. */
  function FilterAirports(airports: seq<Airport>, input: string): (r: seq<Airport>)
    ensures |r| <= |airports|
    ensures forall i :: 0 <= i < |r| ==> r[i] in airports && Includes(Lower(GetAirportLabel(r[i])), Lower(input))
    ensures forall i :: 0 <= i < |airports| && Includes(Lower(GetAirportLabel(airports[i])), Lower(input)) ==>
              airports[i] in r
  {
    Filter(airports, (x: Airport) => Includes(Lower(GetAirportLabel(x)), Lower(input)))
  }

  /** The filter keeps the airports in their original order. */
  lemma FilterAirportsKeepsOrder(airports: seq<Airport>, input: string)
    ensures SubsequenceOf(FilterAirports(airports, input), airports)
  {
    FilterIsSubsequence(airports, (x: Airport) => Includes(Lower(GetAirportLabel(x)), Lower(input)));
  }

  /** An airport is found by any part of its id or of its city, in any
      case. */
  lemma FoundByIdOrCity(airports: seq<Airport>, i: nat, input: string)
    requires i < |airports|
    requires Includes(Lower(airports[i].id), Lower(input)) || Includes(Lower(airports[i].city), Lower(input))
    ensures airports[i] in FilterAirports(airports, input)
  {
    var a := airports[i];
    if Includes(Lower(a.id), Lower(input)) {
      LabelIncludesId(a, Lower(input));
    } else {
      LabelIncludesCity(a, Lower(input));
    }
  }

  /** What the lower-cased id includes, the lower-cased label includes. */
  lemma LabelIncludesId(a: Airport, t: string)
    requires Includes(Lower(a.id), t)
    ensures Includes(Lower(GetAirportLabel(a)), t)
  {
    var text := GetAirportLabel(a);
    var n := |text| - |a.id|;
    assert text[n..] == Upper(a.id);
    LowerOfUpper(a.id);
    IncludesLowerSuffix(text, n, t);
  }

  /** What the lower-cased city includes, the lower-cased label includes. */
  lemma LabelIncludesCity(a: Airport, t: string)
    requires Includes(Lower(a.city), t)
    ensures Includes(Lower(GetAirportLabel(a)), t)
  {
    var text := GetAirportLabel(a);
    assert text[..|a.city|] == a.city;
    IncludesLowerPrefix(text, |a.city|, t);
  }

  /** Typing the input in capitals finds the same airports. */
  lemma FilterIgnoresInputCase(airports: seq<Airport>, input: string)
    ensures FilterAirports(airports, Upper(input)) == FilterAirports(airports, input)
  {
    LowerOfUpper(input);
    FilterCongruent(airports, (x: Airport) => Includes(Lower(GetAirportLabel(x)), Lower(Upper(input))),
                    (x: Airport) => Includes(Lower(GetAirportLabel(x)), Lower(input)));
  }
}
