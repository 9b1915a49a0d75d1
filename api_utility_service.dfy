/** The request helpers: turning a query object into a URL search string
    and building a GET request for an endpoint.

    `encodeURIComponent` and the `application/x-www-form-urlencoded`
    serializer of the WHATWG URL Standard (section 5.2) are taken as
    given string functions; `new URL(endpoint, base)` is a given resolver. */
module ApiUtility {
  import opened Wrappers
  import opened Sequences
  import opened JsBuiltins

  /** A query value: a number, string or boolean, or an array of them. */
  datatype QueryValue = Scalar(v: JsScalar) | Array(items: seq<JsScalar>)

  /** A query object as `Object.entries` lists it: keys in entry order. */
  type Query = seq<(string, QueryValue)>

  type Pair = (string, string)

  /** The pairs an array value contributes: one per element, in order,
      each element converted to a string but not encoded. */
  function ArrayPairs(key: string, items: seq<JsScalar>): (ps: seq<Pair>)
    ensures |ps| == |items|
    ensures forall i :: 0 <= i < |items| ==> ps[i] == (key, ToJsString(items[i]))
  {
    seq(|items|, (i: int) requires 0 <= i < |items| => (key, ToJsString(items[i])))
  }

  /** How many pairs a value contributes. */
  function Width(v: QueryValue): nat
  {
    match v
    case Array(items) => |items|
    case Scalar(_) => 1
  }

  /** The pairs one entry contributes. */
  function EntryPairs(encodeUriComponent: string -> string, key: string, value: QueryValue): (ps: seq<Pair>)
    ensures |ps| == Width(value)
    ensures forall i :: 0 <= i < |ps| ==> ps[i].0 == key
    ensures value.Scalar? ==> ps == [(key, encodeUriComponent(ToJsString(value.v)))]
    ensures value.Array? ==> forall i :: 0 <= i < |ps| ==> ps[i].1 == ToJsString(value.items[i])
  {
    match value
    case Array(items) => ArrayPairs(key, items)
    case Scalar(v) => [(key, encodeUriComponent(ToJsString(v)))]
  }

  /** The pairs the whole query contributes, entry after entry. */
  function QueryPairs(encodeUriComponent: string -> string, q: Query): seq<Pair>
  {
    if |q| == 0 then []
    else QueryPairs(encodeUriComponent, q[..|q| - 1])
         + EntryPairs(encodeUriComponent, q[|q| - 1].0, q[|q| - 1].1)
  }

  /** Taking one more entry adds that entry's pairs at the end. */
  lemma QueryPairsStep(encodeUriComponent: string -> string, q: Query, i: nat)
    requires i < |q|
    ensures QueryPairs(encodeUriComponent, q[..i + 1])
            == QueryPairs(encodeUriComponent, q[..i]) + EntryPairs(encodeUriComponent, q[i].0, q[i].1)
  {
    assert q[..i + 1][..i] == q[..i];
  }

  /** Taking one more array element adds its pair at the end. */
  lemma ArrayPairsStep(key: string, items: seq<JsScalar>, j: nat)
    requires j < |items|
    ensures ArrayPairs(key, items[..j + 1]) == ArrayPairs(key, items[..j]) + [(key, ToJsString(items[j]))]
  {
  }

  /** The total width of a query's entries. */
  function TotalWidth(q: Query): nat
  {
    if |q| == 0 then 0 else TotalWidth(q[..|q| - 1]) + Width(q[|q| - 1].1)
  }

  /** The query contributes one pair per array element and one per scalar. */
  lemma {:induction false} QueryPairsCount(encodeUriComponent: string -> string, q: Query)
    ensures |QueryPairs(encodeUriComponent, q)| == TotalWidth(q)
  {
    if |q| > 0 {
      QueryPairsCount(encodeUriComponent, q[..|q| - 1]);
    }
  }

  /** Pairs come grouped by entry, in entry order: the pairs of two runs of
      entries are the first run's pairs, then the second's. */
  lemma {:induction false} QueryPairsAppend(encodeUriComponent: string -> string, q1: Query, q2: Query)
    ensures QueryPairs(encodeUriComponent, q1 + q2)
            == QueryPairs(encodeUriComponent, q1) + QueryPairs(encodeUriComponent, q2)
  {
    if |q2| == 0 {
      assert q1 + q2 == q1;
    } else {
      var n := |q2| - 1;
      var last := EntryPairs(encodeUriComponent, q2[n].0, q2[n].1);
      QueryPairsLastEntry(encodeUriComponent, q1, q2);
      QueryPairsAppend(encodeUriComponent, q1, q2[..n]);
      ConcatAssoc(QueryPairs(encodeUriComponent, q1), QueryPairs(encodeUriComponent, q2[..n]), last);
    }
  }

  /** Entry `i`'s pairs, with their values, sit in the query's pairs right
      after those of the entries before it. */
  lemma QueryPairsOfEntry(encodeUriComponent: string -> string, q: Query, i: nat)
    requires i < |q|
    ensures var ps := QueryPairs(encodeUriComponent, q);
            var start := TotalWidth(q[..i]);
            && start + Width(q[i].1) <= |ps|
            && ps[start..start + Width(q[i].1)] == EntryPairs(encodeUriComponent, q[i].0, q[i].1)
  {
    var before, rest := q[..i], q[i + 1..];
    assert q == before + [q[i]] + rest;
    QueryPairsAround(encodeUriComponent, before, q[i], rest);
    QueryPairsCount(encodeUriComponent, before);
  }

  /** The pairs of an entry between two runs of entries sit right after
      the pairs of the first run. */
  lemma QueryPairsAround(encodeUriComponent: string -> string, q1: Query, x: (string, QueryValue), q2: Query)
    ensures var ps := QueryPairs(encodeUriComponent, q1 + [x] + q2);
            var start, mine := |QueryPairs(encodeUriComponent, q1)|, EntryPairs(encodeUriComponent, x.0, x.1);
            && start + |mine| <= |ps|
            && ps[start..start + |mine|] == mine
  {
    var e := encodeUriComponent;
    var a, b, c := QueryPairs(e, q1), EntryPairs(e, x.0, x.1), QueryPairs(e, q2);
    QueryPairsAppend(e, q1 + [x], q2);
    QueryPairsAppend(e, q1, [x]);
    QueryPairsSingle(e, x);
    ConcatAssoc(a, b, c);
    MiddleSlice(a, b, c);
  }

  /** A one-entry query contributes that entry's pairs. */
  lemma QueryPairsSingle(encodeUriComponent: string -> string, entry: (string, QueryValue))
    ensures QueryPairs(encodeUriComponent, [entry]) == EntryPairs(encodeUriComponent, entry.0, entry.1)
  {
    assert [entry][..0] == [];
  }

  /** The last entry of `q1 + q2` is the last entry of `q2`, and its pairs
      come last in both. */
  lemma QueryPairsLastEntry(encodeUriComponent: string -> string, q1: Query, q2: Query)
    requires |q2| > 0
    ensures var last := EntryPairs(encodeUriComponent, q2[|q2| - 1].0, q2[|q2| - 1].1);
            && QueryPairs(encodeUriComponent, q1 + q2) == QueryPairs(encodeUriComponent, q1 + q2[..|q2| - 1]) + last
            && QueryPairs(encodeUriComponent, q2) == QueryPairs(encodeUriComponent, q2[..|q2| - 1]) + last
  {
    var q := q1 + q2;
    assert q[..|q| - 1] == q1 + q2[..|q2| - 1];
  }

  /** Every pair's name is the key of one of the entries. */
  lemma {:induction false} QueryPairKeys(encodeUriComponent: string -> string, q: Query)
    ensures forall k :: 0 <= k < |QueryPairs(encodeUriComponent, q)| ==>
              exists i :: 0 <= i < |q| && q[i].0 == QueryPairs(encodeUriComponent, q)[k].0
  {
    if |q| > 0 {
      var n := |q| - 1;
      var front := QueryPairs(encodeUriComponent, q[..n]);
      var last := EntryPairs(encodeUriComponent, q[n].0, q[n].1);
      assert QueryPairs(encodeUriComponent, q) == front + last;
      QueryPairKeys(encodeUriComponent, q[..n]);
      forall k | 0 <= k < |QueryPairs(encodeUriComponent, q)|
        ensures exists i :: 0 <= i < |q| && q[i].0 == QueryPairs(encodeUriComponent, q)[k].0
      {
        if k < |front| {
          var i :| 0 <= i < n && q[..n][i].0 == front[k].0;
          assert q[i].0 == QueryPairs(encodeUriComponent, q)[k].0;
        } else {
          assert QueryPairs(encodeUriComponent, q)[k] == last[k - |front|];
          assert q[n].0 == QueryPairs(encodeUriComponent, q)[k].0;
        }
      }
    } else {
      assert QueryPairs(encodeUriComponent, q) == [];
    }
  }

  /** One serialized pair: `name=value`, both form-encoded. */
  function SerializePair(formUrlEncode: string -> string, p: Pair): string
  {
    formUrlEncode(p.0) + "=" + formUrlEncode(p.1)
  }

  /** Each pair serialized on its own. */
  function SerializedPairs(formUrlEncode: string -> string, pairs: seq<Pair>): (parts: seq<string>)
    ensures |parts| == |pairs|
    ensures forall i :: 0 <= i < |pairs| ==> parts[i] == SerializePair(formUrlEncode, pairs[i])
  {
    seq(|pairs|, (i: int) requires 0 <= i < |pairs| => SerializePair(formUrlEncode, pairs[i]))
  }

  /** The urlencoded serializer: the serialized pairs joined by "&". */
  function Serialize(formUrlEncode: string -> string, pairs: seq<Pair>): string
  {
    Join(SerializedPairs(formUrlEncode, pairs), "&")
  }

  /** The serialized string lists every pair, in order, "&" between
      neighbours; no pairs give the empty string. */
  lemma SerializeListsPairs(formUrlEncode: string -> string, pairs: seq<Pair>)
    ensures |pairs| == 0 ==> Serialize(formUrlEncode, pairs) == ""
    ensures forall i :: 0 <= i < |pairs| ==>
              OccursAt(Serialize(formUrlEncode, pairs), SerializePair(formUrlEncode, pairs[i]),
                       JoinOffset(SerializedPairs(formUrlEncode, pairs), "&", i))
    ensures forall i, j :: 0 <= i < j < |pairs| ==>
              JoinOffset(SerializedPairs(formUrlEncode, pairs), "&", i) + |SerializePair(formUrlEncode, pairs[i])| + 1
              <= JoinOffset(SerializedPairs(formUrlEncode, pairs), "&", j)
  {
    var parts := SerializedPairs(formUrlEncode, pairs);
    forall i | 0 <= i < |pairs|
      ensures OccursAt(Join(parts, "&"), parts[i], JoinOffset(parts, "&", i))
    {
      JoinContainsEach(parts, "&", i);
    }
    forall i, j | 0 <= i < j < |pairs|
      ensures JoinOffset(parts, "&", i) + |parts[i]| + 1 <= JoinOffset(parts, "&", j)
    {
      JoinOffsetsIncrease(parts, "&", i, j);
    }
  }

  /** An empty query gives an empty search string. */
  lemma EmptyQuerySerializesEmpty(encodeUriComponent: string -> string, formUrlEncode: string -> string)
    ensures Serialize(formUrlEncode, QueryPairs(encodeUriComponent, [])) == ""
  {
    SerializeListsPairs(formUrlEncode, []);
  }

  // ---------------------------------------------------------------------
  // URLSearchParams
  // ---------------------------------------------------------------------

  /** A `URLSearchParams` object: its list of name-value pairs. */
  class UrlSearchParams {
    const formUrlEncode: string -> string
    var list: seq<Pair>

    constructor(formUrlEncode: string -> string)
      ensures this.formUrlEncode == formUrlEncode && list == []
    {
      this.formUrlEncode := formUrlEncode;
      list := [];
    }

    /** `params.append(name, value)`. */
    method Append(name: string, value: string)
      modifies this
      ensures list == old(list) + [(name, value)]
    {
      list := list + [(name, value)];
    }

    /** `params.toString()`. */
    method ToString() returns (s: string)
      ensures s == Serialize(formUrlEncode, list)
    {
      s := Serialize(formUrlEncode, list);
    }
  }

  // ---------------------------------------------------------------------
  // URL and Request
  // ---------------------------------------------------------------------

  /** A parsed URL: everything before the query, and the query if any. */
  datatype Url = Url(beforeQuery: string, query: Option<string>)

  /** `url.search = s`: the empty string clears the query; otherwise one
      leading "?" is dropped and the rest becomes the query. */
  function SetSearch(u: Url, s: string): (r: Url)
    ensures r.beforeQuery == u.beforeQuery
    ensures r.query.None? <==> s == ""
  {
    if s == "" then u.(query := None)
    else u.(query := Some(if s[0] == '?' then s[1..] else s))
  }

  /** `url.toString()`. */
  function Href(u: Url): string
  {
    match u.query
    case Some(q) => u.beforeQuery + "?" + q
    case None => u.beforeQuery
  }

  /** A search string not starting with "?" is what follows the "?" of
      the URL's text. */
  lemma SearchRoundTrip(u: Url, s: string)
    requires s != "" && s[0] != '?'
    ensures Href(SetSearch(u, s)) == u.beforeQuery + "?" + s
    ensures Href(SetSearch(u, s))[|u.beforeQuery| + 1..] == s
  {
  }

  datatype Request = Request(url: string, headers: Option<seq<Pair>>)

  /** The helper object, bound to one API base URL. */
  class ApiUtilityService {
    const apiBaseUrl: string
    const encodeUriComponent: string -> string
    const formUrlEncode: string -> string
    const resolve: (string, string) -> Url

    constructor(apiBaseUrl: string, encodeUriComponent: string -> string, formUrlEncode: string -> string,
                resolve: (string, string) -> Url)
      ensures this.apiBaseUrl == apiBaseUrl && this.encodeUriComponent == encodeUriComponent
      ensures this.formUrlEncode == formUrlEncode && this.resolve == resolve
    {
      this.apiBaseUrl := apiBaseUrl;
      this.encodeUriComponent := encodeUriComponent;
      this.formUrlEncode := formUrlEncode;
      this.resolve := resolve;
    }

    /** `parameterize(query)`. */
    method Parameterize(query: Query) returns (s: string)
      ensures s == Serialize(formUrlEncode, QueryPairs(encodeUriComponent, query))
    {
      var params := new UrlSearchParams(formUrlEncode);
      var i := 0;
      while i < |query|
        invariant 0 <= i <= |query|
        invariant params.formUrlEncode == formUrlEncode
        invariant params.list == QueryPairs(encodeUriComponent, query[..i])
      {
        var (key, value) := query[i];
        match value {
          case Array(items) =>
            var j := 0;
            while j < |items|
              invariant 0 <= j <= |items|
              invariant params.list == QueryPairs(encodeUriComponent, query[..i]) + ArrayPairs(key, items[..j])
            {
              params.Append(key, ToJsString(items[j]));
              ArrayPairsStep(key, items, j);
              j := j + 1;
            }
            assert items[..j] == items;
          case Scalar(v) =>
            params.Append(key, encodeUriComponent(ToJsString(v)));
        }
        QueryPairsStep(encodeUriComponent, query, i);
        i := i + 1;
      }
      assert query[..i] == query;
      s := params.ToString();
    }

    /** `buildGetRequest(endpoint, query, headers)`: the endpoint resolved
        against the base URL, with the parameterized query as its search. */
    method BuildGetRequest(endpoint: string, query: Query, headers: Option<seq<Pair>>) returns (request: Request)
      ensures request.headers == headers
      ensures request.url == Href(SetSearch(resolve(endpoint, apiBaseUrl),
                                            Serialize(formUrlEncode, QueryPairs(encodeUriComponent, query))))
    {
      var url := resolve(endpoint, apiBaseUrl);
      var search := Parameterize(query);
      url := SetSearch(url, search);
      request := Request(Href(url), headers);
    }
  }

  /** A GET request for an empty query carries no query at all. */
  lemma EmptyQueryRequestHasNoSearch(encodeUriComponent: string -> string, formUrlEncode: string -> string,
                                     base: Url)
    ensures Href(SetSearch(base, Serialize(formUrlEncode, QueryPairs(encodeUriComponent, []))))
            == base.beforeQuery
  {
    EmptyQuerySerializesEmpty(encodeUriComponent, formUrlEncode);
  }
}
