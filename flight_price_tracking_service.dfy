/** The price-tracking service: subscribing a phone number to a price watch,
    searching the flight provider for a watch, notifying a phone number of
    found flights by SMS, and the sweep that checks every watch of every
    stored phone number.

    The flight provider is a function from query to result list; a provider
    error reaches the service as an empty list. The sweep is modelled as
    the sequential nested loop the source evidently intends: as written it
    hands `this.trackPrice` to `forEach` unbound and never awaits the
    per-subscription callbacks (see `AsWrittenSweepMessages`). */
module FlightPriceTracking {
  import opened Wrappers
  import opened Sequences
  import opened JsBuiltins
  import opened JsArrays
  import opened FlightTypes
  import opened KiwiApi
  import opened PhoneSubscriptionContainer
  import opened SmsTransport

  /** How many flights one notification lists by default. */
  const DefaultFlightsToSend: int := 3

  /** What separates the links in a notification. */
  const LinkSeparator: string := "\n\n"

  // ---------------------------------------------------------------------
  // upsertPhoneSubscription
  // ---------------------------------------------------------------------

  /** The subscriptions stored for a phone number (those of the record the
      phone-number query returns first), or none. */
  function SubscriptionsOf(rs: seq<StoredRecord>, phoneNumber: string): seq<FlightPriceSubscription>
  {
    match FindByPhone(rs, phoneNumber)
    case Some(r) => r.subscriptions
    case None => []
  }

  /** No two records share a phone number. */
  predicate PhonesUnique(rs: seq<StoredRecord>)
  {
    forall i, j :: 0 <= i < j < |rs| ==> rs[i].phoneNumber != rs[j].phoneNumber
  }

  /** The store's records after `upsertPhoneSubscription(phone, sub)`, when
      `freshId` is the id the store would give a new document. */
  function UpsertedRecords(rs: seq<StoredRecord>, freshId: RecordId, phoneNumber: string,
                           subscription: FlightPriceSubscription): seq<StoredRecord>
  {
    match FindByPhone(rs, phoneNumber)
    case Some(existing) =>
      (match Replaced(rs, existing.(subscriptions := existing.subscriptions + [subscription]))
       case Some(updated) => updated
       case None => rs)
    case None => Upserted(rs, StoredRecord(freshId, phoneNumber, [subscription]))
  }

  /** Upsert appends the subscription to the phone number's list, or starts
      a one-element list in a new record; the existing record is written
      back in place, and no other phone number's subscriptions change. */
  lemma UpsertAppendsSubscription(rs: seq<StoredRecord>, freshId: RecordId,
                                   phoneNumber: string, subscription: FlightPriceSubscription)
    requires forall i :: 0 <= i < |rs| ==> rs[i].id < freshId
    ensures SubscriptionsOf(UpsertedRecords(rs, freshId, phoneNumber, subscription), phoneNumber)
            == SubscriptionsOf(rs, phoneNumber) + [subscription]
    ensures |SubscriptionsOf(UpsertedRecords(rs, freshId, phoneNumber, subscription), phoneNumber)|
            == |SubscriptionsOf(rs, phoneNumber)| + 1
    ensures forall p :: p != phoneNumber ==>
              FindByPhone(UpsertedRecords(rs, freshId, phoneNumber, subscription), p) == FindByPhone(rs, p)
    ensures FindByPhone(rs, phoneNumber).Some? ==>
              exists k :: && 0 <= k < |rs|
                          && rs[k] == FindByPhone(rs, phoneNumber).value
                          && UpsertedRecords(rs, freshId, phoneNumber, subscription)
                             == rs[k := rs[k].(subscriptions := rs[k].subscriptions + [subscription])]
    ensures FindByPhone(rs, phoneNumber).None? ==>
              UpsertedRecords(rs, freshId, phoneNumber, subscription)
              == rs + [StoredRecord(freshId, phoneNumber, [subscription])]
  {
    if FindByPhone(rs, phoneNumber).Some? {
      UpsertExistingPhone(rs, freshId, phoneNumber, subscription);
    } else {
      UpsertNewPhone(rs, freshId, phoneNumber, subscription);
    }
  }

  /** The phone number already has a record: that record is rewritten in
      place with the subscription appended. */
  lemma UpsertExistingPhone(rs: seq<StoredRecord>, freshId: RecordId,
                            phoneNumber: string, subscription: FlightPriceSubscription)
    requires FindByPhone(rs, phoneNumber).Some?
    ensures var k := FirstIndex(rs, (r: StoredRecord) => r.phoneNumber == phoneNumber).value;
            && rs[k] == FindByPhone(rs, phoneNumber).value
            && UpsertedRecords(rs, freshId, phoneNumber, subscription)
               == rs[k := rs[k].(subscriptions := rs[k].subscriptions + [subscription])]
            && FindByPhone(UpsertedRecords(rs, freshId, phoneNumber, subscription), phoneNumber)
               == Some(rs[k].(subscriptions := rs[k].subscriptions + [subscription]))
    ensures forall p :: p != phoneNumber ==>
              FindByPhone(UpsertedRecords(rs, freshId, phoneNumber, subscription), p) == FindByPhone(rs, p)
  {
    var samePhone := (r: StoredRecord) => r.phoneNumber == phoneNumber;
    var existing := FindByPhone(rs, phoneNumber).value;
    var k := FirstIndex(rs, samePhone).value;
    var updated := existing.(subscriptions := existing.subscriptions + [subscription]);
    var u := rs[k := updated];
    FirstWithPhoneHasFirstKey(rs, phoneNumber, k);
    assert UpsertedRecords(rs, freshId, phoneNumber, subscription) == u;
    FindAfterUpdate(rs, k, updated, samePhone);
    forall p | p != phoneNumber
      ensures FindByPhone(u, p) == FindByPhone(rs, p)
    {
      FindAgrees(u, rs, (r: StoredRecord) => r.phoneNumber == p);
    }
  }

  /** The first record with a phone number is also the first with its own
      key. */
  lemma FirstWithPhoneHasFirstKey(rs: seq<StoredRecord>, phoneNumber: string, k: nat)
    requires FirstIndex(rs, (r: StoredRecord) => r.phoneNumber == phoneNumber) == Some(k)
    ensures IndexOfKey(rs, rs[k].id, rs[k].phoneNumber) == Some(k)
  {
    assert HasKey(rs[k], rs[k].id, rs[k].phoneNumber);
  }

  /** The phone number has no record: a new record with a fresh id and the
      single subscription goes at the end. */
  lemma UpsertNewPhone(rs: seq<StoredRecord>, freshId: RecordId,
                       phoneNumber: string, subscription: FlightPriceSubscription)
    requires forall i :: 0 <= i < |rs| ==> rs[i].id < freshId
    requires FindByPhone(rs, phoneNumber).None?
    ensures UpsertedRecords(rs, freshId, phoneNumber, subscription)
            == rs + [StoredRecord(freshId, phoneNumber, [subscription])]
    ensures FindByPhone(UpsertedRecords(rs, freshId, phoneNumber, subscription), phoneNumber)
            == Some(StoredRecord(freshId, phoneNumber, [subscription]))
    ensures forall p :: p != phoneNumber ==>
              FindByPhone(UpsertedRecords(rs, freshId, phoneNumber, subscription), p) == FindByPhone(rs, p)
  {
    var rec := StoredRecord(freshId, phoneNumber, [subscription]);
    assert IndexOfKey(rs, freshId, phoneNumber).None?;
    FindAppend(rs, rec, (r: StoredRecord) => r.phoneNumber == phoneNumber);
    forall p | p != phoneNumber
      ensures FindByPhone(rs + [rec], p) == FindByPhone(rs, p)
    {
      FindAppend(rs, rec, (r: StoredRecord) => r.phoneNumber == p);
    }
  }

  /** Upserts through the service never give one phone number two records. */
  lemma UpsertKeepsPhonesUnique(rs: seq<StoredRecord>, freshId: RecordId,
                                phoneNumber: string, subscription: FlightPriceSubscription)
    requires PhonesUnique(rs)
    requires forall i :: 0 <= i < |rs| ==> rs[i].id < freshId
    ensures PhonesUnique(UpsertedRecords(rs, freshId, phoneNumber, subscription))
  {
    UpsertAppendsSubscription(rs, freshId, phoneNumber, subscription);
    if FindByPhone(rs, phoneNumber).None? {
      assert forall i :: 0 <= i < |rs| ==> rs[i].phoneNumber != phoneNumber;
    }
  }

  // ---------------------------------------------------------------------
  // searchFlights and searchLocations
  // ---------------------------------------------------------------------

  /** The provider query for a subscription: the subscription's own fields,
      with both date windows pinned to a single day, results sorted by
      price, English locale, and `max_stopovers` set to `non_stop && 0`. */
  function SearchQueryFor(s: FlightPriceSubscription): (q: SearchQuery)
    ensures q.dateFrom == q.dateTo == s.dateFrom
    ensures q.returnFrom == q.returnTo == s.returnFrom
    ensures q.sort == "price" && q.locale == "en"
    ensures q.maxStopovers == if s.nonStop then Num(0) else Bool(false)
  {
    SearchQuery(
      flyFrom := s.flyFrom, flyTo := s.flyTo,
      dateFrom := s.dateFrom, dateTo := s.dateFrom,
      returnFrom := s.returnFrom, returnTo := s.returnFrom,
      adults := s.adults, children := s.children, infants := s.infants,
      selectedCabins := s.selectedCabins, nonStop := s.nonStop, curr := s.curr,
      priceTo := s.priceTo, limit := s.limit,
      locale := "en", sort := "price",
      maxStopovers := if s.nonStop then Num(0) else Bool(false))
  }

  /** The subscription fields a query carries. */
  function QuerySubscription(q: SearchQuery): FlightPriceSubscription
  {
    FlightPriceSubscription(q.flyFrom, q.flyTo, q.dateFrom, q.returnFrom, q.adults, q.children,
                            q.infants, q.selectedCabins, q.nonStop, q.curr, q.priceTo, q.limit)
  }

  /** Every subscription field reaches the provider unchanged. */
  lemma QueryCarriesSubscription(s: FlightPriceSubscription)
    ensures QuerySubscription(SearchQueryFor(s)) == s
  {
  }

  /** The name of an optional country (`country?.name`). */
  function CountryName(c: Option<Country>): Option<string>
  {
    match c
    case Some(country) => Some(country.name)
    case None => None
  }

  function ToFlightDto(x: Search): FlightDto
  {
    FlightDto(x.id, x.flyFrom, x.flyTo, x.cityFrom, x.cityTo,
              CountryName(x.countryFrom), CountryName(x.countryTo), x.price, x.deepLink)
  }

  /** `searchFlights(subscription)`: one DTO per provider result, in the
      provider's order. */
  function SearchFlights(api: SearchQuery -> seq<Search>, s: FlightPriceSubscription): (flights: seq<FlightDto>)
    ensures |flights| == |api(SearchQueryFor(s))|
    ensures forall i :: 0 <= i < |flights| ==>
              var x := api(SearchQueryFor(s))[i];
              && flights[i].id == x.id
              && flights[i].flyFrom == x.flyFrom && flights[i].flyTo == x.flyTo
              && flights[i].cityFrom == x.cityFrom && flights[i].cityTo == x.cityTo
              && flights[i].price == x.price
              && flights[i].deepLink == x.deepLink
              && (flights[i].countryFrom.None? <==> x.countryFrom.None?)
              && (flights[i].countryTo.None? <==> x.countryTo.None?)
              && (x.countryFrom.Some? ==> flights[i].countryFrom == Some(x.countryFrom.value.name))
              && (x.countryTo.Some? ==> flights[i].countryTo == Some(x.countryTo.value.name))
  {
    var data := api(SearchQueryFor(s));
    seq(|data|, (i: int) requires 0 <= i < |data| => ToFlightDto(data[i]))
  }

  /** The location kinds the location search asks for. */
  const LocationTypes: seq<string> := ["city", "country", "airport", "subdivision"]

  function LocationQueryFor(term: string): LocationQuery
  {
    LocationQuery(term, LocationTypes, 50, true)
  }

  /** `x.country?.name || x.city?.country?.name`: an empty country name is
      falsy and falls through to the city's country. */
  function LocationCountryName(l: Location): Option<string>
  {
    var direct := CountryName(l.country);
    if direct.Some? && direct.value != "" then direct
    else match l.city
      case Some(city) => CountryName(city.country)
      case None => None
  }

  /** `searchLocations(term)`: one DTO per provider location, in order. */
  function SearchLocations(api: LocationQuery -> seq<Location>, term: string): (r: seq<LocationDto>)
    ensures |r| == |api(LocationQueryFor(term))|
    ensures forall i :: 0 <= i < |r| ==>
              var l := api(LocationQueryFor(term))[i];
              && r[i].id == l.id && r[i].name == l.name && r[i].locationType == l.locationType
              && (r[i].subdivisionName.Some? <==> l.subdivision.Some?)
              && (l.subdivision.Some? ==> r[i].subdivisionName == Some(l.subdivision.value.name))
              && (l.country.Some? && l.country.value.name != "" ==> r[i].countryName == Some(l.country.value.name))
              && (!(l.country.Some? && l.country.value.name != "") ==>
                    r[i].countryName == (if l.city.Some? && l.city.value.country.Some?
                                         then Some(l.city.value.country.value.name) else None))
  {
    var locations := api(LocationQueryFor(term));
    seq(|locations|, (i: int) requires 0 <= i < |locations| =>
      var l := locations[i];
      LocationDto(l.id, l.name,
                  match l.subdivision case Some(sd) => Some(sd.name) case None => None,
                  LocationCountryName(l), l.locationType))
  }

  // ---------------------------------------------------------------------
  // sendFlightNotifications
  // ---------------------------------------------------------------------

  function DeepLinks(flights: seq<FlightDto>): (links: seq<string>)
    ensures |links| == |flights|
    ensures forall i :: 0 <= i < |flights| ==> links[i] == flights[i].deepLink
  {
    seq(|flights|, (i: int) requires 0 <= i < |flights| => flights[i].deepLink)
  }

  /** The deep links `flights.splice(0, flightsToSend)` takes off the front. */
  function LinksToSend(flights: seq<FlightDto>, flightsToSend: int): seq<string>
  {
    DeepLinks(flights[..SpliceDeleteCount(|flights|, SpliceStart(|flights|, 0), flightsToSend)])
  }

  /** A notification lists the deep links of the leading `flightsToSend`
      flights (all of them if there are fewer), in order. */
  lemma LinksToSendTakesLeading(flights: seq<FlightDto>, flightsToSend: int)
    requires flightsToSend >= 0
    ensures |LinksToSend(flights, flightsToSend)| == if flightsToSend < |flights| then flightsToSend else |flights|
    ensures forall i :: 0 <= i < |LinksToSend(flights, flightsToSend)| ==>
              LinksToSend(flights, flightsToSend)[i] == flights[i].deepLink
  {
    SpliceFrontCount(|flights|, flightsToSend);
  }

  /** The fixed parts of the message template, in order. */
  const Greeting: string := "Heyo, Flight.Me here!\n            \nWe found some flights for "
  const RouteJoiner: string := " to "
  const DatesIntro: string := " \n            on dates DEPARTURE: "
  const ReturnIntro: string := " RETURN: "
  const CallToAction: string := ".\n\n            \n\nCheck them out!\n            "
  const MessageFooter: string := "\n            "

  /** The text before the links. */
  function MessageHeader(s: FlightPriceSubscription): string
  {
    Greeting + s.flyFrom + RouteJoiner + s.flyTo + DatesIntro + s.dateFrom + ReturnIntro + s.returnFrom + CallToAction
  }

  /** The SMS body for a subscription and the links to send. */
  function NotificationMessage(s: FlightPriceSubscription, links: seq<string>): string
  {
    MessageHeader(s) + Join(links, LinkSeparator) + MessageFooter
  }

  /** The body lists every link, in order, each separated from the next
      by a blank line. */
  lemma {:induction false} NotificationListsLinks(s: FlightPriceSubscription, links: seq<string>)
    ensures forall i :: 0 <= i < |links| ==>
              OccursAt(NotificationMessage(s, links), links[i], |MessageHeader(s)| + JoinOffset(links, LinkSeparator, i))
    ensures forall i :: 0 <= i < |links| - 1 ==>
              OccursAt(NotificationMessage(s, links), LinkSeparator,
                       |MessageHeader(s)| + JoinOffset(links, LinkSeparator, i) + |links[i]|)
    ensures forall i, j :: 0 <= i < j < |links| ==>
              JoinOffset(links, LinkSeparator, i) + |links[i]| + |LinkSeparator| <= JoinOffset(links, LinkSeparator, j)
  {
    LinksInMessage(s, links);
    SeparatorsInMessage(s, links);
    JoinOffsetsOrdered(links, LinkSeparator);
  }

  /** Where the links sit in the body. */
  lemma {:induction false} LinksInMessage(s: FlightPriceSubscription, links: seq<string>)
    ensures forall i :: 0 <= i < |links| ==>
              OccursAt(NotificationMessage(s, links), links[i], |MessageHeader(s)| + JoinOffset(links, LinkSeparator, i))
  {
    FramedLinks(NotificationMessage(s, links), MessageHeader(s), links, LinkSeparator, MessageFooter);
  }

  /** Where the separators sit in the body. */
  lemma {:induction false} SeparatorsInMessage(s: FlightPriceSubscription, links: seq<string>)
    ensures forall i :: 0 <= i < |links| - 1 ==>
              OccursAt(NotificationMessage(s, links), LinkSeparator,
                       |MessageHeader(s)| + JoinOffset(links, LinkSeparator, i) + |links[i]|)
  {
    FramedSeparators(NotificationMessage(s, links), MessageHeader(s), links, LinkSeparator, MessageFooter);
  }

  /** Each element of a joined list, with the separator after it, ends
      before the next element starts. */
  lemma {:induction false} JoinOffsetsOrdered(xs: seq<string>, sep: string)
    ensures forall i, j :: 0 <= i < j < |xs| ==> JoinOffset(xs, sep, i) + |xs[i]| + |sep| <= JoinOffset(xs, sep, j)
  {
    forall i, j | 0 <= i < j < |xs|
      ensures JoinOffset(xs, sep, i) + |xs[i]| + |sep| <= JoinOffset(xs, sep, j)
    {
      JoinOffsetsIncrease(xs, sep, i, j);
    }
  }

  /** In a message made of a header, a joined list and a footer, each
      element sits at its offset in the joined list. */
  lemma {:induction false} FramedLinks(m: string, h: string, xs: seq<string>, sep: string, f: string)
    requires m == h + Join(xs, sep) + f
    ensures forall i :: 0 <= i < |xs| ==> OccursAt(m, xs[i], |h| + JoinOffset(xs, sep, i))
  {
    forall i | 0 <= i < |xs|
      ensures OccursAt(m, xs[i], |h| + JoinOffset(xs, sep, i))
    {
      JoinContainsEach(xs, sep, i);
      LinkInMessage(h, Join(xs, sep), f, xs[i], JoinOffset(xs, sep, i));
    }
  }

  /** In a message made of a header, a joined list and a footer, a
      separator follows every element but the last. */
  lemma {:induction false} FramedSeparators(m: string, h: string, xs: seq<string>, sep: string, f: string)
    requires m == h + Join(xs, sep) + f
    ensures forall i :: 0 <= i < |xs| - 1 ==> OccursAt(m, sep, |h| + JoinOffset(xs, sep, i) + |xs[i]|)
  {
    forall i | 0 <= i < |xs| - 1
      ensures OccursAt(m, sep, |h| + JoinOffset(xs, sep, i) + |xs[i]|)
    {
      JoinSeparatorAfter(xs, sep, i);
      LinkInMessage(h, Join(xs, sep), f, sep, JoinOffset(xs, sep, i) + |xs[i]|);
    }
  }

  lemma LinkInMessage(h: string, joined: string, f: string, t: string, k: int)
    requires OccursAt(joined, t, k)
    ensures OccursAt(h + joined + f, t, |h| + k)
  {
    assert (h + joined + f)[|h| + k..|h| + k + |t|] == joined[k..k + |t|];
  }

  /** The body names the departure and destination of the subscription. */
  lemma {:induction false} NotificationNamesRoute(s: FlightPriceSubscription, links: seq<string>)
    ensures Includes(NotificationMessage(s, links), s.flyFrom)
    ensures Includes(NotificationMessage(s, links), s.flyTo)
  {
    var msg := NotificationMessage(s, links);
    var a := Greeting;
    var pre := a + s.flyFrom + RouteJoiner;
    assert msg[|a|..|a| + |s.flyFrom|] == s.flyFrom;
    assert OccursAt(msg, s.flyFrom, |a|);
    assert msg[|pre|..|pre| + |s.flyTo|] == s.flyTo;
    assert OccursAt(msg, s.flyTo, |pre|);
  }

  // ---------------------------------------------------------------------
  // The sweep: dispatchPriceTrackers / trackPrice
  // ---------------------------------------------------------------------

  /** The messages checking one subscription sends: none when the search
      finds nothing, otherwise one listing the first three deep links. */
  function SubscriptionMessages(api: SearchQuery -> seq<Search>, from: string, phoneNumber: string,
                                s: FlightPriceSubscription): seq<Sms>
  {
    var flights := SearchFlights(api, s);
    if |flights| == 0 then []
    else [Sms(from, phoneNumber, NotificationMessage(s, LinksToSend(flights, DefaultFlightsToSend)))]
  }

  /** The messages checking a phone number's subscriptions sends, in order. */
  function RecordMessages(api: SearchQuery -> seq<Search>, from: string, phoneNumber: string,
                          subs: seq<FlightPriceSubscription>): seq<Sms>
  {
    if |subs| == 0 then []
    else RecordMessages(api, from, phoneNumber, subs[..|subs| - 1])
         + SubscriptionMessages(api, from, phoneNumber, subs[|subs| - 1])
  }

  /** The messages one sweep over the records sends, in order. */
  function SweepMessages(api: SearchQuery -> seq<Search>, from: string, rs: seq<StoredRecord>): seq<Sms>
  {
    if |rs| == 0 then []
    else SweepMessages(api, from, rs[..|rs| - 1])
         + RecordMessages(api, from, rs[|rs| - 1].phoneNumber, rs[|rs| - 1].subscriptions)
  }

  /** The subscriptions whose search finds something. */
  function MatchingCount(api: SearchQuery -> seq<Search>, subs: seq<FlightPriceSubscription>): nat
  {
    |Filter(subs, (s: FlightPriceSubscription) => |SearchFlights(api, s)| > 0)|
  }

  /** The (record, subscription) pairs whose search finds something. */
  function SweepMatchingCount(api: SearchQuery -> seq<Search>, rs: seq<StoredRecord>): nat
  {
    if |rs| == 0 then 0
    else SweepMatchingCount(api, rs[..|rs| - 1]) + MatchingCount(api, rs[|rs| - 1].subscriptions)
  }

  /** A subscription with no results sends nothing; one with results sends
      exactly one message, to the record's phone, listing the deep links of
      its first min(3, n) flights in provider order. */
  lemma {:induction false} SubscriptionMessagesShape(api: SearchQuery -> seq<Search>, from: string, phoneNumber: string,
                                  s: FlightPriceSubscription)
    ensures |SearchFlights(api, s)| == 0 ==> SubscriptionMessages(api, from, phoneNumber, s) == []
    ensures |SearchFlights(api, s)| > 0 ==>
              var flights := SearchFlights(api, s);
              var links := LinksToSend(flights, DefaultFlightsToSend);
              var msgs := SubscriptionMessages(api, from, phoneNumber, s);
              && |msgs| == 1 && msgs[0].to == phoneNumber && msgs[0].from == from
              && |links| == (if |flights| < 3 then |flights| else 3)
              && forall i :: 0 <= i < |links| ==>
                   OccursAt(msgs[0].body, flights[i].deepLink, |MessageHeader(s)| + JoinOffset(links, LinkSeparator, i))
  {
    var flights := SearchFlights(api, s);
    if |flights| > 0 {
      var links := LinksToSend(flights, DefaultFlightsToSend);
      assert SubscriptionMessages(api, from, phoneNumber, s) == [Sms(from, phoneNumber, NotificationMessage(s, links))];
      LinksToSendTakesLeading(flights, DefaultFlightsToSend);
      LinksInMessage(s, links);
    }
  }

  /** One message per subscription with results. */
  lemma {:induction false} RecordMessagesCount(api: SearchQuery -> seq<Search>, from: string, phoneNumber: string,
                                               subs: seq<FlightPriceSubscription>)
    ensures |RecordMessages(api, from, phoneNumber, subs)| == MatchingCount(api, subs)
    ensures forall m :: m in RecordMessages(api, from, phoneNumber, subs) ==> m.from == from && m.to == phoneNumber
  {
    if |subs| > 0 {
      RecordMessagesCount(api, from, phoneNumber, subs[..|subs| - 1]);
    }
  }

  /** A sweep sends one message per matching (record, subscription) pair,
      each from the configured number to the phone number of a stored
      record. */
  lemma {:induction false} SweepMessagesCount(api: SearchQuery -> seq<Search>, from: string, rs: seq<StoredRecord>)
    ensures |SweepMessages(api, from, rs)| == SweepMatchingCount(api, rs)
    ensures forall m :: m in SweepMessages(api, from, rs) ==>
              m.from == from && exists i :: 0 <= i < |rs| && m.to == rs[i].phoneNumber
  {
    if |rs| > 0 {
      var n := |rs| - 1;
      SweepMessagesCount(api, from, rs[..n]);
      RecordMessagesCount(api, from, rs[n].phoneNumber, rs[n].subscriptions);
      forall m | m in SweepMessages(api, from, rs)
        ensures m.from == from && exists i :: 0 <= i < |rs| && m.to == rs[i].phoneNumber
      {
        if m in SweepMessages(api, from, rs[..n]) {
          var i :| 0 <= i < n && m.to == rs[..n][i].phoneNumber;
          assert m.to == rs[i].phoneNumber;
        } else {
          assert m.to == rs[n].phoneNumber;
        }
      }
    }
  }

  /** Records are checked independently: the sweep over two groups of
      records sends the first group's messages, then the second's. */
  lemma {:induction false} SweepMessagesAppend(api: SearchQuery -> seq<Search>, from: string,
                                               rs1: seq<StoredRecord>, rs2: seq<StoredRecord>)
    ensures SweepMessages(api, from, rs1 + rs2) == SweepMessages(api, from, rs1) + SweepMessages(api, from, rs2)
  {
    if |rs2| > 0 {
      var n := |rs2| - 1;
      SweepMessagesAppend(api, from, rs1, rs2[..n]);
      assert (rs1 + rs2)[..|rs1 + rs2| - 1] == rs1 + rs2[..n];
      assert (rs1 + rs2)[|rs1 + rs2| - 1] == rs2[n];
      ConcatAssoc(SweepMessages(api, from, rs1), SweepMessages(api, from, rs2[..n]),
                  RecordMessages(api, from, rs2[n].phoneNumber, rs2[n].subscriptions));
    } else {
      assert rs1 + rs2 == rs1;
    }
  }

  lemma RecordStep(api: SearchQuery -> seq<Search>, from: string, phoneNumber: string,
                   subs: seq<FlightPriceSubscription>, j: nat)
    requires j < |subs|
    ensures RecordMessages(api, from, phoneNumber, subs[..j + 1])
            == RecordMessages(api, from, phoneNumber, subs[..j]) + SubscriptionMessages(api, from, phoneNumber, subs[j])
  {
    assert subs[..j + 1][..j] == subs[..j];
  }

  lemma SweepStep(api: SearchQuery -> seq<Search>, from: string, rs: seq<StoredRecord>, i: nat)
    requires i < |rs|
    ensures SweepMessages(api, from, rs[..i + 1])
            == SweepMessages(api, from, rs[..i]) + RecordMessages(api, from, rs[i].phoneNumber, rs[i].subscriptions)
  {
    assert rs[..i + 1][..i] == rs[..i];
  }

  // ---------------------------------------------------------------------
  // The sweep as written
  // ---------------------------------------------------------------------

  /** How one per-subscription callback of `trackPrice` ends: its promise
      is rejected, or it completes having sent these messages. */
  datatype CallbackOutcome = Rejected | Completed(sent: seq<Sms>)

  /** One callback. When `thisBound` is false, `this` inside `trackPrice`
      (and so inside the arrow callback) is undefined, and the callback's
      first step `this.searchFlights(...)` throws, rejecting its promise
      before any search or message. */
  function Callback(thisBound: bool, api: SearchQuery -> seq<Search>, from: string, phoneNumber: string,
                    s: FlightPriceSubscription): CallbackOutcome
  {
    if thisBound then Completed(SubscriptionMessages(api, from, phoneNumber, s)) else Rejected
  }

  /** The outcomes of `trackPrice(record)`'s callbacks, one per subscription. */
  function CallbackOutcomes(thisBound: bool, api: SearchQuery -> seq<Search>, from: string,
                            rec: StoredRecord): (outs: seq<CallbackOutcome>)
    ensures |outs| == |rec.subscriptions|
  {
    seq(|rec.subscriptions|, (i: int) requires 0 <= i < |rec.subscriptions| =>
      Callback(thisBound, api, from, rec.phoneNumber, rec.subscriptions[i]))
  }

  /** The messages the completed callbacks sent, in order. */
  function Delivered(outs: seq<CallbackOutcome>): seq<Sms>
  {
    if |outs| == 0 then []
    else Delivered(outs[..|outs| - 1]) + (match outs[|outs| - 1] case Rejected => [] case Completed(sent) => sent)
  }

  /** The messages `dispatchPriceTrackers()` sends as written: it calls
      `forEach(this.trackPrice)`, so every `trackPrice` runs unbound. */
  function AsWrittenSweepMessages(api: SearchQuery -> seq<Search>, from: string, rs: seq<StoredRecord>): seq<Sms>
  {
    if |rs| == 0 then []
    else AsWrittenSweepMessages(api, from, rs[..|rs| - 1]) + Delivered(CallbackOutcomes(false, api, from, rs[|rs| - 1]))
  }

  /** With `this` bound, a record's callbacks deliver exactly the messages
      the sequential `TrackPrice` sends. */
  lemma {:induction false} BoundCallbacksDeliverRecordMessages(api: SearchQuery -> seq<Search>, from: string,
                                                               rec: StoredRecord)
    ensures Delivered(CallbackOutcomes(true, api, from, rec))
            == RecordMessages(api, from, rec.phoneNumber, rec.subscriptions)
    decreases |rec.subscriptions|
  {
    var n := |rec.subscriptions|;
    if n > 0 {
      var shorter := rec.(subscriptions := rec.subscriptions[..n - 1]);
      BoundCallbacksDeliverRecordMessages(api, from, shorter);
      assert CallbackOutcomes(true, api, from, rec)[..n - 1] == CallbackOutcomes(true, api, from, shorter);
    }
  }

  /** Unbound callbacks all reject, so a record delivers nothing. */
  lemma {:induction false} UnboundCallbacksDeliverNothing(outs: seq<CallbackOutcome>)
    requires forall i :: 0 <= i < |outs| ==> outs[i].Rejected?
    ensures Delivered(outs) == []
  {
    if |outs| > 0 {
      UnboundCallbacksDeliverNothing(outs[..|outs| - 1]);
    }
  }

  /** As written, a sweep never sends a message, whatever is stored and
      whatever the provider returns. */
  lemma {:induction false} AsWrittenSweepSendsNothing(api: SearchQuery -> seq<Search>, from: string,
                                                      rs: seq<StoredRecord>)
    ensures AsWrittenSweepMessages(api, from, rs) == []
  {
    if |rs| > 0 {
      AsWrittenSweepSendsNothing(api, from, rs[..|rs| - 1]);
      UnboundCallbacksDeliverNothing(CallbackOutcomes(false, api, from, rs[|rs| - 1]));
    }
  }

  // ---------------------------------------------------------------------
  // Scenarios
  // ---------------------------------------------------------------------

  const ScenarioPhone: string := "+15551234567"
  const ScenarioLink: string := "https://x/y"

  const ScenarioSubscription: FlightPriceSubscription :=
    FlightPriceSubscription("NYC", "LAX", "2025-06-01", "2025-06-10", 1, 0, 0, "M", false, "USD", 200, 10)

  /** A provider with one flight out of NYC and nothing elsewhere. */
  function ScenarioApi(q: SearchQuery): seq<Search>
  {
    if q.flyFrom == "NYC"
    then [Search("f1", "NYC", "LAX", "New York", "Los Angeles", None, None, 199, ScenarioLink)]
    else []
  }

  /** One stored phone number watching NYC to LAX: the intended sweep texts
      it one message with the single link; the sweep as written texts
      nothing. */
  lemma UnboundSweepLosesNotification(from: string)
    ensures SweepMessages(ScenarioApi, from, [StoredRecord(0, ScenarioPhone, [ScenarioSubscription])])
            == [Sms(from, ScenarioPhone, NotificationMessage(ScenarioSubscription, [ScenarioLink]))]
    ensures AsWrittenSweepMessages(ScenarioApi, from, [StoredRecord(0, ScenarioPhone, [ScenarioSubscription])]) == []
  {
    var rs := [StoredRecord(0, ScenarioPhone, [ScenarioSubscription])];
    var flights := SearchFlights(ScenarioApi, ScenarioSubscription);
    assert |flights| == 1 && flights[0].deepLink == ScenarioLink;
    assert LinksToSend(flights, DefaultFlightsToSend) == [ScenarioLink];
    var expected := [Sms(from, ScenarioPhone, NotificationMessage(ScenarioSubscription, [ScenarioLink]))];
    assert SubscriptionMessages(ScenarioApi, from, ScenarioPhone, ScenarioSubscription) == expected;
    assert [ScenarioSubscription][..0] == [];
    assert RecordMessages(ScenarioApi, from, ScenarioPhone, [ScenarioSubscription]) == expected;
    assert rs[..0] == [];
    assert SweepMessages(ScenarioApi, from, rs) == [] + expected;
    AsWrittenSweepSendsNothing(ScenarioApi, from, rs);
  }

  /** A watch whose search finds nothing holds back neither the next
      watch of the same record nor another phone number's notification. */
  lemma EmptySearchIsolated(from: string)
    ensures var quiet := ScenarioSubscription.(flyFrom := "AAA");
            SweepMessages(ScenarioApi, from, [StoredRecord(0, ScenarioPhone, [quiet, ScenarioSubscription])])
            == [Sms(from, ScenarioPhone, NotificationMessage(ScenarioSubscription, [ScenarioLink]))]
    ensures var quiet := ScenarioSubscription.(flyFrom := "AAA");
            SweepMessages(ScenarioApi, from, [StoredRecord(0, "+15550000000", [quiet]),
                                              StoredRecord(1, ScenarioPhone, [ScenarioSubscription])])
            == [Sms(from, ScenarioPhone, NotificationMessage(ScenarioSubscription, [ScenarioLink]))]
  {
    var quiet := ScenarioSubscription.(flyFrom := "AAA");
    var a := StoredRecord(0, "+15550000000", [quiet]);
    var b := StoredRecord(1, ScenarioPhone, [ScenarioSubscription]);
    assert SearchFlights(ScenarioApi, quiet) == [];
    assert [quiet][..0] == [] && [ScenarioSubscription][..0] == [];
    SameRecordAfterQuietWatch(from, quiet);
    assert SubscriptionMessages(ScenarioApi, from, a.phoneNumber, quiet) == [];
    assert RecordMessages(ScenarioApi, from, a.phoneNumber, a.subscriptions) == [];
    assert [a][..0] == [];
    assert SweepMessages(ScenarioApi, from, [a]) == [];
    UnboundSweepLosesNotification(from);
    SweepMessagesAppend(ScenarioApi, from, [a], [b]);
    assert [a] + [b] == [a, b];
  }

  /** The one-record case of `EmptySearchIsolated`. */
  lemma SameRecordAfterQuietWatch(from: string, quiet: FlightPriceSubscription)
    requires SearchFlights(ScenarioApi, quiet) == []
    ensures SweepMessages(ScenarioApi, from, [StoredRecord(0, ScenarioPhone, [quiet, ScenarioSubscription])])
            == [Sms(from, ScenarioPhone, NotificationMessage(ScenarioSubscription, [ScenarioLink]))]
  {
    var subs := [quiet, ScenarioSubscription];
    var r := StoredRecord(0, ScenarioPhone, subs);
    var expected := [Sms(from, ScenarioPhone, NotificationMessage(ScenarioSubscription, [ScenarioLink]))];
    assert RecordMessages(ScenarioApi, from, ScenarioPhone, [ScenarioSubscription]) == expected by {
      var single := StoredRecord(0, ScenarioPhone, [ScenarioSubscription]);
      UnboundSweepLosesNotification(from);
      assert [single][..0] == [];
    }
    assert subs[..1] == [quiet] && [quiet][..0] == [];
    assert SubscriptionMessages(ScenarioApi, from, ScenarioPhone, quiet) == [];
    assert RecordMessages(ScenarioApi, from, ScenarioPhone, [quiet]) == [];
    assert RecordMessages(ScenarioApi, from, ScenarioPhone, subs) == expected;
    assert [r][..0] == [];
  }

  // ---------------------------------------------------------------------
  // The service object
  // ---------------------------------------------------------------------

  class FlightPriceTrackingService {
    const store: PhoneSubscriptionsContainer
    const sms: SmsService
    const searchApi: SearchQuery -> seq<Search>
    const locationsApi: LocationQuery -> seq<Location>

    constructor(store: PhoneSubscriptionsContainer, sms: SmsService,
                searchApi: SearchQuery -> seq<Search>, locationsApi: LocationQuery -> seq<Location>)
      ensures this.store == store && this.sms == sms
      ensures this.searchApi == searchApi && this.locationsApi == locationsApi
    {
      this.store := store;
      this.sms := sms;
      this.searchApi := searchApi;
      this.locationsApi := locationsApi;
    }

    /** `upsertPhoneSubscription(phone, subscription)`. */
    method UpsertPhoneSubscription(phoneNumber: string, subscription: FlightPriceSubscription)
      requires store.Valid()
      modifies store
      ensures store.Valid()
      ensures store.records == UpsertedRecords(old(store.records), old(store.nextId), phoneNumber, subscription)
    {
      var existing := store.GetByPhoneNumber(phoneNumber);
      match existing
      case Some(rec) =>
        UpdateSubscription(rec, subscription);
      case None =>
        CreateSubscription(phoneNumber, subscription);
    }

    /** Pushes the subscription onto the fetched record's list and writes
        the record back with `replace`. */
    method UpdateSubscription(existing: StoredRecord, subscription: FlightPriceSubscription)
      requires store.Valid() && existing in store.records
      modifies store
      ensures store.Valid()
      ensures Replaced(old(store.records), existing.(subscriptions := existing.subscriptions + [subscription]))
              == Some(store.records)
    {
      var updated := existing.(subscriptions := existing.subscriptions + [subscription]);
      var j :| 0 <= j < |store.records| && store.records[j] == existing;
      assert HasKey(store.records[j], updated.id, updated.phoneNumber);
      ReplaceOverwritesOnly(store.records, updated);
      var outcome := store.Replace(updated);
    }

    /** Stores a new record holding just this subscription. */
    method CreateSubscription(phoneNumber: string, subscription: FlightPriceSubscription)
      requires store.Valid()
      modifies store
      ensures store.Valid()
      ensures store.records == Upserted(old(store.records), StoredRecord(old(store.nextId), phoneNumber, [subscription]))
    {
      var phoneSubscription := PhoneSubscription(phoneNumber, [subscription]);
      var created := store.Create(phoneSubscription, None);
    }

    /** `sendFlightNotifications(phone, subscription, flights, flightsToSend)`:
        takes the leading flights off the caller's array and texts their
        deep links to the phone number. */
    method SendFlightNotifications(phoneNumber: string, subscription: FlightPriceSubscription,
                                   flights: JsArray<FlightDto>, flightsToSend: int := DefaultFlightsToSend)
      modifies flights, sms
      ensures var k := SpliceDeleteCount(|old(flights.items)|, 0, flightsToSend);
              flights.items == old(flights.items)[k..]
      ensures sms.sent == old(sms.sent)
                          + [Sms(sms.phoneNumber, phoneNumber,
                                 NotificationMessage(subscription, LinksToSend(old(flights.items), flightsToSend)))]
    {
      var sent := flights.Splice(0, flightsToSend);
      var linksToSend := DeepLinks(sent);
      var message := NotificationMessage(subscription, linksToSend);
      sms.SendMessage(phoneNumber, message);
    }

    /** `trackPrice(record)`: checks each subscription in turn. */
    method TrackPrice(phoneSubscription: StoredRecord)
      modifies sms
      ensures sms.sent == old(sms.sent)
                          + RecordMessages(searchApi, sms.phoneNumber, phoneSubscription.phoneNumber,
                                           phoneSubscription.subscriptions)
    {
      var subs := phoneSubscription.subscriptions;
      var j := 0;
      while j < |subs|
        invariant 0 <= j <= |subs|
        invariant sms.sent == old(sms.sent)
                             + RecordMessages(searchApi, sms.phoneNumber, phoneSubscription.phoneNumber, subs[..j])
      {
        var subscription := subs[j];
        var flights := SearchFlights(searchApi, subscription);
        if |flights| > 0 {
          var flightArray := new JsArray(flights);
          SendFlightNotifications(phoneSubscription.phoneNumber, subscription, flightArray);
        }
        RecordStep(searchApi, sms.phoneNumber, phoneSubscription.phoneNumber, subs, j);
        ConcatAssoc(old(sms.sent), RecordMessages(searchApi, sms.phoneNumber, phoneSubscription.phoneNumber, subs[..j]),
                    SubscriptionMessages(searchApi, sms.phoneNumber, phoneSubscription.phoneNumber, subs[j]));
        j := j + 1;
      }
      assert subs[..j] == subs;
    }

    /** `dispatchPriceTrackers()`: one sweep over every stored record. */
    method DispatchPriceTrackers()
      modifies sms
      ensures sms.sent == old(sms.sent) + SweepMessages(searchApi, sms.phoneNumber, store.records)
    {
      var phoneSubscriptions := store.GetAll();
      ghost var from := sms.phoneNumber;
      ghost var sent0 := sms.sent;
      var i := 0;
      while i < |phoneSubscriptions|
        invariant 0 <= i <= |phoneSubscriptions|
        invariant sms.sent == sent0 + SweepMessages(searchApi, from, phoneSubscriptions[..i])
      {
        ghost var before := SweepMessages(searchApi, from, phoneSubscriptions[..i]);
        TrackPrice(phoneSubscriptions[i]);
        ghost var added := RecordMessages(searchApi, from, phoneSubscriptions[i].phoneNumber, phoneSubscriptions[i].subscriptions);
        SweepStep(searchApi, from, phoneSubscriptions, i);
        ConcatAssoc(sent0, before, added);
        i := i + 1;
      }
      assert phoneSubscriptions[..i] == phoneSubscriptions;
    }
  }
}
