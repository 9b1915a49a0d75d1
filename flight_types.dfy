/** The application's own record types: price subscriptions, the per-phone
    subscription document, the DTOs the API returns, airports and travel
    class options. Field names follow the TypeScript ones in camel case
    (`fly_from` is `flyFrom`). */
module FlightTypes {
  import opened Wrappers

  /** The cabin codes a search form may carry (`TravelClasses`). */
  const TravelClasses: seq<string> := ["M", "W", "C", "F", ""]

  datatype TravelClassOption = TravelClassOption(caption: string, value: string)

  /** One price watch: a route, dates, passengers and a price ceiling. */
  datatype FlightPriceSubscription = FlightPriceSubscription(
    flyFrom: string,
    flyTo: string,
    dateFrom: string,
    returnFrom: string,
    adults: int,
    children: int,
    infants: int,
    selectedCabins: string,
    nonStop: bool,
    curr: string,
    priceTo: int,
    limit: int)

  /** All price watches of one phone number. */
  datatype PhoneSubscription = PhoneSubscription(
    phoneNumber: string,
    subscriptions: seq<FlightPriceSubscription>)

  /** One flight offer as the service hands it on. */
  datatype FlightDto = FlightDto(
    id: string,
    flyFrom: string,
    flyTo: string,
    cityFrom: string,
    cityTo: string,
    countryFrom: Option<string>,
    countryTo: Option<string>,
    price: int,
    deepLink: string)

  /** One location search hit as the service hands it on. */
  datatype LocationDto = LocationDto(
    id: string,
    name: string,
    subdivisionName: Option<string>,
    countryName: Option<string>,
    locationType: string)

  /** An entry of the bundled airport list. */
  datatype Airport = Airport(
    id: string,
    name: string,
    city: string,
    city2: Option<string>,
    state: Option<string>,
    stateShort: Option<string>,
    country: string,
    description: string,
    imageCredit: string,
    imageCreditLink: Option<string>)
}

/** The parts of the flight provider's (Kiwi) query and result shapes that
    the price-tracking service reads or writes. */
module KiwiApi {
  import opened Wrappers
  import opened JsBuiltins

  datatype Country = Country(code: string, name: string)

  /** The search query. The spread of the subscription puts all of its
      fields in the query, so `nonStop` and `limit` travel along;
      `maxStopovers` is the value of `non_stop && 0`, a number or a
      boolean. */
  datatype SearchQuery = SearchQuery(
    flyFrom: string,
    flyTo: string,
    dateFrom: string,
    dateTo: string,
    returnFrom: string,
    returnTo: string,
    adults: int,
    children: int,
    infants: int,
    selectedCabins: string,
    nonStop: bool,
    curr: string,
    priceTo: int,
    limit: int,
    locale: string,
    sort: string,
    maxStopovers: JsScalar)

  /** One flight offer in the provider's result (`data[i]`). */
  datatype Search = Search(
    id: string,
    flyFrom: string,
    flyTo: string,
    cityFrom: string,
    cityTo: string,
    countryFrom: Option<Country>,
    countryTo: Option<Country>,
    price: int,
    deepLink: string)

  datatype LocationQuery = LocationQuery(
    term: string,
    locationTypes: seq<string>,
    limit: int,
    activeOnly: bool)

  datatype Subdivision = Subdivision(name: string)

  datatype City = City(name: string, country: Option<Country>)

  /** One location in the provider's result (`locations[i]`). */
  datatype Location = Location(
    id: string,
    name: string,
    subdivision: Option<Subdivision>,
    country: Option<Country>,
    city: Option<City>,
    locationType: string)
}
