/** The record types of src/models/ResearchResults.py: one option record per
    research category, with the schema's defaults as constructor defaults, and
    the ResearchResults bundle. Prices are reals; they are only ever compared
    with 0. A Python `Optional[...] = None` field is an `Option` defaulting to
    `None`; an untyped `Optional[list]` holds strings. */
module Research {
  import opened Wrappers

  datatype ActivityOption = ActivityOption(
    name: string,
    description: Option<string> := None,
    price: real := 0.0,
    location: Option<string> := None,
    duration: Option<real> := None,
    bookingUrl: Option<string> := None,
    contactInfo: Option<string> := None,
    timings: Option<string> := None)

  datatype EventOption = EventOption(
    name: string,
    description: Option<string> := None,
    date: Option<string> := None,
    price: real := 0.0,
    location: Option<string> := None,
    duration: Option<real> := None,
    bookingUrl: Option<string> := None,
    contactInfo: Option<string> := None,
    timings: Option<string> := None)

  /** `price` has no default: a flight cannot be built without one. */
  datatype FlightOption = FlightOption(
    airline: string,
    departureTime: string,
    arrivalTime: string,
    price: real,
    origin: string,
    destination: string,
    duration: Option<string> := None,
    bookingUrl: Option<string> := None,
    classType: Option<string> := Some("Economy"))

  /** Has `price_per_night`, and no field called `price`. */
  datatype HotelOption = HotelOption(
    name: string,
    location: string,
    pricePerNight: real,
    rating: Option<real> := None,
    amenities: Option<seq<string>> := None,
    bookingUrl: Option<string> := None,
    neighborhood: Option<string> := None,
    contactInfo: Option<string> := None,
    reviews: Option<seq<string>> := None)

  datatype RestaurantOption = RestaurantOption(
    name: string,
    cuisine: Option<string> := None,
    priceRange: Option<string> := None,
    location: Option<string> := None,
    rating: Option<real> := None,
    reservationUrl: Option<string> := None,
    contactInfo: Option<string> := None,
    openingHours: Option<string> := None,
    reviews: Option<seq<string>> := None,
    recommendedMenu: Option<seq<string>> := None,
    closingHours: Option<string> := None)

  /** The Python field `type` is called `kind` here (`type` is a Dafny keyword). */
  datatype TransportationOption = TransportationOption(
    kind: string,
    price: Option<real> := None,
    duration: Option<string> := None,
    departureTime: Option<string> := None,
    arrivalTime: Option<string> := None,
    origin: Option<string> := None,
    destination: Option<string> := None,
    bookingUrl: Option<string> := None,
    contactInfo: Option<string> := None,
    classType: Option<string> := None)

  /** The bundle; no length cap is imposed on any list. */
  datatype ResearchResults = ResearchResults(
    flights: seq<FlightOption> := [],
    hotels: seq<HotelOption> := [],
    restaurants: seq<RestaurantOption> := [],
    activities: seq<ActivityOption> := [],
    events: seq<EventOption> := [],
    transportationOptions: seq<TransportationOption> := [])

  /** One value of the `research` dictionary an agent returns: the dumped
      records of one category. */
  datatype Records =
    | FlightList(flights: seq<FlightOption>)
    | HotelList(hotels: seq<HotelOption>)
    | RestaurantList(restaurants: seq<RestaurantOption>)
    | ActivityList(activities: seq<ActivityOption>)
    | EventList(events: seq<EventOption>)
    | TransportationList(options: seq<TransportationOption>)

  /** The keys of the `research` dictionary: the ResearchResults field names. */
  const FlightsKey: string := "flights"
  const HotelsKey: string := "hotels"
  const RestaurantsKey: string := "restaurants"
  const ActivitiesKey: string := "activities"
  const EventsKey: string := "events"
  const TransportationKey: string := "transportation_options"

  /** The ResearchResults the `research` dictionary becomes when it is stored in
      the state: each field takes the value under its own field name, a missing
      key leaves the default `[]`, and keys that name no field are ignored. */
  function FromDict(m: map<string, Records>): (r: ResearchResults)
    ensures FlightsKey !in m ==> r.flights == []
    ensures HotelsKey !in m ==> r.hotels == []
    ensures RestaurantsKey !in m ==> r.restaurants == []
    ensures ActivitiesKey !in m ==> r.activities == []
    ensures EventsKey !in m ==> r.events == []
    ensures TransportationKey !in m ==> r.transportationOptions == []
    ensures FlightsKey in m && m[FlightsKey].FlightList? ==> r.flights == m[FlightsKey].flights
    ensures HotelsKey in m && m[HotelsKey].HotelList? ==> r.hotels == m[HotelsKey].hotels
    ensures RestaurantsKey in m && m[RestaurantsKey].RestaurantList? ==> r.restaurants == m[RestaurantsKey].restaurants
    ensures ActivitiesKey in m && m[ActivitiesKey].ActivityList? ==> r.activities == m[ActivitiesKey].activities
    ensures EventsKey in m && m[EventsKey].EventList? ==> r.events == m[EventsKey].events
    ensures TransportationKey in m && m[TransportationKey].TransportationList?
      ==> r.transportationOptions == m[TransportationKey].options
  {
    ResearchResults(
      flights := if FlightsKey in m && m[FlightsKey].FlightList? then m[FlightsKey].flights else [],
      hotels := if HotelsKey in m && m[HotelsKey].HotelList? then m[HotelsKey].hotels else [],
      restaurants := if RestaurantsKey in m && m[RestaurantsKey].RestaurantList? then m[RestaurantsKey].restaurants else [],
      activities := if ActivitiesKey in m && m[ActivitiesKey].ActivityList? then m[ActivitiesKey].activities else [],
      events := if EventsKey in m && m[EventsKey].EventList? then m[EventsKey].events else [],
      transportationOptions :=
        if TransportationKey in m && m[TransportationKey].TransportationList?
        then m[TransportationKey].options else [])
  }

  /** The schema defaults: prices of activities and events are 0.0, flights
      travel Economy unless told otherwise, hotels, restaurants and transport
      leave every optional field None, and a fresh bundle is empty. */
  lemma Defaults(name: string, location: string, kind: string, price: real)
    ensures ActivityOption(name).price == 0.0 && ActivityOption(name).location == None
    ensures EventOption(name).price == 0.0 && EventOption(name).location == None
    ensures FlightOption(name, "", "", price, "", "").classType == Some("Economy")
    ensures FlightOption(name, "", "", price, "", "").price == price
    ensures var h := HotelOption(name, location, price);
      h.rating == None && h.amenities == None && h.bookingUrl == None
      && h.neighborhood == None && h.contactInfo == None && h.reviews == None
    ensures RestaurantOption(name).location == None
    ensures TransportationOption(kind).price == None
    ensures var b := ResearchResults();
      b.flights == [] && b.hotels == [] && b.restaurants == []
      && b.activities == [] && b.events == [] && b.transportationOptions == []
  {
  }
}
