/** The records the application passes around: itinerary items and the
    flight, hotel and activity views they carry, the destination records the
    three lookups return, and the parameter records of the three searches. */
module Types {
  import opened Wrappers
  import opened JsNumber

  // ------------------------------------------------------------- enums

  /** Flight `stops` filter: "none" | "0" | "1" | "2". */
  datatype Stops = AnyStops | NonStop | OneStop | TwoStops {
    function Value(): string {
      match this
      case AnyStops => "none"
      case NonStop => "0"
      case OneStop => "1"
      case TwoStops => "2"
    }
  }

  /** Flight `sort`: "BEST" | "CHEAPEST" | "FASTEST". */
  datatype SortOrder = Best | Cheapest | Fastest {
    function Value(): string {
      match this
      case Best => "BEST"
      case Cheapest => "CHEAPEST"
      case Fastest => "FASTEST"
    }
  }

  /** Flight `cabinClass`. */
  datatype CabinClass = Economy | PremiumEconomy | Business | First {
    function Value(): string {
      match this
      case Economy => "ECONOMY"
      case PremiumEconomy => "PREMIUM_ECONOMY"
      case Business => "BUSINESS"
      case First => "FIRST"
    }
  }

  /** Hotel `units`: "metric" | "imperial". */
  datatype Units = Metric | Imperial {
    function Value(): string {
      match this
      case Metric => "metric"
      case Imperial => "imperial"
    }
  }

  /** Hotel `temperature_unit`: "c" | "f". */
  datatype TemperatureUnit = Celsius | Fahrenheit {
    function Value(): string {
      match this
      case Celsius => "c"
      case Fahrenheit => "f"
    }
  }

  /** Attraction `sortBy`: "trending" | "attr_book_score" | "lowest_price". */
  datatype AttractionSort = Trending | AttrBookScore | LowestPrice {
    function Value(): string {
      match this
      case Trending => "trending"
      case AttrBookScore => "attr_book_score"
      case LowestPrice => "lowest_price"
    }
  }

  // ------------------------------------------------- destination records

  /** A flight lookup result; its id is a string. */
  datatype FlightDestination = FlightDestination(id: string, name: string, code: string, country: string, city: string)

  /** A hotel lookup result; its id is a number. */
  datatype HotelDestination = HotelDestination(destId: int, name: string, searchType: string, country: string, region: Option<string>)

  /** An attraction lookup result; its id is a string. */
  datatype AttractionLocation = AttractionLocation(id: string, name: string, country: string, region: Option<string>)

  // ----------------------------------------------------------- views

  datatype Money = Money(amount: real, currency: string)

  /** One end of a flight: formatted local time, city and airport code. */
  datatype FlightEnd = FlightEnd(time: string, date: string, airport: string, code: string)

  datatype Flight = Flight(
    id: string,
    uniqueId: string,
    airline: string,
    airlineCode: string,
    airlineLogo: Option<string>,
    flightNumber: string,
    departure: FlightEnd,
    arrival: FlightEnd,
    duration: string,
    stops: nat,
    price: Money,
    cabinClass: string,
    facilities: seq<string>)

  /** A hotel as the results page builds it. */
  datatype Hotel = Hotel(
    id: string,
    name: string,
    address: string,
    rating: real,
    reviews: int,
    price: Money,
    images: Option<seq<string>>,
    checkIn: string,
    checkOut: string,
    facilities: Option<seq<string>>,
    accessibilityLabel: string,
    location: string,
    propertyClass: int)

  /** An activity as the results page builds it: `image` is a one-element
      list holding the small photo's URL, when there is one. */
  datatype Activity = Activity(
    id: string,
    name: string,
    slug: string,
    description: string,
    rating: real,
    reviews: int,
    price: Money,
    image: seq<Option<string>>,
    location: string,
    freeCancellation: bool)

  // ------------------------------------------------------- itinerary

  datatype ItemType = FlightType | HotelType | ActivityType {
    /** The `type` tag as stored: "flight" | "hotel" | "activity". */
    function Name(): string {
      match this
      case FlightType => "flight"
      case HotelType => "hotel"
      case ActivityType => "activity"
    }
  }

  /** The payload of an itinerary item, tagged with its kind. */
  datatype ItemData = FlightData(flight: Flight) | HotelData(hotel: Hotel) | ActivityData(activity: Activity)

  datatype ItineraryItem = ItineraryItem(id: string, data: ItemData, dateAdded: string) {
    function Type(): ItemType {
      match data
      case FlightData(_) => FlightType
      case HotelData(_) => HotelType
      case ActivityData(_) => ActivityType
    }
  }

  /** A notification as passed to `toast`: every one in the modelled code
      lasts 3000 ms. */
  datatype Toast = Toast(title: string, description: string, duration: nat)

  const ToastDuration: nat := 3000

  // ------------------------------------------------- search parameters

  /** What `flightService.searchFlights` receives. The enum-valued fields
      hold whatever string the results page read from the URL: the page casts
      them without checking. */
  datatype FlightSearchParams = FlightSearchParams(
    fromId: string,
    toId: string,
    departDate: string,
    returnDate: Option<string>,
    stops: Option<string>,
    pageNo: Option<JsInt>,
    adults: Option<JsInt>,
    children: Option<string>,
    sort: Option<string>,
    cabinClass: Option<string>,
    currencyCode: Option<string>)

  /** What `hotelService.searchHotels` receives. */
  datatype HotelSearchParams = HotelSearchParams(
    destId: JsInt,
    searchType: string,
    arrivalDate: string,
    departureDate: string,
    adults: Option<JsInt>,
    childrenAge: Option<string>,
    roomQty: Option<JsInt>,
    pageNumber: Option<JsInt>,
    priceMin: Option<JsInt>,
    priceMax: Option<JsInt>,
    sortBy: Option<string>,
    categoriesFilter: Option<string>,
    units: Option<string>,
    temperatureUnit: Option<string>,
    languageCode: Option<string>,
    currencyCode: Option<string>,
    location: Option<string>)

  /** What `activityService.searchActivities` receives. */
  datatype AttractionSearchParams = AttractionSearchParams(
    id: string,
    startDate: Option<string>,
    endDate: Option<string>,
    sortBy: Option<string>,
    page: Option<JsInt>,
    currencyCode: Option<string>,
    languageCode: Option<string>)
}
