/** The pipeline's shared state: the traveller's preferences plus the two
    output keys, and how a node's partial update is merged into it. */
module Trip {
  import opened Wrappers

  datatype TravelStyle = Budget | Luxury | Adventure | Relaxation {
    function Name(): string {
      match this
      case Budget => "budget"
      case Luxury => "luxury"
      case Adventure => "adventure"
      case Relaxation => "relaxation"
    }
  }

  datatype TripType = Solo | Friends | Family {
    function Name(): string {
      match this
      case Solo => "solo"
      case Friends => "friends"
      case Family => "family"
    }
  }

  datatype AgeGroup = Child | Teen | Adult | Senior {
    function Name(): string {
      match this
      case Child => "child"
      case Teen => "teen"
      case Adult => "adult"
      case Senior => "senior"
    }
  }

  datatype Accommodation = Hotel | Hostel | Apartment | Bnb | Camping {
    function Name(): string {
      match this
      case Hotel => "hotel"
      case Hostel => "hostel"
      case Apartment => "apartment"
      case Bnb => "bnb"
      case Camping => "camping"
    }
  }

  /** The preference keys of the state; the two dates are the strings the caller passes. */
  datatype TripRequest = TripRequest(
    country: string,
    interests: seq<string>,
    departureDate: string,
    returnDate: string,
    travelStyle: TravelStyle,
    tripType: TripType,
    ageGroup: AgeGroup,
    accommodationType: Accommodation)

  /** The keys a node may write. */
  datatype Key = SearchResultsKey | FinalTripKey

  /** The state map. An output key may be absent (the HTTP caller supplies
      only the preferences), hence `Option`. */
  datatype State = State(request: TripRequest, searchResults: Option<string>, finalTrip: Option<string>)

  /** A node's return value: a partial dict holding only the keys it sets. */
  type Update = map<Key, string>

  /** Merges a partial update into the state: each key in the update
      overwrites that key, every other key keeps its value. */
  function Apply(s: State, u: Update): (merged: State) {
    State(
      s.request,
      if SearchResultsKey in u then Some(u[SearchResultsKey]) else s.searchResults,
      if FinalTripKey in u then Some(u[FinalTripKey]) else s.finalTrip)
  }
}
