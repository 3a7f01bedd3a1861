/**
 The travel page: the service and destination taken from the URL, the mock
 search results, favourites, the booking guard and confirmation, and the
 figures shown on the result cards.

 Hotel ratings are fractional and not modelled; prices are whole numbers in
 the mock data and are integers here.
 */
module Travel {
  import opened Text
  import Favorites

  // ===========================================================================
  // Services and the URL
  // ===========================================================================

  const Services: seq<string> := ["flights", "hotels", "transport", "shipping"]

  /** The `service` parameter switches the active service only to one of the four known ids. */
  function ApplyServiceParam(active: string, service: Option<string>): (r: string)
    ensures r == active || r in Services
    ensures Truthy(service) && service.value in Services ==> r == service.value
    ensures !(Truthy(service) && service.value in Services) ==> r == active
  {
    if Truthy(service) && service.value in Services then service.value else active
  }

  /** The booking form. */
  datatype BookingData = BookingData(kind: string, from: string, to: string, checkIn: string,
                                     checkOut: string, passengers: int, rooms: int, travelClass: string)

  const InitialBookingData: BookingData := BookingData("flight", "", "", "", "", 1, 1, "economy")

  /** The `destination` parameter, when non-empty, fills in the destination and nothing else. */
  function ApplyDestinationParam(data: BookingData, destination: Option<string>): (r: BookingData)
    ensures r.kind == data.kind && r.from == data.from && r.checkIn == data.checkIn
    ensures r.checkOut == data.checkOut && r.passengers == data.passengers
    ensures r.rooms == data.rooms && r.travelClass == data.travelClass
    ensures Truthy(destination) ==> r.to == destination.value
    ensures !Truthy(destination) ==> r == data
  {
    if Truthy(destination) then data.(to := destination.value) else data
  }

  // ===========================================================================
  // Mock results
  // ===========================================================================

  datatype Endpoint = Endpoint(city: string, airport: string, time: string, date: string)

  datatype Flight = Flight(id: string, airline: string, logo: string, departure: Endpoint, arrival: Endpoint,
                           duration: string, stops: nat, price: int, travelClass: string, baggage: string,
                           amenities: seq<string>)

  datatype Hotel = Hotel(id: string, name: string, image: string, reviews: nat, location: string, price: int,
                         originalPrice: Option<int>, amenities: seq<string>, distance: string, cancellation: bool)

  /** One entry of the result list, which holds flights or hotels. */
  datatype Item = FlightItem(flight: Flight) | HotelItem(hotel: Hotel)

  const MockFlights: seq<Flight> := [
    Flight("1", "Emirates", "🛫", Endpoint("New York", "JFK", "14:30", "2024-02-15"),
           Endpoint("Dubai", "DXB", "09:45", "2024-02-16"), "12h 15m", 0, 1250, "Economy", "2 x 23kg",
           ["WiFi", "Entertainment", "Meals"]),
    Flight("2", "British Airways", "✈️", Endpoint("New York", "JFK", "22:15", "2024-02-15"),
           Endpoint("London", "LHR", "10:30", "2024-02-16"), "7h 15m", 0, 890, "Economy", "1 x 23kg",
           ["WiFi", "Entertainment"]),
    Flight("3", "Lufthansa", "🛩️", Endpoint("New York", "JFK", "18:45", "2024-02-15"),
           Endpoint("Frankfurt", "FRA", "08:20", "2024-02-16"), "8h 35m", 0, 1050, "Economy", "1 x 23kg",
           ["WiFi", "Meals"])
  ]

  const MockHotels: seq<Hotel> := [
    Hotel("1", "Grand Plaza Hotel",
          "https://images.pexels.com/photos/258154/pexels-photo-258154.jpeg?auto=compress&cs=tinysrgb&w=400",
          1250, "Downtown Dubai", 180, Some(220), ["WiFi", "Pool", "Gym", "Spa"], "0.5 km from center", true),
    Hotel("2", "Business Suites",
          "https://images.pexels.com/photos/271624/pexels-photo-271624.jpeg?auto=compress&cs=tinysrgb&w=400",
          890, "Business District", 120, None, ["WiFi", "Breakfast", "Gym"], "1.2 km from center", true),
    Hotel("3", "Luxury Resort",
          "https://images.pexels.com/photos/338504/pexels-photo-338504.jpeg?auto=compress&cs=tinysrgb&w=400",
          2100, "Beachfront", 350, Some(420), ["WiFi", "Pool", "Beach", "Spa", "Restaurant"], "5 km from center", false)
  ]

  /** `handleSearch`: the mock flights, the mock hotels, or nothing, by the active service. */
  function HandleSearch(active: string): (r: seq<Item>)
    ensures active == "flights" ==> |r| == |MockFlights| && forall i :: 0 <= i < |r| ==> r[i] == FlightItem(MockFlights[i])
    ensures active == "hotels" ==> |r| == |MockHotels| && forall i :: 0 <= i < |r| ==> r[i] == HotelItem(MockHotels[i])
    ensures active != "flights" && active != "hotels" ==> r == []
  {
    if active == "flights" then seq(|MockFlights|, i requires 0 <= i < |MockFlights| => FlightItem(MockFlights[i]))
    else if active == "hotels" then seq(|MockHotels|, i requires 0 <= i < |MockHotels| => HotelItem(MockHotels[i]))
    else []
  }

  /** Each search yields three results for flights and hotels, none for the other services. */
  lemma SearchSizes(active: string)
    ensures active == "flights" || active == "hotels" ==> |HandleSearch(active)| == 3
    ensures forall i :: 0 <= i < |HandleSearch(active)| ==> (HandleSearch(active)[i].FlightItem? <==> active == "flights")
  {
  }

  // ===========================================================================
  // Cards
  // ===========================================================================

  /** The stops line of a flight card. */
  function StopsLabel(stops: nat): string {
    if stops == 0 then "Direct"
    else NatToString(stops) + " stop" + (if stops > 1 then "s" else "")
  }

  /** Reads a stops line back: "Direct", or digits followed by " stop" or " stops". */
  function ParseStops(line: string): Option<nat> {
    if line == "Direct" then Some(0)
    else if |line| > 6 && line[|line| - 6..] == " stops" && AllDigits(line[..|line| - 6]) then
      Some(ParseNat(line[..|line| - 6]))
    else if |line| > 5 && line[|line| - 5..] == " stop" && AllDigits(line[..|line| - 5]) then
      Some(ParseNat(line[..|line| - 5]))
    else None
  }

  predicate AllDigits(s: string) {
    forall k :: 0 <= k < |s| ==> IsDigit(s[k])
  }

  /** The stops line names the number of stops: reading it back gives the number. */
  lemma StopsLabelRoundTrip(stops: nat)
    ensures ParseStops(StopsLabel(stops)) == Some(stops)
  {
    if stops > 0 {
      var digits := NatToString(stops);
      ParseNatToString(stops);
      if stops > 1 {
        assert StopsLabel(stops) == digits + " stops";
        ParseStopsPlural(digits);
      } else {
        assert StopsLabel(stops) == digits + " stop";
        ParseStopsSingular(digits);
      }
    }
  }

  lemma ParseStopsPlural(digits: string)
    requires |digits| >= 1 && AllDigits(digits)
    ensures ParseStops(digits + " stops") == Some(ParseNat(digits))
  {
    var line := digits + " stops";
    assert |line| > 6;
    assert line[|line| - 6..] == " stops";
    assert line[..|line| - 6] == digits;
  }

  lemma ParseStopsSingular(digits: string)
    requires |digits| >= 1 && AllDigits(digits)
    ensures ParseStops(digits + " stop") == Some(ParseNat(digits))
  {
    var line := digits + " stop";
    assert line[0] == digits[0];
    assert line != "Direct";
    assert line[|line| - 1] == 'p';
    assert !(|line| > 6 && line[|line| - 6..] == " stops");
    assert line[|line| - 5..] == " stop";
    assert line[..|line| - 5] == digits;
  }

  /**
   What `{hotel.originalPrice && (<badge/>)}` renders: nothing when there is no
   original price, the bare number 0 when it is 0 (React prints a falsy number),
   and otherwise the badge with the saving.
   */
  datatype Badge = NoBadge | ZeroText | Save(amount: int)

  function SavingsBadge(hotel: Hotel): (r: Badge)
    ensures r.NoBadge? <==> hotel.originalPrice.None?
    ensures r.ZeroText? <==> hotel.originalPrice == Some(0)
    ensures r.Save? ==> r.amount + hotel.price == hotel.originalPrice.value
  {
    match hotel.originalPrice
    case None => NoBadge
    case Some(original) => if original == 0 then ZeroText else Save(original - hotel.price)
  }

  /**
   A hotel shows a positive saving exactly when it has a non-zero original price
   above its price; in particular every discounted hotel with a non-negative price does.
   */
  lemma DiscountShowsSaving(hotel: Hotel)
    ensures (SavingsBadge(hotel).Save? && SavingsBadge(hotel).amount > 0) <==>
              hotel.originalPrice.Some? && hotel.originalPrice.value != 0 && hotel.originalPrice.value > hotel.price
    ensures hotel.originalPrice.Some? && hotel.originalPrice.value > hotel.price >= 0 ==>
              SavingsBadge(hotel).Save? && SavingsBadge(hotel).amount > 0
  {
  }

  /**
   The mock hotels show savings of 40 and 70, and the middle one shows none; had
   the first one an original price of 0, the page would print a bare 0.
   */
  lemma MockBadges()
    ensures SavingsBadge(MockHotels[0]) == Save(40)
    ensures SavingsBadge(MockHotels[0].(originalPrice := Some(0))) == ZeroText
    ensures SavingsBadge(MockHotels[1]) == NoBadge
    ensures SavingsBadge(MockHotels[2]) == Save(70)
  {
  }

  /** The booking summary's total: three nights at the nightly price. */
  function StayTotal(hotel: Hotel): (r: int)
    ensures r == 3 * hotel.price
  {
    hotel.price * 3
  }

  /** The totals the booking summary shows for the three mock hotels. */
  lemma MockStayTotals()
    ensures StayTotal(MockHotels[0]) == 540
    ensures StayTotal(MockHotels[1]) == 360
    ensures StayTotal(MockHotels[2]) == 1050
  {
  }

  // ===========================================================================
  // Favourites and booking
  // ===========================================================================

  datatype TravelState = TravelState(
    active: string,
    results: seq<Item>,
    favorites: seq<string>,
    booking: BookingData,
    selected: Option<Item>,
    showBookingModal: bool,
    searching: bool)

  /** `toggleFavorite` on the travel page; the same toggle as on the opportunities page. */
  function ToggleFavorite(state: TravelState, id: string): (r: TravelState)
    ensures id in r.favorites <==> id !in state.favorites
    ensures forall x :: x != id ==> (x in r.favorites <==> x in state.favorites)
    ensures r == state.(favorites := r.favorites)
  {
    state.(favorites := Favorites.Toggle(state.favorites, id))
  }

  /** `handleBooking`: signed-out users get an error and nothing changes; others open the modal on the item. */
  function HandleBooking(state: TravelState, authenticated: bool, item: Item): (r: TravelState)
    ensures !authenticated ==> r == state
    ensures authenticated ==> r.selected == Some(item) && r.showBookingModal
    ensures authenticated ==> r == state.(selected := r.selected, showBookingModal := true)
  {
    if !authenticated then state else state.(selected := Some(item), showBookingModal := true)
  }

  /** `confirmBooking`, run to completion: the modal closes, the selection is cleared, searching ends. */
  function ConfirmBooking(state: TravelState): (r: TravelState)
    ensures !r.showBookingModal && r.selected.None? && !r.searching
    ensures r.active == state.active && r.results == state.results && r.favorites == state.favorites
    ensures r.booking == state.booking
  {
    state.(selected := None, showBookingModal := false, searching := false)
  }

  /** Booking then confirming leaves the page as it was apart from the search flag. */
  lemma BookThenConfirm(state: TravelState, item: Item)
    requires state.selected.None? && !state.showBookingModal
    ensures ConfirmBooking(HandleBooking(state, true, item)) == state.(searching := false)
  {
  }
}
