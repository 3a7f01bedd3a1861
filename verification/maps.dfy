/**
 The maps page: the place filters behind the markers, the marker colours, the
 category taken from the URL, and the bookkeeping around a geocoding search.

 The map widget, its markers and info window, and the geocoder itself are not
 modelled; the geocoder's answer is an input value.
 */
module Maps {
  import opened Text
  import opened Seqs

  datatype Position = Position(lat: real, lng: real)

  datatype Place = Place(id: string, name: string, address: string, category: string, rating: real,
                         reviews: nat, phone: string, website: string, hours: string, description: string,
                         position: Position, photos: seq<string>)

  datatype Category = Category(id: string, name: string, color: string)

  const Categories: seq<Category> := [
    Category("all", "All Places", "bg-gray-500"),
    Category("immigration", "Immigration Offices", "bg-blue-500"),
    Category("airports", "Airports", "bg-green-500"),
    Category("hospitals", "Healthcare", "bg-red-500"),
    Category("schools", "Education", "bg-purple-500"),
    Category("shopping", "Shopping", "bg-yellow-500"),
    Category("restaurants", "Restaurants", "bg-orange-500"),
    Category("transport", "Transport", "bg-indigo-500")
  ]

  const MockPlaces: seq<Place> := [
    Place("1", "Immigration, Refugees and Citizenship Canada",
          "55 St Clair Ave E, Toronto, ON M4T 1M2", "immigration", 3.8, 245,
          "+1 888-242-2100", "https://www.canada.ca/en/immigration-refugees-citizenship.html",
          "Mon-Fri 8:30 AM - 4:30 PM",
          "Main immigration office for visa applications, citizenship ceremonies, and immigration services.",
          Position(43.6896, -79.3931),
          ["https://images.pexels.com/photos/5668473/pexels-photo-5668473.jpeg?auto=compress&cs=tinysrgb&w=400"]),
    Place("2", "Toronto Pearson International Airport",
          "6301 Silver Dart Dr, Mississauga, ON L5P 1B2", "airports", 4.1, 12500,
          "+1 416-247-7678", "https://www.torontopearson.com",
          "24 hours",
          "Canada's largest and busiest airport, serving as the main international gateway to Toronto.",
          Position(43.6777, -79.6248),
          ["https://images.pexels.com/photos/2026324/pexels-photo-2026324.jpeg?auto=compress&cs=tinysrgb&w=400"]),
    Place("3", "Toronto General Hospital",
          "200 Elizabeth St, Toronto, ON M5G 2C4", "hospitals", 4.3, 890,
          "+1 416-340-4800", "https://www.uhn.ca",
          "24 hours emergency",
          "Major teaching hospital and trauma center with comprehensive medical services.",
          Position(43.6591, -79.3890),
          ["https://images.pexels.com/photos/263402/pexels-photo-263402.jpeg?auto=compress&cs=tinysrgb&w=400"]),
    Place("4", "University of Toronto",
          "27 King's College Cir, Toronto, ON M5S 1A1", "schools", 4.6, 1250,
          "+1 416-978-2011", "https://www.utoronto.ca",
          "Mon-Fri 9:00 AM - 5:00 PM",
          "Prestigious public research university, consistently ranked among the world's top universities.",
          Position(43.6629, -79.3957),
          ["https://images.pexels.com/photos/1454360/pexels-photo-1454360.jpeg?auto=compress&cs=tinysrgb&w=400"]),
    Place("5", "Eaton Centre",
          "220 Yonge St, Toronto, ON M5B 2H1", "shopping", 4.4, 8900,
          "+1 416-598-8560", "https://www.cfshops.com/toronto-eaton-centre.html",
          "Mon-Sat 10:00 AM - 9:00 PM, Sun 11:00 AM - 7:00 PM",
          "Premier shopping destination in downtown Toronto with over 250 stores and restaurants.",
          Position(43.6544, -79.3807),
          ["https://images.pexels.com/photos/264507/pexels-photo-264507.jpeg?auto=compress&cs=tinysrgb&w=400"])
  ]

  // ===========================================================================
  // Filtering
  // ===========================================================================

  predicate InCategory(category: string, p: Place) {
    category == "all" || p.category == category
  }

  /** The lower-cased query occurs in the lower-cased name, address or description. */
  predicate MentionsQuery(query: string, p: Place) {
    || Contains(Lower(p.name), Lower(query))
    || Contains(Lower(p.address), Lower(query))
    || Contains(Lower(p.description), Lower(query))
  }

  predicate Shown(category: string, query: string, p: Place) {
    InCategory(category, p) && (query == "" || MentionsQuery(query, p))
  }

  /** The two filter stages of `updateMapPlaces`, each applied only when active. */
  function FilterPlaces(places: seq<Place>, category: string, query: string): (r: seq<Place>)
    ensures r == Filter(places, p => Shown(category, query, p))
    ensures forall p :: p in r <==> p in places && Shown(category, query, p)
  {
    var byCategory := if category != "all" then Filter(places, (p: Place) => p.category == category) else places;
    var r := if query != "" then Filter(byCategory, (p: Place) => MentionsQuery(query, p)) else byCategory;
    FilterPlacesIsOneFilter(places, category, query);
    r
  }

  lemma FilterPlacesIsOneFilter(places: seq<Place>, category: string, query: string)
    ensures var byCategory := if category != "all" then Filter(places, (p: Place) => p.category == category) else places;
            var r := if query != "" then Filter(byCategory, (p: Place) => MentionsQuery(query, p)) else byCategory;
            r == Filter(places, p => Shown(category, query, p))
  {
    var c := (p: Place) => InCategory(category, p);
    var q := (p: Place) => query == "" || MentionsQuery(query, p);
    var byCategory := if category != "all" then Filter(places, (p: Place) => p.category == category) else places;
    if category != "all" {
      FilterExt(places, (p: Place) => p.category == category, c);
    } else {
      FilterAll(places, c);
    }
    if query != "" {
      FilterExt(byCategory, (p: Place) => MentionsQuery(query, p), q);
    } else {
      FilterAll(byCategory, q);
    }
    FilterFilter(places, c, q, p => Shown(category, query, p));
  }

  /** The shown places keep the table's order: they are a subsequence of it. */
  lemma FilterPlacesKeepsOrder(places: seq<Place>, category: string, query: string)
    ensures SubsequenceOf(FilterPlaces(places, category, query), places)
  {
    FilterSubsequence(places, p => Shown(category, query, p));
  }

  /** With category "all" and no query every place is shown, in table order. */
  lemma NoFilterShowsAll(places: seq<Place>)
    ensures FilterPlaces(places, "all", "") == places
  {
    FilterAll(places, p => Shown("all", "", p));
  }

  /** The query ignores letter case. */
  lemma QueryIgnoresCase(places: seq<Place>, category: string, query: string)
    requires query != ""
    ensures FilterPlaces(places, category, Upper(query)) == FilterPlaces(places, category, query)
  {
    LowerOfUpper(query);
    assert Upper(query) != "" by { assert |Upper(query)| == |query|; }
    FilterExt(places, p => Shown(category, Upper(query), p), p => Shown(category, query, p));
  }

  // ===========================================================================
  // Marker colours
  // ===========================================================================

  const DefaultMarkerColor: string := "#6B7280"

  const MarkerColors: map<string, string> := map[
    "immigration" := "#3B82F6",
    "airports" := "#10B981",
    "hospitals" := "#EF4444",
    "schools" := "#8B5CF6",
    "shopping" := "#F59E0B",
    "restaurants" := "#F97316",
    "transport" := "#6366F1"
  ]

  /** `icons[category] || '#6B7280'`. */
  function MarkerColor(category: string): (r: string)
    ensures category in MarkerColors ==> r == MarkerColors[category]
    ensures r == DefaultMarkerColor <==> category !in MarkerColors
  {
    if category in MarkerColors && MarkerColors[category] != "" then MarkerColors[category] else DefaultMarkerColor
  }

  /** Every place category has its own colour, and "all" has the grey default. */
  lemma CategoryColors()
    ensures forall c :: c in Categories && c.id != "all" ==> MarkerColor(c.id) != DefaultMarkerColor
    ensures MarkerColor("all") == DefaultMarkerColor
  {
  }

  // ===========================================================================
  // Page state
  // ===========================================================================

  datatype MapState = MapState(
    center: Position,
    zoom: int,
    places: seq<Place>,
    selectedPlace: Option<Place>,
    searchQuery: string,
    activeCategory: string,
    isLoading: bool,
    userLocation: Option<Position>)

  const InitialMapState: MapState :=
    MapState(Position(10.2899, 11.1706), 12, [], None, "", "all", false, None)

  /** `updateMapPlaces`: when the map is up, the shown places are the filtered table. */
  function UpdateMapPlaces(state: MapState, mapLoaded: bool): (r: MapState)
    ensures !mapLoaded ==> r == state
    ensures mapLoaded ==> r == state.(places := r.places)
    ensures mapLoaded ==> forall p :: p in r.places <==> p in MockPlaces && Shown(state.activeCategory, state.searchQuery, p)
  {
    if mapLoaded then state.(places := FilterPlaces(MockPlaces, state.activeCategory, state.searchQuery)) else state
  }

  /** The `category` URL parameter is applied only when it is the id of a listed category. */
  function ApplyCategoryParam(state: MapState, category: Option<string>): (r: MapState)
    ensures r == state.(activeCategory := r.activeCategory)
    ensures r.activeCategory != state.activeCategory ==> exists c :: c in Categories && c.id == r.activeCategory
    ensures Truthy(category) && (exists c :: c in Categories && c.id == category.value) ==> r.activeCategory == category.value
  {
    if Truthy(category) && exists c :: c in Categories && c.id == category.value then
      state.(activeCategory := category.value)
    else state
  }

  /** What the geocoder did: the library was missing, the lookup failed, or it resolved with results. */
  datatype GeocodeOutcome = NotLoaded | GeocodeFailed | Resolved(results: seq<Position>)

  /**
   The shared tail of both searches, after `isLoading` was set: the first
   result recentres the map at `zoom`; a failure clears the flag; a resolved
   but empty list leaves the flag set.
   */
  function SettleGeocode(state: MapState, zoom: int, outcome: GeocodeOutcome): (r: MapState)
    ensures outcome.Resolved? && |outcome.results| > 0 ==>
              r == state.(center := outcome.results[0], zoom := zoom, isLoading := false)
    ensures outcome.NotLoaded? || outcome.GeocodeFailed? ==> r == state.(isLoading := false)
    ensures outcome == Resolved([]) ==> r == state
  {
    match outcome
    case Resolved(results) =>
      if |results| > 0 then state.(center := results[0], zoom := zoom, isLoading := false) else state
    case _ => state.(isLoading := false)
  }

  /** `handleCountrySearch`: centre on the country at zoom 10. */
  function HandleCountrySearch(state: MapState, outcome: GeocodeOutcome): (r: MapState)
    ensures r.places == state.places && r.searchQuery == state.searchQuery
    ensures r.activeCategory == state.activeCategory && r.selectedPlace == state.selectedPlace
    ensures r.isLoading <==> outcome == Resolved([])
    ensures outcome.Resolved? && |outcome.results| > 0 ==> r.center == outcome.results[0] && r.zoom == 10
  {
    SettleGeocode(state.(isLoading := true), 10, outcome)
  }

  /** `handleSearch`: a blank query does nothing; otherwise centre on the place found at zoom 15. */
  function HandleSearch(state: MapState, outcome: GeocodeOutcome): (r: MapState)
    ensures Trim(state.searchQuery) == "" ==> r == state
    ensures Trim(state.searchQuery) != "" ==>
              && r.places == state.places && r.searchQuery == state.searchQuery
              && r.activeCategory == state.activeCategory
              && (r.isLoading <==> outcome == Resolved([]))
              && (outcome.Resolved? && |outcome.results| > 0 ==> r.center == outcome.results[0] && r.zoom == 15)
  {
    if Trim(state.searchQuery) == "" then state
    else SettleGeocode(state.(isLoading := true), 15, outcome)
  }

  /** The URL effect: the category parameter, then a non-empty country parameter starts a country search. */
  function ApplyUrlParams(state: MapState, category: Option<string>, country: Option<string>,
                          outcome: GeocodeOutcome): (r: MapState)
    ensures r.places == state.places && r.searchQuery == state.searchQuery
    ensures r.selectedPlace == state.selectedPlace
    ensures r.activeCategory != state.activeCategory ==> exists c :: c in Categories && c.id == r.activeCategory
    ensures Truthy(category) && (exists c :: c in Categories && c.id == category.value) ==> r.activeCategory == category.value
    ensures !Truthy(country) ==> r == state.(activeCategory := r.activeCategory)
    ensures Truthy(country) ==> (r.isLoading <==> outcome == Resolved([]))
    ensures Truthy(country) && outcome.Resolved? && |outcome.results| > 0 ==>
              r.center == outcome.results[0] && r.zoom == 10
  {
    var s := ApplyCategoryParam(state, category);
    if Truthy(country) then HandleCountrySearch(s, outcome) else s
  }

  /** `handlePlaceSelect`: the clicked place becomes the selected one. */
  function SelectPlace(state: MapState, place: Place): (r: MapState)
    ensures r.selectedPlace == Some(place)
    ensures r.(selectedPlace := state.selectedPlace) == state
  {
    state.(selectedPlace := Some(place))
  }

  /** `handleCloseDetails`: nothing is selected. */
  function CloseDetails(state: MapState): (r: MapState)
    ensures r.selectedPlace.None?
    ensures r.(selectedPlace := state.selectedPlace) == state
  {
    state.(selectedPlace := None)
  }

  /** Opening and then closing a place's details returns to a state with nothing selected. */
  lemma SelectThenClose(state: MapState, place: Place)
    requires state.selectedPlace.None?
    ensures CloseDetails(SelectPlace(state, place)) == state
  {
  }
}
