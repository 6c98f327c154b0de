/** The server's restaurant-search endpoint
    (server/app/routes/restaurants.py, `GET /api/restaurants/search`): it
    echoes the query and returns a fixed list of two mock restaurants. */
module RestaurantsRoute {
  import opened Support

  const DefaultRadius := 5000

  /** A restaurant as the endpoint returns it; there is no coordinates field. */
  datatype Restaurant = Restaurant(
    id: nat, name: string, address: string, rating: real,
    priceRange: string, distance: string, menuLink: string)

  /** The echoed location: each coordinate is null when it was not given. */
  datatype EchoedLocation = EchoedLocation(lat: Option<real>, lon: Option<real>)

  datatype SearchResponse = SearchResponse(dish: string, location: EchoedLocation, restaurants: seq<Restaurant>)

  const MockRestaurants: seq<Restaurant> := [
    Restaurant(1, "Italian Bistro", "123 Main St", 4.5, "$$", "0.5 km", "#"),
    Restaurant(2, "Pizza Palace", "456 Oak Ave", 4.2, "$", "0.8 km", "#")
  ]

  /** `search_restaurants` once its query parameters are bound. */
  function SearchRestaurants(dish: string, lat: Option<real>, lon: Option<real>, radius: int): (r: SearchResponse)
    ensures r.dish == dish
    ensures r.location.lat == lat && r.location.lon == lon
    ensures |r.restaurants| == 2
    ensures r.restaurants[0].id == 1 && r.restaurants[1].id == 2
  {
    SearchResponse(dish, EchoedLocation(lat, lon), MockRestaurants)
  }

  /** Neither the radius nor the coordinates influence the restaurant list,
      and the radius does not influence anything at all. */
  lemma ResponseIgnoresRadiusAndLocation(dish: string, lat1: Option<real>, lon1: Option<real>, radius1: int,
                                         lat2: Option<real>, lon2: Option<real>, radius2: int)
    ensures SearchRestaurants(dish, lat1, lon1, radius1) == SearchRestaurants(dish, lat1, lon1, radius2)
    ensures SearchRestaurants(dish, lat1, lon1, radius1).restaurants ==
            SearchRestaurants(dish, lat2, lon2, radius2).restaurants
  {
  }

  /** FastAPI's binding of the query string to the handler's parameters:
      `dish` is required (a 422 without it), `lat` and `lon` are optional,
      and `radius` defaults to 5000. */
  function HandleSearchQuery(dish: Option<string>, lat: Option<real>, lon: Option<real>, radius: Option<int>)
    : (r: Result<SearchResponse, HttpError>)
    ensures r.Err? <==> dish.None?
    ensures r.Err? ==> r.error.status == MissingFieldStatus
    ensures r.Ok? ==> r.value == SearchRestaurants(dish.value, lat, lon,
                                                   if radius.Some? then radius.value else DefaultRadius)
  {
    match dish
    case None => Err(HttpError(MissingFieldStatus, "Field required: dish"))
    case Some(d) =>
      Ok(SearchRestaurants(d, lat, lon, if radius.Some? then radius.value else DefaultRadius))
  }
}
