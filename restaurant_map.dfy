/** The restaurant map (client/app/components/RestaurantMap.tsx): when the
    map library is available, `initMap` creates a Yandex map centred on the
    user or on the first restaurant, adds an optional user placemark and one
    placemark per restaurant, and fits the view to them when there is more
    than one point of interest. The `ymaps` widget is modelled as a class
    holding its centre, zoom, placemark list and fitted bounds. JavaScript's
    rendering of a number as text is the parameter `show`. */
module RestaurantMap {
  import opened Support

  datatype Coordinates = Coordinates(lat: real, lon: real)

  datatype RestaurantId = NumericId(number: real) | TextId(text: string)

  /** A restaurant as the map component expects it. */
  datatype Restaurant = Restaurant(
    id: RestaurantId, name: string, coordinates: Coordinates,
    address: string, rating: real, priceRange: string)

  /** The balloon of a restaurant placemark: the values interpolated into
      its HTML template, and the link its "Get Directions" button opens. */
  datatype Balloon =
    | TextBalloon(text: string)
    | RestaurantCard(title: string, address: string, rating: string, priceRange: string, directions: string)

  datatype Placemark = Placemark(at: Coordinates, hint: string, balloon: Balloon, preset: string, iconColor: string)

  /** The south-west and north-east corners of a rectangle. */
  datatype Box = Box(south: real, west: real, north: real, east: real)

  const InitialZoom := 13
  const UserPreset := "islands#blueCircleIcon"
  const UserIconColor := "#1e40af"
  const RestaurantPreset := "islands#redFoodIcon"
  const RestaurantIconColor := "#ea580c"
  const DirectionsPrefix := "https://yandex.com/maps/?pt="
  const DirectionsSuffix := "&z=15&l=map"

  /** The Yandex Maps deep link for directions to `c`: longitude first,
      then latitude. */
  function DirectionsUrl(c: Coordinates, show: real -> string): string {
    DirectionsPrefix + (show(c.lon) + "," + show(c.lat) + DirectionsSuffix)
  }

  /** Reads the `pt` parameter of a directions link back as the pair of its
      comma-separated parts, in order. */
  function PointParam(url: string): Option<(string, string)> {
    if !StartsWith(url, DirectionsPrefix) then None
    else
      var rest := url[|DirectionsPrefix|..];
      var value := rest[..IndexOf(rest, '&')];
      var parts := Split(value, ',');
      if |parts| == 2 then Some((parts[0], parts[1])) else None
  }

  /** The link names longitude before latitude: its `pt` parameter reads
      back as exactly those two numbers in that order, since a rendered
      number holds neither ',' nor '&'. */
  lemma {:induction false} DirectionsUrlNamesLonThenLat(c: Coordinates, show: real -> string)
    requires ',' !in show(c.lon) && '&' !in show(c.lon)
    requires ',' !in show(c.lat) && '&' !in show(c.lat)
    ensures PointParam(DirectionsUrl(c, show)) == Some((show(c.lon), show(c.lat)))
  {
    var lon, lat := show(c.lon), show(c.lat);
    assert DirectionsSuffix[0] == '&';
    PairReadsBack(DirectionsPrefix, lon, lat, DirectionsSuffix);
  }

  /** The reading of `PointParam`, for any prefix and any query tail that
      starts a new parameter. */
  lemma {:induction false} PairReadsBack(prefix: string, lon: string, lat: string, tail: string)
    requires ',' !in lon && '&' !in lon && ',' !in lat && '&' !in lat
    requires |tail| > 0 && tail[0] == '&'
    ensures var url := prefix + (lon + "," + lat + tail);
            var rest := url[|prefix|..];
            StartsWith(url, prefix) && rest[..IndexOf(rest, '&')] == lon + "," + lat &&
            Split(lon + "," + lat, ',') == [lon, lat]
  {
    var value := lon + "," + lat;
    var url := prefix + (value + tail);
    assert url[..|prefix|] == prefix;
    var rest := url[|prefix|..];
    assert rest == value + tail;
    assert '&' !in value;
    assert rest == value + ['&'] + tail[1..];
    IndexOfAfterPrefix(value, '&', tail[1..]);
    assert value == Join([lon, lat], ',');
    SplitJoin([lon, lat], ',');
  }

  function UserMarker(at: Coordinates): Placemark {
    Placemark(at, "Your location", TextBalloon("You are here"), UserPreset, UserIconColor)
  }

  function RestaurantMarker(r: Restaurant, show: real -> string): Placemark {
    Placemark(r.coordinates, r.name,
              RestaurantCard(r.name, r.address, show(r.rating) + " ★", r.priceRange,
                             DirectionsUrl(r.coordinates, show)),
              RestaurantPreset, RestaurantIconColor)
  }

  /** One restaurant placemark per restaurant, in list order. */
  function RestaurantMarkers(rs: seq<Restaurant>, show: real -> string): (marks: seq<Placemark>)
    ensures |marks| == |rs|
    ensures forall i :: 0 <= i < |rs| ==> marks[i] == RestaurantMarker(rs[i], show)
  {
    if rs == [] then []
    else RestaurantMarkers(rs[..|rs| - 1], show) + [RestaurantMarker(rs[|rs| - 1], show)]
  }

  function UserMarkers(userLocation: Option<Coordinates>): seq<Placemark> {
    if userLocation.Some? then [UserMarker(userLocation.value)] else []
  }

  /** The placemarks `initMap` adds, in the order it adds them. */
  function MarkerPlan(rs: seq<Restaurant>, userLocation: Option<Coordinates>, show: real -> string): seq<Placemark> {
    UserMarkers(userLocation) + RestaurantMarkers(rs, show)
  }

  /** A user placemark is placed iff the user's location is known, and then
      it comes first; after it, exactly one placemark per restaurant, in list
      order. */
  lemma {:induction false} MarkerPlanOrder(rs: seq<Restaurant>, userLocation: Option<Coordinates>, show: real -> string)
    ensures var plan := MarkerPlan(rs, userLocation, show);
            var offset := if userLocation.Some? then 1 else 0;
            |plan| == offset + |rs| &&
            (userLocation.Some? ==> plan[0] == UserMarker(userLocation.value)) &&
            (forall i :: 0 <= i < |rs| ==> plan[offset + i] == RestaurantMarker(rs[i], show))
  {
    var users := UserMarkers(userLocation);
    var marks := RestaurantMarkers(rs, show);
    var plan := users + marks;
    assert plan == MarkerPlan(rs, userLocation, show);
    forall i | 0 <= i < |rs| ensures plan[|users| + i] == RestaurantMarker(rs[i], show) {
      assert plan[|users| + i] == marks[i];
    }
  }

  /** Only the first placemark, and only when the user's location is known,
      carries the user's icon. */
  lemma {:induction false} OnlyUserMarkerLooksLikeUser(rs: seq<Restaurant>, userLocation: Option<Coordinates>, show: real -> string)
    ensures var plan := MarkerPlan(rs, userLocation, show);
            forall i :: 0 <= i < |plan| ==> (plan[i].preset == UserPreset <==> userLocation.Some? && i == 0)
  {
    var users := UserMarkers(userLocation);
    var marks := RestaurantMarkers(rs, show);
    var plan := users + marks;
    assert plan == MarkerPlan(rs, userLocation, show);
    assert UserPreset != RestaurantPreset by { assert UserPreset[8] != RestaurantPreset[8]; }
    forall i | 0 <= i < |plan| ensures plan[i].preset == UserPreset <==> userLocation.Some? && i == 0 {
      if i >= |users| {
        assert plan[i] == marks[i - |users|] == RestaurantMarker(rs[i - |users|], show);
      }
    }
  }

  /** Where the map is centred: the user, when known, otherwise the first
      restaurant. */
  function InitialCenter(rs: seq<Restaurant>, userLocation: Option<Coordinates>): (c: Coordinates)
    requires |rs| > 0
    ensures userLocation.Some? ==> c == userLocation.value
    ensures userLocation.None? ==> c == rs[0].coordinates
  {
    if userLocation.Some? then userLocation.value else rs[0].coordinates
  }

  /** Whether `initMap` fits the view to its placemarks. */
  predicate FitsBounds(rs: seq<Restaurant>, userLocation: Option<Coordinates>) {
    |rs| > 1 || userLocation.Some?
  }

  predicate Inside(c: Coordinates, b: Box) {
    b.south <= c.lat <= b.north && b.west <= c.lon <= b.east
  }

  function Extend(b: Box, c: Coordinates): (r: Box)
    ensures Inside(c, r)
    ensures forall d :: Inside(d, b) ==> Inside(d, r)
  {
    Box(if c.lat < b.south then c.lat else b.south,
        if c.lon < b.west then c.lon else b.west,
        if c.lat > b.north then c.lat else b.north,
        if c.lon > b.east then c.lon else b.east)
  }

  /** `geoObjects.getBounds()`: the smallest rectangle holding every
      placemark. It holds them all, and each of its sides passes through a
      placemark, so no smaller rectangle holds them. */
  function BoundsOf(marks: seq<Placemark>): (b: Box)
    requires |marks| > 0
    ensures forall i :: 0 <= i < |marks| ==> Inside(marks[i].at, b)
    ensures exists i :: 0 <= i < |marks| && marks[i].at.lat == b.south
    ensures exists i :: 0 <= i < |marks| && marks[i].at.lon == b.west
    ensures exists i :: 0 <= i < |marks| && marks[i].at.lat == b.north
    ensures exists i :: 0 <= i < |marks| && marks[i].at.lon == b.east
  {
    var p := marks[0].at;
    if |marks| == 1 then Box(p.lat, p.lon, p.lat, p.lon)
    else
      var rest := BoundsOf(marks[1..]);
      var b := Extend(rest, p);
      assert forall i :: 1 <= i < |marks| ==> marks[i] == marks[1..][i - 1];
      SidesFromTail(marks, rest, b);
      b
  }

  /** Each side of the extended rectangle is the first placemark's or one
      of the tail's. */
  lemma SidesFromTail(marks: seq<Placemark>, rest: Box, b: Box)
    requires |marks| > 1 && b == Extend(rest, marks[0].at)
    requires exists i :: 0 <= i < |marks| - 1 && marks[1..][i].at.lat == rest.south
    requires exists i :: 0 <= i < |marks| - 1 && marks[1..][i].at.lon == rest.west
    requires exists i :: 0 <= i < |marks| - 1 && marks[1..][i].at.lat == rest.north
    requires exists i :: 0 <= i < |marks| - 1 && marks[1..][i].at.lon == rest.east
    ensures exists i :: 0 <= i < |marks| && marks[i].at.lat == b.south
    ensures exists i :: 0 <= i < |marks| && marks[i].at.lon == b.west
    ensures exists i :: 0 <= i < |marks| && marks[i].at.lat == b.north
    ensures exists i :: 0 <= i < |marks| && marks[i].at.lon == b.east
  {
    var s :| 0 <= s < |marks| - 1 && marks[1..][s].at.lat == rest.south;
    var w :| 0 <= w < |marks| - 1 && marks[1..][w].at.lon == rest.west;
    var n :| 0 <= n < |marks| - 1 && marks[1..][n].at.lat == rest.north;
    var e :| 0 <= e < |marks| - 1 && marks[1..][e].at.lon == rest.east;
    assert marks[s + 1] == marks[1..][s] && marks[w + 1] == marks[1..][w];
    assert marks[n + 1] == marks[1..][n] && marks[e + 1] == marks[1..][e];
  }

  /** The map widget: where it is centred, its zoom, the placemarks in its
      `geoObjects` collection, and the rectangle it was last fitted to. */
  class YandexMap {
    var center: Coordinates
    var zoom: int
    var geoObjects: seq<Placemark>
    var fittedTo: Option<Box>

    constructor (center: Coordinates, zoom: int)
      ensures this.center == center && this.zoom == zoom
      ensures geoObjects == [] && fittedTo == None
    {
      this.center := center;
      this.zoom := zoom;
      geoObjects := [];
      fittedTo := None;
    }

    /** `geoObjects.add`: appends a placemark. */
    method Add(p: Placemark)
      modifies this
      ensures geoObjects == old(geoObjects) + [p]
      ensures center == old(center) && zoom == old(zoom) && fittedTo == old(fittedTo)
    {
      geoObjects := geoObjects + [p];
    }

    /** `setBounds`: fits the view to a rectangle. */
    method SetBounds(b: Box)
      modifies this
      ensures fittedTo == Some(b)
      ensures center == old(center) && zoom == old(zoom) && geoObjects == old(geoObjects)
    {
      fittedTo := Some(b);
    }
  }

  /** Taking one more restaurant appends its placemark. */
  lemma {:induction false} MarkersGrow(rs: seq<Restaurant>, i: nat, show: real -> string)
    requires i < |rs|
    ensures RestaurantMarkers(rs[..i + 1], show) == RestaurantMarkers(rs[..i], show) + [RestaurantMarker(rs[i], show)]
  {
    assert rs[..i + 1][..i] == rs[..i];
  }

  /** The mount effect with `initMap`: no map without restaurants, without a
      mounted container or without the map library; otherwise a map centred
      as `InitialCenter` says at zoom 13, holding the placemarks of
      `MarkerPlan` and, when `FitsBounds`, fitted to the rectangle that
      holds them all. */
  method InitMap(rs: seq<Restaurant>, userLocation: Option<Coordinates>, containerMounted: bool,
                 ymapsLoaded: bool, show: real -> string)
    returns (m: YandexMap?)
    ensures m == null <==> !containerMounted || |rs| == 0 || !ymapsLoaded
    ensures m != null ==> fresh(m)
    ensures m != null ==> m.center == InitialCenter(rs, userLocation) && m.zoom == InitialZoom
    ensures m != null ==> m.geoObjects == MarkerPlan(rs, userLocation, show)
    ensures m != null ==>
              m.fittedTo == if FitsBounds(rs, userLocation) then Some(BoundsOf(m.geoObjects)) else None
  {
    if !containerMounted || |rs| == 0 {
      return null;
    }
    if !ymapsLoaded {
      return null;
    }
    var center := if userLocation.Some? then userLocation.value else rs[0].coordinates;
    m := new YandexMap(center, InitialZoom);
    if userLocation.Some? {
      m.Add(UserMarker(userLocation.value));
    }
    for i := 0 to |rs|
      invariant m.center == center && m.zoom == InitialZoom && m.fittedTo == None
      invariant m.geoObjects == UserMarkers(userLocation) + RestaurantMarkers(rs[..i], show)
    {
      MarkersGrow(rs, i, show);
      m.Add(RestaurantMarker(rs[i], show));
    }
    assert rs[..|rs|] == rs;
    if |rs| > 1 || userLocation.Some? {
      m.SetBounds(BoundsOf(m.geoObjects));
    }
  }

  const FooterPrefix := "Found "
  const FooterSuffix := " restaurants"

  /** The caption under the map. */
  function FooterText(rs: seq<Restaurant>): string {
    FooterPrefix + NatToString(|rs|) + FooterSuffix
  }

  /** The caption's number is the length of the restaurant list: cutting the
      fixed words off reads it back. */
  lemma {:induction false} FooterCountsRestaurants(rs: seq<Restaurant>)
    ensures var text := FooterText(rs);
            |text| >= |FooterPrefix| + |FooterSuffix| &&
            AllDigits(text[|FooterPrefix|..|text| - |FooterSuffix|]) &&
            ParseNat(text[|FooterPrefix|..|text| - |FooterSuffix|]) == |rs|
  {
    var digits := NatToString(|rs|);
    var text := FooterText(rs);
    assert text[|FooterPrefix|..|text| - |FooterSuffix|] == digits;
    ParseNatToString(|rs|);
  }
}
