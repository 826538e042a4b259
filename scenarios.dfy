/**
 * Client code in the shape of the library's router tests: each method builds its own router
 * through the public operations and states what the request then holds, for all coordinates.
 */
module Scenarios {
  import opened Wrappers
  import opened Numbers
  import opened RouterTypes
  import opened Json
  import opened Valhalla

  /** A fresh router holding the two bare points (lat1, lon1) and (lat2, lon2). */
  method TwoPointRouter(lat1: real, lon1: real, lat2: real, lon2: real) returns (router: ValhallaRouter)
    ensures fresh(router) && router.Valid()
    ensures router.locations == [NewLocation(lat1, lon1), NewLocation(lat2, lon2)]
    ensures router.language == None && router.mode == Driving
    ensures router.maxDifficulty == 1 && router.units == Kilometers
  {
    router := new ValhallaRouter();
    var _ := router.SetLocation([lat1, lon1]);
    var _ := router.SetLocation([lat2, lon2]);
  }

  /** Calls the setter for mode. */
  method SelectMode(router: ValhallaRouter, mode: TravelMode)
    modifies router`mode
    ensures router.mode == mode
  {
    match mode
    case Driving => router.SetDriving();
    case Walking => router.SetWalking();
    case Biking => router.SetBiking();
    case Multimodal => router.SetMultimodal();
  }

  /** With no setter called, the request uses driving, kilometres and difficulty "1". */
  method DefaultRequest(lat1: real, lon1: real, lat2: real, lon2: real, defaultLanguage: string)
    returns (costing: Option<string>, units: Option<string>, difficulty: Option<string>)
    ensures costing == Some("auto")
    ensures units == Some("kilometers")
    ensures difficulty == Some("1")
  {
    var router := TwoPointRouter(lat1, lon1, lat2, lon2);
    var r := router.GetJSONRequest(defaultLanguage);
    costing, units, difficulty := r.value.costing, r.value.directionsOptions.units, r.value.costingOptions.maxHikingDifficulty;
    assert Digits(1) == "1";
  }

  /** The costing is the one of the last travel-mode setter called. */
  method LastModeWins(first: TravelMode, second: TravelMode, defaultLanguage: string)
    returns (costing: Option<string>)
    ensures costing == Some(CostingString(second))
    ensures second == Biking ==> costing == Some("bicycle")
    ensures second == Walking ==> costing == Some("pedestrian")
    ensures second == Multimodal ==> costing == Some("multimodal")
    ensures second == Driving ==> costing == Some("auto")
  {
    var router := TwoPointRouter(1.0, 2.0, 1.0, 2.0);
    SelectMode(router, first);
    SelectMode(router, second);
    var r := router.GetJSONRequest(defaultLanguage);
    costing := r.value.costing;
  }

  /** Clearing and adding two new points leaves exactly those two, in order. */
  method ClearThenAdd(lat1: real, lon1: real, lat2: real, lon2: real, lat3: real, lon3: real,
                      defaultLanguage: string)
    returns (sent: seq<Location>)
    ensures sent == [NewLocation(lat2, lon2), NewLocation(lat3, lon3)]
  {
    var router := TwoPointRouter(lat1, lon1, lat2, lon2);
    router.ClearLocations();
    var _ := router.SetLocation([lat2, lon2]);
    var _ := router.SetLocation([lat3, lon3]);
    var r := router.GetJSONRequest(defaultLanguage);
    sent := r.value.locations;
  }

  /** A request cannot be built from no location or from one. */
  method TooFewLocations(lat: real, lon: real, defaultLanguage: string)
    returns (none: Option<Error>, one: Option<Error>)
    ensures none == Some(MalformedUrl) && one == Some(MalformedUrl)
  {
    var router := new ValhallaRouter();
    var r0 := router.GetJSONRequest(defaultLanguage);
    none := if r0.Err? then Some(r0.error) else None;
    var _ := router.SetLocation([lat, lon]);
    var r1 := router.GetJSONRequest(defaultLanguage);
    one := if r1.Err? then Some(r1.error) else None;
  }

  /**
   * The default language is stored by the first request, so a second request keeps it even if
   * the default has changed in between; an explicitly set language is used unchanged.
   */
  method LanguageIsStable(firstDefault: string, laterDefault: string, explicit: string)
    returns (first: Option<string>, second: Option<string>, chosen: Option<string>)
    ensures first == Some(firstDefault) && second == Some(firstDefault)
    ensures chosen == Some(explicit)
  {
    var router := TwoPointRouter(1.0, 2.0, 3.0, 4.0);
    var r1 := router.GetJSONRequest(firstDefault);
    var r2 := router.GetJSONRequest(laterDefault);
    first, second := r1.value.directionsOptions.language, r2.value.directionsOptions.language;
    var other := TwoPointRouter(1.0, 2.0, 3.0, 4.0);
    other.SetLanguage(explicit);
    var r3 := other.GetJSONRequest(firstDefault);
    chosen := r3.value.directionsOptions.language;
  }

  /** Units follow the last setDistanceUnits call. */
  method UnitsFollowSetter(defaultLanguage: string) returns (miles: Option<string>, kilometers: Option<string>)
    ensures miles == Some("miles") && kilometers == Some("kilometers")
  {
    var router := TwoPointRouter(1.0, 2.0, 1.0, 2.0);
    router.SetDistanceUnits(Miles);
    var r1 := router.GetJSONRequest(defaultLanguage);
    miles := r1.value.directionsOptions.units;
    router.SetDistanceUnits(Kilometers);
    var r2 := router.GetJSONRequest(defaultLanguage);
    kilometers := r2.value.directionsOptions.units;
  }

  /** The request carries the last difficulty set, as a decimal string that reads back to it. */
  method DifficultyFollowsSetter(first: int32, second: int32, defaultLanguage: string)
    returns (difficulty: Option<string>)
    ensures difficulty.Some? && ParseDecimal(difficulty.value) == Some(second as int)
  {
    var router := TwoPointRouter(1.0, 2.0, 1.0, 2.0);
    router.SetMaxHikingDifficulty(first);
    router.SetMaxHikingDifficulty(second);
    var r := router.GetJSONRequest(defaultLanguage);
    difficulty := r.value.costingOptions.maxHikingDifficulty;
    DecimalRoundTrip(second as int);
  }

  /** A headed point and an addressed point are sent with exactly the fields they were given. */
  method HeadingAndAddress(lat: real, lon: real, heading: int32, name: Option<string>, street: Option<string>,
                           city: Option<string>, state: Option<string>, defaultLanguage: string)
    returns (sent: Option<seq<Location>>)
    ensures sent.Some? <==> ValidHeading(heading)
    ensures sent.Some? ==> |sent.value| == 2
    ensures sent.Some? ==> sent.value[0] == NewHeadingLocation(lat, lon, heading).value
    ensures sent.Some? ==> sent.value[1] == NewAddressLocation(lat, lon, name, street, city, state)
  {
    var router := new ValhallaRouter();
    var ok := router.SetLocationWithHeading([lat, lon], heading);
    var _ := router.SetLocationWithAddress([lat, lon], name, street, city, state);
    if ok.Fail? {
      return None;
    }
    var r := router.GetJSONRequest(defaultLanguage);
    sent := Some(r.value.locations);
  }

  /** The replies of the fetch tests: a route body, HTTP 500, HTTP 404, and HTTP 400 with a body. */
  lemma FetchReplies(routeJson: string, errorJson: string)
    ensures OnResponse(Some(HttpResponse(true, Some(routeJson), 200)), true) == [Success(routeJson)]
    ensures OnResponse(Some(HttpResponse(false, None, 500)), true) == [Failure(500)]
    ensures OnResponse(Some(HttpResponse(false, None, 404)), true) == [Failure(404)]
    ensures OnResponse(Some(HttpResponse(false, Some(errorJson), 400)), true) == [Failure(400)]
    ensures OnResponse(None, true) == []
  {
  }
}
