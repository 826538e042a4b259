/** The request builder (class ValhallaRouter) and its handling of the routing service's reply. */
module Valhalla {
  import opened Wrappers
  import opened Numbers
  import opened RouterTypes
  import opened Json

  class ValhallaRouter {
    var language: Option<string>
    var mode: TravelMode
    var locations: seq<Location>
    var maxDifficulty: int32
    var units: DistanceUnits
    var callbackSet: bool
    var httpHandlerSet: bool

    /** Every held location came out of a Location constructor. */
    ghost predicate Valid()
      reads this
    {
      forall i :: 0 <= i < |locations| ==> WellFormed(locations[i])
    }

    /** A new builder: driving, kilometres, difficulty 1, no language, no locations. */
    constructor ()
      ensures Valid()
      ensures language == None && mode == Driving && locations == []
      ensures maxDifficulty == 1 && units == Kilometers
      ensures !callbackSet && !httpHandlerSet
    {
      language := None;
      mode := Driving;
      locations := [];
      maxDifficulty := 1;
      units := Kilometers;
      callbackSet := false;
      httpHandlerSet := false;
    }

    method SetHttpHandler()
      modifies this`httpHandlerSet
      ensures httpHandlerSet
    {
      httpHandlerSet := true;
    }

    method SetCallback()
      modifies this`callbackSet
      ensures callbackSet
    {
      callbackSet := true;
    }

    /** setLanguage stores the language's string form. */
    method SetLanguage(language: string)
      modifies this`language
      ensures this.language == Some(language)
    {
      this.language := Some(language);
    }

    method SetWalking()
      modifies this`mode
      ensures mode == Walking
    {
      mode := Walking;
    }

    method SetDriving()
      modifies this`mode
      ensures mode == Driving
    {
      mode := Driving;
    }

    method SetBiking()
      modifies this`mode
      ensures mode == Biking
    {
      mode := Biking;
    }

    method SetMultimodal()
      modifies this`mode
      ensures mode == Multimodal
    {
      mode := Multimodal;
    }

    /** setLocation(point): appends a bare coordinate taken from point[0] and point[1]. */
    method SetLocation(point: seq<real>) returns (r: Outcome<Error>)
      requires Valid()
      modifies this`locations
      ensures Valid()
      ensures r.Fail? <==> |point| < 2
      ensures r.Fail? ==> r.error == IndexOutOfBounds && locations == old(locations)
      ensures r.Pass? ==> locations == old(locations) + [NewLocation(point[0], point[1])]
    {
      if |point| < 2 {
        return Fail(IndexOutOfBounds);
      }
      locations := locations + [NewLocation(point[0], point[1])];
      r := Pass;
    }

    /** setLocation(point, heading): the heading is checked before anything is appended. */
    method SetLocationWithHeading(point: seq<real>, heading: int32) returns (r: Outcome<Error>)
      requires Valid()
      modifies this`locations
      ensures Valid()
      ensures r.Fail? <==> |point| < 2 || !ValidHeading(heading)
      ensures |point| < 2 ==> r == Fail(IndexOutOfBounds)
      ensures |point| >= 2 && !ValidHeading(heading) ==> r == Fail(IllegalArgument)
      ensures r.Fail? ==> locations == old(locations)
      ensures r.Pass? ==> |locations| == |old(locations)| + 1 && locations[..|old(locations)|] == old(locations)
      ensures r.Pass? ==> var l := locations[|locations| - 1];
                          l.lat == point[0] && l.lon == point[1] && HeadingOf(l) == Some(heading)
                          && l.name == None && l.street == None && l.city == None && l.state == None
    {
      if |point| < 2 {
        return Fail(IndexOutOfBounds);
      }
      var l := NewHeadingLocation(point[0], point[1], heading);
      if l.Err? {
        return Fail(l.error);
      }
      locations := locations + [l.value];
      r := Pass;
    }

    /** setLocation(point, name, street, city, state): appends an addressed coordinate. */
    method SetLocationWithAddress(point: seq<real>, name: Option<string>, street: Option<string>,
                                  city: Option<string>, state: Option<string>) returns (r: Outcome<Error>)
      requires Valid()
      modifies this`locations
      ensures Valid()
      ensures r.Fail? <==> |point| < 2
      ensures r.Fail? ==> r.error == IndexOutOfBounds && locations == old(locations)
      ensures r.Pass? ==> locations == old(locations) + [NewAddressLocation(point[0], point[1], name, street, city, state)]
    {
      if |point| < 2 {
        return Fail(IndexOutOfBounds);
      }
      locations := locations + [NewAddressLocation(point[0], point[1], name, street, city, state)];
      r := Pass;
    }

    method SetDistanceUnits(units: DistanceUnits)
      modifies this`units
      ensures this.units == units
    {
      this.units := units;
    }

    method SetMaxHikingDifficulty(difficulty: int32)
      modifies this`maxDifficulty
      ensures maxDifficulty == difficulty
    {
      maxDifficulty := difficulty;
    }

    method ClearLocations()
      modifies this`locations
      ensures Valid()
      ensures locations == []
    {
      locations := [];
    }

    /**
     * getJSONRequest: throws MalformedURLException with fewer than two locations; otherwise
     * copies the locations in order into a fresh request and fills in the options. The first
     * successful call with no language set stores defaultLanguage (the JVM locale's language),
     * so later calls keep it.
     */
    method GetJSONRequest(defaultLanguage: string) returns (r: Result<JSON, Error>)
      requires Valid()
      modifies this`language
      ensures Valid()
      ensures r.Err? <==> |locations| < 2
      ensures r.Err? ==> r.error == MalformedUrl && language == old(language)
      ensures r.Ok? ==> language == if old(language).None? then Some(defaultLanguage) else old(language)
      ensures r.Ok? ==> fresh(r.value) && fresh(r.value.directionsOptions) && fresh(r.value.costingOptions)
      ensures r.Ok? ==> r.value.locations == locations
      ensures r.Ok? ==> r.value.costing == Some(CostingString(mode))
      ensures r.Ok? ==> r.value.directionsOptions.language == language
      ensures r.Ok? ==> r.value.directionsOptions.units == Some(UnitsString(units))
      ensures r.Ok? ==> r.value.costingOptions.maxHikingDifficulty == Some(DecimalString(maxDifficulty as int))
    {
      if |locations| < 2 {
        return Err(MalformedUrl);
      }
      var json := new JSON();
      var directions, costingOptions := json.directionsOptions, json.costingOptions;
      var i := 0;
      while i < |locations|
        modifies json
        invariant 0 <= i <= |locations|
        invariant json.locations == locations[..i]
        invariant json.directionsOptions == directions && json.costingOptions == costingOptions
      {
        json.locations := json.locations + [locations[i]];
        i := i + 1;
      }
      if language.None? {
        language := Some(defaultLanguage);
      }
      json.costing := Some(CostingString(mode));
      json.directionsOptions.language := language;
      json.directionsOptions.units := Some(UnitsString(units));
      json.costingOptions.maxHikingDifficulty := Some(DecimalString(maxDifficulty as int));
      r := Ok(json);
    }

    /**
     * fetch: with no HTTP handler nothing is built or sent (None); otherwise the request built by
     * getJSONRequest is what is handed to the handler, and its exception propagates.
     */
    method Fetch(defaultLanguage: string) returns (r: Result<Option<JSON>, Error>)
      requires Valid()
      modifies this`language
      ensures Valid()
      ensures !httpHandlerSet ==> r == Ok(None) && language == old(language)
      ensures httpHandlerSet ==> (r.Err? <==> |locations| < 2)
      ensures r.Err? ==> r.error == MalformedUrl && language == old(language)
      ensures httpHandlerSet && |locations| >= 2 ==> r.Ok? && r.value.Some?
      ensures r.Ok? && r.value.Some? ==> language == if old(language).None? then Some(defaultLanguage) else old(language)
      ensures r.Ok? && r.value.Some? ==> var json := r.value.value;
        && fresh(json) && fresh(json.directionsOptions) && fresh(json.costingOptions)
        && json.locations == locations
        && json.costing == Some(CostingString(mode))
        && json.directionsOptions.language == language
        && json.directionsOptions.units == Some(UnitsString(units))
        && json.costingOptions.maxHikingDifficulty == Some(DecimalString(maxDifficulty as int))
    {
      if !httpHandlerSet {
        return Ok(None);
      }
      var request := GetJSONRequest(defaultLanguage);
      if request.Err? {
        return Err(request.error);
      }
      r := Ok(Some(request.value));
    }
  }

  /** What the transport reports for one completed call. */
  datatype HttpResponse = HttpResponse(isSuccessful: bool, body: Option<string>, code: int)

  /** One invocation of the route callback: success with the route's raw body, or failure with a code. */
  datatype Delivery = Success(routeJson: string) | Failure(statusCode: int)

  /** The branch of onResponse for a non-null response. */
  function Classify(response: HttpResponse): (d: Delivery)
    ensures d.Success? <==> response.isSuccessful && response.body.Some?
    ensures d.Success? ==> response.body == Some(d.routeJson)
    ensures d.Failure? ==> d.statusCode == response.code
  {
    if response.isSuccessful && response.body.Some? then
      Success(response.body.value)
    else
      Failure(response.code)
  }

  /**
   * onResponse: the callback invocations one reply produces. A null response, or a router
   * with no callback, produces none; otherwise exactly one.
   */
  function OnResponse(response: Option<HttpResponse>, callbackSet: bool): (delivered: seq<Delivery>)
    ensures |delivered| <= 1
    ensures delivered == [] <==> response.None? || !callbackSet
    ensures forall i :: 0 <= i < |delivered| ==> delivered[i] == Classify(response.value)
  {
    if response.Some? && callbackSet then [Classify(response.value)] else []
  }
}
