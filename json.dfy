/** The route request document (class JSON) and its parts. */
module Json {
  import opened Wrappers
  import opened Numbers

  /** JSON.HEADING_NONE: the heading stored by a location built without one. */
  const HEADING_NONE: int32 := -1

  /** The headings the heading constructor accepts: whole degrees in [0, 360). */
  predicate ValidHeading(heading: int32) {
    0 <= heading < 360
  }

  /** JSON.Location: one waypoint; a None string field is a Java null. */
  datatype Location = Location(
    lat: real,
    lon: real,
    name: Option<string>,
    street: Option<string>,
    city: Option<string>,
    state: Option<string>,
    heading: int32)

  /** The heading a location carries, reading the HEADING_NONE sentinel as "no heading". */
  function HeadingOf(l: Location): Option<int32> {
    if l.heading == HEADING_NONE then None else Some(l.heading)
  }

  /** What every constructor leaves behind: no heading, or a valid one. */
  predicate WellFormed(l: Location) {
    l.heading == HEADING_NONE || ValidHeading(l.heading)
  }

  /** The sentinel is not itself a valid heading, so "no heading" is never mistaken for one. */
  lemma HeadingNoneIsInvalid()
    ensures !ValidHeading(HEADING_NONE)
    ensures forall l: Location :: WellFormed(l) ==> (HeadingOf(l).Some? <==> ValidHeading(l.heading))
  {
  }

  /** Location(lat, lon): a bare coordinate. */
  function NewLocation(lat: real, lon: real): (l: Location)
    ensures l.lat == lat && l.lon == lon
    ensures l.name == None && l.street == None && l.city == None && l.state == None
    ensures HeadingOf(l) == None && WellFormed(l)
  {
    Location(lat, lon, None, None, None, None, HEADING_NONE)
  }

  /** Location(lat, lon, heading): throws IllegalArgumentException unless 0 <= heading < 360. */
  function NewHeadingLocation(lat: real, lon: real, heading: int32): (r: Result<Location, Error>)
    ensures r.Err? <==> heading < 0 || heading >= 360
    ensures r.Err? ==> r.error == IllegalArgument
    ensures r.Ok? ==> r.value.lat == lat && r.value.lon == lon
    ensures r.Ok? ==> r.value.name == None && r.value.street == None && r.value.city == None && r.value.state == None
    ensures r.Ok? ==> HeadingOf(r.value) == Some(heading) && WellFormed(r.value)
  {
    if heading < 0 || heading >= 360 then
      Err(IllegalArgument)
    else
      Ok(Location(lat, lon, None, None, None, None, heading))
  }

  /** Location(lat, lon, name, street, city, state): an addressed coordinate; nulls stay null. */
  function NewAddressLocation(lat: real, lon: real, name: Option<string>, street: Option<string>,
                              city: Option<string>, state: Option<string>): (l: Location)
    ensures l.lat == lat && l.lon == lon
    ensures l.name == name && l.street == street && l.city == city && l.state == state
    ensures HeadingOf(l) == None && WellFormed(l)
  {
    Location(lat, lon, name, street, city, state, HEADING_NONE)
  }

  /** JSON.DirectionOptions, serialised as "directions_options". */
  class DirectionOptions {
    var units: Option<string>
    var language: Option<string>

    constructor ()
      ensures units == None && language == None
    {
      units := None;
      language := None;
    }
  }

  /** JSON.CostingOptions, serialised as "costing_options". */
  class CostingOptions {
    var maxHikingDifficulty: Option<string>

    constructor ()
      ensures maxHikingDifficulty == None
    {
      maxHikingDifficulty := None;
    }
  }

  /** JSON: the request document; a fresh one has no locations and empty option records. */
  class JSON {
    var locations: seq<Location>
    var costing: Option<string>
    var directionsOptions: DirectionOptions
    var costingOptions: CostingOptions

    constructor ()
      ensures locations == [] && costing == None
      ensures fresh(directionsOptions) && fresh(costingOptions)
      ensures directionsOptions.units == None && directionsOptions.language == None
      ensures costingOptions.maxHikingDifficulty == None
    {
      locations := [];
      costing := None;
      directionsOptions := new DirectionOptions();
      costingOptions := new CostingOptions();
    }
  }
}
