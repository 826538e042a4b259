/** The enumerations of the Router interface that the request builder renders as strings. */
module RouterTypes {

  /** Router.Type: the travel mode of a route. */
  datatype TravelMode = Driving | Walking | Biking | Multimodal

  /** Router.Type.toString: the service's costing model for each travel mode. */
  function CostingString(mode: TravelMode): string {
    match mode
    case Driving => "auto"
    case Biking => "bicycle"
    case Walking => "pedestrian"
    case Multimodal => "multimodal"
  }

  /** Each travel mode has its own costing string, so the request names the mode unambiguously. */
  lemma CostingStringInjective(a: TravelMode, b: TravelMode)
    ensures CostingString(a) == CostingString(b) <==> a == b
  {
  }

  /** Router.DistanceUnits: the unit of the distances in the returned narrative. */
  datatype DistanceUnits = Miles | Kilometers

  /** Router.DistanceUnits.toString. */
  function UnitsString(units: DistanceUnits): string {
    match units
    case Miles => "miles"
    case Kilometers => "kilometers"
  }

  /** Each unit has its own string. */
  lemma UnitsStringInjective(a: DistanceUnits, b: DistanceUnits)
    ensures UnitsString(a) == UnitsString(b) <==> a == b
  {
  }
}
