/** The fixed table of mock locations the tracker names scans with (index.js lines 61-66). */
module Locations {
  import opened Wrappers

  const Table: map<string, string> :=
    map["location1" := "Quincy", "location2" := "Boston", "location3" := "Salem", "location4" := "Amherst"]

  /**
   * `locations[locationId]`: the name of a known location id; `undefined`
   * for any other id and for an absent one.
   */
  function LocationName(locationId: Option<string>): (name: Option<string>)
    ensures name == Some("Quincy") <==> locationId == Some("location1")
    ensures name == Some("Boston") <==> locationId == Some("location2")
    ensures name == Some("Salem") <==> locationId == Some("location3")
    ensures name == Some("Amherst") <==> locationId == Some("location4")
    ensures name.Some? ==> name.value in {"Quincy", "Boston", "Salem", "Amherst"}
  {
    match locationId
    case Some(id) => if id in Table then Some(Table[id]) else None
    case None => None
  }
}
