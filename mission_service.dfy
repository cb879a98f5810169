/**
 * The mission records and the lookup service the web part calls.
 *
 * The service's own data is not part of this model: the collection of
 * missions is an injected, read-only map from mission code to record.
 */
module MissionService {
  import opened Wrappers

  /** One Apollo mission. Dates are kept as the strings the page displays. */
  datatype Mission = Mission(
    id: string,
    name: string,
    launchDate: string,
    endDate: string,
    wikiHref: string)

  /** The fixed collection of missions, keyed by mission code. */
  type MissionTable = map<string, Mission>

  /**
   * Looks a mission up by its code. A missing code is reported as `None`,
   * never as an error; a present one gives back the stored record as it is.
   */
  function GetMission(missions: MissionTable, code: string): (r: Option<Mission>)
    ensures r.Some? <==> code in missions
    ensures r.Some? ==> r.value == missions[code]
  {
    if code in missions then Some(missions[code]) else None
  }
}
