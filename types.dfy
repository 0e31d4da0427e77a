/**
 * The records the massacre-mission candidate finder works on: the run
 * configuration, the raw system records as they are decoded from the galaxy
 * dump, the compact normalised system and the sector key of the spatial grid.
 *
 * Single-precision floats of the source are `real` here, unsigned 64-bit ids
 * are `nat` and the small signed counters are `int`.
 */
module Types {

  datatype Option<+T> = None | Some(value: T)

  /** Run configuration (the `Args` record of the source). */
  datatype Args = Args(
    filterOnlyRingedSource: bool,
    minSourceSystemCount: int,
    maxOtherDestSystemsForSource: int,
    maxOtherDestSystemsForSourceAnarchyCount: int,
    minSourceStationCount: int,
    maxDistanceInLsForStationToBeConsidered: int,
    considerGroundBases: bool,
    considerOdysseySettlements: bool)

  // ----- Raw records, as decoded from one element of the input array -----

  datatype JsonCoords = JsonCoords(x: real, y: real, z: real)

  datatype JsonFaction = JsonFaction(name: string, government: string)

  datatype JsonRingEntry = JsonRingEntry(name: string, ringType: string)

  datatype JsonStation = JsonStation(
    distanceToArrival: real,
    stationType: string,
    primaryEconomy: string,
    services: seq<string>)

  datatype JsonBody = JsonBody(
    name: string,
    bodyType: string,
    rings: seq<JsonRingEntry>,
    stations: seq<JsonStation>)

  datatype EliteSystemJson = EliteSystemJson(
    coords: JsonCoords,
    name: string,
    security: string,
    factions: seq<JsonFaction>,
    bodies: seq<JsonBody>,
    id: nat,
    stations: seq<JsonStation>)

  // ----- Normalised records -----

  datatype EliteSystemStation = EliteSystemStation(
    distance: real,
    stationType: string,
    primaryEconomy: string)

  datatype EliteSystem = EliteSystem(
    id: nat,
    name: string,
    x: real,
    y: real,
    z: real,
    anarchyFactionCount: int,
    nonAnarchyFactionCount: int,
    ringQty: int,
    systemSecurityLevel: int,
    anarchyFactionNames: seq<string>,
    nonAnarchyFactionNames: seq<string>,
    stations: seq<EliteSystemStation>)

  /** Integer coordinates of a 10-unit cube of the spatial grid. */
  datatype EliteSector = EliteSector(x: int, y: int, z: int)

  /** The spatial index: each populated sector to the systems inside it. */
  type SectoredData = map<EliteSector, seq<EliteSystem>>

  /** A system whose faction counters agree with its faction name lists. */
  predicate WellFormed(s: EliteSystem)
  {
    s.anarchyFactionCount == |s.anarchyFactionNames| &&
    s.nonAnarchyFactionCount == |s.nonAnarchyFactionNames|
  }
}
