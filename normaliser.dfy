/**
 * `buildSystem`: turns one decoded galaxy-dump record into the compact
 * system the evaluator works on. Stations are filtered by service, distance
 * and type and then sorted by distance; factions are split into anarchy and
 * non-anarchy ones; the security label becomes a small code; ringed bodies
 * are counted.
 */
module Normaliser {
  import opened Types
  import opened Sorting

  // ---------------------------------------------------------------------
  // Specification
  // ---------------------------------------------------------------------

  /** The station types that are always considered. */
  const BaseStationTypes: seq<string> := ["Outpost", "Coriolis Starport", "Orbis Starport", "Ocellus Starport"]

  const GroundBase: string := "Planetary Outpost"
  const OdysseySettlement: string := "Settlement"

  /** The station types a run considers: the base types plus the optional ones it switches on. */
  function RelevantStationTypes(config: Args): (types: seq<string>)
    ensures forall t :: t in BaseStationTypes ==> t in types
    ensures GroundBase in types <==> config.considerGroundBases
    ensures OdysseySettlement in types <==> config.considerOdysseySettlements
    ensures forall t :: t in types ==> t in BaseStationTypes || t == GroundBase || t == OdysseySettlement
  {
    BaseStationTypes +
    (if config.considerGroundBases then [GroundBase] else []) +
    (if config.considerOdysseySettlements then [OdysseySettlement] else [])
  }

  /** A raw station is kept when it has a mission board, is close enough to the arrival point and is of a relevant type. */
  predicate Keep(config: Args, st: JsonStation)
  {
    "Missions" in st.services &&
    st.distanceToArrival <= config.maxDistanceInLsForStationToBeConsidered as real &&
    st.stationType in RelevantStationTypes(config)
  }

  function ToStation(st: JsonStation): EliteSystemStation
  {
    EliteSystemStation(st.distanceToArrival, st.stationType, st.primaryEconomy)
  }

  /** The kept stations, converted, in input order. */
  function KeptStations(config: Args, stations: seq<JsonStation>): seq<EliteSystemStation>
  {
    if stations == [] then []
    else
      var last := stations[|stations| - 1];
      KeptStations(config, stations[..|stations| - 1]) + (if Keep(config, last) then [ToStation(last)] else [])
  }

  /** The sort key of stations. */
  function Distance(s: EliteSystemStation): real
  {
    s.distance
  }

  /** All stations the record lists, its own first and then those of each body. */
  function AllJsonStations(ownStations: seq<JsonStation>, bodies: seq<JsonBody>): seq<JsonStation>
  {
    if bodies == [] then ownStations
    else AllJsonStations(ownStations, bodies[..|bodies| - 1]) + bodies[|bodies| - 1].stations
  }

  function FactionNames(factions: seq<JsonFaction>): seq<string>
  {
    if factions == [] then [] else FactionNames(factions[..|factions| - 1]) + [factions[|factions| - 1].name]
  }

  /** Names of the factions whose government is "Anarchy", in input order. */
  function AnarchyNames(factions: seq<JsonFaction>): seq<string>
  {
    if factions == [] then []
    else
      var last := factions[|factions| - 1];
      AnarchyNames(factions[..|factions| - 1]) + (if last.government == "Anarchy" then [last.name] else [])
  }

  /** Names of all other factions, in input order. */
  function NonAnarchyNames(factions: seq<JsonFaction>): seq<string>
  {
    if factions == [] then []
    else
      var last := factions[|factions| - 1];
      NonAnarchyNames(factions[..|factions| - 1]) + (if last.government == "Anarchy" then [] else [last.name])
  }

  /** The security labels, at the index of their code. */
  const SecurityLabels: seq<string> := ["Anarchy", "Low", "Medium", "High"]

  /** The code of a label the source does not know. */
  const UnknownSecurity: int := 127

  function SecurityLevel(security: string): (level: int)
    ensures level == UnknownSecurity || 0 <= level < |SecurityLabels|
    ensures 0 <= level < |SecurityLabels| ==> SecurityLabels[level] == security
    ensures level == UnknownSecurity <==> security !in SecurityLabels
  {
    if security == "Anarchy" then 0
    else if security == "Low" then 1
    else if security == "Medium" then 2
    else if security == "High" then 3
    else UnknownSecurity
  }

  /** Number of bodies with at least one ring. */
  function RingQty(bodies: seq<JsonBody>): nat
  {
    if bodies == [] then 0
    else RingQty(bodies[..|bodies| - 1]) + (if |bodies[|bodies| - 1].rings| > 0 then 1 else 0)
  }

  /** The positions of the ringed bodies. */
  ghost function RingedBodies(bodies: seq<JsonBody>): set<int>
  {
    set i | 0 <= i < |bodies| && |bodies[i].rings| > 0
  }

  /**
   * `r` is a normalisation of `data`: the identity and position are copied,
   * the kept stations are sorted by distance (in some order among equal
   * distances), the factions are split with matching counters, and the
   * security code and ring count are derived from the record.
   */
  ghost predicate Normalised(config: Args, data: EliteSystemJson, r: EliteSystem)
  {
    r.id == data.id && r.name == data.name &&
    r.x == data.coords.x && r.y == data.coords.y && r.z == data.coords.z &&
    SortedBy(r.stations, Distance) &&
    multiset(r.stations) == multiset(KeptStations(config, data.stations)) &&
    r.anarchyFactionNames == AnarchyNames(data.factions) &&
    r.nonAnarchyFactionNames == NonAnarchyNames(data.factions) &&
    WellFormed(r) &&
    r.systemSecurityLevel == SecurityLevel(data.security) &&
    r.ringQty == RingQty(data.bodies)
  }

  // ---------------------------------------------------------------------
  // Properties of the specification
  // ---------------------------------------------------------------------

  /** A converted station is kept exactly when some input station passing the filter converts to it. */
  lemma {:induction false} KeptStationsExactly(config: Args, stations: seq<JsonStation>)
    ensures forall s :: s in KeptStations(config, stations) <==>
              exists j :: 0 <= j < |stations| && Keep(config, stations[j]) && ToStation(stations[j]) == s
    decreases |stations|
  {
    if stations != [] {
      var init := stations[..|stations| - 1];
      KeptStationsExactly(config, init);
      forall s
        ensures s in KeptStations(config, stations) <==>
                exists j :: 0 <= j < |stations| && Keep(config, stations[j]) && ToStation(stations[j]) == s
      {
        if s in KeptStations(config, stations) && s !in KeptStations(config, init) {
          var j := |stations| - 1;
          assert Keep(config, stations[j]) && ToStation(stations[j]) == s;
        }
        if exists j :: 0 <= j < |stations| && Keep(config, stations[j]) && ToStation(stations[j]) == s {
          var j :| 0 <= j < |stations| && Keep(config, stations[j]) && ToStation(stations[j]) == s;
          if j < |init| {
            assert init[j] == stations[j];
          }
        }
      }
    }
  }

  /** Every faction lands in exactly one of the two lists. */
  lemma {:induction false} PartitionExhaustive(factions: seq<JsonFaction>)
    ensures |AnarchyNames(factions)| + |NonAnarchyNames(factions)| == |factions|
    ensures multiset(AnarchyNames(factions)) + multiset(NonAnarchyNames(factions)) == multiset(FactionNames(factions))
    decreases |factions|
  {
    if factions != [] {
      PartitionExhaustive(factions[..|factions| - 1]);
    }
  }

  /** An anarchy faction's name is in the anarchy list and any other faction's name in the other list. */
  lemma {:induction false} PartitionPlacesEach(factions: seq<JsonFaction>, j: int)
    requires 0 <= j < |factions|
    ensures factions[j].government == "Anarchy" ==> factions[j].name in AnarchyNames(factions)
    ensures factions[j].government != "Anarchy" ==> factions[j].name in NonAnarchyNames(factions)
    decreases |factions|
  {
    if j < |factions| - 1 {
      var init := factions[..|factions| - 1];
      PartitionPlacesEach(init, j);
      assert init[j] == factions[j];
    }
  }

  /** The ring count is the number of ringed bodies. */
  lemma {:induction false} RingQtyCountsRingedBodies(bodies: seq<JsonBody>)
    ensures RingQty(bodies) == |RingedBodies(bodies)|
    decreases |bodies|
  {
    if bodies != [] {
      var init := bodies[..|bodies| - 1];
      RingQtyCountsRingedBodies(init);
      var n := |bodies| - 1;
      if |bodies[n].rings| > 0 {
        assert RingedBodies(bodies) == RingedBodies(init) + {n};
      } else {
        assert RingedBodies(bodies) == RingedBodies(init);
      }
    }
  }

  // ---------------------------------------------------------------------
  // The normaliser
  // ---------------------------------------------------------------------

  /** The linear search both filters of the station loop use. */
  method Contains(xs: seq<string>, x: string) returns (found: bool)
    ensures found <==> x in xs
  {
    found := false;
    for i := 0 to |xs|
      invariant x !in xs[..i]
    {
      if xs[i] == x {
        found := true;
        break;
      }
    }
    if !found {
      assert xs[..|xs|] == xs;
    }
  }

  /**
   * Gathers the record's own stations and those of its bodies. The
   * result is never used: the station filter reads only the record's own
   * stations.
   */
  method GatherJsonStations(data: EliteSystemJson) returns (jsonStations: seq<JsonStation>)
    ensures jsonStations == AllJsonStations(data.stations, data.bodies)
  {
    jsonStations := [] + data.stations;
    for b := 0 to |data.bodies|
      invariant jsonStations == AllJsonStations(data.stations, data.bodies[..b])
    {
      var body := data.bodies[b];
      assert data.bodies[..b + 1][..b] == data.bodies[..b];
      ghost var before := jsonStations;
      for s := 0 to |body.stations|
        invariant jsonStations == before + body.stations[..s]
      {
        assert body.stations[..s + 1] == body.stations[..s] + [body.stations[s]];
        jsonStations := jsonStations + [body.stations[s]];
      }
      assert body.stations[..|body.stations|] == body.stations;
    }
    assert data.bodies[..|data.bodies|] == data.bodies;
  }

  /** The station filter loop: the kept stations, converted, in input order. */
  method FilterStations(config: Args, data: EliteSystemJson) returns (stations: seq<EliteSystemStation>)
    ensures stations == KeptStations(config, data.stations)
  {
    stations := [];
    for i := 0 to |data.stations|
      invariant stations == KeptStations(config, data.stations[..i])
    {
      var st := data.stations[i];
      assert data.stations[..i + 1][..i] == data.stations[..i];
      var hasMissionBoard := Contains(st.services, "Missions");
      if !hasMissionBoard {
        continue;
      }
      if st.distanceToArrival > config.maxDistanceInLsForStationToBeConsidered as real {
        continue;
      }
      var relevantStationTypes := RelevantStationTypes(config);
      var isRelevantType := Contains(relevantStationTypes, st.stationType);
      if !isRelevantType {
        continue;
      }
      stations := stations + [ToStation(st)];
    }
    assert data.stations[..|data.stations|] == data.stations;
  }

  /** The faction loop: both name lists and their counters. */
  method SplitFactions(factions: seq<JsonFaction>)
    returns (anarchyCount: int, anarchyNames: seq<string>, nonAnarchyCount: int, nonAnarchyNames: seq<string>)
    ensures anarchyNames == AnarchyNames(factions) && anarchyCount == |anarchyNames|
    ensures nonAnarchyNames == NonAnarchyNames(factions) && nonAnarchyCount == |nonAnarchyNames|
  {
    anarchyCount, nonAnarchyCount := 0, 0;
    anarchyNames, nonAnarchyNames := [], [];
    for i := 0 to |factions|
      invariant anarchyNames == AnarchyNames(factions[..i]) && anarchyCount == |anarchyNames|
      invariant nonAnarchyNames == NonAnarchyNames(factions[..i]) && nonAnarchyCount == |nonAnarchyNames|
    {
      assert factions[..i + 1][..i] == factions[..i];
      var faction := factions[i];
      if faction.government == "Anarchy" {
        anarchyCount := anarchyCount + 1;
        anarchyNames := anarchyNames + [faction.name];
      } else {
        nonAnarchyCount := nonAnarchyCount + 1;
        nonAnarchyNames := nonAnarchyNames + [faction.name];
      }
    }
    assert factions[..|factions|] == factions;
  }

  /** The ring loop. */
  method CountRings(bodies: seq<JsonBody>) returns (ringQty: int)
    ensures ringQty == RingQty(bodies)
  {
    ringQty := 0;
    for i := 0 to |bodies|
      invariant ringQty == RingQty(bodies[..i])
    {
      assert bodies[..i + 1][..i] == bodies[..i];
      if |bodies[i].rings| > 0 {
        ringQty := ringQty + 1;
      }
    }
    assert bodies[..|bodies|] == bodies;
  }

  /** `buildSystem`. */
  method BuildSystem(data: EliteSystemJson, config: Args) returns (r: EliteSystem)
    ensures Normalised(config, data, r)
  {
    var jsonStations := GatherJsonStations(data);

    var stations := FilterStations(config, data);
    var sorted := new EliteSystemStation[|stations|](j requires 0 <= j < |stations| => stations[j]);
    assert sorted[..] == stations;
    SortBy(sorted, Distance);

    var anarchyCount, anarchyNames, nonAnarchyCount, nonAnarchyNames := SplitFactions(data.factions);
    var securityLevel := SecurityLevel(data.security);
    var ringQty := CountRings(data.bodies);

    r := EliteSystem(
      id := data.id, name := data.name,
      x := data.coords.x, y := data.coords.y, z := data.coords.z,
      anarchyFactionCount := anarchyCount, nonAnarchyFactionCount := nonAnarchyCount,
      ringQty := ringQty, systemSecurityLevel := securityLevel,
      anarchyFactionNames := anarchyNames, nonAnarchyFactionNames := nonAnarchyNames,
      stations := sorted[..]);
  }
}
