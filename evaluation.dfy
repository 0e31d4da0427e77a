/**
 * `EvaluateSystem`: decides whether a system is a candidate destination for
 * stacked massacre missions and, if so, scores it. A candidate has exactly
 * one anarchy faction; its sourcing systems are the populated systems within
 * 10 light years; the external systems are those reachable from a sourcing
 * system but farther than 10 light years from the candidate. Rings and many
 * distinct sourcing factions raise the score; external systems and anarchy
 * factions lower it.
 */
module Evaluation {
  import opened Types
  import opened SectorIndex
  import opened Neighbourhood

  datatype SystemEvaluationResult = SystemEvaluationResult(
    score: real,
    anarchyFactionName: string,
    systemName: string,
    sourceSystemAnarchyFactionCount: int,
    sourcingFactionsCount: int,
    sourcingSystems: int,
    externalSystemCount: int,
    externalSystemCountWithAnarchy: int,
    rings: int,
    metaSurroundingSystems: seq<EliteSystem>,
    metaSystem: EliteSystem)

  /** The zero system record. */
  const ZeroSystem: EliteSystem := EliteSystem(0, "", 0.0, 0.0, 0.0, 0, 0, 0, 0, [], [], [])

  /** The zero result, returned with every rejection. */
  const ZeroResult: SystemEvaluationResult := SystemEvaluationResult(0.0, "", "", 0, 0, 0, 0, 0, 0, [], ZeroSystem)

  // ---------------------------------------------------------------------
  // Score terms
  // ---------------------------------------------------------------------

  /** The starting score of a ringed candidate. */
  function RingSeed(ringQty: int): real
  {
    if ringQty > 0 then 2.0 - 1.0 / ringQty as real else 0.0
  }

  /** `1/c` for a positive count lies in (0, 1]. */
  lemma InverseBounds(c: int)
    requires c > 0
    ensures 0.0 < 1.0 / c as real <= 1.0
  {
    var inv := 1.0 / c as real;
    assert inv * c as real == 1.0;
    assert c as real >= 1.0;
  }

  /** More ringed bodies give a strictly larger seed, which stays in [1, 2). */
  lemma RingSeedIncreasing(a: int, b: int)
    requires 0 < a < b
    ensures 1.0 <= RingSeed(a) < RingSeed(b) < 2.0
  {
    InverseBounds(a);
    InverseBounds(b);
    var ia, ib := 1.0 / a as real, 1.0 / b as real;
    assert ia * a as real == 1.0 && ib * b as real == 1.0;
    assert ib * a as real < ib * b as real;
    assert ib * a as real < ia * a as real;
  }

  /** What one sourcing faction named `c` times adds to the score. */
  function Reward(c: int): real
    requires c > 0
  {
    2.0 - 1.0 / c as real
  }

  /** The total anarchy faction count of `systems`. */
  function AnarchySum(systems: seq<EliteSystem>): int
  {
    if systems == [] then 0
    else AnarchySum(systems[..|systems| - 1]) + systems[|systems| - 1].anarchyFactionCount
  }

  /** The stations of `stations` strictly closer than `maxDistance` to the arrival point. */
  function NearStationCount(stations: seq<EliteSystemStation>, maxDistance: int): (n: nat)
    ensures n <= |stations|
  {
    if stations == [] then 0
    else
      NearStationCount(stations[..|stations| - 1], maxDistance) +
      (if stations[|stations| - 1].distance < maxDistance as real then 1 else 0)
  }

  /** The near stations of all of `systems`. */
  function StationCount(systems: seq<EliteSystem>, maxDistance: int): nat
  {
    if systems == [] then 0
    else StationCount(systems[..|systems| - 1], maxDistance) + NearStationCount(systems[|systems| - 1].stations, maxDistance)
  }

  // ---------------------------------------------------------------------
  // The external systems
  // ---------------------------------------------------------------------

  /** `s` is farther than 10 light years from `system`. */
  predicate Far(s: EliteSystem, system: EliteSystem)
  {
    SysDistanceSquared(s, system) > Radius * Radius
  }

  /** Files each far system of `candidates` under its id, a later one replacing an earlier one. */
  function AddFar(lookup: map<nat, EliteSystem>, system: EliteSystem, candidates: seq<EliteSystem>): map<nat, EliteSystem>
  {
    if candidates == [] then lookup
    else
      var m := AddFar(lookup, system, candidates[..|candidates| - 1]);
      var s := candidates[|candidates| - 1];
      if Far(s, system) then m[s.id := s] else m
  }

  /** The external lookup: far systems among the neighbours of each sourcing system, by id. */
  function ExternalLookup(system: EliteSystem, dataStore: SectoredData, sourcing: seq<EliteSystem>): map<nat, EliteSystem>
  {
    if sourcing == [] then map[]
    else
      AddFar(ExternalLookup(system, dataStore, sourcing[..|sourcing| - 1]), system,
             PopulatedSystemsIn10Ly(sourcing[|sourcing| - 1], dataStore))
  }

  /** Every entry is a far system filed under its own id. */
  ghost predicate FarById(lookup: map<nat, EliteSystem>, system: EliteSystem)
  {
    forall k :: k in lookup ==> lookup[k].id == k && Far(lookup[k], system)
  }

  lemma {:induction false} AddFarKeepsFarById(lookup: map<nat, EliteSystem>, system: EliteSystem, candidates: seq<EliteSystem>)
    requires FarById(lookup, system)
    ensures FarById(AddFar(lookup, system, candidates), system)
    decreases |candidates|
  {
    if candidates != [] {
      AddFarKeepsFarById(lookup, system, candidates[..|candidates| - 1]);
    }
  }

  /** The ids of the far systems of `candidates`. */
  ghost function FarIds(system: EliteSystem, candidates: seq<EliteSystem>): set<nat>
  {
    set s | s in candidates && Far(s, system) :: s.id
  }

  /** An id is filed exactly when it was there before or some far candidate carries it. */
  lemma {:induction false} AddFarKeys(lookup: map<nat, EliteSystem>, system: EliteSystem, candidates: seq<EliteSystem>)
    ensures AddFar(lookup, system, candidates).Keys == lookup.Keys + FarIds(system, candidates)
    decreases |candidates|
  {
    if candidates != [] {
      var init := candidates[..|candidates| - 1];
      var last := candidates[|candidates| - 1];
      AddFarKeys(lookup, system, init);
      assert candidates == init + [last];
      if Far(last, system) {
        assert FarIds(system, candidates) == FarIds(system, init) + {last.id};
      } else {
        assert FarIds(system, candidates) == FarIds(system, init);
      }
    }
  }

  /**
   * The external lookup holds only systems farther than 10 light years from
   * the candidate, each under its own id; so neither the candidate nor any
   * sourcing system is among them.
   */
  lemma {:induction false} ExternalLookupIsExternal(system: EliteSystem, dataStore: SectoredData, sourcing: seq<EliteSystem>)
    ensures FarById(ExternalLookup(system, dataStore, sourcing), system)
    ensures forall k :: k in ExternalLookup(system, dataStore, sourcing) ==>
              ExternalLookup(system, dataStore, sourcing)[k] != system &&
              ExternalLookup(system, dataStore, sourcing)[k] !in PopulatedSystemsIn10Ly(system, dataStore)
    decreases |sourcing|
  {
    var lookup := ExternalLookup(system, dataStore, sourcing);
    if sourcing != [] {
      var init := sourcing[..|sourcing| - 1];
      ExternalLookupIsExternal(system, dataStore, init);
      AddFarKeepsFarById(ExternalLookup(system, dataStore, init), system,
                         PopulatedSystemsIn10Ly(sourcing[|sourcing| - 1], dataStore));
    }
    forall k | k in lookup
      ensures lookup[k] != system && lookup[k] !in PopulatedSystemsIn10Ly(system, dataStore)
    {
      assert SysDistanceSquared(system, system) == 0.0;
      if lookup[k] in PopulatedSystemsIn10Ly(system, dataStore) {
        QuerySound(system, dataStore, lookup[k]);
      }
    }
  }

  /** Every far system met from some sourcing system has its id in the lookup. */
  lemma {:induction false} ExternalLookupComplete(system: EliteSystem, dataStore: SectoredData, sourcing: seq<EliteSystem>,
                                                  n: EliteSystem, s: EliteSystem)
    requires n in sourcing && s in PopulatedSystemsIn10Ly(n, dataStore) && Far(s, system)
    ensures s.id in ExternalLookup(system, dataStore, sourcing)
    decreases |sourcing|
  {
    var init, last := sourcing[..|sourcing| - 1], sourcing[|sourcing| - 1];
    var before := ExternalLookup(system, dataStore, init);
    AddFarKeys(before, system, PopulatedSystemsIn10Ly(last, dataStore));
    if n != last {
      assert n in init;
      ExternalLookupComplete(system, dataStore, init, n, s);
    }
  }

  /** Every entry of the extended lookup was there before or is one of `candidates`. */
  lemma {:induction false} AddFarSound(lookup: map<nat, EliteSystem>, system: EliteSystem, candidates: seq<EliteSystem>,
                                       k: nat)
    requires k in AddFar(lookup, system, candidates)
    ensures (k in lookup && AddFar(lookup, system, candidates)[k] == lookup[k]) ||
            AddFar(lookup, system, candidates)[k] in candidates
    decreases |candidates|
  {
    if candidates != [] {
      var init := candidates[..|candidates| - 1];
      var last := candidates[|candidates| - 1];
      if !(Far(last, system) && k == last.id) {
        AddFarSound(lookup, system, init, k);
        assert init <= candidates;
      }
    }
  }

  /** Every entry of the lookup is a neighbour of some sourcing system. */
  lemma {:induction false} ExternalLookupSound(system: EliteSystem, dataStore: SectoredData, sourcing: seq<EliteSystem>,
                                               k: nat)
    requires k in ExternalLookup(system, dataStore, sourcing)
    ensures exists n :: n in sourcing && ExternalLookup(system, dataStore, sourcing)[k] in PopulatedSystemsIn10Ly(n, dataStore)
    decreases |sourcing|
  {
    var init, last := sourcing[..|sourcing| - 1], sourcing[|sourcing| - 1];
    var before := ExternalLookup(system, dataStore, init);
    var lookup := ExternalLookup(system, dataStore, sourcing);
    AddFarSound(before, system, PopulatedSystemsIn10Ly(last, dataStore), k);
    if lookup[k] in PopulatedSystemsIn10Ly(last, dataStore) {
      assert last in sourcing;
    } else {
      ExternalLookupSound(system, dataStore, init, k);
      var n :| n in init && before[k] in PopulatedSystemsIn10Ly(n, dataStore);
      assert n in sourcing;
    }
  }

  /** The total anarchy faction count of the lookup's systems. */
  ghost function SumAnarchy(lookup: map<nat, EliteSystem>): int
    decreases |lookup|
  {
    if lookup == map[] then 0
    else
      var k :| k in lookup;
      lookup[k].anarchyFactionCount + SumAnarchy(lookup - {k})
  }

  /** The sum does not depend on which entry is taken first. */
  lemma {:induction false} SumAnarchyPick(lookup: map<nat, EliteSystem>, k: nat)
    requires k in lookup
    ensures SumAnarchy(lookup) == lookup[k].anarchyFactionCount + SumAnarchy(lookup - {k})
    decreases |lookup|
  {
    var j :| j in lookup && SumAnarchy(lookup) == lookup[j].anarchyFactionCount + SumAnarchy(lookup - {j});
    if j != k {
      SumAnarchyPick(lookup - {j}, k);
      SumAnarchyPick(lookup - {k}, j);
      assert lookup - {j} - {k} == lookup - {k} - {j};
    }
  }

  // ---------------------------------------------------------------------
  // The sourcing factions
  // ---------------------------------------------------------------------

  /** The non-anarchy faction names of `systems`, system by system. */
  function NonAnarchyNamesOf(systems: seq<EliteSystem>): seq<string>
  {
    if systems == [] then []
    else NonAnarchyNamesOf(systems[..|systems| - 1]) + systems[|systems| - 1].nonAnarchyFactionNames
  }

  /** How often each name occurs in `names`. */
  function Tally(names: seq<string>): map<string, int>
  {
    if names == [] then map[]
    else
      var m := Tally(names[..|names| - 1]);
      var f := names[|names| - 1];
      m[f := (if f in m then m[f] else 0) + 1]
  }

  /** The tally has an entry for each distinct name, holding its number of occurrences. */
  lemma {:induction false} TallyCounts(names: seq<string>)
    ensures forall f :: f in Tally(names) <==> f in names
    ensures forall f :: f in Tally(names) ==> Tally(names)[f] == multiset(names)[f] > 0
    decreases |names|
  {
    if names != [] {
      var init := names[..|names| - 1];
      TallyCounts(init);
      assert names == init + [names[|names| - 1]];
    }
  }

  /** The number of sourcing factions is the number of distinct names. */
  lemma DistinctFactions(names: seq<string>)
    ensures |Tally(names)| == |set f | f in names|
  {
    TallyCounts(names);
    assert Tally(names).Keys == set f | f in names;
  }

  /** The total reward of the tally: `2 - 1/c` for each name counted `c` times. */
  ghost function SumReward(tally: map<string, int>): real
    requires forall f :: f in tally ==> tally[f] > 0
    decreases |tally|
  {
    if tally == map[] then 0.0
    else
      var f :| f in tally;
      Reward(tally[f]) + SumReward(tally - {f})
  }

  lemma {:induction false} SumRewardPick(tally: map<string, int>, f: string)
    requires forall g :: g in tally ==> tally[g] > 0
    requires f in tally
    ensures SumReward(tally) == Reward(tally[f]) + SumReward(tally - {f})
    decreases |tally|
  {
    var g :| g in tally && SumReward(tally) == Reward(tally[g]) + SumReward(tally - {g});
    if g != f {
      SumRewardPick(tally - {g}, f);
      SumRewardPick(tally - {f}, g);
      assert tally - {g} - {f} == tally - {f} - {g};
    }
  }

  /** Each sourcing faction adds at least 1 and less than 2. */
  lemma {:induction false} RewardBounds(tally: map<string, int>)
    requires forall f :: f in tally ==> tally[f] > 0
    ensures |tally| as real <= SumReward(tally) <= 2.0 * |tally| as real
    ensures tally != map[] ==> SumReward(tally) < 2.0 * |tally| as real
    decreases |tally|
  {
    if tally != map[] {
      var f :| f in tally;
      SumRewardPick(tally, f);
      RewardBounds(tally - {f});
      InverseBounds(tally[f]);
      assert |tally - {f}| == |tally| - 1;
    }
  }

  // ---------------------------------------------------------------------
  // The evaluation
  // ---------------------------------------------------------------------

  /**
   * The outcome of evaluating `system`: `None` when one of the filters
   * rejects it, in the order the source applies them, and the scored
   * result otherwise.
   */
  ghost function Evaluate(system: EliteSystem, dataStore: SectoredData, config: Args): Option<SystemEvaluationResult>
    requires WellFormed(system)
  {
    if system.anarchyFactionCount != 1 then None
    else if config.filterOnlyRingedSource && system.ringQty == 0 then None
    else
      var sourcing := PopulatedSystemsIn10Ly(system, dataStore);
      if |sourcing| < config.minSourceSystemCount then None
      else if StationCount(sourcing, config.maxDistanceInLsForStationToBeConsidered) < config.minSourceStationCount then None
      else EvaluateExternal(system, config, sourcing, ExternalLookup(system, dataStore, sourcing))
  }

  /** The filters on the external systems, then the score. */
  ghost function EvaluateExternal(system: EliteSystem, config: Args, sourcing: seq<EliteSystem>,
                                  lookup: map<nat, EliteSystem>): Option<SystemEvaluationResult>
    requires |system.anarchyFactionNames| == 1
  {
    if |lookup| > config.maxOtherDestSystemsForSource then None
    else if SumAnarchy(lookup) > config.maxOtherDestSystemsForSourceAnarchyCount then None
    else Some(Accepted(system, sourcing, lookup))
  }

  /** The result for a candidate that passed every filter. */
  ghost function Accepted(system: EliteSystem, sourcing: seq<EliteSystem>, lookup: map<nat, EliteSystem>): SystemEvaluationResult
    requires |system.anarchyFactionNames| == 1
  {
    var outsideCount := |lookup|;
    var outsideAnarchy := SumAnarchy(lookup);
    var inside := AnarchySum(sourcing);
    var names := NonAnarchyNamesOf(sourcing);
    TallyCounts(names);
    var tally := Tally(names);
    SystemEvaluationResult(
      score := RingSeed(system.ringQty) - ((outsideAnarchy * outsideAnarchy) as real + outsideCount as real)
               - inside as real + SumReward(tally),
      anarchyFactionName := system.anarchyFactionNames[0],
      systemName := system.name,
      sourceSystemAnarchyFactionCount := inside,
      sourcingFactionsCount := |tally|,
      sourcingSystems := |sourcing|,
      externalSystemCount := outsideCount,
      externalSystemCountWithAnarchy := outsideAnarchy,
      rings := system.ringQty,
      metaSurroundingSystems := sourcing,
      metaSystem := system)
  }

  /** The external filters accept exactly the lookups within both limits. */
  lemma EvaluateExternalExactly(system: EliteSystem, config: Args, sourcing: seq<EliteSystem>,
                                lookup: map<nat, EliteSystem>)
    requires |system.anarchyFactionNames| == 1
    ensures EvaluateExternal(system, config, sourcing, lookup).Some? <==>
              |lookup| <= config.maxOtherDestSystemsForSource &&
              SumAnarchy(lookup) <= config.maxOtherDestSystemsForSourceAnarchyCount
  {
  }

  /** A system is accepted exactly when it passes every filter. */
  lemma AcceptedExactly(system: EliteSystem, dataStore: SectoredData, config: Args)
    requires WellFormed(system)
    ensures var sourcing := PopulatedSystemsIn10Ly(system, dataStore);
            var lookup := ExternalLookup(system, dataStore, sourcing);
            Evaluate(system, dataStore, config).Some? <==>
              system.anarchyFactionCount == 1 &&
              (config.filterOnlyRingedSource ==> system.ringQty != 0) &&
              |sourcing| >= config.minSourceSystemCount &&
              StationCount(sourcing, config.maxDistanceInLsForStationToBeConsidered) >= config.minSourceStationCount &&
              |lookup| <= config.maxOtherDestSystemsForSource &&
              SumAnarchy(lookup) <= config.maxOtherDestSystemsForSourceAnarchyCount
  {
    var sourcing := PopulatedSystemsIn10Ly(system, dataStore);
    var lookup := ExternalLookup(system, dataStore, sourcing);
    var prefilter := system.anarchyFactionCount == 1 && !(config.filterOnlyRingedSource && system.ringQty == 0) &&
       |sourcing| >= config.minSourceSystemCount &&
       StationCount(sourcing, config.maxDistanceInLsForStationToBeConsidered) >= config.minSourceStationCount;
    if prefilter {
      assert Evaluate(system, dataStore, config) == EvaluateExternal(system, config, sourcing, lookup);
      EvaluateExternalExactly(system, config, sourcing, lookup);
    } else {
      assert Evaluate(system, dataStore, config) == None;
    }
  }

  /**
   * An accepted result describes the candidate it was computed for: its
   * system, name and rings, and the sizes of its sourcing and external sets.
   */
  lemma AcceptedFields(system: EliteSystem, dataStore: SectoredData, config: Args)
    requires WellFormed(system)
    ensures var e := Evaluate(system, dataStore, config);
            var sourcing := PopulatedSystemsIn10Ly(system, dataStore);
            var lookup := ExternalLookup(system, dataStore, sourcing);
            e.Some? ==>
              e.value.metaSystem == system && e.value.systemName == system.name &&
              e.value.anarchyFactionName == system.anarchyFactionNames[0] &&
              e.value.rings == system.ringQty && e.value.metaSurroundingSystems == sourcing &&
              e.value.sourcingSystems == |sourcing| &&
              e.value.externalSystemCount == |lookup| &&
              e.value.externalSystemCountWithAnarchy == SumAnarchy(lookup)
  {
    var sourcing := PopulatedSystemsIn10Ly(system, dataStore);
    var lookup := ExternalLookup(system, dataStore, sourcing);
    AcceptedExactly(system, dataStore, config);
    if Evaluate(system, dataStore, config).Some? {
      assert Evaluate(system, dataStore, config) == EvaluateExternal(system, config, sourcing, lookup);
      assert Evaluate(system, dataStore, config).value == Accepted(system, sourcing, lookup);
    }
  }

  /**
   * What an accepted result reports: the number of distinct sourcing
   * factions, and a reward part of the score between one and two per
   * sourcing faction.
   */
  lemma AcceptedScore(system: EliteSystem, sourcing: seq<EliteSystem>, lookup: map<nat, EliteSystem>)
    requires |system.anarchyFactionNames| == 1
    ensures var r := Accepted(system, sourcing, lookup);
            var penalty := (r.externalSystemCountWithAnarchy * r.externalSystemCountWithAnarchy) as real
                           + r.externalSystemCount as real + r.sourceSystemAnarchyFactionCount as real;
            r.sourcingFactionsCount == |set f | f in NonAnarchyNamesOf(sourcing)| &&
            r.sourcingFactionsCount as real <= r.score - RingSeed(system.ringQty) + penalty
                                             <= 2.0 * r.sourcingFactionsCount as real
  {
    var names := NonAnarchyNamesOf(sourcing);
    TallyCounts(names);
    DistinctFactions(names);
    RewardBounds(Tally(names));
  }

  // ---------------------------------------------------------------------
  // The loops of EvaluateSystem
  // ---------------------------------------------------------------------

  /** The station and anarchy loop over the sourcing systems. */
  method CountSourcing(sourcing: seq<EliteSystem>, maxDistance: int)
    returns (stationCount: int, sourceSystemAnarchyCount: int)
    ensures stationCount == StationCount(sourcing, maxDistance)
    ensures sourceSystemAnarchyCount == AnarchySum(sourcing)
  {
    stationCount, sourceSystemAnarchyCount := 0, 0;
    for i := 0 to |sourcing|
      invariant stationCount == StationCount(sourcing[..i], maxDistance)
      invariant sourceSystemAnarchyCount == AnarchySum(sourcing[..i])
    {
      var sys := sourcing[i];
      assert sourcing[..i + 1][..i] == sourcing[..i];
      sourceSystemAnarchyCount := sourceSystemAnarchyCount + sys.anarchyFactionCount;
      ghost var before := stationCount;
      for j := 0 to |sys.stations|
        invariant stationCount == before + NearStationCount(sys.stations[..j], maxDistance)
      {
        assert sys.stations[..j + 1][..j] == sys.stations[..j];
        if sys.stations[j].distance < maxDistance as real {
          stationCount := stationCount + 1;
        }
      }
      assert sys.stations[..|sys.stations|] == sys.stations;
    }
    assert sourcing[..|sourcing|] == sourcing;
  }

  /** The "inside" anarchy loop: the same sum as the one `CountSourcing` takes. */
  method InsideAnarchyCount(sourcing: seq<EliteSystem>) returns (insideSystemAnarchyCount: int)
    ensures insideSystemAnarchyCount == AnarchySum(sourcing)
  {
    insideSystemAnarchyCount := 0;
    for i := 0 to |sourcing|
      invariant insideSystemAnarchyCount == AnarchySum(sourcing[..i])
    {
      assert sourcing[..i + 1][..i] == sourcing[..i];
      insideSystemAnarchyCount := insideSystemAnarchyCount + sourcing[i].anarchyFactionCount;
    }
    assert sourcing[..|sourcing|] == sourcing;
  }

  /** The loop that files the far neighbours of each sourcing system by id. */
  method BuildExternalLookup(system: EliteSystem, dataStore: SectoredData, sourcing: seq<EliteSystem>)
    returns (lookup: map<nat, EliteSystem>)
    ensures lookup == ExternalLookup(system, dataStore, sourcing)
  {
    lookup := map[];
    for i := 0 to |sourcing|
      invariant lookup == ExternalLookup(system, dataStore, sourcing[..i])
    {
      var newSystem := sourcing[i];
      assert sourcing[..i + 1][..i] == sourcing[..i];
      var systemsOfGivenSystemInRange := GetAllPopulatedSystemsIn10LyRadius(newSystem, dataStore);
      ghost var before := lookup;
      for j := 0 to |systemsOfGivenSystemInRange|
        invariant lookup == AddFar(before, system, systemsOfGivenSystemInRange[..j])
      {
        var s := systemsOfGivenSystemInRange[j];
        assert systemsOfGivenSystemInRange[..j + 1][..j] == systemsOfGivenSystemInRange[..j];
        if SysDistanceSquared(s, system) > 10.0 * 10.0 {
          lookup := lookup[s.id := s];
        }
      }
      assert systemsOfGivenSystemInRange[..|systemsOfGivenSystemInRange|] == systemsOfGivenSystemInRange;
    }
    assert sourcing[..|sourcing|] == sourcing;
  }

  /** The loop over the lookup's entries, in whatever order the map yields them. */
  method CountOutside(lookup: map<nat, EliteSystem>) returns (outsideSystemCount: int, outsideSystemAnarchyCount: int)
    ensures outsideSystemCount == |lookup|
    ensures outsideSystemAnarchyCount == SumAnarchy(lookup)
  {
    outsideSystemCount, outsideSystemAnarchyCount := 0, 0;
    var remaining := lookup;
    while remaining != map[]
      invariant outsideSystemCount + |remaining| == |lookup|
      invariant outsideSystemAnarchyCount + SumAnarchy(remaining) == SumAnarchy(lookup)
      decreases |remaining|
    {
      var id :| id in remaining;
      var outsideSystem := remaining[id];
      SumAnarchyPick(remaining, id);
      outsideSystemCount := outsideSystemCount + 1;
      outsideSystemAnarchyCount := outsideSystemAnarchyCount + outsideSystem.anarchyFactionCount;
      remaining := remaining - {id};
    }
  }

  lemma TallySnoc(names: seq<string>, f: string)
    ensures var m := Tally(names);
            Tally(names + [f]) == m[f := (if f in m then m[f] else 0) + 1]
  {
    assert (names + [f])[..|names|] == names;
  }

  /** The inner loop of the tally: counts the names of one sourcing system. */
  method CountNames(mapping: map<string, int>, ghost counted: seq<string>, names: seq<string>)
    returns (newMapping: map<string, int>)
    requires mapping == Tally(counted)
    ensures newMapping == Tally(counted + names)
  {
    newMapping := mapping;
    assert counted + names[..0] == counted;
    for j := 0 to |names|
      invariant newMapping == Tally(counted + names[..j])
    {
      var f := names[j];
      TallySnoc(counted + names[..j], f);
      assert counted + names[..j] + [f] == counted + names[..j + 1];
      if f !in newMapping {
        newMapping := newMapping[f := 0];
      }
      newMapping := newMapping[f := newMapping[f] + 1];
    }
    assert names[..|names|] == names;
  }

  /** The loop that counts each non-anarchy faction name over the sourcing systems. */
  method TallyNonAnarchyFactions(sourcing: seq<EliteSystem>) returns (mapping: map<string, int>)
    ensures mapping == Tally(NonAnarchyNamesOf(sourcing))
  {
    mapping := map[];
    for i := 0 to |sourcing|
      invariant mapping == Tally(NonAnarchyNamesOf(sourcing[..i]))
    {
      assert sourcing[..i + 1][..i] == sourcing[..i];
      mapping := CountNames(mapping, NonAnarchyNamesOf(sourcing[..i]), sourcing[i].nonAnarchyFactionNames);
    }
    assert sourcing[..|sourcing|] == sourcing;
  }

  /** The loop that adds the reward of every tallied name to the score. */
  method AddRewards(score: real, mapping: map<string, int>) returns (newScore: real)
    requires forall f :: f in mapping ==> mapping[f] > 0
    ensures newScore == score + SumReward(mapping)
  {
    newScore := score;
    var remaining := mapping;
    while remaining != map[]
      invariant forall f :: f in remaining ==> f in mapping && remaining[f] == mapping[f]
      invariant newScore + SumReward(remaining) == score + SumReward(mapping)
      decreases |remaining|
    {
      var f :| f in remaining;
      var count := remaining[f];
      SumRewardPick(remaining, f);
      newScore := newScore + (2.0 - (1.0 / count as real));
      remaining := remaining - {f};
    }
  }

  /**
   * The second half of `EvaluateSystem`, from the external lookup on:
   * `score` is the ring seed and `sourceSystemAnarchyCount` the sourcing
   * systems' anarchy sum computed before.
   */
  method ScoreCandidate(system: EliteSystem, dataStore: SectoredData, config: Args,
                        populatedSystemsInRange: seq<EliteSystem>, score: real, sourceSystemAnarchyCount: int)
    returns (result: SystemEvaluationResult, relevant: bool)
    requires |system.anarchyFactionNames| == 1
    requires score == RingSeed(system.ringQty)
    requires sourceSystemAnarchyCount == AnarchySum(populatedSystemsInRange)
    ensures var expected := EvaluateExternal(system, config, populatedSystemsInRange,
                                             ExternalLookup(system, dataStore, populatedSystemsInRange));
            (relevant <==> expected.Some?) &&
            (relevant ==> result == expected.value) &&
            (!relevant ==> result == ZeroResult)
  {
    var systemToSurroundingSystemsLookup := BuildExternalLookup(system, dataStore, populatedSystemsInRange);
    var outsideSystemCount, outsideSystemAnarchyCount := CountOutside(systemToSurroundingSystemsLookup);
    if outsideSystemCount > config.maxOtherDestSystemsForSource {
      return ZeroResult, false;
    }
    if outsideSystemAnarchyCount > config.maxOtherDestSystemsForSourceAnarchyCount {
      return ZeroResult, false;
    }

    result := ScoreAccepted(system, populatedSystemsInRange, systemToSurroundingSystemsLookup, score,
                            sourceSystemAnarchyCount, outsideSystemCount, outsideSystemAnarchyCount);
    relevant := true;
  }

  /** The scoring of a candidate that passed every filter, and its result record. */
  method ScoreAccepted(system: EliteSystem, populatedSystemsInRange: seq<EliteSystem>, ghost lookup: map<nat, EliteSystem>,
                       score: real, sourceSystemAnarchyCount: int, outsideSystemCount: int, outsideSystemAnarchyCount: int)
    returns (result: SystemEvaluationResult)
    requires |system.anarchyFactionNames| == 1
    requires score == RingSeed(system.ringQty)
    requires sourceSystemAnarchyCount == AnarchySum(populatedSystemsInRange)
    requires outsideSystemCount == |lookup| && outsideSystemAnarchyCount == SumAnarchy(lookup)
    ensures result == Accepted(system, populatedSystemsInRange, lookup)
  {
    var newScore := score - ((outsideSystemAnarchyCount * outsideSystemAnarchyCount) as real + outsideSystemCount as real);

    var insideSystemAnarchyCount := InsideAnarchyCount(populatedSystemsInRange);
    newScore := newScore - insideSystemAnarchyCount as real;

    var nonAnarchyFactionQtyMapping := TallyNonAnarchyFactions(populatedSystemsInRange);
    TallyCounts(NonAnarchyNamesOf(populatedSystemsInRange));
    newScore := AddRewards(newScore, nonAnarchyFactionQtyMapping);

    result := SystemEvaluationResult(
      score := newScore,
      anarchyFactionName := system.anarchyFactionNames[0],
      systemName := system.name,
      sourceSystemAnarchyFactionCount := sourceSystemAnarchyCount,
      sourcingFactionsCount := |nonAnarchyFactionQtyMapping|,
      sourcingSystems := |populatedSystemsInRange|,
      externalSystemCount := outsideSystemCount,
      externalSystemCountWithAnarchy := outsideSystemAnarchyCount,
      rings := system.ringQty,
      metaSurroundingSystems := populatedSystemsInRange,
      metaSystem := system);
  }

  /** `EvaluateSystem`: the result and whether the system is relevant. */
  method EvaluateSystem(system: EliteSystem, dataStore: SectoredData, config: Args)
    returns (result: SystemEvaluationResult, relevant: bool)
    requires WellFormed(system)
    ensures relevant <==> Evaluate(system, dataStore, config).Some?
    ensures relevant ==> result == Evaluate(system, dataStore, config).value
    ensures !relevant ==> result == ZeroResult
  {
    if system.anarchyFactionCount != 1 {
      return ZeroResult, false;
    }
    if config.filterOnlyRingedSource && system.ringQty == 0 {
      return ZeroResult, false;
    }

    var score := 0.0;
    if system.ringQty > 0 {
      score := score + (2.0 - 1.0 / system.ringQty as real);
    }

    var populatedSystemsInRange := GetAllPopulatedSystemsIn10LyRadius(system, dataStore);
    if |populatedSystemsInRange| < config.minSourceSystemCount {
      return ZeroResult, false;
    }

    var stationCount, sourceSystemAnarchyCount :=
      CountSourcing(populatedSystemsInRange, config.maxDistanceInLsForStationToBeConsidered);
    if stationCount < config.minSourceStationCount {
      return ZeroResult, false;
    }

    result, relevant := ScoreCandidate(system, dataStore, config, populatedSystemsInRange, score, sourceSystemAnarchyCount);
  }
}
