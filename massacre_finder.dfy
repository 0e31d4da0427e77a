/**
 * The sequential view of the finder's main routine: every system of every
 * sector list is evaluated once, the accepted results are appended to a
 * results list, the list is sorted by descending score and at most ten
 * entries are displayed. The results list starts out holding one hundred
 * zero-valued entries, which the sort then ranks with the real ones.
 */
module MassacreFinder {
  import opened Types
  import opened Sorting
  import opened SectorIndex
  import opened Evaluation
  import opened Collecting
  import opened Neighbourhood

  /** The configuration the main routine runs with. */
  const MainConfig: Args := Args(
    filterOnlyRingedSource := true,
    minSourceSystemCount := 3,
    maxOtherDestSystemsForSource := 0,
    maxOtherDestSystemsForSourceAnarchyCount := 0,
    minSourceStationCount := 6,
    maxDistanceInLsForStationToBeConsidered := 1000,
    considerGroundBases := false,
    considerOdysseySettlements := false)

  /** The length the results list is created with. */
  const ResultsPadding: nat := 100

  /** The most entries displayed. */
  const DisplayLimit: nat := 10

  /** `n` zero-valued results. */
  function Padding(n: nat): seq<SystemEvaluationResult>
  {
    seq(n, _ => ZeroResult)
  }

  // ---------------------------------------------------------------------
  // What the collection loop gathers
  // ---------------------------------------------------------------------

  /** Every system of `systems` has counters matching its name lists. */
  ghost predicate AllWellFormed(systems: seq<EliteSystem>)
  {
    forall s :: s in systems ==> WellFormed(s)
  }

  /** Every list of the index holds well-formed systems only. */
  ghost predicate IndexWellFormed(sectoredData: SectoredData)
  {
    forall k :: k in sectoredData ==> AllWellFormed(sectoredData[k])
  }

  /**
   * What submitting `system` appends: its result if it is relevant, nothing
   * otherwise. (Only well-formed systems are ever submitted; the others are
   * given no result here.)
   */
  ghost function Outcome(system: EliteSystem, dataStore: SectoredData, config: Args): seq<SystemEvaluationResult>
  {
    if WellFormed(system) && Evaluate(system, dataStore, config).Some? then [Evaluate(system, dataStore, config).value]
    else []
  }

  /** `Outcome` as a function of the system alone. */
  ghost function Outcomes(dataStore: SectoredData, config: Args): EliteSystem -> seq<SystemEvaluationResult>
  {
    s => Outcome(s, dataStore, config)
  }

  /** The results of the relevant systems of `systems`, in submission order. */
  ghost function AcceptedOf(systems: seq<EliteSystem>, dataStore: SectoredData, config: Args): seq<SystemEvaluationResult>
  {
    Gather(systems, Outcomes(dataStore, config))
  }

  /**
   * Which results are collected does not depend on the order the systems
   * are submitted in: submitting a rearrangement of the same systems yields
   * a rearrangement of the same results.
   */
  lemma AcceptedOfPermutation(a: seq<EliteSystem>, b: seq<EliteSystem>, dataStore: SectoredData, config: Args)
    requires multiset(a) == multiset(b)
    ensures multiset(AcceptedOf(a, dataStore, config)) == multiset(AcceptedOf(b, dataStore, config))
  {
    GatherPermutation(a, b, Outcomes(dataStore, config));
  }

  /** No system yields the zero result: an accepted system has one anarchy faction. */
  lemma NoZeroAccepted(systems: seq<EliteSystem>, dataStore: SectoredData, config: Args)
    ensures ZeroResult !in AcceptedOf(systems, dataStore, config)
  {
    forall s | s in systems
      ensures ZeroResult !in Outcomes(dataStore, config)(s)
    {
      if WellFormed(s) {
        AcceptedFields(s, dataStore, config);
        AcceptedExactly(s, dataStore, config);
      }
    }
    GatherExcludes(systems, Outcomes(dataStore, config), ZeroResult);
  }

  lemma FlattenSnoc(sectoredData: SectoredData, order: seq<EliteSector>, k: EliteSector)
    requires k in sectoredData
    ensures Flatten(sectoredData, order + [k]) == Flatten(sectoredData, order) + sectoredData[k]
  {
    assert (order + [k])[..|order|] == order;
  }

  /** The systems of an index built from `built` are well formed when those of `built` are. */
  lemma IndexOfWellFormed(built: seq<EliteSystem>)
    requires AllWellFormed(built)
    ensures IndexWellFormed(IndexOf(built))
  {
    forall k, i | k in IndexOf(built) && 0 <= i < |IndexOf(built)[k]|
      ensures WellFormed(IndexOf(built)[k][i])
    {
      var s := IndexOf(built)[k][i];
      IndexFilesEach(built, s, k);
    }
  }

  // ---------------------------------------------------------------------
  // Ranking
  // ---------------------------------------------------------------------

  /** The sort key that puts the highest score first. */
  function NegatedScore(r: SystemEvaluationResult): real
  {
    -r.score
  }

  /** Scores never increase along `s`. */
  ghost predicate ScoreDescending(s: seq<SystemEvaluationResult>)
  {
    forall i, j :: 0 <= i < j < |s| ==> s[i].score >= s[j].score
  }

  /** A value occurs in `s` at most `|s|` times. */
  lemma {:induction false} MultiplicityBound<T>(s: seq<T>, x: T)
    ensures multiset(s)[x] <= |s|
    decreases |s|
  {
    if s != [] {
      MultiplicityBound(s[..|s| - 1], x);
      assert s == s[..|s| - 1] + [s[|s| - 1]];
    }
  }

  /**
   * In a ranking by descending score, a result with a negative score comes
   * after every zero-valued entry.
   */
  lemma NegativeRanksBelowPadding(s: seq<SystemEvaluationResult>, i: int)
    requires ScoreDescending(s) && 0 <= i < |s| && s[i].score < 0.0
    ensures i >= multiset(s)[ZeroResult]
  {
    var front, back := s[..i], s[i..];
    assert s == front + back;
    assert ZeroResult !in back by {
      forall j | 0 <= j < |back|
        ensures back[j] != ZeroResult
      {
        assert back[j] == s[i + j];
      }
    }
    MultiplicityBound(front, ZeroResult);
  }

  // ---------------------------------------------------------------------
  // The methods
  // ---------------------------------------------------------------------

  /** `order` lists the sectors visited so far, each once, and `remaining` the others. */
  ghost predicate Walking(order: seq<EliteSector>, remaining: set<EliteSector>, sectoredData: SectoredData)
  {
    (forall i, j :: 0 <= i < j < |order| ==> order[i] != order[j]) &&
    (forall k :: k in sectoredData <==> k in order || k in remaining) &&
    (forall k :: k in remaining ==> k !in order)
  }

  /** Visiting one more sector keeps the walk in shape; once none remains it enumerates the index. */
  lemma WalkingStep(order: seq<EliteSector>, remaining: set<EliteSector>, sectoredData: SectoredData, k: EliteSector)
    requires Walking(order, remaining, sectoredData) && k in remaining
    ensures Walking(order + [k], remaining - {k}, sectoredData)
    ensures remaining - {k} == {} ==> EnumeratesKeys(order + [k], sectoredData)
  {
  }

  /** The inner collection loop: submits each system of one sector list in turn. */
  method EvaluateSector(results: seq<SystemEvaluationResult>, sectorSystems: seq<EliteSystem>,
                        sectoredData: SectoredData, config: Args)
    returns (newResults: seq<SystemEvaluationResult>)
    requires AllWellFormed(sectorSystems)
    ensures newResults == results + AcceptedOf(sectorSystems, sectoredData, config)
  {
    newResults := results;
    for i := 0 to |sectorSystems|
      invariant newResults == results + AcceptedOf(sectorSystems[..i], sectoredData, config)
    {
      assert sectorSystems[..i + 1][..i] == sectorSystems[..i];
      var response, relevant := EvaluateSystem(sectorSystems[i], sectoredData, config);
      if relevant {
        newResults := newResults + [response];
      }
    }
    assert sectorSystems[..|sectorSystems|] == sectorSystems;
  }

  /** One pass of the outer collection loop: submits the systems of `sector`. */
  method VisitSector(newResults: seq<SystemEvaluationResult>, ghost order: seq<EliteSector>, sector: EliteSector,
                     sectoredData: SectoredData, config: Args, ghost results: seq<SystemEvaluationResult>)
    returns (nextResults: seq<SystemEvaluationResult>)
    requires sector in sectoredData && IndexWellFormed(sectoredData)
    requires newResults == results + AcceptedOf(Flatten(sectoredData, order), sectoredData, config)
    ensures nextResults == results + AcceptedOf(Flatten(sectoredData, order + [sector]), sectoredData, config)
  {
    var sectorSystems := sectoredData[sector];
    ghost var walked := Flatten(sectoredData, order);
    nextResults := EvaluateSector(newResults, sectorSystems, sectoredData, config);
    GatherAppend(walked, sectorSystems, Outcomes(sectoredData, config));
    FlattenSnoc(sectoredData, order, sector);
    ghost var before, added := AcceptedOf(walked, sectoredData, config), AcceptedOf(sectorSystems, sectoredData, config);
    assert AcceptedOf(Flatten(sectoredData, order + [sector]), sectoredData, config) == before + added;
    assert nextResults == (results + before) + added;
    AppendAssociative(results, before, added);
  }

  /**
   * The outer collection loop over the index, in whatever order the map
   * yields its sectors; `order` is that order.
   */
  method CollectResults(sectoredData: SectoredData, config: Args, results: seq<SystemEvaluationResult>)
    returns (newResults: seq<SystemEvaluationResult>, ghost order: seq<EliteSector>)
    requires IndexWellFormed(sectoredData)
    ensures EnumeratesKeys(order, sectoredData)
    ensures newResults == results + AcceptedOf(Flatten(sectoredData, order), sectoredData, config)
  {
    newResults := results;
    order := [];
    var remaining := sectoredData.Keys;
    while remaining != {}
      invariant Walking(order, remaining, sectoredData)
      invariant newResults == results + AcceptedOf(Flatten(sectoredData, order), sectoredData, config)
      decreases |remaining|
    {
      var sector :| sector in remaining;
      newResults := VisitSector(newResults, order, sector, sectoredData, config, results);
      WalkingStep(order, remaining, sectoredData, sector);
      order := order + [sector];
      remaining := remaining - {sector};
    }
  }

  /** The in-place sort of the results by descending score. */
  method SortResults(results: array<SystemEvaluationResult>)
    modifies results
    ensures ScoreDescending(results[..])
    ensures multiset(results[..]) == old(multiset(results[..]))
  {
    SortBy(results, NegatedScore);
  }

  /** The display clamp: the smaller of `n` and ten. */
  method ClampDisplay(n: nat) returns (countToDisplay: nat)
    ensures countToDisplay <= n && countToDisplay <= DisplayLimit
    ensures countToDisplay == n || countToDisplay == DisplayLimit
  {
    countToDisplay := n;
    if countToDisplay > DisplayLimit {
      countToDisplay := DisplayLimit;
    }
  }

  /**
   * Collects the results over the index starting from `padding` zero-valued
   * entries, sorts them by descending score and clamps the display count.
   */
  method Rank(sectoredData: SectoredData, config: Args, padding: nat)
    returns (results: array<SystemEvaluationResult>, countToDisplay: nat, ghost order: seq<EliteSector>)
    requires IndexWellFormed(sectoredData)
    ensures EnumeratesKeys(order, sectoredData)
    ensures multiset(results[..]) ==
              multiset(Padding(padding)) + multiset(AcceptedOf(Flatten(sectoredData, order), sectoredData, config))
    ensures ScoreDescending(results[..])
    ensures countToDisplay <= results.Length && countToDisplay <= DisplayLimit
    ensures countToDisplay == results.Length || countToDisplay == DisplayLimit
  {
    var collected;
    collected, order := CollectResults(sectoredData, config, Padding(padding));
    results := new SystemEvaluationResult[|collected|](i requires 0 <= i < |collected| => collected[i]);
    assert results[..] == collected;
    SortResults(results);
    countToDisplay := ClampDisplay(results.Length);
  }

  /**
   * The main routine as written: builds the index of `systemList`, collects
   * the results after the one hundred zero-valued entries the list is
   * created with, and ranks them. `built` is the normalised input.
   */
  method FindCandidates(systemList: seq<EliteSystemJson>, config: Args)
    returns (results: array<SystemEvaluationResult>, countToDisplay: nat, ghost built: seq<EliteSystem>)
    ensures NormalisedEach(config, systemList, built) && AllWellFormed(built)
    ensures multiset(results[..]) ==
              multiset(Padding(ResultsPadding)) + multiset(AcceptedOf(built, IndexOf(built), config))
    ensures multiset(results[..])[ZeroResult] == ResultsPadding
    ensures ScoreDescending(results[..])
    ensures countToDisplay == DisplayLimit
  {
    var sectoredData;
    sectoredData, built := BuildSectoredData(systemList, config);
    assert AllWellFormed(built);
    IndexOfWellFormed(built);
    ghost var order;
    results, countToDisplay, order := Rank(sectoredData, config, ResultsPadding);
    IndexCoversInput(built, order);
    AcceptedOfPermutation(Flatten(sectoredData, order), built, sectoredData, config);
    NoZeroAccepted(built, sectoredData, config);
    assert multiset(Padding(ResultsPadding))[ZeroResult] == ResultsPadding by {
      MultiplicityOfPadding(ResultsPadding);
    }
  }

  /**
   * The main routine as intended: the results list starts empty, so it holds
   * exactly the results of the relevant systems and the display shows at
   * most ten of them.
   */
  method FindCandidatesIntended(systemList: seq<EliteSystemJson>, config: Args)
    returns (results: array<SystemEvaluationResult>, countToDisplay: nat, ghost built: seq<EliteSystem>)
    ensures NormalisedEach(config, systemList, built) && AllWellFormed(built)
    ensures multiset(results[..]) == multiset(AcceptedOf(built, IndexOf(built), config))
    ensures ZeroResult !in results[..]
    ensures ScoreDescending(results[..])
    ensures countToDisplay <= results.Length && countToDisplay <= DisplayLimit
    ensures countToDisplay == results.Length || countToDisplay == DisplayLimit
  {
    var sectoredData;
    sectoredData, built := BuildSectoredData(systemList, config);
    assert AllWellFormed(built);
    IndexOfWellFormed(built);
    ghost var order;
    results, countToDisplay, order := Rank(sectoredData, config, 0);
    IndexCoversInput(built, order);
    AcceptedOfPermutation(Flatten(sectoredData, order), built, sectoredData, config);
    NoZeroAccepted(built, sectoredData, config);
    assert Padding(0) == [];
    assert ZeroResult !in multiset(results[..]);
  }

  /**
   * Under `MainConfig` a system is a candidate exactly when it has one
   * anarchy faction and rings, at least three sourcing systems with at least
   * six mission stations within 1000 ls between them, and no sourcing system
   * reaches a system farther than 10 light years from it.
   */
  lemma MainConfigAccepts(system: EliteSystem, dataStore: SectoredData)
    requires WellFormed(system)
    ensures var sourcing := PopulatedSystemsIn10Ly(system, dataStore);
            Evaluate(system, dataStore, MainConfig).Some? <==>
              system.anarchyFactionCount == 1 && system.ringQty != 0 &&
              |sourcing| >= 3 && StationCount(sourcing, 1000) >= 6 &&
              ExternalLookup(system, dataStore, sourcing) == map[]
  {
    var sourcing := PopulatedSystemsIn10Ly(system, dataStore);
    AcceptedExactly(system, dataStore, MainConfig);
    if ExternalLookup(system, dataStore, sourcing) == map[] {
      assert SumAnarchy(map[]) == 0;
    }
  }

  /**
   * The main routine with the configuration it is written with: the results
   * are the 100 zero entries and the relevant results, sorted by descending
   * score, and ten entries are always displayed.
   */
  method RunMain(systemList: seq<EliteSystemJson>)
    returns (results: array<SystemEvaluationResult>, countToDisplay: nat, ghost built: seq<EliteSystem>)
    ensures NormalisedEach(MainConfig, systemList, built) && AllWellFormed(built)
    ensures multiset(results[..]) ==
              multiset(Padding(ResultsPadding)) + multiset(AcceptedOf(built, IndexOf(built), MainConfig))
    ensures multiset(results[..])[ZeroResult] == ResultsPadding
    ensures ScoreDescending(results[..])
    ensures countToDisplay == DisplayLimit
  {
    results, countToDisplay, built := FindCandidates(systemList, MainConfig);
  }

  lemma {:induction false} MultiplicityOfPadding(n: nat)
    ensures multiset(Padding(n))[ZeroResult] == n
    decreases n
  {
    if n > 0 {
      MultiplicityOfPadding(n - 1);
      assert Padding(n) == Padding(n - 1) + [ZeroResult];
    }
  }
}
