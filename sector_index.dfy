/**
 * The spatial index: every system is bucketed into the 10-unit cube of the
 * grid that contains it (`buildSector`, `BuildSector`) and the index maps
 * each populated cube to its systems in input order (`BuildSectoredData`).
 */
module SectorIndex {
  import opened Types
  import opened Normaliser

  /** The edge length of a sector. */
  const SectorSize: real := 10.0

  // ---------------------------------------------------------------------
  // Sector of a position
  // ---------------------------------------------------------------------

  /** The grid coordinate of `c` on one axis: the sector whose slab holds `c`. */
  function SectorCoord(c: real): (k: int)
    ensures k as real * SectorSize <= c < (k + 1) as real * SectorSize
  {
    (c / SectorSize).Floor
  }

  /** `buildSector`: the sector whose cube holds the position. */
  function SectorOf(x: real, y: real, z: real): (k: EliteSector)
    ensures k.x as real * SectorSize <= x < (k.x + 1) as real * SectorSize
    ensures k.y as real * SectorSize <= y < (k.y + 1) as real * SectorSize
    ensures k.z as real * SectorSize <= z < (k.z + 1) as real * SectorSize
  {
    EliteSector(SectorCoord(x), SectorCoord(y), SectorCoord(z))
  }

  /** `BuildSector`: the sector whose cube holds a normalised system. */
  function BuildSector(system: EliteSystem): (k: EliteSector)
    ensures k.x as real * SectorSize <= system.x < (k.x + 1) as real * SectorSize
    ensures k.y as real * SectorSize <= system.y < (k.y + 1) as real * SectorSize
    ensures k.z as real * SectorSize <= system.z < (k.z + 1) as real * SectorSize
  {
    SectorOf(system.x, system.y, system.z)
  }

  /** A normalised system lies in the sector its raw record was filed under. */
  lemma BuildSectorAgrees(config: Args, data: EliteSystemJson, system: EliteSystem)
    requires Normalised(config, data, system)
    ensures BuildSector(system) == SectorOf(data.coords.x, data.coords.y, data.coords.z)
  {
  }

  /** The sector coordinate is the only integer whose slab holds `c`. */
  lemma SectorCoordUnique(c: real, k: int)
    requires k as real * SectorSize <= c < (k + 1) as real * SectorSize
    ensures SectorCoord(c) == k
  {
    var f := SectorCoord(c);
    assert f as real < (k + 1) as real;
    assert k as real < (f + 1) as real;
  }

  /**
   * Two positions at most one sector edge apart on an axis are in the same
   * or adjacent slabs on that axis.
   */
  lemma NearbySectors(a: real, b: real)
    requires -SectorSize <= a - b <= SectorSize
    ensures -1 <= SectorCoord(a) - SectorCoord(b) <= 1
  {
    var ka, kb := SectorCoord(a), SectorCoord(b);
    assert (ka - kb - 1) as real * SectorSize < a - b < (ka - kb + 1) as real * SectorSize;
  }

  // ---------------------------------------------------------------------
  // The index of a list of systems
  // ---------------------------------------------------------------------

  /** The systems of `b` in sector `k`, in input order. */
  function InSector(b: seq<EliteSystem>, k: EliteSector): (r: seq<EliteSystem>)
    ensures |r| <= |b|
    ensures forall s :: s in r <==> s in b && BuildSector(s) == k
  {
    if b == [] then []
    else
      var last := b[|b| - 1];
      InSector(b[..|b| - 1], k) + (if BuildSector(last) == k then [last] else [])
  }

  /** The sectors some system of `b` lies in. */
  function SectorsOf(b: seq<EliteSystem>): set<EliteSector>
  {
    set s | s in b :: BuildSector(s)
  }

  /** The index of `b`: each populated sector to its systems, in input order. */
  function IndexOf(b: seq<EliteSystem>): SectoredData
  {
    map k | k in SectorsOf(b) :: InSector(b, k)
  }

  /** An unpopulated sector has no systems. */
  lemma {:induction false} InSectorEmpty(b: seq<EliteSystem>, k: EliteSector)
    requires k !in SectorsOf(b)
    ensures InSector(b, k) == []
    decreases |b|
  {
    if b != [] {
      var init := b[..|b| - 1];
      assert SectorsOf(init) <= SectorsOf(b);
      InSectorEmpty(init, k);
    }
  }

  lemma InSectorSnoc(b: seq<EliteSystem>, s: EliteSystem, k: EliteSector)
    ensures InSector(b + [s], k) == InSector(b, k) + (if BuildSector(s) == k then [s] else [])
  {
    assert (b + [s])[..|b|] == b;
  }

  /** Appending a system extends the list of its sector and no other. */
  lemma IndexOfSnoc(b: seq<EliteSystem>, s: EliteSystem)
    ensures var k := BuildSector(s);
            IndexOf(b + [s]) == IndexOf(b)[k := (if k in IndexOf(b) then IndexOf(b)[k] else []) + [s]]
  {
    var k := BuildSector(s);
    var before := IndexOf(b);
    var lhs := IndexOf(b + [s]);
    var rhs := before[k := (if k in before then before[k] else []) + [s]];
    assert SectorsOf(b + [s]) == SectorsOf(b) + {k};
    assert lhs.Keys == rhs.Keys;
    forall j | j in lhs
      ensures lhs[j] == rhs[j]
    {
      InSectorSnoc(b, s, j);
      if j !in SectorsOf(b) {
        InSectorEmpty(b, j);
      }
    }
  }

  /** Every system is filed under its own sector, and a list holds only systems of its sector. */
  lemma IndexFilesEach(b: seq<EliteSystem>, s: EliteSystem, k: EliteSector)
    requires k in IndexOf(b)
    ensures s in IndexOf(b)[k] <==> s in b && BuildSector(s) == k
  {
  }

  // ---------------------------------------------------------------------
  // Walking the index
  // ---------------------------------------------------------------------

  /** `order` lists every sector of `m` exactly once, as an iteration over the map does. */
  ghost predicate EnumeratesKeys(order: seq<EliteSector>, m: SectoredData)
  {
    (forall i, j :: 0 <= i < j < |order| ==> order[i] != order[j]) &&
    (forall k :: k in m <==> k in order)
  }

  /** The systems met when walking the sectors of `m` in `order`, each sector's list in turn. */
  function Flatten(m: SectoredData, order: seq<EliteSector>): seq<EliteSystem>
  {
    if order == [] then []
    else
      var k := order[|order| - 1];
      Flatten(m, order[..|order| - 1]) + (if k in m then m[k] else [])
  }

  /** The walk of `order` over the lists of `b`, whether or not a sector is populated. */
  function FlattenSectors(b: seq<EliteSystem>, order: seq<EliteSector>): seq<EliteSystem>
  {
    if order == [] then [] else FlattenSectors(b, order[..|order| - 1]) + InSector(b, order[|order| - 1])
  }

  lemma {:induction false} FlattenIndex(b: seq<EliteSystem>, order: seq<EliteSector>)
    ensures Flatten(IndexOf(b), order) == FlattenSectors(b, order)
    decreases |order|
  {
    if order != [] {
      var k := order[|order| - 1];
      FlattenIndex(b, order[..|order| - 1]);
      if k !in IndexOf(b) {
        InSectorEmpty(b, k);
      }
    }
  }

  lemma {:induction false} FlattenSectorsEmpty(order: seq<EliteSector>)
    ensures FlattenSectors([], order) == []
    decreases |order|
  {
    if order != [] {
      FlattenSectorsEmpty(order[..|order| - 1]);
    }
  }

  /** A system appended to the input shows up once in the walk, if its sector is walked. */
  lemma {:induction false} FlattenSectorsSnoc(b: seq<EliteSystem>, s: EliteSystem, order: seq<EliteSector>)
    requires forall i, j :: 0 <= i < j < |order| ==> order[i] != order[j]
    ensures multiset(FlattenSectors(b + [s], order)) ==
              multiset(FlattenSectors(b, order)) + (if BuildSector(s) in order then multiset{s} else multiset{})
    decreases |order|
  {
    if order != [] {
      var init, k := order[..|order| - 1], order[|order| - 1];
      FlattenSectorsSnoc(b, s, init);
      InSectorSnoc(b, s, k);
      assert FlattenSectors(b + [s], order) == FlattenSectors(b + [s], init) + InSector(b + [s], k);
      assert FlattenSectors(b, order) == FlattenSectors(b, init) + InSector(b, k);
      assert BuildSector(s) in order <==> BuildSector(s) in init || BuildSector(s) == k;
      if BuildSector(s) == k {
        assert k !in init;
      }
    }
  }

  /** Walking a set of sectors that covers the input meets every system exactly as often as it occurs. */
  lemma {:induction false} FlattenSectorsCovers(b: seq<EliteSystem>, order: seq<EliteSector>)
    requires forall i, j :: 0 <= i < j < |order| ==> order[i] != order[j]
    requires forall s :: s in b ==> BuildSector(s) in order
    ensures multiset(FlattenSectors(b, order)) == multiset(b)
    decreases |b|
  {
    if b == [] {
      FlattenSectorsEmpty(order);
    } else {
      var init, s := b[..|b| - 1], b[|b| - 1];
      FlattenSectorsCovers(init, order);
      FlattenSectorsSnoc(init, s, order);
      assert init + [s] == b;
    }
  }

  /**
   * Walking every sector of the index of `b` once meets every system of `b`
   * exactly as often as it occurs in `b`; in particular the lists' lengths
   * add up to `|b|`.
   */
  lemma IndexCoversInput(b: seq<EliteSystem>, order: seq<EliteSector>)
    requires EnumeratesKeys(order, IndexOf(b))
    ensures multiset(Flatten(IndexOf(b), order)) == multiset(b)
    ensures |Flatten(IndexOf(b), order)| == |b|
  {
    FlattenIndex(b, order);
    FlattenSectorsCovers(b, order);
    assert |multiset(Flatten(IndexOf(b), order))| == |multiset(b)|;
  }

  // ---------------------------------------------------------------------
  // Building the index
  // ---------------------------------------------------------------------

  /** `built` holds one normalisation of each record of `data`, position by position. */
  ghost predicate NormalisedEach(config: Args, data: seq<EliteSystemJson>, built: seq<EliteSystem>)
  {
    |built| == |data| && forall i :: 0 <= i < |built| ==> Normalised(config, data[i], built[i])
  }

  lemma NormalisedEachSnoc(config: Args, data: seq<EliteSystemJson>, built: seq<EliteSystem>,
                           entry: EliteSystemJson, system: EliteSystem)
    requires NormalisedEach(config, data, built) && Normalised(config, entry, system)
    ensures NormalisedEach(config, data + [entry], built + [system])
  {
    forall i | 0 <= i < |built| + 1
      ensures Normalised(config, (data + [entry])[i], (built + [system])[i])
    {
      if i < |built| {
        assert (data + [entry])[i] == data[i] && (built + [system])[i] == built[i];
      }
    }
  }

  /** One iteration of `BuildSectoredData`: normalise `entry` and file it under its sector. */
  method FileRecord(returnMap: SectoredData, ghost built: seq<EliteSystem>, entry: EliteSystemJson, config: Args)
    returns (newMap: SectoredData, system: EliteSystem)
    requires returnMap == IndexOf(built)
    ensures Normalised(config, entry, system)
    ensures newMap == IndexOf(built + [system])
  {
    var sector := SectorOf(entry.coords.x, entry.coords.y, entry.coords.z);
    system := BuildSystem(entry, config);
    BuildSectorAgrees(config, entry, system);
    IndexOfSnoc(built, system);
    if sector in returnMap {
      newMap := returnMap[sector := returnMap[sector] + [system]];
    } else {
      assert [] + [system] == [system];
      newMap := returnMap[sector := [system]];
    }
  }

  /**
   * `BuildSectoredData`: normalises every record and files it under the
   * sector of its raw coordinates. `built` is the sequence of normalised
   * systems, one per record and in the same order.
   */
  method BuildSectoredData(systemsAsList: seq<EliteSystemJson>, config: Args)
    returns (returnMap: SectoredData, ghost built: seq<EliteSystem>)
    ensures NormalisedEach(config, systemsAsList, built)
    ensures returnMap == IndexOf(built)
  {
    returnMap := map[];
    built := [];
    for i := 0 to |systemsAsList|
      invariant NormalisedEach(config, systemsAsList[..i], built)
      invariant returnMap == IndexOf(built)
    {
      var system;
      returnMap, system := FileRecord(returnMap, built, systemsAsList[i], config);
      NormalisedEachSnoc(config, systemsAsList[..i], built, systemsAsList[i], system);
      assert systemsAsList[..i] + [systemsAsList[i]] == systemsAsList[..i + 1];
      built := built + [system];
    }
    assert systemsAsList[..|systemsAsList|] == systemsAsList;
  }
}
