/**
 * The neighbourhood query of the evaluator: the populated systems within
 * 10 light years of a system, other than the system itself, found by
 * scanning the 27 sectors around it (`getAllPopulatedSystemsIn10LyRadius`,
 * `appendSystems`, `sysDistanceSquared`, `buildSectorCube`).
 */
module Neighbourhood {
  import opened Types
  import opened SectorIndex

  /** The query radius, in light years. */
  const Radius: real := 10.0

  // ---------------------------------------------------------------------
  // Distance
  // ---------------------------------------------------------------------

  /** `sysDistanceSquared`. */
  function SysDistanceSquared(a: EliteSystem, b: EliteSystem): (d: real)
    ensures d >= 0.0
  {
    var x := a.x - b.x;
    var y := a.y - b.y;
    var z := a.z - b.z;
    assert x * x >= 0.0 && y * y >= 0.0 && z * z >= 0.0;
    x * x + y * y + z * z
  }

  lemma DistanceSymmetric(a: EliteSystem, b: EliteSystem)
    ensures SysDistanceSquared(a, b) == SysDistanceSquared(b, a)
  {
    var x, y, z := a.x - b.x, a.y - b.y, a.z - b.z;
    assert (b.x - a.x) * (b.x - a.x) == x * x;
    assert (b.y - a.y) * (b.y - a.y) == y * y;
    assert (b.z - a.z) * (b.z - a.z) == z * z;
  }

  lemma SquareGrows(p: real, q: real)
    ensures 0.0 <= q < p ==> q * q < p * p
  {
    if 0.0 <= q < p {
      var e := p - q;
      assert p * p == q * q + 2.0 * q * e + e * e;
      assert q * e >= 0.0 && e * e > 0.0;
    }
  }

  /** A square at most `r * r` has its root within `r`. */
  lemma RootBound(x: real, r: real)
    requires r >= 0.0 && x * x <= r * r
    ensures -r <= x <= r
  {
    SquareGrows(x, r);
    SquareGrows(-x, r);
    assert (-x) * (-x) == x * x;
  }

  /** Within the radius, the systems are at most one radius apart on every axis. */
  lemma AxisBound(a: EliteSystem, b: EliteSystem)
    requires SysDistanceSquared(a, b) <= Radius * Radius
    ensures -Radius <= a.x - b.x <= Radius
    ensures -Radius <= a.y - b.y <= Radius
    ensures -Radius <= a.z - b.z <= Radius
  {
    var x, y, z := a.x - b.x, a.y - b.y, a.z - b.z;
    assert x * x >= 0.0 && y * y >= 0.0 && z * z >= 0.0;
    assert SysDistanceSquared(a, b) == x * x + y * y + z * z;
    assert x * x <= Radius * Radius && y * y <= Radius * Radius && z * z <= Radius * Radius;
    RootBound(x, Radius);
    RootBound(y, Radius);
    RootBound(z, Radius);
  }

  // ---------------------------------------------------------------------
  // The sector cube
  // ---------------------------------------------------------------------

  function Offset(s: EliteSector, dx: int, dy: int, dz: int): EliteSector
  {
    EliteSector(s.x + dx, s.y + dy, s.z + dz)
  }

  /**
   * `buildSectorCube`: the 27 sectors around `sector`, listed with the x
   * offset varying fastest and the z offset slowest, each from -1 to 1; the
   * centre is the 14th entry.
   */
  function BuildSectorCube(sector: EliteSector): (cube: seq<EliteSector>)
    ensures |cube| == 27 && cube[13] == sector
  {
    seq(27, i => Offset(sector, i % 3 - 1, (i / 3) % 3 - 1, i / 9 - 1))
  }

  /** The cube is exactly the sectors at most one step away on every axis. */
  lemma CubeIsNeighbourhood(sector: EliteSector, k: EliteSector)
    ensures k in BuildSectorCube(sector) <==>
              -1 <= k.x - sector.x <= 1 && -1 <= k.y - sector.y <= 1 && -1 <= k.z - sector.z <= 1
  {
    var cube := BuildSectorCube(sector);
    if -1 <= k.x - sector.x <= 1 && -1 <= k.y - sector.y <= 1 && -1 <= k.z - sector.z <= 1 {
      var i := (k.x - sector.x + 1) + 3 * (k.y - sector.y + 1) + 9 * (k.z - sector.z + 1);
      assert cube[i] == k;
    }
  }

  /** No sector is scanned twice. */
  lemma CubeDistinct(sector: EliteSector)
    ensures forall i, j :: 0 <= i < j < 27 ==> BuildSectorCube(sector)[i] != BuildSectorCube(sector)[j]
  {
    var cube := BuildSectorCube(sector);
    forall i, j | 0 <= i < j < 27
      ensures cube[i] != cube[j]
    {
      CubeDigits(i);
      CubeDigits(j);
    }
  }

  /** An index of the cube is recovered from its three offsets. */
  lemma CubeDigits(i: int)
    requires 0 <= i < 27
    ensures i == 9 * (i / 9) + 3 * ((i / 3) % 3) + i % 3
  {
    var t := i / 3;
    assert i == 3 * t + i % 3;
    assert t == 3 * (t / 3) + t % 3;
    assert t / 3 == i / 9;
  }

  // ---------------------------------------------------------------------
  // The query
  // ---------------------------------------------------------------------

  /** The systems of `systems` other than `center` (by id) within `maxDistance` of it, in order. */
  function InRange(center: EliteSystem, maxDistance: real, systems: seq<EliteSystem>): (r: seq<EliteSystem>)
    ensures forall s :: s in r <==>
              s in systems && s.id != center.id && SysDistanceSquared(s, center) <= maxDistance * maxDistance
  {
    if systems == [] then []
    else
      var s := systems[|systems| - 1];
      InRange(center, maxDistance, systems[..|systems| - 1]) +
      (if s.id != center.id && SysDistanceSquared(s, center) <= maxDistance * maxDistance then [s] else [])
  }

  /** The in-range systems of the populated sectors among `sectors`, sector by sector. */
  function NeighboursIn(center: EliteSystem, dataStore: SectoredData, sectors: seq<EliteSector>): seq<EliteSystem>
  {
    if sectors == [] then []
    else
      var k := sectors[|sectors| - 1];
      NeighboursIn(center, dataStore, sectors[..|sectors| - 1]) +
      (if k in dataStore then InRange(center, Radius, dataStore[k]) else [])
  }

  /** The result of the query for `system`. */
  function PopulatedSystemsIn10Ly(system: EliteSystem, dataStore: SectoredData): seq<EliteSystem>
  {
    NeighboursIn(system, dataStore, BuildSectorCube(BuildSector(system)))
  }

  /** A system is found when it is in range and listed under one of the scanned sectors. */
  lemma {:induction false} NeighboursInExactly(center: EliteSystem, dataStore: SectoredData, sectors: seq<EliteSector>)
    ensures forall s :: s in NeighboursIn(center, dataStore, sectors) <==>
              exists k :: k in sectors && k in dataStore && s in InRange(center, Radius, dataStore[k])
    decreases |sectors|
  {
    if sectors != [] {
      var init := sectors[..|sectors| - 1];
      NeighboursInExactly(center, dataStore, init);
      forall s | s in NeighboursIn(center, dataStore, sectors)
        ensures exists k :: k in sectors && k in dataStore && s in InRange(center, Radius, dataStore[k])
      {
        if s !in NeighboursIn(center, dataStore, init) {
          assert sectors[|sectors| - 1] in sectors;
        } else {
          var k :| k in init && k in dataStore && s in InRange(center, Radius, dataStore[k]);
          assert k in sectors;
        }
      }
      forall s, k | k in sectors && k in dataStore && s in InRange(center, Radius, dataStore[k])
        ensures s in NeighboursIn(center, dataStore, sectors)
      {
        if k != sectors[|sectors| - 1] {
          assert k in init;
        }
      }
    }
  }

  /** On any index, the query returns only systems with another id within 10 light years. */
  lemma QuerySound(center: EliteSystem, dataStore: SectoredData, s: EliteSystem)
    requires s in PopulatedSystemsIn10Ly(center, dataStore)
    ensures s.id != center.id && SysDistanceSquared(s, center) <= Radius * Radius
  {
    NeighboursInExactly(center, dataStore, BuildSectorCube(BuildSector(center)));
  }

  /**
   * On the index of `b`, the query returns exactly the systems of `b` with
   * another id within 10 light years, the boundary included.
   */
  lemma QueryExact(b: seq<EliteSystem>, center: EliteSystem, s: EliteSystem)
    ensures s in PopulatedSystemsIn10Ly(center, IndexOf(b)) <==>
              s in b && s.id != center.id && SysDistanceSquared(s, center) <= Radius * Radius
  {
    var m := IndexOf(b);
    var own := BuildSector(center);
    var cube := BuildSectorCube(own);
    NeighboursInExactly(center, m, cube);
    if s in b && s.id != center.id && SysDistanceSquared(s, center) <= Radius * Radius {
      var k := BuildSector(s);
      AxisBound(s, center);
      NearbySectors(s.x, center.x);
      NearbySectors(s.y, center.y);
      NearbySectors(s.z, center.z);
      CubeIsNeighbourhood(own, k);
      IndexFilesEach(b, s, k);
      assert k in cube && k in m && s in InRange(center, Radius, m[k]);
    }
    if s in PopulatedSystemsIn10Ly(center, m) {
      var k :| k in cube && k in m && s in InRange(center, Radius, m[k]);
      IndexFilesEach(b, s, k);
    }
  }

  /** Neighbourhood is symmetric on the index of `b`: `a` finds `c` exactly when `c` finds `a`. */
  lemma QuerySymmetric(b: seq<EliteSystem>, a: EliteSystem, c: EliteSystem)
    requires a in b && c in b
    ensures c in PopulatedSystemsIn10Ly(a, IndexOf(b)) <==> a in PopulatedSystemsIn10Ly(c, IndexOf(b))
  {
    QueryExact(b, a, c);
    QueryExact(b, c, a);
    DistanceSymmetric(a, c);
  }

  // ---------------------------------------------------------------------
  // The methods
  // ---------------------------------------------------------------------

  /** `appendSystems`: appends the in-range systems of `newSystems` to `oldSystems`. */
  method AppendSystems(systemToIgnore: EliteSystem, maxDistance: real, newSystems: seq<EliteSystem>,
                       oldSystems: seq<EliteSystem>)
    returns (returnArray: seq<EliteSystem>)
    ensures returnArray == oldSystems + InRange(systemToIgnore, maxDistance, newSystems)
  {
    returnArray := oldSystems;
    var maxDistanceSquared := maxDistance * maxDistance;
    for i := 0 to |newSystems|
      invariant returnArray == oldSystems + InRange(systemToIgnore, maxDistance, newSystems[..i])
    {
      var system := newSystems[i];
      assert newSystems[..i + 1][..i] == newSystems[..i];
      if system.id == systemToIgnore.id {
        continue;
      }
      if SysDistanceSquared(system, systemToIgnore) > maxDistanceSquared {
        continue;
      }
      returnArray := returnArray + [system];
    }
    assert newSystems[..|newSystems|] == newSystems;
  }

  /** `getAllPopulatedSystemsIn10LyRadius`. */
  method GetAllPopulatedSystemsIn10LyRadius(system: EliteSystem, dataStore: SectoredData)
    returns (returnSystems: seq<EliteSystem>)
    ensures returnSystems == PopulatedSystemsIn10Ly(system, dataStore)
  {
    returnSystems := [];
    var ownSector := BuildSector(system);
    var sectors := BuildSectorCube(ownSector);
    for i := 0 to |sectors|
      invariant returnSystems == NeighboursIn(system, dataStore, sectors[..i])
    {
      var sector := sectors[i];
      assert sectors[..i + 1][..i] == sectors[..i];
      if sector in dataStore {
        var listOfSystemsInSector := dataStore[sector];
        returnSystems := AppendSystems(system, Radius, listOfSystemsInSector, returnSystems);
      }
    }
    assert sectors[..|sectors|] == sectors;
  }
}
