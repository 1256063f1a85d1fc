/**
 * The grid overview service: grid nodes aggregated into the eight ERCOT
 * weather zones, a status per zone from its utilisation, the national status
 * as the worst zone status, a grid-frequency estimate, and the weather shown
 * per zone (a fixed table, or conditions derived from a live reading).
 *
 * The grid graph, the demand multipliers and the live weather fetch are
 * inputs; the clock reading is a parameter. Quantities are exact `real`s and
 * the service's display rounding is not applied.
 */
module GridOverview {
  import opened Common

  // ---------------------------------------------------------------------
  // Status classification
  // ---------------------------------------------------------------------

  datatype RegionStatus = Normal | Stressed | Critical | Blackout

  /** The thresholds 95 / 85 / 70 percent, first match wins. */
  function StatusFromUtilization(pct: real): (s: RegionStatus)
    ensures s == Blackout <==> pct >= 95.0
    ensures s == Critical <==> 85.0 <= pct < 95.0
    ensures s == Stressed <==> 70.0 <= pct < 85.0
    ensures s == Normal <==> pct < 70.0
  {
    if pct >= 95.0 then Blackout
    else if pct >= 85.0 then Critical
    else if pct >= 70.0 then Stressed
    else Normal
  }

  /** The severity rank table. */
  function Rank(s: RegionStatus): (r: nat)
    ensures r <= 3
    ensures r == 0 <==> s == Normal
  {
    match s
    case Normal => 0
    case Stressed => 1
    case Critical => 2
    case Blackout => 3
  }

  lemma RankIsInjective(s: RegionStatus, t: RegionStatus)
    ensures Rank(s) == Rank(t) <==> s == t
  {
  }

  /** Higher utilisation never gives a less severe status. */
  lemma StatusRankMonotone(p: real, q: real)
    requires p <= q
    ensures Rank(StatusFromUtilization(p)) <= Rank(StatusFromUtilization(q))
  {
  }

  // ---------------------------------------------------------------------
  // Zones, nodes and per-zone aggregation
  // ---------------------------------------------------------------------

  /** The weather zones, in the order the regions are listed; a zone's display name is its id. */
  const Zones: seq<string> := ["Coast", "East", "Far West", "North", "North Central", "South Central", "Southern", "West"]

  function ZoneSet(): set<string> { set z | z in Zones }

  lemma ZonesDistinct()
    ensures forall i, j :: 0 <= i < j < |Zones| ==> Zones[i] != Zones[j]
  {
  }

  datatype GridNode = GridNode(id: string, weatherZone: string, baseLoadMw: real, capacityMw: real)

  /** A node's load: its base load times its demand multiplier (1.0 when it has none). */
  function NodeLoad(n: GridNode, multipliers: map<string, real>): (load: real)
    ensures n.id !in multipliers ==> load == n.baseLoadMw
    ensures n.id in multipliers ==> load == n.baseLoadMw * multipliers[n.id]
  {
    n.baseLoadMw * (if n.id in multipliers then multipliers[n.id] else 1.0)
  }

  /** Sum of the loads of the nodes in zone `z`. */
  function ZoneLoad(nodes: seq<GridNode>, multipliers: map<string, real>, z: string): real {
    if nodes == [] then 0.0
    else
      var last := nodes[|nodes| - 1];
      ZoneLoad(nodes[..|nodes| - 1], multipliers, z) + (if last.weatherZone == z then NodeLoad(last, multipliers) else 0.0)
  }

  /** Sum of the capacities of the nodes in zone `z`. */
  function ZoneCapacity(nodes: seq<GridNode>, z: string): real {
    if nodes == [] then 0.0
    else
      var last := nodes[|nodes| - 1];
      ZoneCapacity(nodes[..|nodes| - 1], z) + (if last.weatherZone == z then last.capacityMw else 0.0)
  }

  /** Number of nodes in zone `z` whose load exceeds their capacity. */
  function ZoneOutages(nodes: seq<GridNode>, multipliers: map<string, real>, z: string): (n: nat)
    ensures n <= |nodes|
  {
    if nodes == [] then 0
    else
      var last := nodes[|nodes| - 1];
      ZoneOutages(nodes[..|nodes| - 1], multipliers, z) +
        (if last.weatherZone == z && NodeLoad(last, multipliers) > last.capacityMw then 1 else 0)
  }

  /** A zone that no node belongs to has zero load, zero capacity and no outages. */
  lemma {:induction false} ZoneWithoutNodes(nodes: seq<GridNode>, multipliers: map<string, real>, z: string)
    requires forall i :: 0 <= i < |nodes| ==> nodes[i].weatherZone != z
    ensures ZoneLoad(nodes, multipliers, z) == 0.0
    ensures ZoneCapacity(nodes, z) == 0.0
    ensures ZoneOutages(nodes, multipliers, z) == 0
  {
    if nodes != [] {
      var init := nodes[..|nodes| - 1];
      assert forall i :: 0 <= i < |init| ==> init[i] == nodes[i];
      ZoneWithoutNodes(init, multipliers, z);
    }
  }

  /** The per-zone accumulators hold the totals of the nodes seen so far. */
  ghost predicate ZoneTotals(nodes: seq<GridNode>, multipliers: map<string, real>, zones: set<string>,
                             loads: map<string, real>, caps: map<string, real>, failed: map<string, nat>)
  {
    && loads.Keys == zones && caps.Keys == zones && failed.Keys == zones
    && (forall z :: z in loads ==> loads[z] == ZoneLoad(nodes, multipliers, z))
    && (forall z :: z in caps ==> caps[z] == ZoneCapacity(nodes, z))
    && (forall z :: z in failed ==> failed[z] == ZoneOutages(nodes, multipliers, z))
  }

  /** The node loop: per-zone load, capacity and outage count; nodes of unknown zones are skipped. */
  method AggregateZones(nodes: seq<GridNode>, multipliers: map<string, real>, zones: set<string>)
    returns (loads: map<string, real>, caps: map<string, real>, failed: map<string, nat>)
    ensures ZoneTotals(nodes, multipliers, zones, loads, caps, failed)
  {
    loads := map z | z in zones :: 0.0;
    caps := map z | z in zones :: 0.0;
    failed := map z | z in zones :: 0;
    var i := 0;
    while i < |nodes|
      invariant 0 <= i <= |nodes|
      invariant ZoneTotals(nodes[..i], multipliers, zones, loads, caps, failed)
    {
      var nd := nodes[i];
      var wz := nd.weatherZone;
      ghost var loads0, caps0, failed0 := loads, caps, failed;
      if wz in zones {
        var load := NodeLoad(nd, multipliers);
        loads := loads[wz := loads[wz] + load];
        caps := caps[wz := caps[wz] + nd.capacityMw];
        if load > nd.capacityMw {
          failed := failed[wz := failed[wz] + 1];
        }
      }
      ZoneTotalsStep(nodes, multipliers, zones, i, loads0, caps0, failed0, loads, caps, failed);
      i := i + 1;
    }
    assert nodes[..|nodes|] == nodes;
  }

  /** Adding one node updates the accumulators of its own zone only, and only if the zone is known. */
  lemma ZoneTotalsStep(nodes: seq<GridNode>, multipliers: map<string, real>, zones: set<string>, i: nat,
                       loads: map<string, real>, caps: map<string, real>, failed: map<string, nat>,
                       loads': map<string, real>, caps': map<string, real>, failed': map<string, nat>)
    requires i < |nodes| && ZoneTotals(nodes[..i], multipliers, zones, loads, caps, failed)
    requires var nd := nodes[i]; var wz := nd.weatherZone; var load := NodeLoad(nd, multipliers);
      if wz in zones then
        && loads' == loads[wz := loads[wz] + load]
        && caps' == caps[wz := caps[wz] + nd.capacityMw]
        && failed' == if load > nd.capacityMw then failed[wz := failed[wz] + 1] else failed
      else loads' == loads && caps' == caps && failed' == failed
    ensures ZoneTotals(nodes[..i + 1], multipliers, zones, loads', caps', failed')
  {
    assert nodes[..i + 1][..i] == nodes[..i];
  }

  /** Sum of the zone loads over a list of zones. */
  function SumZoneLoads(zs: seq<string>, nodes: seq<GridNode>, multipliers: map<string, real>): real {
    if zs == [] then 0.0 else ZoneLoad(nodes, multipliers, zs[0]) + SumZoneLoads(zs[1..], nodes, multipliers)
  }

  /** Sum of the loads of the nodes whose zone is one of `zs`. */
  function LoadInZones(nodes: seq<GridNode>, multipliers: map<string, real>, zs: seq<string>): real {
    if nodes == [] then 0.0
    else
      var last := nodes[|nodes| - 1];
      LoadInZones(nodes[..|nodes| - 1], multipliers, zs) + (if last.weatherZone in zs then NodeLoad(last, multipliers) else 0.0)
  }

  lemma {:induction false} SumZoneLoadsSnoc(zs: seq<string>, nodes: seq<GridNode>, multipliers: map<string, real>, n: GridNode)
    requires forall i, j :: 0 <= i < j < |zs| ==> zs[i] != zs[j]
    ensures SumZoneLoads(zs, nodes + [n], multipliers) ==
              SumZoneLoads(zs, nodes, multipliers) + (if n.weatherZone in zs then NodeLoad(n, multipliers) else 0.0)
  {
    var ext := nodes + [n];
    assert ext[..|ext| - 1] == nodes;
    if zs != [] {
      SumZoneLoadsSnoc(zs[1..], nodes, multipliers, n);
      if n.weatherZone == zs[0] {
        assert n.weatherZone !in zs[1..];
      }
    }
  }

  /**
   * The national total load is the load of the nodes in the known zones:
   * nodes of any other zone contribute nothing.
   */
  lemma {:induction false} TotalLoadIsLoadOfZonedNodes(zs: seq<string>, nodes: seq<GridNode>, multipliers: map<string, real>)
    requires forall i, j :: 0 <= i < j < |zs| ==> zs[i] != zs[j]
    ensures SumZoneLoads(zs, nodes, multipliers) == LoadInZones(nodes, multipliers, zs)
  {
    if nodes == [] {
      EmptyZoneLoads(zs, multipliers);
    } else {
      var init := nodes[..|nodes| - 1];
      TotalLoadIsLoadOfZonedNodes(zs, init, multipliers);
      SumZoneLoadsSnoc(zs, init, multipliers, nodes[|nodes| - 1]);
      assert init + [nodes[|nodes| - 1]] == nodes;
    }
  }

  lemma {:induction false} EmptyZoneLoads(zs: seq<string>, multipliers: map<string, real>)
    ensures SumZoneLoads(zs, [], multipliers) == 0.0
  {
    if zs != [] {
      EmptyZoneLoads(zs[1..], multipliers);
    }
  }

  /** Sum of the zone capacities over a list of zones. */
  function SumZoneCaps(zs: seq<string>, nodes: seq<GridNode>): real {
    if zs == [] then 0.0 else ZoneCapacity(nodes, zs[0]) + SumZoneCaps(zs[1..], nodes)
  }

  /** Sum of the capacities of the nodes whose zone is one of `zs`. */
  function CapInZones(nodes: seq<GridNode>, zs: seq<string>): real {
    if nodes == [] then 0.0
    else
      var last := nodes[|nodes| - 1];
      CapInZones(nodes[..|nodes| - 1], zs) + (if last.weatherZone in zs then last.capacityMw else 0.0)
  }

  lemma {:induction false} SumZoneCapsSnoc(zs: seq<string>, nodes: seq<GridNode>, n: GridNode)
    requires forall i, j :: 0 <= i < j < |zs| ==> zs[i] != zs[j]
    ensures SumZoneCaps(zs, nodes + [n]) == SumZoneCaps(zs, nodes) + (if n.weatherZone in zs then n.capacityMw else 0.0)
  {
    var ext := nodes + [n];
    assert ext[..|ext| - 1] == nodes;
    if zs != [] {
      SumZoneCapsSnoc(zs[1..], nodes, n);
      if n.weatherZone == zs[0] {
        assert n.weatherZone !in zs[1..];
      }
    }
  }

  /** The national total capacity is the capacity of the nodes in the known zones. */
  lemma {:induction false} TotalCapIsCapOfZonedNodes(zs: seq<string>, nodes: seq<GridNode>)
    requires forall i, j :: 0 <= i < j < |zs| ==> zs[i] != zs[j]
    ensures SumZoneCaps(zs, nodes) == CapInZones(nodes, zs)
  {
    if nodes == [] {
      EmptyZoneCaps(zs);
    } else {
      var init := nodes[..|nodes| - 1];
      TotalCapIsCapOfZonedNodes(zs, init);
      SumZoneCapsSnoc(zs, init, nodes[|nodes| - 1]);
      assert init + [nodes[|nodes| - 1]] == nodes;
    }
  }

  lemma {:induction false} EmptyZoneCaps(zs: seq<string>)
    ensures SumZoneCaps(zs, []) == 0.0
  {
    if zs != [] {
      EmptyZoneCaps(zs[1..]);
    }
  }

  // ---------------------------------------------------------------------
  // Per-region figures
  // ---------------------------------------------------------------------

  /** Load as a percentage of capacity; 0 for a zone without capacity. */
  function Utilization(load: real, cap: real): (u: real)
    ensures cap <= 0.0 ==> u == 0.0
    ensures cap > 0.0 ==> (u >= 100.0 <==> load >= cap)
    ensures cap > 0.0 ==> (u >= 0.0 <==> load >= 0.0)
    ensures cap > 0.0 ==> u * cap == load * 100.0
  {
    if cap > 0.0 then
      var ratio := load / cap;
      assert ratio * cap == load;
      assert (ratio * 100.0) * cap == (ratio * cap) * 100.0;
      ratio * 100.0
    else 0.0
  }

  /** Unserved load: never negative. */
  function Shortfall(load: real, cap: real): (s: real)
    ensures s >= 0.0 && s >= load - cap
    ensures s == 0.0 || s == load - cap
  {
    if 0.0 >= load - cap then 0.0 else load - cap
  }

  /** `int(shortfall * 500)`: 500 customers per unserved MW, truncated. */
  function AffectedCustomers(load: real, cap: real): (n: nat)
    ensures n as real <= Shortfall(load, cap) * 500.0 < n as real + 1.0
    ensures load <= cap ==> n == 0
  {
    (Shortfall(load, cap) * 500.0).Floor
  }

  datatype WeatherThreat = WeatherThreat(tempF: real, windMph: real, condition: string, isExtreme: bool)

  datatype RegionOverview = RegionOverview(
    regionId: string,
    name: string,
    status: RegionStatus,
    loadMw: real,
    capacityMw: real,
    utilizationPct: real,
    weather: WeatherThreat,
    outageCount: nat,
    affectedCustomers: nat)

  datatype NationalOverview = NationalOverview(
    nationalStatus: RegionStatus,
    gridFrequencyHz: real,
    totalLoadMw: real,
    totalCapacityMw: real,
    regions: seq<RegionOverview>,
    timestamp: int)

  /** The weather of a zone from the chosen table, falling back to the normal Coast entry. */
  function ZoneWeather(weather: map<string, WeatherThreat>, zone: string): (w: WeatherThreat)
    ensures zone in weather ==> w == weather[zone]
    ensures zone !in weather ==> w == NormalWeather()["Coast"]
  {
    if zone in weather then weather[zone] else NormalWeather()["Coast"]
  }

  /** One region entry from its zone's aggregates. */
  function RegionFor(zone: string, load: real, cap: real, outages: nat, weather: map<string, WeatherThreat>): (r: RegionOverview)
    ensures r.regionId == zone && r.name == zone
    ensures r.loadMw == load && r.capacityMw == cap && r.outageCount == outages
    ensures r.utilizationPct == Utilization(load, cap) && r.status == StatusFromUtilization(r.utilizationPct)
    ensures r.affectedCustomers == AffectedCustomers(load, cap)
    ensures r.weather == ZoneWeather(weather, zone)
  {
    var util := Utilization(load, cap);
    RegionOverview(zone, zone, StatusFromUtilization(util), load, cap, util,
                   ZoneWeather(weather, zone), outages, AffectedCustomers(load, cap))
  }

  /** The worst-status fold: a later region replaces the running worst only when strictly worse. */
  function WorstStatus(regions: seq<RegionOverview>): (worst: RegionStatus)
    ensures regions == [] ==> worst == Normal
    ensures forall i :: 0 <= i < |regions| ==> Rank(regions[i].status) <= Rank(worst)
  {
    if regions == [] then Normal
    else
      var before := WorstStatus(regions[..|regions| - 1]);
      var s := regions[|regions| - 1].status;
      if Rank(s) > Rank(before) then s else before
  }

  /** The national status is the most severe region status, and Normal when no region is worse. */
  lemma {:induction false} WorstStatusIsMaximum(regions: seq<RegionOverview>)
    ensures forall i :: 0 <= i < |regions| ==> Rank(regions[i].status) <= Rank(WorstStatus(regions))
    ensures WorstStatus(regions) == Normal || exists i :: 0 <= i < |regions| && regions[i].status == WorstStatus(regions)
  {
    if regions != [] {
      var init := regions[..|regions| - 1];
      WorstStatusIsMaximum(init);
      forall i | 0 <= i < |init|
        ensures regions[i] == init[i]
      {
      }
    }
  }

  /** `regions` holds, in order, the rows of the first `n` zones. */
  ghost predicate RowsFor(zones: seq<string>, loads: map<string, real>, caps: map<string, real>, failed: map<string, nat>,
                          weather: map<string, WeatherThreat>, regions: seq<RegionOverview>, n: nat)
    requires n <= |zones| && forall z :: z in zones ==> z in loads && z in caps && z in failed
  {
    && |regions| == n
    && forall k :: 0 <= k < n ==>
         regions[k] == RegionFor(zones[k], loads[zones[k]], caps[zones[k]], failed[zones[k]], weather)
  }

  lemma RowsForStep(zones: seq<string>, loads: map<string, real>, caps: map<string, real>, failed: map<string, nat>,
                    weather: map<string, WeatherThreat>, regions: seq<RegionOverview>, n: nat)
    requires n < |zones| && forall z :: z in zones ==> z in loads && z in caps && z in failed
    requires RowsFor(zones, loads, caps, failed, weather, regions, n)
    ensures RowsFor(zones, loads, caps, failed, weather,
                    regions + [RegionFor(zones[n], loads[zones[n]], caps[zones[n]], failed[zones[n]], weather)], n + 1)
  {
  }

  /** One more region: the fold keeps the running worst unless the new status ranks strictly higher. */
  lemma WorstStatusSnoc(before: seq<RegionOverview>, r: RegionOverview)
    ensures WorstStatus(before + [r]) ==
              if Rank(r.status) > Rank(WorstStatus(before)) then r.status else WorstStatus(before)
  {
    assert (before + [r])[..|before|] == before;
  }

  /** The region loop: one entry per zone, in zone order, together with the worst status. */
  method BuildRegions(zones: seq<string>, loads: map<string, real>, caps: map<string, real>, failed: map<string, nat>,
                      weather: map<string, WeatherThreat>)
    returns (regions: seq<RegionOverview>, worst: RegionStatus)
    requires forall z :: z in zones ==> z in loads && z in caps && z in failed
    ensures |regions| == |zones|
    ensures forall i :: 0 <= i < |zones| ==>
              regions[i] == RegionFor(zones[i], loads[zones[i]], caps[zones[i]], failed[zones[i]], weather)
    ensures worst == WorstStatus(regions)
    ensures forall i :: 0 <= i < |regions| ==> Rank(regions[i].status) <= Rank(worst)
  {
    regions := [];
    worst := Normal;
    var i := 0;
    while i < |zones|
      invariant 0 <= i <= |zones|
      invariant RowsFor(zones, loads, caps, failed, weather, regions, i)
      invariant worst == WorstStatus(regions)
    {
      var zone := zones[i];
      var r := RegionFor(zone, loads[zone], caps[zone], failed[zone], weather);
      RowsForStep(zones, loads, caps, failed, weather, regions, i);
      WorstStatusSnoc(regions, r);
      regions := regions + [r];
      if Rank(r.status) > Rank(worst) {
        worst := r.status;
      }
      i := i + 1;
    }
    WorstStatusIsMaximum(regions);
  }

  /** Zone capacity and load totals over a list of zones. */
  function SumOver(zs: seq<string>, m: map<string, real>): (total: real)
    requires forall z :: z in zs ==> z in m
    ensures (forall z :: z in zs ==> m[z] >= 0.0) ==> total >= 0.0
  {
    if zs == [] then 0.0 else m[zs[0]] + SumOver(zs[1..], m)
  }

  // ---------------------------------------------------------------------
  // Frequency model
  // ---------------------------------------------------------------------

  /** How far one region's status pulls the frequency below the nominal 60 Hz. */
  function FrequencyDrop(s: RegionStatus): (d: real)
    ensures d >= 0.0
  {
    match s
    case Normal => 0.0
    case Stressed => 0.1
    case Critical => 0.3
    case Blackout => 0.5
  }

  function TotalDrop(regions: seq<RegionOverview>): (d: real)
    ensures 0.0 <= d <= 0.5 * |regions| as real
  {
    if regions == [] then 0.0 else TotalDrop(regions[..|regions| - 1]) + FrequencyDrop(regions[|regions| - 1].status)
  }

  function CountStatus(regions: seq<RegionOverview>, s: RegionStatus): (n: nat)
    ensures n <= |regions|
  {
    if regions == [] then 0
    else CountStatus(regions[..|regions| - 1], s) + (if regions[|regions| - 1].status == s then 1 else 0)
  }

  /** The total drop is 0.1 per stressed, 0.3 per critical and 0.5 per blacked-out region. */
  lemma {:induction false} TotalDropByCounts(regions: seq<RegionOverview>)
    ensures TotalDrop(regions) ==
              0.1 * CountStatus(regions, Stressed) as real +
              0.3 * CountStatus(regions, Critical) as real +
              0.5 * CountStatus(regions, Blackout) as real
  {
    if regions != [] {
      TotalDropByCounts(regions[..|regions| - 1]);
    }
  }

  /** The frequency loop, floored at 59 Hz. */
  method GridFrequency(regions: seq<RegionOverview>) returns (hz: real)
    ensures hz == if 60.0 - TotalDrop(regions) >= 59.0 then 60.0 - TotalDrop(regions) else 59.0
    ensures 59.0 <= hz <= 60.0
  {
    var freq := 60.0;
    var i := 0;
    while i < |regions|
      invariant 0 <= i <= |regions|
      invariant freq == 60.0 - TotalDrop(regions[..i])
    {
      assert regions[..i + 1][..i] == regions[..i];
      var s := regions[i].status;
      if s == Stressed {
        freq := freq - 0.1;
      } else if s == Critical {
        freq := freq - 0.3;
      } else if s == Blackout {
        freq := freq - 0.5;
      }
      i := i + 1;
    }
    assert regions[..|regions|] == regions;
    hz := if freq >= 59.0 then freq else 59.0;
  }

  // ---------------------------------------------------------------------
  // Weather
  // ---------------------------------------------------------------------

  /** The winter-storm table shown for the "uri" scenario. */
  function UriWeather(): map<string, WeatherThreat> {
    map[
      "Coast" := WeatherThreat(20.0, 25.0, "Freezing rain", true),
      "East" := WeatherThreat(15.0, 20.0, "Ice storm", true),
      "Far West" := WeatherThreat(5.0, 40.0, "Blizzard", true),
      "North" := WeatherThreat(2.0, 35.0, "Ice storm", true),
      "North Central" := WeatherThreat(8.0, 30.0, "Freezing rain", true),
      "South Central" := WeatherThreat(12.0, 20.0, "Freezing rain", true),
      "Southern" := WeatherThreat(22.0, 18.0, "Sleet", true),
      "West" := WeatherThreat(5.0, 35.0, "Blizzard", true)]
  }

  /** The table for ordinary conditions, also the fallback when the live fetch fails. */
  function NormalWeather(): map<string, WeatherThreat> {
    map[
      "Coast" := WeatherThreat(72.0, 8.0, "Clear", false),
      "East" := WeatherThreat(68.0, 10.0, "Partly cloudy", false),
      "Far West" := WeatherThreat(60.0, 15.0, "Clear", false),
      "North" := WeatherThreat(65.0, 12.0, "Partly cloudy", false),
      "North Central" := WeatherThreat(68.0, 10.0, "Clear", false),
      "South Central" := WeatherThreat(70.0, 7.0, "Clear", false),
      "Southern" := WeatherThreat(74.0, 6.0, "Clear", false),
      "West" := WeatherThreat(62.0, 15.0, "Windy", false)]
  }

  lemma TablesCoverEveryZone()
    ensures UriWeather().Keys == ZoneSet() && NormalWeather().Keys == ZoneSet()
    ensures forall z :: z in UriWeather() ==> UriWeather()[z].isExtreme
    ensures forall z :: z in NormalWeather() ==> !NormalWeather()[z].isExtreme
  {
  }

  /** The condition label for a live reading, closed form of the first-match rule chain. */
  function DeriveCondition(tempF: real, windMph: real): (c: string)
    ensures c == "Freezing" <==> tempF <= 20.0
    ensures c == "Near freezing" <==> 20.0 < tempF <= 32.0
    ensures c == "Extreme heat" <==> tempF >= 100.0
    ensures c == "High winds" <==> 32.0 < tempF < 100.0 && windMph >= 30.0
    ensures c == "Windy" <==> 32.0 < tempF < 100.0 && 20.0 <= windMph < 30.0
    ensures c == "Clear" <==> 32.0 < tempF < 100.0 && windMph < 20.0
  {
    if tempF <= 20.0 then "Freezing"
    else if tempF <= 32.0 then "Near freezing"
    else if tempF >= 100.0 then "Extreme heat"
    else if windMph >= 30.0 then "High winds"
    else if windMph >= 20.0 then "Windy"
    else "Clear"
  }

  predicate IsExtreme(tempF: real, windMph: real): (b: bool)
    ensures b ==> DeriveCondition(tempF, windMph) in {"Freezing", "Near freezing", "Extreme heat", "High winds"}
    ensures !b ==> DeriveCondition(tempF, windMph) in {"Near freezing", "Windy", "Clear"}
  {
    tempF <= 20.0 || tempF >= 100.0 || windMph >= 30.0
  }

  /**
   * How the extreme flag relates to the label: the three severe labels are
   * always extreme, the mild ones never, and "Near freezing" is extreme
   * exactly when the wind reaches 30 mph.
   */
  lemma ExtremeAgreesWithCondition(tempF: real, windMph: real)
    ensures DeriveCondition(tempF, windMph) in {"Freezing", "Extreme heat", "High winds"} ==> IsExtreme(tempF, windMph)
    ensures DeriveCondition(tempF, windMph) in {"Windy", "Clear"} ==> !IsExtreme(tempF, windMph)
    ensures DeriveCondition(tempF, windMph) == "Near freezing" ==> (IsExtreme(tempF, windMph) <==> windMph >= 30.0)
  {
  }

  /** One live reading with its optional fields. */
  datatype WeatherRecord = WeatherRecord(temperatureF: Option<real>, windSpeedMph: Option<real>)

  /**
   * The overview weather of one zone from its live readings: with no
   * reading, the zone's normal entry; otherwise the first reading, with 70 F
   * and 10 mph for a missing field, and its derived label and extreme flag.
   */
  function LiveEntry(zone: string, records: seq<WeatherRecord>): (w: WeatherThreat)
    ensures records == [] ==> w == ZoneWeather(NormalWeather(), zone)
    ensures records != [] ==>
              && w.tempF == records[0].temperatureF.GetOr(70.0)
              && w.windMph == records[0].windSpeedMph.GetOr(10.0)
              && w.condition == DeriveCondition(w.tempF, w.windMph)
              && w.isExtreme == IsExtreme(w.tempF, w.windMph)
  {
    if records == [] then ZoneWeather(NormalWeather(), zone)
    else
      var t := records[0].temperatureF.GetOr(70.0);
      var v := records[0].windSpeedMph.GetOr(10.0);
      WeatherThreat(t, v, DeriveCondition(t, v), IsExtreme(t, v))
  }

  /**
   * The live weather map as a value: the normal table when the fetch
   * raised, otherwise one entry per fetched zone and no other.
   */
  function LiveWeatherMap(fetched: Option<map<string, seq<WeatherRecord>>>): (m: map<string, WeatherThreat>)
    ensures fetched.None? ==> m == NormalWeather()
    ensures fetched.Some? ==> m.Keys == fetched.value.Keys
    ensures fetched.Some? ==> forall z :: z in m ==> m[z] == LiveEntry(z, fetched.value[z])
  {
    if fetched.None? then NormalWeather()
    else map z | z in fetched.value :: LiveEntry(z, fetched.value[z])
  }

  /**
   * The live weather map. `fetched` is the per-zone result of the weather
   * fetch, or None when the fetch raised, in which case the normal table is
   * used.
   */
  method BuildLiveWeather(fetched: Option<map<string, seq<WeatherRecord>>>) returns (result: map<string, WeatherThreat>)
    ensures result == LiveWeatherMap(fetched)
  {
    if fetched.None? {
      return NormalWeather();
    }
    var zoneWeather := fetched.value;
    result := map[];
    var pending := zoneWeather.Keys;
    while pending != {}
      invariant pending <= zoneWeather.Keys
      invariant result.Keys == zoneWeather.Keys - pending
      invariant forall z :: z in result ==> result[z] == LiveEntry(z, zoneWeather[z])
      decreases pending
    {
      var zone :| zone in pending;
      var records := zoneWeather[zone];
      if records == [] {
        result := result[zone := ZoneWeather(NormalWeather(), zone)];
      } else {
        var r := records[0];
        var t := r.temperatureF.GetOr(70.0);
        var v := r.windSpeedMph.GetOr(10.0);
        var condition := DeriveCondition(t, v);
        result := result[zone := WeatherThreat(t, v, condition, IsExtreme(t, v))];
      }
      pending := pending - {zone};
    }
    assert result.Keys == LiveWeatherMap(fetched).Keys;
  }

  // ---------------------------------------------------------------------
  // Scenario selection and the overview
  // ---------------------------------------------------------------------

  /** The forecast hour the demand multipliers are computed for. */
  function ForecastHour(scenario: string): (h: nat)
    ensures scenario == "uri" ==> h == 36
    ensures scenario == "live" ==> h == 0
    ensures scenario != "uri" && scenario != "live" ==> h == 12
  {
    if scenario == "uri" then 36 else if scenario == "live" then 0 else 12
  }

  datatype WeatherSource = UriTable | LiveReadings | NormalTable

  /** Which weather the scenario reads: the Uri table, the live readings, or the normal table. */
  function WeatherSourceFor(scenario: string): (w: WeatherSource)
    ensures w == UriTable <==> scenario == "uri"
    ensures w == LiveReadings <==> scenario == "live"
    ensures w == NormalTable <==> scenario != "uri" && scenario != "live"
  {
    if scenario == "uri" then UriTable else if scenario == "live" then LiveReadings else NormalTable
  }

  /** The weather map a scenario's overview is built from. */
  function ScenarioWeather(scenario: string, fetched: Option<map<string, seq<WeatherRecord>>>): (w: map<string, WeatherThreat>)
    ensures scenario == "uri" ==> w == UriWeather()
    ensures scenario == "live" ==> w == LiveWeatherMap(fetched)
    ensures scenario != "uri" && scenario != "live" ==> w == NormalWeather()
  {
    match WeatherSourceFor(scenario)
    case UriTable => UriWeather()
    case LiveReadings => LiveWeatherMap(fetched)
    case NormalTable => NormalWeather()
  }

  /**
   * Outside "live" the weather comes from a table that covers every zone:
   * under "uri" every zone's weather is extreme, under any other scenario
   * none is.
   */
  lemma TableScenarioExtremes(scenario: string, fetched: Option<map<string, seq<WeatherRecord>>>, z: string)
    requires scenario != "live" && z in Zones
    ensures z in ScenarioWeather(scenario, fetched)
    ensures ZoneWeather(ScenarioWeather(scenario, fetched), z).isExtreme <==> scenario == "uri"
  {
    TablesCoverEveryZone();
    assert z in ZoneSet();
  }

  /** Per-zone aggregation, region rows, frequency and totals over a list of distinct zones. */
  method Assemble(zones: seq<string>, nodes: seq<GridNode>, multipliers: map<string, real>,
                  weather: map<string, WeatherThreat>, now: int)
    returns (ov: NationalOverview)
    requires forall i, j :: 0 <= i < j < |zones| ==> zones[i] != zones[j]
    ensures |ov.regions| == |zones|
    ensures forall i :: 0 <= i < |zones| ==>
              ov.regions[i] == RegionFor(zones[i], ZoneLoad(nodes, multipliers, zones[i]), ZoneCapacity(nodes, zones[i]),
                                         ZoneOutages(nodes, multipliers, zones[i]), weather)
    ensures forall i :: 0 <= i < |ov.regions| ==> Rank(ov.regions[i].status) <= Rank(ov.nationalStatus)
    ensures ov.nationalStatus == WorstStatus(ov.regions)
    ensures ov.gridFrequencyHz == if 60.0 - TotalDrop(ov.regions) >= 59.0 then 60.0 - TotalDrop(ov.regions) else 59.0
    ensures ov.totalLoadMw == LoadInZones(nodes, multipliers, zones)
    ensures ov.totalCapacityMw == CapInZones(nodes, zones)
    ensures ov.timestamp == now
  {
    var loads, caps, failed := AggregateZones(nodes, multipliers, (set z | z in zones));
    ZoneTotalsCover(zones, nodes, multipliers, loads, caps, failed);
    var regions, worst := BuildRegions(zones, loads, caps, failed, weather);
    RegionsMatchZones(zones, nodes, multipliers, weather, loads, caps, failed, regions);
    var hz := GridFrequency(regions);
    var totalLoad := SumOver(zones, loads);
    var totalCap := SumOver(zones, caps);
    NationalTotals(zones, nodes, multipliers, loads, caps);
    ov := NationalOverview(worst, hz, totalLoad, totalCap, regions, now);
  }

  /** Every listed zone has an accumulator entry and it holds that zone's totals. */
  lemma ZoneTotalsCover(zones: seq<string>, nodes: seq<GridNode>, multipliers: map<string, real>,
                        loads: map<string, real>, caps: map<string, real>, failed: map<string, nat>)
    requires ZoneTotals(nodes, multipliers, (set z | z in zones), loads, caps, failed)
    ensures forall z :: z in zones ==>
              && z in loads && z in caps && z in failed
              && loads[z] == ZoneLoad(nodes, multipliers, z)
              && caps[z] == ZoneCapacity(nodes, z)
              && failed[z] == ZoneOutages(nodes, multipliers, z)
  {
  }

  /** Region rows built from the accumulators are the rows of the zones' totals. */
  lemma RegionsMatchZones(zones: seq<string>, nodes: seq<GridNode>, multipliers: map<string, real>,
                          weather: map<string, WeatherThreat>,
                          loads: map<string, real>, caps: map<string, real>, failed: map<string, nat>,
                          regions: seq<RegionOverview>)
    requires forall z :: z in zones ==>
               && z in loads && z in caps && z in failed
               && loads[z] == ZoneLoad(nodes, multipliers, z)
               && caps[z] == ZoneCapacity(nodes, z)
               && failed[z] == ZoneOutages(nodes, multipliers, z)
    requires |regions| == |zones|
    requires forall i :: 0 <= i < |zones| ==>
               regions[i] == RegionFor(zones[i], loads[zones[i]], caps[zones[i]], failed[zones[i]], weather)
    ensures forall i :: 0 <= i < |zones| ==>
              regions[i] == RegionFor(zones[i], ZoneLoad(nodes, multipliers, zones[i]), ZoneCapacity(nodes, zones[i]),
                                      ZoneOutages(nodes, multipliers, zones[i]), weather)
  {
  }

  /**
   * The national overview. `demand(scenario, hour)` stands for the demand
   * multipliers computed for a scenario and forecast hour, `fetched` for the
   * live weather fetch (consulted only for "live"), `now` for the timestamp.
   * Every zone's row is built from that zone's totals under the multipliers
   * for (`scenario`, `ForecastHour(scenario)`) and the scenario's weather.
   */
  method GetOverview(scenario: string, nodes: seq<GridNode>, demand: (string, nat) -> map<string, real>,
                     fetched: Option<map<string, seq<WeatherRecord>>>, now: int)
    returns (ov: NationalOverview)
    ensures |ov.regions| == |Zones|
    ensures var m := demand(scenario, ForecastHour(scenario));
            forall i :: 0 <= i < |Zones| ==>
              ov.regions[i] == RegionFor(Zones[i], ZoneLoad(nodes, m, Zones[i]), ZoneCapacity(nodes, Zones[i]),
                                         ZoneOutages(nodes, m, Zones[i]), ScenarioWeather(scenario, fetched))
    ensures forall i :: 0 <= i < |ov.regions| ==> Rank(ov.regions[i].status) <= Rank(ov.nationalStatus)
    ensures ov.nationalStatus == WorstStatus(ov.regions)
    ensures ov.gridFrequencyHz == if 60.0 - TotalDrop(ov.regions) >= 59.0 then 60.0 - TotalDrop(ov.regions) else 59.0
    ensures ov.totalLoadMw == LoadInZones(nodes, demand(scenario, ForecastHour(scenario)), Zones)
    ensures ov.totalCapacityMw == CapInZones(nodes, Zones)
    ensures ov.timestamp == now
  {
    var multipliers := demand(scenario, ForecastHour(scenario));
    var weather: map<string, WeatherThreat>;
    match WeatherSourceFor(scenario) {
      case UriTable => weather := UriWeather();
      case LiveReadings => weather := BuildLiveWeather(fetched);
      case NormalTable => weather := NormalWeather();
    }
    assert weather == ScenarioWeather(scenario, fetched);
    ZonesDistinct();
    ov := Assemble(Zones, nodes, multipliers, weather, now);
  }

  /** Summing the accumulators over distinct zones gives the load and capacity of the nodes in those zones. */
  lemma NationalTotals(zones: seq<string>, nodes: seq<GridNode>, multipliers: map<string, real>,
                       loads: map<string, real>, caps: map<string, real>)
    requires forall i, j :: 0 <= i < j < |zones| ==> zones[i] != zones[j]
    requires forall z :: z in zones ==>
               && z in loads && z in caps
               && loads[z] == ZoneLoad(nodes, multipliers, z)
               && caps[z] == ZoneCapacity(nodes, z)
    ensures SumOver(zones, loads) == LoadInZones(nodes, multipliers, zones)
    ensures SumOver(zones, caps) == CapInZones(nodes, zones)
  {
    SumOverLoads(zones, loads, nodes, multipliers);
    TotalLoadIsLoadOfZonedNodes(zones, nodes, multipliers);
    SumOverCaps(zones, caps, nodes);
    TotalCapIsCapOfZonedNodes(zones, nodes);
  }

  lemma {:induction false} SumOverLoads(zs: seq<string>, loads: map<string, real>, nodes: seq<GridNode>, multipliers: map<string, real>)
    requires forall z :: z in zs ==> z in loads && loads[z] == ZoneLoad(nodes, multipliers, z)
    ensures SumOver(zs, loads) == SumZoneLoads(zs, nodes, multipliers)
  {
    if zs != [] {
      SumOverLoads(zs[1..], loads, nodes, multipliers);
    }
  }

  lemma {:induction false} SumOverCaps(zs: seq<string>, caps: map<string, real>, nodes: seq<GridNode>)
    requires forall z :: z in zs ==> z in caps && caps[z] == ZoneCapacity(nodes, z)
    ensures SumOver(zs, caps) == SumZoneCaps(zs, nodes)
  {
    if zs != [] {
      SumOverCaps(zs[1..], caps, nodes);
    }
  }

  /** The first region with the given id, or None. */
  method FindRegion(regions: seq<RegionOverview>, regionId: string) returns (r: Option<RegionOverview>)
    ensures r.Some? ==> exists i :: 0 <= i < |regions| && regions[i] == r.value &&
                          r.value.regionId == regionId &&
                          forall k :: 0 <= k < i ==> regions[k].regionId != regionId
    ensures r.None? <==> forall i :: 0 <= i < |regions| ==> regions[i].regionId != regionId
  {
    var i := 0;
    while i < |regions|
      invariant 0 <= i <= |regions|
      invariant forall k :: 0 <= k < i ==> regions[k].regionId != regionId
    {
      if regions[i].regionId == regionId {
        return Some(regions[i]);
      }
      i := i + 1;
    }
    return None;
  }

  /** A single region's overview: found exactly for the eight zone ids, and then that zone's row. */
  method GetRegion(regionId: string, scenario: string, nodes: seq<GridNode>, demand: (string, nat) -> map<string, real>,
                   fetched: Option<map<string, seq<WeatherRecord>>>, now: int)
    returns (r: Option<RegionOverview>)
    ensures r.Some? <==> regionId in Zones
    ensures r.Some? ==>
              var m := demand(scenario, ForecastHour(scenario));
              r.value == RegionFor(regionId, ZoneLoad(nodes, m, regionId), ZoneCapacity(nodes, regionId),
                                   ZoneOutages(nodes, m, regionId), ScenarioWeather(scenario, fetched))
  {
    var ov := GetOverview(scenario, nodes, demand, fetched, now);
    r := FindRegion(ov.regions, regionId);
    if regionId in Zones {
      var k :| 0 <= k < |Zones| && Zones[k] == regionId;
      assert ov.regions[k].regionId == regionId;
    }
    if r.Some? {
      var i :| 0 <= i < |ov.regions| && ov.regions[i] == r.value && r.value.regionId == regionId;
      assert ov.regions[i].regionId == Zones[i];
      assert Zones[i] == regionId;
    }
  }
}
