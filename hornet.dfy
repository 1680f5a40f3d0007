/**
 * The F/A-18C driver: UFC, left DDI and AMPCD push buttons, the UFC number grammar,
 * waypoint and sequence entry, and pre-planned (PP) missions entered station by station.
 */
module Hornet {
  import opened Wrappers
  import opened Text
  import opened Profiles
  import opened Actuations
  import opened Runs
  import opened Drivers

  /** Any number of plain waypoints, MSNs up to number 6. */
  const HornetLimits: Limits := map["WP" := None, "MSN" := Some(6)]

  // ---------------------------------------------------------------- buttons

  /** `ufc`: "UFC_<num>". */
  function Ufc(num: string): Actuation {
    Push("UFC_" + num)
  }

  /** `lmdi`: the left DDI push button, numbered on two digits. */
  function Lmdi(pb: string): Actuation {
    Push("LEFT_DDI_PB_" + ZFill(pb, 2))
  }

  /** `ampcd`: the AMPCD push button, numbered on two digits. */
  function Ampcd(pb: string): Actuation {
    Push("AMPCD_PB_" + ZFill(pb, 2))
  }

  /** A one-digit button number gets a leading zero; a two-digit one is used as it is. */
  lemma PushButtonNames(pb: string)
    requires 1 <= |pb| <= 2 && AllDigits(pb)
    ensures |pb| == 1 ==> Lmdi(pb) == Push("LEFT_DDI_PB_0" + pb) && Ampcd(pb) == Push("AMPCD_PB_0" + pb)
    ensures |pb| == 2 ==> Lmdi(pb) == Push("LEFT_DDI_PB_" + pb) && Ampcd(pb) == Push("AMPCD_PB_" + pb)
  {
    if |pb| == 1 {
      assert ZFill(pb, 2) == "0" + pb;
    }
  }

  // ---------------------------------------------------------------- numbers

  /** `ensure_decimal`: a coordinate without a decimal point gets ".0", so it has one. */
  function EnsureDecimal(s: string): (r: string)
    ensures s <= r && Find(r, '.') >= 0
    ensures '.' in s ==> r == s
  {
    if Find(s, '.') == -1 then s + ".0" else s
  }

  /**
   * The presses of `enter_number`: the digits before the first '.', ENT, and with two
   * enters and a '.' after the first character, every character after it and ENT again.
   */
  function NumberKeys(s: string, twoEnters: bool): seq<Actuation> {
    var d := Find(s, '.');
    Digits(Ufc, if d == -1 then s else s[..d]) + [Ufc("ENT")]
    + (if twoEnters && d > 0 then Each(Ufc, s[d + 1..]) + [Ufc("ENT")] else [])
  }

  /** `NumberKeys` split at the first '.', or at the end when there is none. */
  lemma NumberKeysAt(s: string, twoEnters: bool, i: nat)
    requires i <= |s| && '.' !in s[..i] && (i == |s| || s[i] == '.')
    ensures NumberKeys(s, twoEnters)
            == Digits(Ufc, s[..i]) + [Ufc("ENT")] + (if twoEnters && 0 < i < |s| then Each(Ufc, s[i + 1..]) + [Ufc("ENT")] else [])
  {
    FindFirst(s, '.', i);
    assert i == |s| ==> s[..i] == s;
  }

  /** A non-negative integer is typed digit by digit, then ENT. */
  lemma NumberOfInt(n: nat, twoEnters: bool)
    ensures NumberKeys(IntToString(n), twoEnters) == Each(Ufc, NatToString(n)) + [Ufc("ENT")]
  {
    NatToStringDigits(n);
    DigitsAll(Ufc, NatToString(n));
  }

  /**
   * "<a>.<b>" with digits before the point is typed as those digits and ENT, then, with
   * two enters, what follows the point and ENT again.
   */
  lemma NumberOfDecimal(a: string, b: string)
    requires |a| > 0 && AllDigits(a)
    ensures NumberKeys(a + "." + b, true) == Each(Ufc, a) + [Ufc("ENT")] + Each(Ufc, b) + [Ufc("ENT")]
    ensures NumberKeys(a + "." + b, false) == Each(Ufc, a) + [Ufc("ENT")]
  {
    var s := a + "." + b;
    assert '.' !in a;
    assert s[..|a|] == a && s[|a|] == '.' && s[|a| + 1..] == b;
    NumberKeysAt(s, true, |a|);
    NumberKeysAt(s, false, |a|);
    DigitsAll(Ufc, a);
  }

  // ---------------------------------------------------------------- coordinates

  function HornetFormat(decimalMinutes: bool): CoordFormat {
    CoordFormat(decimalMinutes, 2, 2, false, 4)
  }

  function NorthSouth(pos: LatLon): Actuation {
    Ufc(if pos.latDegree > 0.0 then "2" else "8")
  }

  function EastWest(pos: LatLon): Actuation {
    Ufc(if pos.lonDegree > 0.0 then "6" else "4")
  }

  /** `-max(elev, -floor)`: the magnitude typed for a negative elevation, at most `floor`. */
  function Clamped(elev: int, floor: nat): (m: nat)
    requires elev < 0
    ensures m <= floor && m <= -elev && (m == floor || m == -elev)
  {
    if -elev < floor then -elev else floor
  }

  /** The elevation entry: a negative value is typed as "0" and then its clamped magnitude. */
  function ElevationKeys(elev: int, floor: nat): seq<Actuation> {
    if elev < 0 then [Ufc("0")] + NumberKeys(IntToString(Clamped(elev, floor)), false)
    else NumberKeys(IntToString(elev), false)
  }

  /**
   * A negative elevation is entered as "0" followed by the digits of min(-elev, floor), a
   * non-negative one as its digits; ENT closes both.
   */
  lemma ElevationClamp(elev: int, floor: nat)
    ensures elev < 0 ==>
              ElevationKeys(elev, floor) == [Ufc("0")] + Each(Ufc, NatToString(Clamped(elev, floor))) + [Ufc("ENT")]
    ensures elev >= 0 ==> ElevationKeys(elev, floor) == Each(Ufc, NatToString(elev)) + [Ufc("ENT")]
  {
    if elev < 0 {
      NumberOfInt(Clamped(elev, floor), false);
    } else {
      NumberOfInt(elev, false);
    }
  }

  /** Waypoints (W) stop at -2000 ft, pre-planned missions (M) at -328 ft. */
  function ElevationFloor(pp: bool): nat {
    if pp then 328 else 2000
  }

  /** The latitude: in M mode OSB1 first, then the hemisphere and the number with two ENTs. */
  function LatKeys(pos: LatLon, lat: string, pp: bool): seq<Actuation> {
    (if pp then [Ufc("OSB1"), NorthSouth(pos)] else [NorthSouth(pos)]) + NumberKeys(lat, true)
  }

  /** The longitude: in M mode OSB3 first, then the hemisphere and the number with two ENTs. */
  function LonKeys(pos: LatLon, lon: string, pp: bool): seq<Actuation> {
    (if pp then [Ufc("OSB3"), EastWest(pos)] else [EastWest(pos)]) + NumberKeys(lon, true)
  }

  /** The presses that select the elevation field. */
  function ElevationField(pp: bool): seq<Actuation> {
    if pp then [Lmdi("14"), Lmdi("14"), Ufc("OSB4"), Ufc("OSB3")] else [Ufc("OSB3"), Ufc("OSB1")]
  }

  /** `enter_coords` once the coordinates are rendered and given a decimal point. */
  function CoordsText(pos: LatLon, lat: string, lon: string, elev: int, pp: bool): seq<Actuation> {
    LatKeys(pos, lat, pp) + LonKeys(pos, lon, pp) + ElevationField(pp) + ElevationKeys(elev, ElevationFloor(pp))
  }

  /**
   * `enter_coords`: waypoint mode (W) types latitude, longitude, then the elevation with a
   * floor of -2000 ft; mission mode (M) selects the fields through OSBs, steps the left DDI
   * twice and uses a floor of -328 ft.
   */
  function CoordsKeys(render: Renderer, pos: LatLon, elev: int, pp: bool, decimalMinutes: bool): seq<Actuation> {
    var text := render(pos, HornetFormat(decimalMinutes));
    CoordsText(pos, EnsureDecimal(text.0), EnsureDecimal(text.1), elev, pp)
  }

  /**
   * The two modes differ only in the OSB presses around the numbers, the two DDI presses
   * and the elevation floor; both type each coordinate with two ENTs.
   */
  lemma CoordsModes(pos: LatLon, lat: string, lon: string, elev: int)
    ensures CoordsText(pos, lat, lon, elev, false)
            == [NorthSouth(pos)] + NumberKeys(lat, true) + [EastWest(pos)] + NumberKeys(lon, true)
               + [Ufc("OSB3"), Ufc("OSB1")] + ElevationKeys(elev, 2000)
    ensures CoordsText(pos, lat, lon, elev, true)
            == [Ufc("OSB1"), NorthSouth(pos)] + NumberKeys(lat, true) + [Ufc("OSB3"), EastWest(pos)] + NumberKeys(lon, true)
               + [Lmdi("14"), Lmdi("14"), Ufc("OSB4"), Ufc("OSB3")] + ElevationKeys(elev, 328)
  {
    var lat', lon' := NumberKeys(lat, true), NumberKeys(lon, true);
    AppendAssoc([NorthSouth(pos)] + lat', [EastWest(pos)], lon');
    AppendAssoc([Ufc("OSB1"), NorthSouth(pos)] + lat', [Ufc("OSB3"), EastWest(pos)], lon');
  }

  // ---------------------------------------------------------------- waypoints and sequences

  /** One waypoint: select the next one, its coordinates in W mode with decimal minutes, CLR. */
  function WaypointActs(render: Renderer, wp: Waypoint): seq<Actuation> {
    [Ampcd("12"), Ampcd("5"), Ufc("OSB1")] + CoordsKeys(render, wp.position, wp.elevation, false, true) + [Ufc("CLR")]
  }

  function WaypointActsOf(render: Renderer): Waypoint -> seq<Actuation> {
    (wp: Waypoint) => WaypointActs(render, wp)
  }

  /** One sequence position: OSB4 and the position's number. */
  function PositionActs(pos: int): seq<Actuation> {
    [Ufc("OSB4")] + NumberKeys(IntToString(pos), false)
  }

  /** Sequences after the first are reached by pressing AMPCD 15 twice. */
  function SequenceHead(id: int): seq<Actuation> {
    (if id != 1 then [Ampcd("15"), Ampcd("15")] else []) + [Ampcd("1")]
  }

  /** Sequence 1 starts with position 0. */
  function SequencePositions(item: (int, seq<int>)): seq<int> {
    if item.0 != 1 then item.1 else [0] + item.1
  }

  function SequenceSteps(item: (int, seq<int>)): seq<Step> {
    Acts(SequenceHead(item.0)) + FlatMap(Units(PositionActs), SequencePositions(item))
  }

  function WaypointsHead(): seq<Actuation> {
    [Ampcd("10"), Ampcd("19"), Ufc("CLR"), Ufc("CLR")]
  }

  function WaypointsTail(): seq<Actuation> {
    [Ufc("CLR"), Ufc("CLR"), Ufc("CLR"), Ampcd("19"), Ampcd("10")]
  }

  /** `enter_waypoints`: nothing for no waypoints, else every waypoint, then every sequence. */
  function WaypointsPlan(render: Renderer, wps: seq<Waypoint>, items: seq<(int, seq<int>)>): seq<Step> {
    if wps == [] then []
    else Acts(WaypointsHead()) + FlatMap(Units(WaypointActsOf(render)), wps) + FlatMap(SequenceSteps, items)
         + Acts(WaypointsTail())
  }

  /** The number of sequence positions `count_steps_enter_wypts` adds up. */
  function PositionsTotal(items: seq<(int, seq<int>)>): nat {
    if items == [] then 0 else PositionsTotal(items[..|items| - 1]) + |items[|items| - 1].1|
  }

  /** A sequence's run: the head's presses, then the loop over its positions. */
  lemma ExecSequence(r: Run, step: real, item: (int, seq<int>))
    requires r.status == Running
    ensures Exec(r, step, SequenceSteps(item))
            == Exec(r.(log := r.log + SequenceHead(item.0)), step, FlatMap(Units(PositionActs), SequencePositions(item)))
  {
    ExecActs(r, step, SequenceHead(item.0));
    ExecAppend(r, step, Acts(SequenceHead(item.0)), FlatMap(Units(PositionActs), SequencePositions(item)));
  }

  /** What `enter_waypoints` does after its opening presses: both loops, then the closing presses. */
  function WaypointsRest(render: Renderer, wps: seq<Waypoint>, items: seq<(int, seq<int>)>): seq<Step> {
    FlatMap(Units(WaypointActsOf(render)), wps) + FlatMap(SequenceSteps, items) + Acts(WaypointsTail())
  }

  /** A waypoint entry's run: the opening presses, then the rest. */
  lemma ExecWaypoints(r: Run, step: real, render: Renderer, wps: seq<Waypoint>, items: seq<(int, seq<int>)>)
    requires wps != [] && r.status == Running
    ensures Exec(r, step, WaypointsPlan(render, wps, items))
            == Exec(r.(log := r.log + WaypointsHead()), step, WaypointsRest(render, wps, items))
  {
    var a, b, c, d := Acts(WaypointsHead()), FlatMap(Units(WaypointActsOf(render)), wps), FlatMap(SequenceSteps, items),
                      Acts(WaypointsTail());
    AppendAssoc(a, b, c);
    AppendAssoc(a, b + c, d);
    ExecActs(r, step, WaypointsHead());
    ExecAppend(r, step, a, b + c + d);
  }

  /** The rest: the waypoint loop, the sequence loop, and the closing presses if the run is still going. */
  lemma ExecWaypointsRest(r: Run, step: real, render: Renderer, wps: seq<Waypoint>, items: seq<(int, seq<int>)>)
    ensures Exec(r, step, WaypointsRest(render, wps, items))
            == var r1 := Exec(r, step, FlatMap(Units(WaypointActsOf(render)), wps));
               var r2 := Exec(r1, step, FlatMap(SequenceSteps, items));
               if r2.status == Running then r2.(log := r2.log + WaypointsTail()) else r2
  {
    var b, c := FlatMap(Units(WaypointActsOf(render)), wps), FlatMap(SequenceSteps, items);
    ExecAppend(r, step, b, c);
    ExecAppend(r, step, b + c, Acts(WaypointsTail()));
    ExecActs(Exec(r, step, b + c), step, WaypointsTail());
  }

  /** The sequences numbered 1. */
  function FirstSequences(items: seq<(int, seq<int>)>): nat {
    if items == [] then 0 else FirstSequences(items[..|items| - 1]) + (if items[|items| - 1].0 == 1 then 1 else 0)
  }

  /** With ascending identifiers, at most one sequence is numbered 1, and one is exactly when 1 is listed. */
  lemma {:induction false} FirstSequencesCount(items: seq<(int, seq<int>)>)
    requires forall i, j :: 0 <= i < j < |items| ==> items[i].0 < items[j].0
    ensures FirstSequences(items) == if exists k :: 0 <= k < |items| && items[k].0 == 1 then 1 else 0
    decreases |items|
  {
    if items != [] {
      var init := items[..|items| - 1];
      FirstSequencesCount(init);
      if items[|items| - 1].0 == 1 {
        assert forall k :: 0 <= k < |init| ==> init[k].0 < 1;
      } else {
        assert forall k :: 0 <= k < |items| && items[k].0 == 1 ==> k < |init| && init[k].0 == 1;
      }
    }
  }

  lemma {:induction false} SequencesShape(items: seq<(int, seq<int>)>)
    ensures Advances(FlatMap(SequenceSteps, items)) == PositionsTotal(items) + FirstSequences(items)
    ensures NoFinish(FlatMap(SequenceSteps, items))
    decreases |items|
  {
    if items != [] {
      var init := items[..|items| - 1];
      var item := items[|items| - 1];
      SequencesShape(init);
      var head, body := Acts(SequenceHead(item.0)), FlatMap(Units(PositionActs), SequencePositions(item));
      AdvancesAppend(FlatMap(SequenceSteps, init), head + body);
      AdvancesAppend(head, body);
      AdvancesActs(SequenceHead(item.0));
      UnitsShape(PositionActs, SequencePositions(item));
      NoFinishAppend(head, body);
      NoFinishAppend(FlatMap(SequenceSteps, init), head + body);
    }
  }

  /**
   * Waypoint entry advances once per waypoint and once per sequence position, plus once
   * for the position 0 that sequence 1 starts with: one more than the steps counted for
   * it. It never finishes the run.
   */
  lemma WaypointsRestShape(render: Renderer, wps: seq<Waypoint>, items: seq<(int, seq<int>)>)
    ensures Advances(WaypointsRest(render, wps, items)) == |wps| + PositionsTotal(items) + FirstSequences(items)
    ensures NoFinish(WaypointsRest(render, wps, items))
  {
    var b, c, d := FlatMap(Units(WaypointActsOf(render)), wps), FlatMap(SequenceSteps, items), Acts(WaypointsTail());
    UnitsShape(WaypointActsOf(render), wps);
    SequencesShape(items);
    AdvancesActs(WaypointsTail());
    AdvancesAppend(b, c);
    AdvancesAppend(b + c, d);
    NoFinishAppend(b, c);
    NoFinishAppend(b + c, d);
  }

  lemma WaypointsShape(render: Renderer, wps: seq<Waypoint>, items: seq<(int, seq<int>)>)
    ensures Advances(WaypointsPlan(render, wps, items))
            == if wps == [] then 0 else |wps| + PositionsTotal(items) + FirstSequences(items)
    ensures NoFinish(WaypointsPlan(render, wps, items))
  {
    if wps != [] {
      var a, b, c, d := Acts(WaypointsHead()), FlatMap(Units(WaypointActsOf(render)), wps),
                        FlatMap(SequenceSteps, items), Acts(WaypointsTail());
      AppendAssoc(a, b, c);
      AppendAssoc(a, b + c, d);
      WaypointsRestShape(render, wps, items);
      AdvancesActs(WaypointsHead());
      AdvancesAppend(a, WaypointsRest(render, wps, items));
      NoFinishAppend(a, WaypointsRest(render, wps, items));
    }
  }

  // ---------------------------------------------------------------- missions

  /** `stations_order`: 8, 2, 7, 3 first to last; any other station has no key. */
  function StationRank(s: int): Option<nat> {
    if s == 8 then Some(0) else if s == 7 then Some(2) else if s == 3 then Some(3) else if s == 2 then Some(1) else None
  }

  /** The stations of a list of MSNs, in order of first appearance (the dictionary's key order). */
  function StationKeys(ms: seq<Waypoint>): seq<int> {
    if ms == [] then []
    else
      var ks := StationKeys(ms[..|ms| - 1]);
      match ms[|ms| - 1].kind
      case Msn(s) => if s in ks then ks else ks + [s]
      case Plain => ks
  }

  /**
   * `sorted(stations, key=stations_order)`: with two or more stations, a station without a
   * key makes the comparison fail (`None`); otherwise the stations come 8, 2, 7, 3.
   */
  function SortStations(keys: seq<int>): Option<seq<int>> {
    if |keys| <= 1 then Some(keys)
    else if exists k :: k in keys && StationRank(k).None? then None
    else Some((if 8 in keys then [8] else []) + (if 2 in keys then [2] else [])
              + (if 7 in keys then [7] else []) + (if 3 in keys then [3] else []))
  }

  predicate Distinct(ks: seq<int>) {
    forall i, j :: 0 <= i < j < |ks| ==> ks[i] != ks[j]
  }

  /**
   * Mission order, failure: sorting fails exactly when two or more stations are present
   * and one of them is not 2, 3, 7 or 8.
   */
  lemma SortStationsFails(keys: seq<int>)
    ensures SortStations(keys).None? <==> |keys| >= 2 && exists k :: k in keys && StationRank(k).None?
  {
  }

  /** Mission order, contents: every station appears once in the sorted order. */
  lemma SortStationsKeys(keys: seq<int>)
    requires Distinct(keys)
    ensures SortStations(keys).Some? ==>
      var order := SortStations(keys).value;
      Distinct(order) && forall s :: s in order <==> s in keys
  {
    if |keys| >= 2 && !exists k :: k in keys && StationRank(k).None? {
      forall s | s in keys ensures s in {8, 2, 7, 3} {
        assert StationRank(s).Some?;
      }
    }
  }

  /** Mission order, ranking: with two or more stations they come 8, 2, 7, 3. */
  lemma SortStationsRanked(keys: seq<int>)
    ensures SortStations(keys).Some? && |SortStations(keys).value| >= 2 ==>
      var order := SortStations(keys).value;
      forall i, j :: 0 <= i < j < |order| ==>
        StationRank(order[i]).Some? && StationRank(order[j]).Some?
        && StationRank(order[i]).value < StationRank(order[j]).value
  {
  }

  lemma {:induction false} StationKeysDict(ms: seq<Waypoint>)
    ensures Distinct(StationKeys(ms))
    ensures forall s :: s in StationKeys(ms) <==> s in StationsDict(ms)
    decreases |ms|
  {
    if ms != [] {
      StationKeysDict(ms[..|ms| - 1]);
    }
  }

  /** `enter_pp_msn`: the n-th MSN of a station is reached through DDI button n + 5. */
  function PpMsnKeys(render: Renderer, msn: Waypoint, n: int): seq<Actuation> {
    (if n > 1 then [Lmdi(IntToString(n + 5))] else []) + [Lmdi("14"), Ufc("OSB3")]
    + CoordsKeys(render, msn.position, msn.elevation, true, false) + [Ufc("CLR"), Ufc("CLR")]
  }

  function PpMsnActsOf(render: Renderer): ((int, Waypoint)) -> seq<Actuation> {
    (p: (int, Waypoint)) => PpMsnKeys(render, p.1, p.0)
  }

  /** One station's MSNs, numbered from 1, then DDI 13. */
  function StationGroupSteps(render: Renderer, group: seq<Waypoint>): seq<Step> {
    FlatMap(Units(PpMsnActsOf(render)), Numbered(group)) + Acts([Lmdi("13")])
  }

  /** A station of the dictionary built from the missions. */
  function StationSteps(render: Renderer, d: map<int, seq<Waypoint>>): int -> seq<Step> {
    (s: int) => StationGroupSteps(render, if s in d then d[s] else [])
  }

  /**
   * `enter_missions`: a non-MSN in the list or unsortable stations fail before any press;
   * otherwise DDI 19 and 4, then each station in order.
   */
  function MissionsPlan(render: Renderer, ms: seq<Waypoint>): seq<Step> {
    if exists k :: 0 <= k < |ms| && !ms[k].IsMsn() then [Abort]
    else
      match SortStations(StationKeys(ms))
      case None => [Abort]
      case Some(order) => Acts([Lmdi("19"), Lmdi("4")]) + FlatMap(StationSteps(render, StationsDict(ms)), order)
  }

  /** A station's run: the loop over its MSNs, then DDI 13 if the run is still going. */
  lemma ExecStation(r: Run, step: real, render: Renderer, group: seq<Waypoint>)
    ensures Exec(r, step, StationGroupSteps(render, group))
            == var r1 := Exec(r, step, FlatMap(Units(PpMsnActsOf(render)), Numbered(group)));
               if r1.status == Running then r1.(log := r1.log + [Lmdi("13")]) else r1
  {
    var f := FlatMap(Units(PpMsnActsOf(render)), Numbered(group));
    ExecAppend(r, step, f, Acts([Lmdi("13")]));
    ExecActs(Exec(r, step, f), step, [Lmdi("13")]);
  }

  /** A mission entry with a non-MSN or unsortable stations fails before any press. */
  lemma ExecMissionsFail(r: Run, step: real, render: Renderer, ms: seq<Waypoint>)
    requires r.status == Running
    requires (exists k :: 0 <= k < |ms| && !ms[k].IsMsn()) || SortStations(StationKeys(ms)).None?
    ensures Exec(r, step, MissionsPlan(render, ms)) == r.(status := Failed)
  {
    ExecSnoc(r, step, [], Abort);
    assert [] + [Abort] == [Abort];
  }

  /** Otherwise it presses DDI 19 and 4, then runs the station loop. */
  lemma ExecMissionsRun(r: Run, step: real, render: Renderer, ms: seq<Waypoint>)
    requires r.status == Running
    requires (forall k :: 0 <= k < |ms| ==> ms[k].IsMsn()) && SortStations(StationKeys(ms)).Some?
    ensures Exec(r, step, MissionsPlan(render, ms))
            == Exec(r.(log := r.log + [Lmdi("19"), Lmdi("4")]), step,
                    FlatMap(StationSteps(render, StationsDict(ms)), SortStations(StationKeys(ms)).value))
  {
    var order := SortStations(StationKeys(ms)).value;
    ExecActs(r, step, [Lmdi("19"), Lmdi("4")]);
    ExecAppend(r, step, Acts([Lmdi("19"), Lmdi("4")]), FlatMap(StationSteps(render, StationsDict(ms)), order));
  }

  /** Every sorted station has its list in the station dictionary. */
  lemma SortedInDict(ms: seq<Waypoint>)
    requires SortStations(StationKeys(ms)).Some?
    ensures var order := SortStations(StationKeys(ms)).value;
      forall k :: 0 <= k < |order| ==> order[k] in StationsDict(ms)
  {
    StationKeysDict(ms);
    SortStationsKeys(StationKeys(ms));
    var order := SortStations(StationKeys(ms)).value;
    forall k | 0 <= k < |order| ensures order[k] in StationsDict(ms) {
      var s := order[k];
      assert s in order;
    }
  }

  lemma StationShape(render: Renderer, group: seq<Waypoint>)
    ensures Advances(StationGroupSteps(render, group)) == |group|
    ensures NoFinish(StationGroupSteps(render, group))
  {
    UnitsShape(PpMsnActsOf(render), Numbered(group));
    AdvancesAppend(FlatMap(Units(PpMsnActsOf(render)), Numbered(group)), Acts([Lmdi("13")]));
    AdvancesActs([Lmdi("13")]);
  }

  /** Mission entry never finishes the run. */
  lemma NoFinishMissions(render: Renderer, ms: seq<Waypoint>)
    ensures NoFinish(MissionsPlan(render, ms))
  {
    var d := StationsDict(ms);
    forall s ensures NoFinish(StationSteps(render, d)(s)) {
      StationShape(render, if s in d then d[s] else []);
    }
    match SortStations(StationKeys(ms))
    case None =>
    case Some(order) =>
      NoFinishFlatMap(StationSteps(render, d), order);
  }

  /** The size of a station's group, 0 for a station without one. */
  function GroupSize(d: map<int, seq<Waypoint>>, s: int): nat {
    if s in d then |d[s]| else 0
  }

  /** The MSNs the groups of the stations in `order` hold together. */
  function GroupsTotal(d: map<int, seq<Waypoint>>, order: seq<int>): nat {
    if order == [] then 0 else GroupsTotal(d, order[..|order| - 1]) + GroupSize(d, order[|order| - 1])
  }

  /** The station loop advances once per MSN of the stations it visits. */
  lemma {:induction false} StationLoopAdvances(render: Renderer, d: map<int, seq<Waypoint>>, order: seq<int>)
    ensures Advances(FlatMap(StationSteps(render, d), order)) == GroupsTotal(d, order)
    decreases |order|
  {
    if order != [] {
      var init, s := order[..|order| - 1], order[|order| - 1];
      StationLoopAdvances(render, d, init);
      StationShape(render, if s in d then d[s] else []);
      AdvancesAppend(FlatMap(StationSteps(render, d), init), StationSteps(render, d)(s));
    }
  }

  /** Taking one station out of a list takes its group out of the total. */
  lemma {:induction false} GroupsTotalRemove(d: map<int, seq<Waypoint>>, b: seq<int>, i: nat)
    requires i < |b|
    ensures GroupsTotal(d, b) == GroupsTotal(d, b[..i] + b[i + 1..]) + GroupSize(d, b[i])
    decreases |b|
  {
    var init := b[..|b| - 1];
    if i == |b| - 1 {
      assert b[..i] + b[i + 1..] == init;
    } else {
      GroupsTotalRemove(d, init, i);
      var rest := init[..i] + init[i + 1..];
      assert b[..i] + b[i + 1..] == rest + [b[|b| - 1]];
      assert (rest + [b[|b| - 1]])[..|rest|] == rest;
    }
  }

  /** A non-empty list holds its first element. */
  lemma FirstListed(b: seq<int>)
    ensures b == [] || b[0] in b
  {
  }

  /** Taking the last station of `a` out of `b` leaves the same stations as the rest of `a`, still distinct. */
  lemma RemoveLast(a: seq<int>, b: seq<int>, i: nat, init: seq<int>, rest: seq<int>)
    requires Distinct(a) && Distinct(b) && (forall s :: s in a <==> s in b)
    requires i < |b| && a != [] && b[i] == a[|a| - 1]
    requires init == a[..|a| - 1] && rest == b[..i] + b[i + 1..]
    ensures Distinct(rest)
    ensures forall t :: t in init <==> t in rest
  {
    var s := a[|a| - 1];
    forall t ensures t in init <==> t in rest {
      if t in init {
        var k :| 0 <= k < |init| && init[k] == t;
        assert a[k] == t && t != s;
        assert t in b;
        var j :| 0 <= j < |b| && b[j] == t;
        if j < i { assert rest[j] == t; } else { assert rest[j - 1] == t; }
      }
      if t in rest {
        var j :| 0 <= j < |rest| && rest[j] == t;
        if j < i { assert b[j] == t; } else { assert b[j + 1] == t; }
        assert t in a;
        var k :| 0 <= k < |a| && a[k] == t;
        assert init[k] == t;
      }
    }
    forall x, y | 0 <= x < y < |rest| ensures rest[x] != rest[y] {
      var bx := if x < i then x else x + 1;
      var by_ := if y < i then y else y + 1;
      assert rest[x] == b[bx] && rest[y] == b[by_] && bx < by_;
    }
  }

  /** Two lists of the same distinct stations hold the same total, whatever their order. */
  lemma {:induction false} GroupsTotalReorder(d: map<int, seq<Waypoint>>, a: seq<int>, b: seq<int>)
    requires Distinct(a) && Distinct(b) && forall s :: s in a <==> s in b
    ensures GroupsTotal(d, a) == GroupsTotal(d, b)
    decreases |a|
  {
    if a == [] {
      FirstListed(b);
    } else {
      var init, s := a[..|a| - 1], a[|a| - 1];
      assert Distinct(init);
      assert s in b;
      var i :| 0 <= i < |b| && b[i] == s;
      var rest := b[..i] + b[i + 1..];
      GroupsTotalRemove(d, b, i);
      RemoveLast(a, b, i, init, rest);
      GroupsTotalReorder(d, init, rest);
    }
  }

  /** Replacing one station's group changes the total by the difference, and only if the station is listed. */
  lemma {:induction false} GroupsTotalUpdate(d: map<int, seq<Waypoint>>, ks: seq<int>, s: int, v: seq<Waypoint>)
    requires Distinct(ks)
    ensures s !in ks ==> GroupsTotal(d[s := v], ks) == GroupsTotal(d, ks)
    ensures s in ks ==> GroupsTotal(d[s := v], ks) + GroupSize(d, s) == GroupsTotal(d, ks) + |v|
    decreases |ks|
  {
    if ks != [] {
      var init := ks[..|ks| - 1];
      GroupsTotalUpdate(d, init, s, v);
      if ks[|ks| - 1] == s {
        assert s !in init;
      } else {
        assert s in ks ==> s in init;
      }
    }
  }

  /** The station groups of a list of MSNs hold every MSN of it, once. */
  lemma {:induction false} StationGroupsCover(ms: seq<Waypoint>)
    requires forall k :: 0 <= k < |ms| ==> ms[k].IsMsn()
    ensures GroupsTotal(StationsDict(ms), StationKeys(ms)) == |ms|
    decreases |ms|
  {
    if ms != [] {
      var init, w := ms[..|ms| - 1], ms[|ms| - 1];
      var s := w.kind.station;
      StationGroupsCover(init);
      StationKeysDict(init);
      var d, ks := StationsDict(init), StationKeys(init);
      GroupsTotalUpdate(d, ks, s, (if s in d then d[s] else []) + [w]);
    }
  }

  /**
   * Mission entry advances once per MSN when it runs, and not at all when a non-MSN or
   * unsortable stations make it fail.
   */
  lemma MissionsAdvances(render: Renderer, ms: seq<Waypoint>)
    ensures Advances(MissionsPlan(render, ms)) <= |ms|
    ensures (forall k :: 0 <= k < |ms| ==> ms[k].IsMsn()) && SortStations(StationKeys(ms)).Some? ==>
      Advances(MissionsPlan(render, ms)) == |ms|
    ensures MissionsPlan(render, ms) == [Abort] || Advances(MissionsPlan(render, ms)) == |ms|
  {
    if (forall k :: 0 <= k < |ms| ==> ms[k].IsMsn()) && SortStations(StationKeys(ms)).Some? {
      var order := SortStations(StationKeys(ms)).value;
      StationKeysDict(ms);
      SortStationsKeys(StationKeys(ms));
      GroupsTotalReorder(StationsDict(ms), order, StationKeys(ms));
      StationGroupsCover(ms);
      StationLoopAdvances(render, StationsDict(ms), order);
      AdvancesActs([Lmdi("19"), Lmdi("4")]);
      AdvancesAppend(Acts([Lmdi("19"), Lmdi("4")]), FlatMap(StationSteps(render, StationsDict(ms)), order));
    } else {
      assert Advances([Abort]) == 0 by {
        assert [Abort][..0] == [];
      }
    }
  }

  // ---------------------------------------------------------------- the whole entry

  function HornetMissions(ws: seq<Waypoint>): seq<Waypoint> {
    SortByType(Survivors(HornetLimits, MsnsAsList(ws), 0))
  }

  function HornetWaypoints(ws: seq<Waypoint>): seq<Waypoint> {
    SortByType(Survivors(HornetLimits, WaypointsAsList(ws), 0))
  }

  /** `count_steps_enter_wypts` plus one per mission, as `enter_all` counts them. */
  function HornetSteps(ws: seq<Waypoint>): nat {
    var wps := HornetWaypoints(ws);
    (if wps == [] then 0 else |wps| + PositionsTotal(SequenceItems(ws))) + |HornetMissions(ws)|
  }

  /** The parts `enter_all` splits the progress into: the counted steps plus two. */
  function HornetParts(ws: seq<Waypoint>): nat {
    HornetSteps(ws) + 2
  }

  /** `enter_all` without the closing advance: missions, an advance, waypoints and sequences. */
  function HornetPlan(render: Renderer, ms: seq<Waypoint>, wps: seq<Waypoint>, items: seq<(int, seq<int>)>): seq<Step> {
    MissionsPlan(render, ms) + [Advance] + WaypointsPlan(render, wps, items)
  }

  function HornetBody(render: Renderer, ws: seq<Waypoint>): seq<Step> {
    HornetPlan(render, HornetMissions(ws), HornetWaypoints(ws), SequenceItems(ws))
  }

  /** Whether waypoint entry starts sequence 1 with the extra position 0, which the step count misses. */
  function MissedStep(ws: seq<Waypoint>): nat {
    if HornetWaypoints(ws) != [] && 1 in Sequences(ws) then 1 else 0
  }

  /** The parts `enter_all` would need to count every advance of its body: the missed one included. */
  function HornetPartsIntended(ws: seq<Waypoint>): (r: nat)
    ensures r == HornetParts(ws) + MissedStep(ws)
  {
    var wps := HornetWaypoints(ws);
    FirstSequenceListed(ws);
    (if wps == [] then 0 else |wps| + PositionsTotal(SequenceItems(ws)) + FirstSequences(SequenceItems(ws)))
      + |HornetMissions(ws)| + 2
  }

  /** The sequences of a profile start one sequence numbered 1 exactly when 1 is among their identifiers. */
  lemma FirstSequenceListed(ws: seq<Waypoint>)
    ensures FirstSequences(SequenceItems(ws)) == if 1 in Sequences(ws) then 1 else 0
  {
    var items := SequenceItems(ws);
    FirstSequencesCount(items);
    if 1 in Sequences(ws) {
      var k :| 0 <= k < |Sequences(ws)| && Sequences(ws)[k] == 1;
      assert items[k].0 == 1;
    }
  }

  /**
   * The body of a Hornet entry advances at most once per counted step, plus the separating
   * advance, plus the missed one; exactly that often when mission entry does not fail.
   */
  lemma HornetBodyAdvances(render: Renderer, ws: seq<Waypoint>)
    ensures Advances(HornetBody(render, ws)) <= HornetSteps(ws) + 1 + MissedStep(ws)
    ensures MissionsPlan(render, HornetMissions(ws)) != [Abort] ==>
      Advances(HornetBody(render, ws)) == HornetSteps(ws) + 1 + MissedStep(ws)
    ensures NoFinish(HornetBody(render, ws))
  {
    var ms, wps, items := HornetMissions(ws), HornetWaypoints(ws), SequenceItems(ws);
    var mp, wp := MissionsPlan(render, ms), WaypointsPlan(render, wps, items);
    MissionsAdvances(render, ms);
    WaypointsShape(render, wps, items);
    FirstSequenceListed(ws);
    AdvancesAppend(mp, [Advance]);
    AdvancesAppend(mp + [Advance], wp);
    assert Advances([Advance]) == 1 by {
      assert [Advance][..0] == [];
    }
    NoFinishHornet(render, ms, wps, items);
  }

  /**
   * Without sequence 1 among the entered waypoints, `enter_all` keeps its progress promise:
   * below 100 until the closing advance, and a finished entry closes with 100 and "DONE".
   */
  lemma HornetProgress(r: Run, render: Renderer, ws: seq<Waypoint>)
    requires r.status == Running && r.progress.Some? && r.cur == 0.0
    requires HornetWaypoints(ws) == [] || 1 !in Sequences(ws)
    ensures EntryPromise(r, StepSize(HornetParts(ws)), HornetBody(render, ws))
  {
    HornetBodyAdvances(render, ws);
    EntryProgress(r, HornetParts(ws), HornetBody(render, ws));
  }

  /**
   * With sequence 1 among the entered waypoints, the missed step makes the body of
   * `enter_all` reach 100 before the closing advance when mission entry goes through.
   */
  lemma HornetSequenceOneReachesHundred(r: Run, render: Renderer, ws: seq<Waypoint>, step: real)
    requires r.status == Running && r.progress.Some? && r.cur == 0.0
    requires HornetWaypoints(ws) != [] && 1 in Sequences(ws)
    requires MissionsPlan(render, HornetMissions(ws)) != [Abort]
    requires step == StepSize(HornetParts(ws))
    requires Exec(r, step, HornetBody(render, ws)).status == Running
    ensures Exec(r, step, HornetBody(render, ws)).progress.Some?
    ensures Percent(100.0) in Published(r, Exec(r, step, HornetBody(render, ws)))
    ensures !EntryPromise(r, step, HornetBody(render, ws))
  {
    var body := HornetBody(render, ws);
    HornetBodyAdvances(render, ws);
    assert Advances(body) == HornetParts(ws);
    StepsFill(HornetParts(ws));
    FullStepsReachHundred(r, step, body);
  }

  /** Counting the missed step, `enter_all` keeps its progress promise for every profile. */
  lemma HornetProgressIntended(r: Run, render: Renderer, ws: seq<Waypoint>)
    requires r.status == Running && r.progress.Some? && r.cur == 0.0
    ensures EntryPromise(r, StepSize(HornetPartsIntended(ws)), HornetBody(render, ws))
  {
    HornetBodyAdvances(render, ws);
    EntryProgress(r, HornetPartsIntended(ws), HornetBody(render, ws));
  }

  /**
   * The run of the `try` block of `enter_all`: missions, an advance, waypoints, then the
   * closing advance; a stopped run ignores the rest.
   */
  lemma ExecHornet(r: Run, step: real, render: Renderer, ms: seq<Waypoint>, wps: seq<Waypoint>,
                   items: seq<(int, seq<int>)>)
    ensures Exec(r, step, HornetPlan(render, ms, wps, items) + [Finish])
            == var r1 := Exec1(Exec(r, step, MissionsPlan(render, ms)), step, Advance);
               Exec1(Exec(r1, step, WaypointsPlan(render, wps, items)), step, Finish)
  {
    var mp, wp := MissionsPlan(render, ms), WaypointsPlan(render, wps, items);
    ExecSnoc(r, step, HornetPlan(render, ms, wps, items), Finish);
    ExecAppend(r, step, mp + [Advance], wp);
    ExecSnoc(r, step, mp, Advance);
  }

  /** The body of a Hornet entry never finishes the run before its closing advance. */
  lemma NoFinishHornet(render: Renderer, ms: seq<Waypoint>, wps: seq<Waypoint>, items: seq<(int, seq<int>)>)
    ensures NoFinish(HornetPlan(render, ms, wps, items))
  {
    var mp, wp := MissionsPlan(render, ms), WaypointsPlan(render, wps, items);
    NoFinishMissions(render, ms);
    WaypointsShape(render, wps, items);
    NoFinishAppend(mp, [Advance]);
    NoFinishAppend(mp + [Advance], wp);
  }

  /**
   * A Hornet entry that is cancelled never publishes "DONE", and one that runs to the end
   * closes the progress queue with 100 and "DONE".
   */
  lemma HornetRunCloses(r: Run, step: real, body: seq<Step>)
    requires r.status == Running && r.progress.Some?
    requires exists render, ms, wps, items :: body == HornetPlan(render, ms, wps, items)
    ensures Exec(r, step, body + [Finish]).progress.Some?
    ensures Exec(r, step, body + [Finish]).status == Cancelled ==> Done !in Published(r, Exec(r, step, body + [Finish]))
    ensures Exec(r, step, body + [Finish]).status == Running ==>
      var p := Exec(r, step, body + [Finish]).progress.value;
      |p| >= 2 && p[|p| - 2..] == [Percent(100.0), Done]
  {
    var render, ms, wps, items :| body == HornetPlan(render, ms, wps, items);
    NoFinishHornet(render, ms, wps, items);
    ClosedRun(r, step, body);
  }

  // ---------------------------------------------------------------- the driver

  class HornetDriver {
    const base: Driver

    constructor (render: Renderer)
      ensures fresh(base) && base.Valid() && base.sent == [] && base.log == []
      ensures base.limits == HornetLimits && base.render == render
      ensures base.progCur == 0.0 && base.progStep == 0.0
    {
      base := new Driver(render, HornetLimits);
    }

    /** The presses of `enter_number`, given as the index of the first '.' (or the end). */
    method EnterNumberAt(s: string, twoEnters: bool) returns (i: nat)
      requires base.Valid()
      modifies base`sent, base`log
      ensures i <= |s| && '.' !in s[..i] && (i == |s| || s[i] == '.')
      ensures base.Valid()
      ensures base.log
              == old(base.log) + Digits(Ufc, s[..i]) + [Ufc("ENT")]
                 + (if twoEnters && 0 < i < |s| then Each(Ufc, s[i + 1..]) + [Ufc("ENT")] else [])
    {
      i := base.PressDigitsToPoint(Ufc, s);
      base.Perform(Ufc("ENT"));
      if twoEnters && 0 < i < |s| {
        ghost var l0 := base.log;
        base.PressEach(Ufc, s[i + 1..]);
        base.Perform(Ufc("ENT"));
        AppendAssoc(l0, Each(Ufc, s[i + 1..]), [Ufc("ENT")]);
      }
    }

    /** `enter_number`. */
    method EnterNumber(s: string, twoEnters: bool)
      requires base.Valid()
      modifies base`sent, base`log
      ensures base.Valid() && base.log == old(base.log) + NumberKeys(s, twoEnters)
    {
      var i := EnterNumberAt(s, twoEnters);
      NumberKeysAt(s, twoEnters, i);
    }

    /** The latitude part of `enter_coords`. */
    method EnterLat(pos: LatLon, lat: string, pp: bool)
      requires base.Valid()
      modifies base`sent, base`log
      ensures base.Valid() && base.log == old(base.log) + LatKeys(pos, lat, pp)
    {
      var head := if pp then [Ufc("OSB1"), NorthSouth(pos)] else [NorthSouth(pos)];
      base.PerformAll(head);
      EnterNumber(lat, true);
      AppendAssoc(old(base.log), head, NumberKeys(lat, true));
    }

    /** The longitude part of `enter_coords`. */
    method EnterLon(pos: LatLon, lon: string, pp: bool)
      requires base.Valid()
      modifies base`sent, base`log
      ensures base.Valid() && base.log == old(base.log) + LonKeys(pos, lon, pp)
    {
      var head := if pp then [Ufc("OSB3"), EastWest(pos)] else [EastWest(pos)];
      base.PerformAll(head);
      EnterNumber(lon, true);
      AppendAssoc(old(base.log), head, NumberKeys(lon, true));
    }

    /** The elevation part of `enter_coords`, after its field is selected. */
    method EnterElevation(elev: int, floor: nat)
      requires base.Valid()
      modifies base`sent, base`log
      ensures base.Valid() && base.log == old(base.log) + ElevationKeys(elev, floor)
    {
      var e := elev;
      if e < 0 {
        e := Clamped(e, floor);
        base.Perform(Ufc("0"));
        EnterNumber(IntToString(e), false);
        AppendAssoc(old(base.log), [Ufc("0")], NumberKeys(IntToString(e), false));
      } else {
        EnterNumber(IntToString(e), false);
      }
    }

    /** `enter_coords` once the coordinates are rendered and given a decimal point. */
    method EnterCoordsText(pos: LatLon, lat: string, lon: string, elev: int, pp: bool)
      requires base.Valid()
      modifies base`sent, base`log
      ensures base.Valid() && base.log == old(base.log) + CoordsText(pos, lat, lon, elev, pp)
    {
      EnterLat(pos, lat, pp);
      EnterLon(pos, lon, pp);
      base.PerformAll(ElevationField(pp));
      EnterElevation(elev, ElevationFloor(pp));
      ghost var l0, a, b, c, d := old(base.log), LatKeys(pos, lat, pp), LonKeys(pos, lon, pp), ElevationField(pp),
                                  ElevationKeys(elev, ElevationFloor(pp));
      AppendAssoc(l0, a, b);
      AppendAssoc(l0, a + b, c);
      AppendAssoc(l0, a + b + c, d);
    }

    /** `enter_coords`. */
    method EnterCoords(pos: LatLon, elev: int, pp: bool, decimalMinutes: bool)
      requires base.Valid()
      modifies base`sent, base`log
      ensures base.Valid() && base.log == old(base.log) + CoordsKeys(base.render, pos, elev, pp, decimalMinutes)
    {
      var (lat, lon) := base.render(pos, HornetFormat(decimalMinutes));
      EnterCoordsText(pos, EnsureDecimal(lat), EnsureDecimal(lon), elev, pp);
    }

    /** `count_steps_enter_wypts`: the waypoints plus the positions of every sequence. */
    method CountSteps(wps: seq<Waypoint>, items: seq<(int, seq<int>)>) returns (count: nat)
      ensures count == if wps == [] then 0 else |wps| + PositionsTotal(items)
    {
      count := 0;
      if wps != [] {
        count := |wps|;
        var k := 0;
        while k < |items|
          invariant 0 <= k <= |items|
          invariant count == |wps| + PositionsTotal(items[..k])
        {
          assert items[..k + 1][..k] == items[..k];
          count := count + |items[k].1|;
          k := k + 1;
        }
        assert items[..k] == items;
      }
    }

    /** The presses for one waypoint. */
    method EnterWaypointActs(wp: Waypoint)
      requires base.Valid()
      modifies base`sent, base`log
      ensures base.Valid() && base.log == old(base.log) + WaypointActs(base.render, wp)
    {
      var head := [Ampcd("12"), Ampcd("5"), Ufc("OSB1")];
      base.PerformAll(head);
      EnterCoords(wp.position, wp.elevation, false, true);
      base.Perform(Ufc("CLR"));
      ghost var coords := CoordsKeys(base.render, wp.position, wp.elevation, false, true);
      AppendAssoc(old(base.log), head, coords);
      AppendAssoc(old(base.log), head + coords, [Ufc("CLR")]);
    }

    /** One iteration of the waypoint loop: advance, then the waypoint's presses. */
    method EnterWaypointUnit(wp: Waypoint, cq: CommandQueue?, pq: ProgressQueue?) returns (st: Status)
      requires base.Valid()
      modifies base`sent, base`log, base`progCur, cq, pq
      ensures base.Valid()
      ensures base.Snap(cq, pq, st)
              == Exec(old(base.Snap(cq, pq, Running)), base.progStep, Units(WaypointActsOf(base.render))(wp))
    {
      ExecUnit(base.Snap(cq, pq, Running), base.progStep, WaypointActs(base.render, wp));
      st := base.BkgndAdvance(cq, pq, false);
      if st == Running {
        EnterWaypointActs(wp);
      }
    }

    /**
     * The waypoint loop once it has entered the first `i` waypoints: it enters the next
     * one, and when the run stops there, that is the run of the whole loop.
     */
    method EnterWaypointNext(wps: seq<Waypoint>, i: nat, ghost r0: Run, cq: CommandQueue?, pq: ProgressQueue?)
      returns (st: Status)
      requires base.Valid() && i < |wps|
      requires base.Snap(cq, pq, Running) == Exec(r0, base.progStep, FlatMap(Units(WaypointActsOf(base.render)), wps[..i]))
      modifies base`sent, base`log, base`progCur, cq, pq
      ensures base.Valid()
      ensures base.Snap(cq, pq, st)
              == Exec(r0, base.progStep, FlatMap(Units(WaypointActsOf(base.render)), if st == Running then wps[..i + 1] else wps))
    {
      ghost var f := Units(WaypointActsOf(base.render));
      st := EnterWaypointUnit(wps[i], cq, pq);
      ExecFlatMapNext(r0, base.progStep, f, wps, i);
      if st != Running {
        ExecFlatMapStop(r0, base.progStep, f, wps, i);
      }
    }

    /** The waypoint loop of `enter_waypoints`. */
    method EnterWaypointList(wps: seq<Waypoint>, cq: CommandQueue?, pq: ProgressQueue?) returns (st: Status)
      requires base.Valid()
      modifies base`sent, base`log, base`progCur, cq, pq
      ensures base.Valid()
      ensures base.Snap(cq, pq, st)
              == Exec(old(base.Snap(cq, pq, Running)), base.progStep, FlatMap(Units(WaypointActsOf(base.render)), wps))
    {
      ghost var r0 := base.Snap(cq, pq, Running);
      st := Running;
      var i := 0;
      while i < |wps|
        modifies base`sent, base`log, base`progCur, cq, pq
        invariant 0 <= i <= |wps| && base.Valid() && st == Running
        invariant base.Snap(cq, pq, Running) == Exec(r0, base.progStep, FlatMap(Units(WaypointActsOf(base.render)), wps[..i]))
      {
        st := EnterWaypointNext(wps, i, r0, cq, pq);
        if st != Running {
          return;
        }
        i := i + 1;
      }
      assert wps[..i] == wps;
    }

    /** The presses for one sequence position. */
    method EnterPositionActs(pos: int)
      requires base.Valid()
      modifies base`sent, base`log
      ensures base.Valid() && base.log == old(base.log) + PositionActs(pos)
    {
      base.Perform(Ufc("OSB4"));
      EnterNumber(IntToString(pos), false);
      AppendAssoc(old(base.log), [Ufc("OSB4")], NumberKeys(IntToString(pos), false));
    }

    /** One position of a sequence: advance, OSB4 and the position's number. */
    method EnterPositionUnit(pos: int, cq: CommandQueue?, pq: ProgressQueue?) returns (st: Status)
      requires base.Valid()
      modifies base`sent, base`log, base`progCur, cq, pq
      ensures base.Valid()
      ensures base.Snap(cq, pq, st) == Exec(old(base.Snap(cq, pq, Running)), base.progStep, Unit(PositionActs(pos)))
    {
      ExecUnit(base.Snap(cq, pq, Running), base.progStep, PositionActs(pos));
      st := base.BkgndAdvance(cq, pq, false);
      if st == Running {
        EnterPositionActs(pos);
      }
    }

    /** The positions loop after its first `i` positions: it enters the next one; a stop there ends the loop. */
    method EnterPositionNext(ps: seq<int>, i: nat, ghost r0: Run, cq: CommandQueue?, pq: ProgressQueue?)
      returns (st: Status)
      requires base.Valid() && i < |ps|
      requires base.Snap(cq, pq, Running) == Exec(r0, base.progStep, FlatMap(Units(PositionActs), ps[..i]))
      modifies base`sent, base`log, base`progCur, cq, pq
      ensures base.Valid()
      ensures base.Snap(cq, pq, st)
              == Exec(r0, base.progStep, FlatMap(Units(PositionActs), if st == Running then ps[..i + 1] else ps))
    {
      st := EnterPositionUnit(ps[i], cq, pq);
      ExecFlatMapNext(r0, base.progStep, Units(PositionActs), ps, i);
      if st != Running {
        ExecFlatMapStop(r0, base.progStep, Units(PositionActs), ps, i);
      }
    }

    /** The positions loop of one sequence. */
    method EnterPositions(ps: seq<int>, cq: CommandQueue?, pq: ProgressQueue?) returns (st: Status)
      requires base.Valid()
      modifies base`sent, base`log, base`progCur, cq, pq
      ensures base.Valid()
      ensures base.Snap(cq, pq, st) == Exec(old(base.Snap(cq, pq, Running)), base.progStep, FlatMap(Units(PositionActs), ps))
    {
      ghost var r0 := base.Snap(cq, pq, Running);
      st := Running;
      var i := 0;
      while i < |ps|
        modifies base`sent, base`log, base`progCur, cq, pq
        invariant 0 <= i <= |ps| && base.Valid() && st == Running
        invariant base.Snap(cq, pq, Running) == Exec(r0, base.progStep, FlatMap(Units(PositionActs), ps[..i]))
      {
        st := EnterPositionNext(ps, i, r0, cq, pq);
        if st != Running {
          return;
        }
        i := i + 1;
      }
      assert ps[..i] == ps;
    }

    /** Selects a sequence on the AMPCD: sequences after the first need AMPCD 15 twice. */
    method EnterSequenceHead(id: int)
      requires base.Valid()
      modifies base`sent, base`log
      ensures base.Valid() && base.log == old(base.log) + SequenceHead(id)
    {
      if id != 1 {
        base.PerformAll([Ampcd("15"), Ampcd("15"), Ampcd("1")]);
      } else {
        base.Perform(Ampcd("1"));
      }
    }

    /** One sequence: select it on the AMPCD, then enter its positions; sequence 1 starts with 0. */
    method EnterSequence(item: (int, seq<int>), cq: CommandQueue?, pq: ProgressQueue?) returns (st: Status)
      requires base.Valid()
      modifies base`sent, base`log, base`progCur, cq, pq
      ensures base.Valid()
      ensures base.Snap(cq, pq, st) == Exec(old(base.Snap(cq, pq, Running)), base.progStep, SequenceSteps(item))
    {
      ExecSequence(base.Snap(cq, pq, Running), base.progStep, item);
      var id := item.0;
      var positions := item.1;
      if id == 1 {
        positions := [0] + positions;
      }
      assert positions == SequencePositions(item);
      EnterSequenceHead(id);
      st := EnterPositions(positions, cq, pq);
    }

    /** The sequence loop after its first `i` sequences: it enters the next one; a stop there ends the loop. */
    method EnterSequenceNext(items: seq<(int, seq<int>)>, i: nat, ghost r0: Run, cq: CommandQueue?, pq: ProgressQueue?)
      returns (st: Status)
      requires base.Valid() && i < |items|
      requires base.Snap(cq, pq, Running) == Exec(r0, base.progStep, FlatMap(SequenceSteps, items[..i]))
      modifies base`sent, base`log, base`progCur, cq, pq
      ensures base.Valid()
      ensures base.Snap(cq, pq, st)
              == Exec(r0, base.progStep, FlatMap(SequenceSteps, if st == Running then items[..i + 1] else items))
    {
      st := EnterSequence(items[i], cq, pq);
      ExecFlatMapNext(r0, base.progStep, SequenceSteps, items, i);
      if st != Running {
        ExecFlatMapStop(r0, base.progStep, SequenceSteps, items, i);
      }
    }

    /** The sequence loop of `enter_waypoints`. */
    method EnterSequences(items: seq<(int, seq<int>)>, cq: CommandQueue?, pq: ProgressQueue?) returns (st: Status)
      requires base.Valid()
      modifies base`sent, base`log, base`progCur, cq, pq
      ensures base.Valid()
      ensures base.Snap(cq, pq, st) == Exec(old(base.Snap(cq, pq, Running)), base.progStep, FlatMap(SequenceSteps, items))
    {
      ghost var r0 := base.Snap(cq, pq, Running);
      st := Running;
      var i := 0;
      while i < |items|
        modifies base`sent, base`log, base`progCur, cq, pq
        invariant 0 <= i <= |items| && base.Valid() && st == Running
        invariant base.Snap(cq, pq, Running) == Exec(r0, base.progStep, FlatMap(SequenceSteps, items[..i]))
      {
        st := EnterSequenceNext(items, i, r0, cq, pq);
        if st != Running {
          return;
        }
        i := i + 1;
      }
      assert items[..i] == items;
    }

    /** `enter_waypoints`. */
    method EnterWaypoints(wps: seq<Waypoint>, items: seq<(int, seq<int>)>, cq: CommandQueue?, pq: ProgressQueue?)
      returns (st: Status)
      requires base.Valid()
      modifies base`sent, base`log, base`progCur, cq, pq
      ensures base.Valid()
      ensures base.Snap(cq, pq, st)
              == Exec(old(base.Snap(cq, pq, Running)), base.progStep, WaypointsPlan(base.render, wps, items))
    {
      if wps == [] {
        return Running;
      }
      ExecWaypoints(base.Snap(cq, pq, Running), base.progStep, base.render, wps, items);
      base.PerformAll(WaypointsHead());
      st := EnterWaypointLoops(wps, items, cq, pq);
    }

    /** The waypoint loop and the sequence loop of `enter_waypoints`, then its closing presses. */
    method EnterWaypointLoops(wps: seq<Waypoint>, items: seq<(int, seq<int>)>, cq: CommandQueue?, pq: ProgressQueue?)
      returns (st: Status)
      requires base.Valid()
      modifies base`sent, base`log, base`progCur, cq, pq
      ensures base.Valid()
      ensures base.Snap(cq, pq, st)
              == Exec(old(base.Snap(cq, pq, Running)), base.progStep, WaypointsRest(base.render, wps, items))
    {
      ExecWaypointsRest(base.Snap(cq, pq, Running), base.progStep, base.render, wps, items);
      st := EnterWaypointList(wps, cq, pq);
      if st != Running {
        ExecHalted(base.Snap(cq, pq, st), base.progStep, FlatMap(SequenceSteps, items));
        return;
      }
      st := EnterSequences(items, cq, pq);
      if st == Running {
        base.PerformAll(WaypointsTail());
      }
    }

    /** `enter_pp_msn`. */
    method EnterPpMsn(msn: Waypoint, n: int)
      requires base.Valid()
      modifies base`sent, base`log
      ensures base.Valid() && base.log == old(base.log) + PpMsnKeys(base.render, msn, n)
    {
      var head := (if n > 1 then [Lmdi(IntToString(n + 5))] else []) + [Lmdi("14"), Ufc("OSB3")];
      base.PerformAll(head);
      EnterCoords(msn.position, msn.elevation, true, false);
      var tail := [Ufc("CLR"), Ufc("CLR")];
      base.PerformAll(tail);
      ghost var l0, c := old(base.log), CoordsKeys(base.render, msn.position, msn.elevation, true, false);
      AppendAssoc(l0, head, c);
      AppendAssoc(l0, head + c, tail);
    }

    /** One iteration of a station's loop: advance, then the MSN numbered `p.0`. */
    method EnterPpMsnUnit(p: (int, Waypoint), cq: CommandQueue?, pq: ProgressQueue?) returns (st: Status)
      requires base.Valid()
      modifies base`sent, base`log, base`progCur, cq, pq
      ensures base.Valid()
      ensures base.Snap(cq, pq, st)
              == Exec(old(base.Snap(cq, pq, Running)), base.progStep, Units(PpMsnActsOf(base.render))(p))
    {
      ExecUnit(base.Snap(cq, pq, Running), base.progStep, PpMsnKeys(base.render, p.1, p.0));
      st := base.BkgndAdvance(cq, pq, false);
      if st == Running {
        EnterPpMsn(p.1, p.0);
      }
    }

    /** The MSN loop of a station after its first `i` MSNs: it enters the next one; a stop there ends the loop. */
    method EnterStationMsnNext(ns: seq<(int, Waypoint)>, i: nat, ghost r0: Run, cq: CommandQueue?, pq: ProgressQueue?)
      returns (st: Status)
      requires base.Valid() && i < |ns|
      requires base.Snap(cq, pq, Running) == Exec(r0, base.progStep, FlatMap(Units(PpMsnActsOf(base.render)), ns[..i]))
      modifies base`sent, base`log, base`progCur, cq, pq
      ensures base.Valid()
      ensures base.Snap(cq, pq, st)
              == Exec(r0, base.progStep, FlatMap(Units(PpMsnActsOf(base.render)), if st == Running then ns[..i + 1] else ns))
    {
      ghost var f := Units(PpMsnActsOf(base.render));
      st := EnterPpMsnUnit(ns[i], cq, pq);
      ExecFlatMapNext(r0, base.progStep, f, ns, i);
      if st != Running {
        ExecFlatMapStop(r0, base.progStep, f, ns, i);
      }
    }

    /** The MSN loop of one station: each MSN, numbered from 1, after an advance. */
    method EnterStationMsns(group: seq<Waypoint>, cq: CommandQueue?, pq: ProgressQueue?) returns (st: Status)
      requires base.Valid()
      modifies base`sent, base`log, base`progCur, cq, pq
      ensures base.Valid()
      ensures base.Snap(cq, pq, st)
              == Exec(old(base.Snap(cq, pq, Running)), base.progStep, FlatMap(Units(PpMsnActsOf(base.render)), Numbered(group)))
    {
      ghost var r0 := base.Snap(cq, pq, Running);
      var ns := Numbered(group);
      st := Running;
      var i := 0;
      while i < |ns|
        modifies base`sent, base`log, base`progCur, cq, pq
        invariant 0 <= i <= |ns| && base.Valid() && st == Running
        invariant base.Snap(cq, pq, Running) == Exec(r0, base.progStep, FlatMap(Units(PpMsnActsOf(base.render)), ns[..i]))
      {
        st := EnterStationMsnNext(ns, i, r0, cq, pq);
        if st != Running {
          return;
        }
        i := i + 1;
      }
      assert ns[..i] == ns;
    }

    /** One station of `enter_missions`: its MSNs numbered from 1, then DDI 13. */
    method EnterStation(group: seq<Waypoint>, cq: CommandQueue?, pq: ProgressQueue?) returns (st: Status)
      requires base.Valid()
      modifies base`sent, base`log, base`progCur, cq, pq
      ensures base.Valid()
      ensures base.Snap(cq, pq, st)
              == Exec(old(base.Snap(cq, pq, Running)), base.progStep, StationGroupSteps(base.render, group))
    {
      ExecStation(base.Snap(cq, pq, Running), base.progStep, base.render, group);
      st := EnterStationMsns(group, cq, pq);
      if st == Running {
        base.Perform(Lmdi("13"));
      }
    }

    /** The station loop after its first `i` stations: it enters the next one; a stop there ends the loop. */
    method EnterStationNext(order: seq<int>, stations: map<int, seq<Waypoint>>, i: nat, ghost r0: Run,
                            cq: CommandQueue?, pq: ProgressQueue?)
      returns (st: Status)
      requires base.Valid() && i < |order| && order[i] in stations
      requires base.Snap(cq, pq, Running) == Exec(r0, base.progStep, FlatMap(StationSteps(base.render, stations), order[..i]))
      modifies base`sent, base`log, base`progCur, cq, pq
      ensures base.Valid()
      ensures base.Snap(cq, pq, st)
              == Exec(r0, base.progStep, FlatMap(StationSteps(base.render, stations), if st == Running then order[..i + 1] else order))
    {
      ghost var f := StationSteps(base.render, stations);
      st := EnterStation(stations[order[i]], cq, pq);
      ExecFlatMapNext(r0, base.progStep, f, order, i);
      if st != Running {
        ExecFlatMapStop(r0, base.progStep, f, order, i);
      }
    }

    /** The station loop of `enter_missions`. */
    method EnterStations(order: seq<int>, stations: map<int, seq<Waypoint>>, cq: CommandQueue?, pq: ProgressQueue?)
      returns (st: Status)
      requires base.Valid()
      requires forall k :: 0 <= k < |order| ==> order[k] in stations
      modifies base`sent, base`log, base`progCur, cq, pq
      ensures base.Valid()
      ensures base.Snap(cq, pq, st)
              == Exec(old(base.Snap(cq, pq, Running)), base.progStep, FlatMap(StationSteps(base.render, stations), order))
    {
      ghost var r0 := base.Snap(cq, pq, Running);
      st := Running;
      var i := 0;
      while i < |order|
        modifies base`sent, base`log, base`progCur, cq, pq
        invariant 0 <= i <= |order| && base.Valid() && st == Running
        invariant base.Snap(cq, pq, Running) == Exec(r0, base.progStep, FlatMap(StationSteps(base.render, stations), order[..i]))
      {
        st := EnterStationNext(order, stations, i, r0, cq, pq);
        if st != Running {
          return;
        }
        i := i + 1;
      }
      assert order[..i] == order;
    }

    /** The station dictionary of `enter_missions` and its keys in insertion order. */
    method GroupStations(ms: seq<Waypoint>) returns (ok: bool, stations: map<int, seq<Waypoint>>, keys: seq<int>)
      ensures ok <==> forall k :: 0 <= k < |ms| ==> ms[k].IsMsn()
      ensures ok ==> stations == StationsDict(ms) && keys == StationKeys(ms)
    {
      stations, keys := map[], [];
      var k := 0;
      while k < |ms|
        invariant 0 <= k <= |ms| && forall j :: 0 <= j < k ==> ms[j].IsMsn()
        invariant stations == StationsDict(ms[..k]) && keys == StationKeys(ms[..k])
      {
        if !ms[k].IsMsn() {
          return false, stations, keys;
        }
        var s := ms[k].kind.station;
        assert ms[..k + 1][..k] == ms[..k];
        stations := stations[s := (if s in stations then stations[s] else []) + [ms[k]]];
        if s !in keys {
          keys := keys + [s];
        }
        k := k + 1;
      }
      assert ms[..k] == ms;
      ok := true;
    }

    /** `enter_missions`. */
    method EnterMissions(ms: seq<Waypoint>, cq: CommandQueue?, pq: ProgressQueue?) returns (st: Status)
      requires base.Valid()
      modifies base`sent, base`log, base`progCur, cq, pq
      ensures base.Valid()
      ensures base.Snap(cq, pq, st) == Exec(old(base.Snap(cq, pq, Running)), base.progStep, MissionsPlan(base.render, ms))
    {
      var ok, stations, keys := GroupStations(ms);
      if !ok {
        ExecMissionsFail(base.Snap(cq, pq, Running), base.progStep, base.render, ms);
        return Failed;
      }
      var order := SortStations(keys);
      if order.None? {
        ExecMissionsFail(base.Snap(cq, pq, Running), base.progStep, base.render, ms);
        return Failed;
      }
      st := EnterSortedMissions(ms, order.value, stations, cq, pq);
    }

    /** `enter_missions` once the stations are grouped and sorted: DDI 19 and 4, then each station. */
    method EnterSortedMissions(ms: seq<Waypoint>, order: seq<int>, stations: map<int, seq<Waypoint>>,
                               cq: CommandQueue?, pq: ProgressQueue?) returns (st: Status)
      requires base.Valid()
      requires forall k :: 0 <= k < |ms| ==> ms[k].IsMsn()
      requires SortStations(StationKeys(ms)) == Some(order) && stations == StationsDict(ms)
      modifies base`sent, base`log, base`progCur, cq, pq
      ensures base.Valid()
      ensures base.Snap(cq, pq, st) == Exec(old(base.Snap(cq, pq, Running)), base.progStep, MissionsPlan(base.render, ms))
    {
      SortedInDict(ms);
      ExecMissionsRun(base.Snap(cq, pq, Running), base.progStep, base.render, ms);
      base.PerformAll([Lmdi("19"), Lmdi("4")]);
      st := EnterStations(order, stations, cq, pq);
    }

    /** The `try` block of `enter_all`: missions, an advance, waypoints, the closing advance. */
    method EnterBody(ms: seq<Waypoint>, wps: seq<Waypoint>, items: seq<(int, seq<int>)>, cq: CommandQueue?,
                     pq: ProgressQueue?) returns (st: Status)
      requires base.Valid()
      modifies base`sent, base`log, base`progCur, cq, pq
      ensures base.Valid()
      ensures base.Snap(cq, pq, st)
              == Exec(old(base.Snap(cq, pq, Running)), base.progStep, HornetPlan(base.render, ms, wps, items) + [Finish])
    {
      ExecHornet(base.Snap(cq, pq, Running), base.progStep, base.render, ms, wps, items);
      st := EnterMissions(ms, cq, pq);
      if st != Running {
        ExecHalted(base.Snap(cq, pq, st), base.progStep, WaypointsPlan(base.render, wps, items));
        return;
      }
      st := base.BkgndAdvance(cq, pq, false);
      if st != Running {
        ExecHalted(base.Snap(cq, pq, st), base.progStep, WaypointsPlan(base.render, wps, items));
        return;
      }
      st := EnterWaypoints(wps, items, cq, pq);
      if st == Running {
        st := base.BkgndAdvance(cq, pq, true);
      }
    }

    /**
     * The part of `enter_all` before any press: the validated MSNs and waypoints, the
     * sequences and the number of parts the progress is split into (the steps plus two).
     */
    method Prepare(p: Profile) returns (missions: seq<Waypoint>, waypoints: seq<Waypoint>,
                                        items: seq<(int, seq<int>)>, parts: nat)
      requires base.limits == HornetLimits
      ensures missions == HornetMissions(p.waypoints) && waypoints == HornetWaypoints(p.waypoints)
      ensures items == SequenceItems(p.waypoints) && parts == HornetParts(p.waypoints)
    {
      var keptMissions, keptWaypoints;
      missions, keptMissions := base.ValidateWaypoints(MsnsAsList(p.waypoints));
      waypoints, keptWaypoints := base.ValidateWaypoints(WaypointsAsList(p.waypoints));
      items := SequenceItems(p.waypoints);
      var count := CountSteps(waypoints, items);
      parts := count + |missions| + 2;
    }

    /**
     * `enter_all`: validate the MSNs and the waypoints, set the progress step from the
     * count of steps plus two, then run the body. An exception ends the run, and is
     * swallowed.
     */
    method EnterAll(p: Profile, cq: CommandQueue?, pq: ProgressQueue?) returns (st: Status)
      requires base.Valid() && base.limits == HornetLimits
      modifies base`sent, base`log, base`progCur, base`progStep, cq, pq
      ensures base.Valid()
      ensures base.progStep == StepSize(HornetParts(p.waypoints))
      ensures base.Snap(cq, pq, st)
              == Exec(old(base.Snap(cq, pq, Running)).(cur := 0.0), base.progStep, HornetBody(base.render, p.waypoints) + [Finish])
    {
      var missions, waypoints, items, parts := Prepare(p);
      base.Start(parts);
      assert HornetBody(base.render, p.waypoints) == HornetPlan(base.render, missions, waypoints, items);
      st := EnterBody(missions, waypoints, items, cq, pq);
    }
  }
}
