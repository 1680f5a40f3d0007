/**
 * The F-14 driver: the RIO computer address panel (CAP), whose keys are named after the
 * category a digit stands for, and waypoint entry into the CAP's fixed slots.
 */
module Tomcat {
  import opened Wrappers
  import opened Text
  import opened Profiles
  import opened Actuations
  import opened Runs
  import opened Drivers

  /** Three plain waypoints and one of each special point. */
  function TomcatLimits(): Limits {
    map["WP" := Some(3), "FP" := Some(1), "IP" := Some(1), "ST" := Some(1), "HA" := Some(1), "DP" := Some(1),
        "HB" := Some(1)]
  }

  // ---------------------------------------------------------------- buttons

  /** The category names of `cap_key_names`, whose keys are the one-character strings "0" to "8". */
  function CapPrefix(c: char): string {
    match c
    case '0' => "RIO_CAP_BRG_"
    case '1' => "RIO_CAP_LAT_"
    case '2' => "RIO_CAP_NBR_"
    case '3' => "RIO_CAP_SPD_"
    case '4' => "RIO_CAP_ALT_"
    case '5' => "RIO_CAP_RNG_"
    case '6' => "RIO_CAP_LONG_"
    case '8' => "RIO_CAP_HDG_"
    case _ => "RIO_CAP_"
  }

  /** `cap_key_names.get(num, "RIO_CAP_")`. */
  function CapName(num: string): string {
    if |num| == 1 then CapPrefix(num[0]) else "RIO_CAP_"
  }

  /** The press of a CAP key other than TAC: the key's name followed by `num`. */
  function CapPush(num: string): Actuation {
    Push(CapName(num) + num)
  }

  /** The raw press that selects the TAC category. */
  function CapTac(): Actuation {
    RawPush("RIO_CAP_CATRGORY 3")
  }

  /** `cap`: TAC is a raw press, every other key a press of its named key. */
  function Cap(num: string): Actuation {
    if num == "TAC" then CapTac() else CapPush(num)
  }

  /**
   * The key names: a digit with a category gets the category's name, 7 and 9 and every
   * key longer than one character get the plain prefix, and TAC is the raw category switch.
   */
  lemma CapKeys(num: string)
    ensures Cap("TAC") == RawPush("RIO_CAP_CATRGORY 3")
    ensures num != "TAC" ==> Cap(num) == CapPush(num)
    ensures |num| != 1 ==> CapPush(num) == Push("RIO_CAP_" + num)
    ensures CapPush("1") == Push("RIO_CAP_LAT_1") && CapPush("3") == Push("RIO_CAP_SPD_3")
    ensures CapPush("6") == Push("RIO_CAP_LONG_6")
    ensures CapPush("7") == Push("RIO_CAP_7") && CapPush("9") == Push("RIO_CAP_9")
  {
    assert "1"[0] == '1' && "3"[0] == '3' && "6"[0] == '6' && "7"[0] == '7' && "9"[0] == '9';
  }

  // ---------------------------------------------------------------- numbers

  /** `enter_number`: one press per digit, every other character skipped, then ENTER. */
  function NumberKeys(s: string): seq<Actuation> {
    Digits(CapPush, s) + [CapPush("ENTER")]
  }

  /** A whole number is typed digit by digit, each digit on its category key, and closed with ENTER. */
  lemma NumberOfNat(n: nat)
    ensures NumberKeys(IntToString(n)) == Each(CapPush, NatToString(n)) + [CapPush("ENTER")]
  {
    NatToStringDigits(n);
    DigitsAll(CapPush, NatToString(n));
  }

  // ---------------------------------------------------------------- coordinates

  /** Degrees, minutes and seconds with one digit of seconds, the longitude's degrees on two digits. */
  function TomcatFormat(): CoordFormat {
    CoordFormat(false, 2, 2, true, 4)
  }

  /** NE for a positive angle, SW otherwise. */
  function Hemisphere(degree: real): Actuation {
    CapPush(if degree > 0.0 then "NE" else "SW")
  }

  /** The latitude: CAP 1, its hemisphere key, then its digits and ENTER. */
  function LatKeys(pos: LatLon, lat: string): seq<Actuation> {
    [CapPush("1"), Hemisphere(pos.latDegree)] + NumberKeys(lat)
  }

  /** The longitude: CAP 6, its hemisphere key, then its digits and ENTER. */
  function LonKeys(pos: LatLon, lon: string): seq<Actuation> {
    [CapPush("6"), Hemisphere(pos.lonDegree)] + NumberKeys(lon)
  }

  /** The elevation entry: nothing for 0, else CAP 3 and the value with negatives raised to 0. */
  function ElevationKeys(elev: int): seq<Actuation> {
    if elev == 0 then [] else [CapPush("3")] + NumberKeys(IntToString(if elev < 0 then 0 else elev))
  }

  /**
   * A zero elevation is not entered, a negative one is entered as 0, and a positive one
   * is typed digit by digit; CAP 3 selects the field and ENTER closes it.
   */
  lemma ElevationClamp(elev: int)
    ensures elev == 0 ==> ElevationKeys(elev) == []
    ensures elev < 0 ==> ElevationKeys(elev) == [CapPush("3"), CapPush("0"), CapPush("ENTER")]
    ensures elev > 0 ==> ElevationKeys(elev) == [CapPush("3")] + Each(CapPush, NatToString(elev)) + [CapPush("ENTER")]
  {
    if elev < 0 {
      NumberOfNat(0);
      assert NatToString(0) == "0";
      assert Each(CapPush, "0") == [CapPush("0")];
    } else if elev > 0 {
      NumberOfNat(elev);
    }
  }

  /** `enter_coords` once the coordinates are rendered. */
  function CoordsText(pos: LatLon, lat: string, lon: string, elev: int): seq<Actuation> {
    LatKeys(pos, lat) + LonKeys(pos, lon) + ElevationKeys(elev)
  }

  /** `enter_coords`: latitude, longitude, then the elevation. */
  function CoordsKeys(render: Renderer, pos: LatLon, elev: int): seq<Actuation> {
    var text := render(pos, TomcatFormat());
    CoordsText(pos, text.0, text.1, elev)
  }

  // ---------------------------------------------------------------- waypoints

  /** `cap_wp_type_buttons`: the CAP button of each special point type. */
  function TypeButton(t: string): Option<int> {
    if t == "FP" then Some(4)
    else if t == "IP" then Some(5)
    else if t == "HB" then Some(6)
    else if t == "DP" then Some(7)
    else if t == "HA" then Some(8)
    else if t == "ST" then Some(9)
    else None
  }

  /**
   * The CAP button a waypoint goes to: a plain waypoint's own number, a special point's
   * type button, and none for any other type (the lookup raises).
   */
  function WaypointButton(wp: Waypoint): Option<string> {
    if wp.wpType == "WP" then Some(IntToString(wp.number))
    else
      var b := TypeButton(wp.wpType);
      if b.Some? then Some(IntToString(b.value)) else None
  }

  /** Every type the capacity table admits has a button, and no other type has one. */
  lemma ButtonsCoverLimits(wp: Waypoint)
    ensures WaypointButton(wp).Some? <==> wp.wpType in TomcatLimits()
  {
  }

  /** One waypoint: its button, its coordinates, then CLEAR. */
  function WaypointActs(render: Renderer, wp: Waypoint, button: string): seq<Actuation> {
    [CapPush("BTN_" + button)] + CoordsKeys(render, wp.position, wp.elevation) + [CapPush("CLEAR")]
  }

  /** The steps of one waypoint: the advance, then its presses, or the failed lookup of its button. */
  function WaypointSteps(render: Renderer): Waypoint -> seq<Step> {
    (wp: Waypoint) =>
      var b := WaypointButton(wp);
      if b.Some? then Unit(WaypointActs(render, wp, b.value)) else [Advance, Abort]
  }

  /** `enter_waypoints`: TAC, then each waypoint after an advance. */
  function WaypointsPlan(render: Renderer, wps: seq<Waypoint>): seq<Step> {
    Acts([CapTac()]) + FlatMap(WaypointSteps(render), wps)
  }

  /** A waypoint whose type has no button stops the run right after its advance. */
  lemma UnknownTypeFails(r: Run, step: real, render: Renderer, wp: Waypoint)
    requires r.status == Running && !CancelNext(r) && wp.wpType !in TomcatLimits()
    ensures Exec(r, step, WaypointSteps(render)(wp)).status == Failed
    ensures Exec(r, step, WaypointSteps(render)(wp)).log == r.log
  {
    ButtonsCoverLimits(wp);
    ExecSnoc(r, step, [Advance], Abort);
    ExecSnoc(r, step, [], Advance);
    assert [Advance] + [Abort] == [Advance, Abort];
    assert [] + [Advance] == [Advance];
  }

  /** The waypoints `enter_all` enters: the plain ones that pass validation, sorted by type. */
  function TomcatWaypoints(ws: seq<Waypoint>): seq<Waypoint> {
    SortByType(Survivors(TomcatLimits(), WaypointsAsList(ws), 0))
  }

  /** The parts `enter_all` splits the progress into: one per waypoint, plus one. */
  function TomcatParts(ws: seq<Waypoint>): nat {
    |TomcatWaypoints(ws)| + 1
  }

  /** Every waypoint's steps advance once and never finish, whether or not its button exists. */
  lemma WaypointStepsShape(render: Renderer, wps: seq<Waypoint>)
    ensures Advances(WaypointsPlan(render, wps)) == |wps| && NoFinish(WaypointsPlan(render, wps))
  {
    var f := WaypointSteps(render);
    forall k | 0 <= k < |wps| ensures Advances(f(wps[k])) == 1 && NoFinish(f(wps[k])) {
      var b := WaypointButton(wps[k]);
      if b.Some? {
        UnitShape(WaypointActs(render, wps[k], b.value));
      } else {
        assert [Advance, Abort][..1] == [Advance];
      }
    }
    AdvancesFlatMapOne(f, wps);
    NoFinishFlatMap(f, wps);
    AdvancesAppend(Acts([CapTac()]), FlatMap(f, wps));
    AdvancesActs([CapTac()]);
    NoFinishActs([CapTac()]);
  }

  /**
   * The progress of a Tomcat entry: the waypoint loop advances once per waypoint, so
   * with the step `enter_all` sets every percentage published before the end is below
   * 100, a cancelled run publishes no "DONE", and a finished one ends with 100 and "DONE".
   */
  lemma TomcatProgress(r: Run, render: Renderer, wps: seq<Waypoint>)
    requires r.status == Running && r.progress.Some? && r.cur == 0.0
    ensures Exec(r, StepSize(|wps| + 1), WaypointsPlan(render, wps)).progress.Some?
    ensures Exec(r, StepSize(|wps| + 1), WaypointsPlan(render, wps) + [Finish]).progress.Some?
    ensures PercentsBelow(Published(r, Exec(r, StepSize(|wps| + 1), WaypointsPlan(render, wps))), 100.0)
    ensures Exec(r, StepSize(|wps| + 1), WaypointsPlan(render, wps) + [Finish]).status == Cancelled ==>
      Done !in Published(r, Exec(r, StepSize(|wps| + 1), WaypointsPlan(render, wps) + [Finish]))
    ensures Exec(r, StepSize(|wps| + 1), WaypointsPlan(render, wps) + [Finish]).status == Running ==>
      var p := Exec(r, StepSize(|wps| + 1), WaypointsPlan(render, wps) + [Finish]).progress.value;
      |p| >= 2 && p[|p| - 2..] == [Percent(100.0), Done]
  {
    WaypointStepsShape(render, wps);
    EntryProgress(r, |wps| + 1, WaypointsPlan(render, wps));
  }

  // ---------------------------------------------------------------- the driver

  class TomcatDriver {
    const base: Driver

    constructor (render: Renderer)
      ensures fresh(base) && base.Valid() && base.sent == [] && base.log == []
      ensures base.limits == TomcatLimits() && base.render == render
      ensures base.progCur == 0.0 && base.progStep == 0.0
    {
      base := new Driver(render, TomcatLimits());
    }

    /** `enter_number`. */
    method EnterNumber(s: string)
      requires base.Valid()
      modifies base`sent, base`log
      ensures base.Valid() && base.log == old(base.log) + NumberKeys(s)
    {
      base.PressDigits(CapPush, s);
      base.Perform(CapPush("ENTER"));
    }

    /** The latitude part of `enter_coords`. */
    method EnterLat(pos: LatLon, lat: string)
      requires base.Valid()
      modifies base`sent, base`log
      ensures base.Valid() && base.log == old(base.log) + LatKeys(pos, lat)
    {
      base.PerformAll([CapPush("1"), Hemisphere(pos.latDegree)]);
      EnterNumber(lat);
      AppendAssoc(old(base.log), [CapPush("1"), Hemisphere(pos.latDegree)], NumberKeys(lat));
    }

    /** The longitude part of `enter_coords`. */
    method EnterLon(pos: LatLon, lon: string)
      requires base.Valid()
      modifies base`sent, base`log
      ensures base.Valid() && base.log == old(base.log) + LonKeys(pos, lon)
    {
      base.PerformAll([CapPush("6"), Hemisphere(pos.lonDegree)]);
      EnterNumber(lon);
      AppendAssoc(old(base.log), [CapPush("6"), Hemisphere(pos.lonDegree)], NumberKeys(lon));
    }

    /** The elevation part of `enter_coords`. */
    method EnterElevation(elev: int)
      requires base.Valid()
      modifies base`sent, base`log
      ensures base.Valid() && base.log == old(base.log) + ElevationKeys(elev)
    {
      if elev != 0 {
        base.Perform(CapPush("3"));
        var e := elev;
        if e < 0 {
          e := 0;
        }
        EnterNumber(IntToString(e));
        AppendAssoc(old(base.log), [CapPush("3")], NumberKeys(IntToString(e)));
      }
    }

    /** `enter_coords` once the coordinates are rendered. */
    method EnterCoordsText(pos: LatLon, lat: string, lon: string, elev: int)
      requires base.Valid()
      modifies base`sent, base`log
      ensures base.Valid() && base.log == old(base.log) + CoordsText(pos, lat, lon, elev)
    {
      EnterLat(pos, lat);
      EnterLon(pos, lon);
      EnterElevation(elev);
      AppendAssoc(old(base.log), LatKeys(pos, lat), LonKeys(pos, lon));
      AppendAssoc(old(base.log), LatKeys(pos, lat) + LonKeys(pos, lon), ElevationKeys(elev));
    }

    /** `enter_coords`. */
    method EnterCoords(pos: LatLon, elev: int)
      requires base.Valid()
      modifies base`sent, base`log
      ensures base.Valid() && base.log == old(base.log) + CoordsKeys(base.render, pos, elev)
    {
      var text := base.render(pos, TomcatFormat());
      EnterCoordsText(pos, text.0, text.1, elev);
    }

    /** The presses for one waypoint, once its button is known. */
    method EnterWaypointActs(wp: Waypoint, button: string)
      requires base.Valid()
      modifies base`sent, base`log
      ensures base.Valid() && base.log == old(base.log) + WaypointActs(base.render, wp, button)
    {
      base.Perform(CapPush("BTN_" + button));
      EnterCoords(wp.position, wp.elevation);
      base.Perform(CapPush("CLEAR"));
      ghost var coords := CoordsKeys(base.render, wp.position, wp.elevation);
      AppendAssoc(old(base.log), [CapPush("BTN_" + button)], coords);
      AppendAssoc(old(base.log), [CapPush("BTN_" + button)] + coords, [CapPush("CLEAR")]);
    }

    /**
     * One iteration of the waypoint loop: advance, then the waypoint's presses; a type
     * without a button fails the run.
     */
    method EnterWaypointUnit(wp: Waypoint, cq: CommandQueue?, pq: ProgressQueue?) returns (st: Status)
      requires base.Valid()
      modifies base`sent, base`log, base`progCur, cq, pq
      ensures base.Valid()
      ensures base.Snap(cq, pq, st) == Exec(old(base.Snap(cq, pq, Running)), base.progStep, WaypointSteps(base.render)(wp))
    {
      ghost var r0 := base.Snap(cq, pq, Running);
      var b := WaypointButton(wp);
      if b.Some? {
        ExecUnit(r0, base.progStep, WaypointActs(base.render, wp, b.value));
      } else {
        ExecSnoc(r0, base.progStep, [Advance], Abort);
        ExecSnoc(r0, base.progStep, [], Advance);
        assert [Advance] + [Abort] == [Advance, Abort];
        assert [] + [Advance] == [Advance];
      }
      st := base.BkgndAdvance(cq, pq, false);
      if st == Running {
        if b.Some? {
          EnterWaypointActs(wp, b.value);
        } else {
          st := Failed;
        }
      }
    }

    /**
     * The waypoint loop once it has entered the first `i` waypoints: it enters the next
     * one, and when the run stops there, that is the run of the whole loop.
     */
    method EnterWaypointNext(wps: seq<Waypoint>, i: nat, ghost r0: Run, cq: CommandQueue?, pq: ProgressQueue?)
      returns (st: Status)
      requires base.Valid() && i < |wps|
      requires base.Snap(cq, pq, Running) == Exec(r0, base.progStep, FlatMap(WaypointSteps(base.render), wps[..i]))
      modifies base`sent, base`log, base`progCur, cq, pq
      ensures base.Valid()
      ensures base.Snap(cq, pq, st)
              == Exec(r0, base.progStep, FlatMap(WaypointSteps(base.render), if st == Running then wps[..i + 1] else wps))
    {
      ghost var f := WaypointSteps(base.render);
      st := EnterWaypointUnit(wps[i], cq, pq);
      ExecFlatMapNext(r0, base.progStep, f, wps, i);
      if st != Running {
        ExecFlatMapStop(r0, base.progStep, f, wps, i);
      }
    }

    /** The waypoint loop of `enter_waypoints`. */
    method EnterWaypointList(wps: seq<Waypoint>, cq: CommandQueue?, pq: ProgressQueue?) returns (st: Status)
      requires base.Valid()
      modifies base`sent, base`log, base`progCur, cq, pq
      ensures base.Valid()
      ensures base.Snap(cq, pq, st)
              == Exec(old(base.Snap(cq, pq, Running)), base.progStep, FlatMap(WaypointSteps(base.render), wps))
    {
      ghost var r0 := base.Snap(cq, pq, Running);
      st := Running;
      var i := 0;
      while i < |wps|
        modifies base`sent, base`log, base`progCur, cq, pq
        invariant 0 <= i <= |wps| && base.Valid() && st == Running
        invariant base.Snap(cq, pq, Running) == Exec(r0, base.progStep, FlatMap(WaypointSteps(base.render), wps[..i]))
      {
        st := EnterWaypointNext(wps, i, r0, cq, pq);
        if st != Running {
          return;
        }
        i := i + 1;
      }
      assert wps[..i] == wps;
    }

    /** `enter_waypoints`: TAC, then the waypoint loop. */
    method EnterWaypoints(wps: seq<Waypoint>, cq: CommandQueue?, pq: ProgressQueue?) returns (st: Status)
      requires base.Valid()
      modifies base`sent, base`log, base`progCur, cq, pq
      ensures base.Valid()
      ensures base.Snap(cq, pq, st) == Exec(old(base.Snap(cq, pq, Running)), base.progStep, WaypointsPlan(base.render, wps))
    {
      ghost var r0 := base.Snap(cq, pq, Running);
      ExecAppend(r0, base.progStep, Acts([CapTac()]), FlatMap(WaypointSteps(base.render), wps));
      ExecActs(r0, base.progStep, [CapTac()]);
      base.Perform(CapTac());
      st := EnterWaypointList(wps, cq, pq);
    }

    /** The `try` block of `enter_all`: the waypoints, then the closing advance. */
    method EnterBody(wps: seq<Waypoint>, cq: CommandQueue?, pq: ProgressQueue?) returns (st: Status)
      requires base.Valid()
      modifies base`sent, base`log, base`progCur, cq, pq
      ensures base.Valid()
      ensures base.Snap(cq, pq, st)
              == Exec(old(base.Snap(cq, pq, Running)), base.progStep, WaypointsPlan(base.render, wps) + [Finish])
    {
      ExecSnoc(base.Snap(cq, pq, Running), base.progStep, WaypointsPlan(base.render, wps), Finish);
      st := EnterWaypoints(wps, cq, pq);
      if st == Running {
        st := base.BkgndAdvance(cq, pq, true);
      }
    }

    /** The part of `enter_all` before any press: the validated waypoints and the progress parts. */
    method Prepare(p: Profile) returns (waypoints: seq<Waypoint>, parts: nat)
      requires base.limits == TomcatLimits()
      ensures waypoints == TomcatWaypoints(p.waypoints) && parts == TomcatParts(p.waypoints)
    {
      var kept;
      waypoints, kept := base.ValidateWaypoints(WaypointsAsList(p.waypoints));
      parts := |waypoints| + 1;
    }

    /**
     * `enter_all`: validate the plain waypoints, split the progress into one part per
     * waypoint plus one, then enter them and close the run. An exception ends the run,
     * and is swallowed.
     */
    method EnterAll(p: Profile, cq: CommandQueue?, pq: ProgressQueue?) returns (st: Status)
      requires base.Valid() && base.limits == TomcatLimits()
      modifies base`sent, base`log, base`progCur, base`progStep, cq, pq
      ensures base.Valid()
      ensures base.progStep == StepSize(TomcatParts(p.waypoints))
      ensures base.Snap(cq, pq, st)
              == Exec(old(base.Snap(cq, pq, Running)).(cur := 0.0), base.progStep,
                      WaypointsPlan(base.render, TomcatWaypoints(p.waypoints)) + [Finish])
    {
      var waypoints, parts := Prepare(p);
      base.Start(parts);
      st := EnterBody(waypoints, cq, pq);
    }
  }
}
