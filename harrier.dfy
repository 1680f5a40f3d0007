/**
 * The AV-8B driver: UFC, ODU and left MPCD push buttons, the UFC number grammar and
 * waypoint entry.
 */
module Harrier {
  import opened Wrappers
  import opened Text
  import opened Profiles
  import opened Actuations
  import opened Runs
  import opened Drivers

  /** Any number of plain waypoints. */
  const HarrierLimits: Limits := map["WP" := None]

  // ---------------------------------------------------------------- buttons

  /** `ufc`: ENT and CLR have keys of their own, every other button is "UFC_B<num>". */
  function Ufc(num: string): Actuation {
    if num == "ENT" then Push("UFC_ENTER")
    else if num == "CLR" then Push("UFC_CLEAR")
    else Push("UFC_B" + num)
  }

  /** The key of a UFC button other than ENT and CLR: the digits and the hemisphere keys. */
  function UfcButton(num: string): Actuation {
    Push("UFC_B" + num)
  }

  /** The UFC enter key. */
  function UfcEnter(): Actuation { Push("UFC_ENTER") }

  /** The plans below name the UFC keys through `UfcButton` and `UfcEnter()`; `ufc` agrees. */
  lemma UfcKeys(num: string)
    ensures Ufc("ENT") == UfcEnter() && Ufc("CLR") == Push("UFC_CLEAR")
    ensures num != "ENT" && num != "CLR" ==> Ufc(num) == UfcButton(num)
  {
  }

  /** `odu`: option select button n of the ODU. */
  function Odu(num: string): Actuation {
    Push("ODU_OPT" + num)
  }

  /** `lmpcd`: push button n of the left MPCD. */
  function Lmpcd(pb: string): Actuation {
    Push("MPCD_L_" + pb)
  }

  /** Distinct UFC buttons never share a key. */
  lemma UfcInjective(a: string, b: string)
    requires a != b
    ensures Ufc(a) != Ufc(b)
  {
    var prefix := "UFC_B";
    if a != "ENT" && a != "CLR" && b != "ENT" && b != "CLR" {
      assert (prefix + a)[5..] == a && (prefix + b)[5..] == b;
    } else if a != "ENT" && a != "CLR" {
      assert (prefix + a)[4] == 'B';
    } else if b != "ENT" && b != "CLR" {
      assert (prefix + b)[4] == 'B';
    }
  }

  // ---------------------------------------------------------------- numbers

  /**
   * The presses of `enter_number`: the digits before the first '.', then ENT; with two
   * enters, the digits after the first '.' when that '.' is not the first character, and
   * ENT again whether or not there was one.
   */
  function NumberKeys(s: string, twoEnters: bool): seq<Actuation> {
    var d := Find(s, '.');
    Digits(UfcButton, if d == -1 then s else s[..d]) + [UfcEnter()]
    + (if twoEnters then (if d > 0 then Digits(UfcButton, s[d + 1..]) else []) + [UfcEnter()] else [])
  }

  /** The presses of `enter_number` once the first '.' is found at `i` (or `i` is the end). */
  function NumberKeysFrom(s: string, twoEnters: bool, i: nat): seq<Actuation>
    requires i <= |s|
  {
    Digits(UfcButton, s[..i]) + [UfcEnter()]
    + (if twoEnters then (if 0 < i < |s| then Digits(UfcButton, s[i + 1..]) else []) + [UfcEnter()] else [])
  }

  /** `NumberKeys` split at the first '.', or at the end when there is none. */
  lemma NumberKeysAt(s: string, twoEnters: bool, i: nat)
    requires i <= |s| && '.' !in s[..i] && (i == |s| || s[i] == '.')
    ensures NumberKeys(s, twoEnters) == NumberKeysFrom(s, twoEnters, i)
  {
    FindFirst(s, '.', i);
    assert i == |s| ==> s[..i] == s;
  }

  /**
   * A whole number is typed digit by digit and closed with ENT; with two enters a second
   * ENT follows at once, as there is no fractional part.
   */
  lemma NumberOfNat(n: nat)
    ensures NumberKeys(IntToString(n), false) == Each(UfcButton, NatToString(n)) + [UfcEnter()]
    ensures NumberKeys(IntToString(n), true) == Each(UfcButton, NatToString(n)) + [UfcEnter(), UfcEnter()]
  {
    NatToStringDigits(n);
    DigitsAll(UfcButton, NatToString(n));
    NumberKeysAt(NatToString(n), false, |NatToString(n)|);
    NumberKeysAt(NatToString(n), true, |NatToString(n)|);
  }

  /**
   * "<a>.<b>" with digits before the point: the digits of a and ENT, then, with two
   * enters, the digits of b and ENT.
   */
  lemma NumberOfDecimal(a: string, b: string)
    requires |a| > 0 && AllDigits(a)
    ensures NumberKeys(a + "." + b, false) == Each(UfcButton, a) + [UfcEnter()]
    ensures NumberKeys(a + "." + b, true) == Each(UfcButton, a) + [UfcEnter()] + Digits(UfcButton, b) + [UfcEnter()]
  {
    var s := a + "." + b;
    assert '.' !in a;
    assert s[..|a|] == a && s[|a|] == '.' && s[|a| + 1..] == b;
    NumberKeysAt(s, true, |a|);
    NumberKeysAt(s, false, |a|);
    DigitsAll(UfcButton, a);
  }

  // ---------------------------------------------------------------- coordinates

  /** Degrees, minutes and seconds, with the longitude's degrees on three digits. */
  const HarrierFormat := CoordFormat(false, 3, 2, false, 4)

  function NorthSouth(pos: LatLon): Actuation {
    UfcButton(if pos.latDegree > 0.0 then "2" else "8")
  }

  function EastWest(pos: LatLon): Actuation {
    UfcButton(if pos.lonDegree > 0.0 then "6" else "4")
  }

  /** The elevation entry: nothing for 0, else ODU 3 and the value with negatives raised to 0. */
  function ElevationKeys(elev: int): seq<Actuation> {
    if elev == 0 then [] else [Odu("3")] + NumberKeys(IntToString(if elev < 0 then 0 else elev), false)
  }

  /**
   * A zero elevation is not entered, a negative one is entered as 0, and a positive one
   * is typed digit by digit; ODU 3 selects the field and ENT closes it.
   */
  lemma ElevationClamp(elev: int)
    ensures elev == 0 ==> ElevationKeys(elev) == []
    ensures elev < 0 ==> ElevationKeys(elev) == [Odu("3"), UfcButton("0"), UfcEnter()]
    ensures elev > 0 ==> ElevationKeys(elev) == [Odu("3")] + Each(UfcButton, NatToString(elev)) + [UfcEnter()]
  {
    if elev < 0 {
      NumberOfNat(0);
      assert NatToString(0) == "0";
      assert Each(UfcButton, "0") == [UfcButton("0")];
    } else if elev > 0 {
      NumberOfNat(elev);
    }
  }

  /** The latitude: its hemisphere key, then its digits and ENT. */
  function LatKeys(pos: LatLon, lat: string): seq<Actuation> {
    [NorthSouth(pos)] + NumberKeys(lat, false)
  }

  /** The longitude: its hemisphere key, then its digits and ENT. */
  function LonKeys(pos: LatLon, lon: string): seq<Actuation> {
    [EastWest(pos)] + NumberKeys(lon, false)
  }

  /** `enter_coords` once the coordinates are rendered. */
  function CoordsText(pos: LatLon, lat: string, lon: string, elev: int): seq<Actuation> {
    LatKeys(pos, lat) + LonKeys(pos, lon) + ElevationKeys(elev)
  }

  /** `enter_coords`: hemisphere and latitude, hemisphere and longitude, then the elevation. */
  function CoordsKeys(render: Renderer, pos: LatLon, elev: int): seq<Actuation> {
    var text := render(pos, HarrierFormat);
    CoordsText(pos, text.0, text.1, elev)
  }

  // ---------------------------------------------------------------- waypoints

  /** One waypoint: UFC 7 twice and ENT, ODU 2, its coordinates, then ODU 1. */
  function WaypointActs(render: Renderer, wp: Waypoint): seq<Actuation> {
    [UfcButton("7"), UfcButton("7"), UfcEnter(), Odu("2")] + CoordsKeys(render, wp.position, wp.elevation) + [Odu("1")]
  }

  function WaypointActsOf(render: Renderer): Waypoint -> seq<Actuation> {
    (wp: Waypoint) => WaypointActs(render, wp)
  }

  /** `enter_waypoints`: MPCD 2, each waypoint after an advance, MPCD 2 again. */
  function WaypointsPlan(render: Renderer, wps: seq<Waypoint>): seq<Step> {
    Acts([Lmpcd("2")]) + FlatMap(Units(WaypointActsOf(render)), wps) + Acts([Lmpcd("2")])
  }

  /** The waypoints `enter_all` enters: the plain ones that pass validation, sorted by type. */
  function HarrierWaypoints(ws: seq<Waypoint>): seq<Waypoint> {
    SortByType(Survivors(HarrierLimits, WaypointsAsList(ws), 0))
  }

  /** The parts `enter_all` splits the progress into: one per waypoint, plus one. */
  function HarrierParts(ws: seq<Waypoint>): nat {
    |HarrierWaypoints(ws)| + 1
  }

  /**
   * The progress of a Harrier entry: the waypoint loop advances once per waypoint, so
   * with the step `enter_all` sets every percentage published before the end is below
   * 100, a cancelled run publishes no "DONE", and a finished one ends with 100 and "DONE".
   */
  lemma HarrierProgress(r: Run, render: Renderer, wps: seq<Waypoint>)
    requires r.status == Running && r.progress.Some? && r.cur == 0.0
    ensures Exec(r, StepSize(|wps| + 1), WaypointsPlan(render, wps)).progress.Some?
    ensures Exec(r, StepSize(|wps| + 1), WaypointsPlan(render, wps) + [Finish]).progress.Some?
    ensures PercentsBelow(Published(r, Exec(r, StepSize(|wps| + 1), WaypointsPlan(render, wps))), 100.0)
    ensures Exec(r, StepSize(|wps| + 1), WaypointsPlan(render, wps) + [Finish]).status == Cancelled ==>
      Done !in Published(r, Exec(r, StepSize(|wps| + 1), WaypointsPlan(render, wps) + [Finish]))
    ensures Exec(r, StepSize(|wps| + 1), WaypointsPlan(render, wps) + [Finish]).status == Running ==>
      var p := Exec(r, StepSize(|wps| + 1), WaypointsPlan(render, wps) + [Finish]).progress.value;
      |p| >= 2 && p[|p| - 2..] == [Percent(100.0), Done]
  {
    UnitsShape(WaypointActsOf(render), wps);
    FramedShape([Lmpcd("2")], FlatMap(Units(WaypointActsOf(render)), wps), [Lmpcd("2")]);
    EntryProgress(r, |wps| + 1, WaypointsPlan(render, wps));
  }

  // ---------------------------------------------------------------- the driver

  class HarrierDriver {
    const base: Driver

    constructor (render: Renderer)
      ensures fresh(base) && base.Valid() && base.sent == [] && base.log == []
      ensures base.limits == HarrierLimits && base.render == render
      ensures base.progCur == 0.0 && base.progStep == 0.0
    {
      base := new Driver(render, HarrierLimits);
    }

    /** The second part of `enter_number` with two enters: the digits of `rest`, then ENT. */
    method EnterSecondPart(rest: string)
      requires base.Valid()
      modifies base`sent, base`log
      ensures base.Valid() && base.log == old(base.log) + Digits(UfcButton, rest) + [UfcEnter()]
    {
      base.PressDigits(UfcButton, rest);
      base.Perform(UfcEnter());
    }

    /** The presses of `enter_number`, given as the index of the first '.' (or the end). */
    method EnterNumberAt(s: string, twoEnters: bool) returns (i: nat)
      requires base.Valid()
      modifies base`sent, base`log
      ensures i <= |s| && '.' !in s[..i] && (i == |s| || s[i] == '.')
      ensures base.Valid()
      ensures base.log == old(base.log) + NumberKeysFrom(s, twoEnters, i)
    {
      i := base.PressDigitsToPoint(UfcButton, s);
      base.Perform(UfcEnter());
      if twoEnters {
        ghost var l0 := base.log;
        var rest := if 0 < i < |s| then s[i + 1..] else "";
        EnterSecondPart(rest);
        AppendAssoc(l0, Digits(UfcButton, rest), [UfcEnter()]);
      }
    }

    /** `enter_number`. */
    method EnterNumber(s: string, twoEnters: bool)
      requires base.Valid()
      modifies base`sent, base`log
      ensures base.Valid() && base.log == old(base.log) + NumberKeys(s, twoEnters)
    {
      var i := EnterNumberAt(s, twoEnters);
      NumberKeysAt(s, twoEnters, i);
    }

    /** The elevation part of `enter_coords`. */
    method EnterElevation(elev: int)
      requires base.Valid()
      modifies base`sent, base`log
      ensures base.Valid() && base.log == old(base.log) + ElevationKeys(elev)
    {
      if elev != 0 {
        base.Perform(Odu("3"));
        var e := elev;
        if e < 0 {
          e := 0;
        }
        EnterNumber(IntToString(e), false);
        AppendAssoc(old(base.log), [Odu("3")], NumberKeys(IntToString(e), false));
      }
    }

    /** The latitude part of `enter_coords`. */
    method EnterLat(pos: LatLon, lat: string)
      requires base.Valid()
      modifies base`sent, base`log
      ensures base.Valid() && base.log == old(base.log) + LatKeys(pos, lat)
    {
      base.Perform(NorthSouth(pos));
      EnterNumber(lat, false);
      AppendAssoc(old(base.log), [NorthSouth(pos)], NumberKeys(lat, false));
    }

    /** The longitude part of `enter_coords`. */
    method EnterLon(pos: LatLon, lon: string)
      requires base.Valid()
      modifies base`sent, base`log
      ensures base.Valid() && base.log == old(base.log) + LonKeys(pos, lon)
    {
      base.Perform(EastWest(pos));
      EnterNumber(lon, false);
      AppendAssoc(old(base.log), [EastWest(pos)], NumberKeys(lon, false));
    }

    /** `enter_coords` once the coordinates are rendered. */
    method EnterCoordsText(pos: LatLon, lat: string, lon: string, elev: int)
      requires base.Valid()
      modifies base`sent, base`log
      ensures base.Valid() && base.log == old(base.log) + CoordsText(pos, lat, lon, elev)
    {
      EnterLat(pos, lat);
      EnterLon(pos, lon);
      EnterElevation(elev);
      AppendAssoc(old(base.log), LatKeys(pos, lat), LonKeys(pos, lon));
      AppendAssoc(old(base.log), LatKeys(pos, lat) + LonKeys(pos, lon), ElevationKeys(elev));
    }

    /** `enter_coords`. */
    method EnterCoords(pos: LatLon, elev: int)
      requires base.Valid()
      modifies base`sent, base`log
      ensures base.Valid() && base.log == old(base.log) + CoordsKeys(base.render, pos, elev)
    {
      var text := base.render(pos, HarrierFormat);
      EnterCoordsText(pos, text.0, text.1, elev);
    }

    /** The presses for one waypoint. */
    method EnterWaypointActs(wp: Waypoint)
      requires base.Valid()
      modifies base`sent, base`log
      ensures base.Valid() && base.log == old(base.log) + WaypointActs(base.render, wp)
    {
      var head := [UfcButton("7"), UfcButton("7"), UfcEnter(), Odu("2")];
      base.PerformAll(head);
      EnterCoords(wp.position, wp.elevation);
      base.Perform(Odu("1"));
      ghost var coords := CoordsKeys(base.render, wp.position, wp.elevation);
      AppendAssoc(old(base.log), head, coords);
      AppendAssoc(old(base.log), head + coords, [Odu("1")]);
    }

    /** One iteration of the waypoint loop: advance, then the waypoint's presses. */
    method EnterWaypointUnit(wp: Waypoint, cq: CommandQueue?, pq: ProgressQueue?) returns (st: Status)
      requires base.Valid()
      modifies base`sent, base`log, base`progCur, cq, pq
      ensures base.Valid()
      ensures base.Snap(cq, pq, st)
              == Exec(old(base.Snap(cq, pq, Running)), base.progStep, Units(WaypointActsOf(base.render))(wp))
    {
      ExecUnit(base.Snap(cq, pq, Running), base.progStep, WaypointActs(base.render, wp));
      st := base.BkgndAdvance(cq, pq, false);
      if st == Running {
        EnterWaypointActs(wp);
      }
    }

    /**
     * The waypoint loop once it has entered the first `i` waypoints: it enters the next
     * one, and when the run stops there, that is the run of the whole loop.
     */
    method EnterWaypointNext(wps: seq<Waypoint>, i: nat, ghost r0: Run, cq: CommandQueue?, pq: ProgressQueue?)
      returns (st: Status)
      requires base.Valid() && i < |wps|
      requires base.Snap(cq, pq, Running) == Exec(r0, base.progStep, FlatMap(Units(WaypointActsOf(base.render)), wps[..i]))
      modifies base`sent, base`log, base`progCur, cq, pq
      ensures base.Valid()
      ensures base.Snap(cq, pq, st)
              == Exec(r0, base.progStep, FlatMap(Units(WaypointActsOf(base.render)), if st == Running then wps[..i + 1] else wps))
    {
      ghost var f := Units(WaypointActsOf(base.render));
      st := EnterWaypointUnit(wps[i], cq, pq);
      ExecFlatMapNext(r0, base.progStep, f, wps, i);
      if st != Running {
        ExecFlatMapStop(r0, base.progStep, f, wps, i);
      }
    }

    /** The waypoint loop of `enter_waypoints`. */
    method EnterWaypointList(wps: seq<Waypoint>, cq: CommandQueue?, pq: ProgressQueue?) returns (st: Status)
      requires base.Valid()
      modifies base`sent, base`log, base`progCur, cq, pq
      ensures base.Valid()
      ensures base.Snap(cq, pq, st)
              == Exec(old(base.Snap(cq, pq, Running)), base.progStep, FlatMap(Units(WaypointActsOf(base.render)), wps))
    {
      ghost var r0 := base.Snap(cq, pq, Running);
      st := Running;
      var i := 0;
      while i < |wps|
        modifies base`sent, base`log, base`progCur, cq, pq
        invariant 0 <= i <= |wps| && base.Valid() && st == Running
        invariant base.Snap(cq, pq, Running) == Exec(r0, base.progStep, FlatMap(Units(WaypointActsOf(base.render)), wps[..i]))
      {
        st := EnterWaypointNext(wps, i, r0, cq, pq);
        if st != Running {
          return;
        }
        i := i + 1;
      }
      assert wps[..i] == wps;
    }

    /** `enter_waypoints`. */
    method EnterWaypoints(wps: seq<Waypoint>, cq: CommandQueue?, pq: ProgressQueue?) returns (st: Status)
      requires base.Valid()
      modifies base`sent, base`log, base`progCur, cq, pq
      ensures base.Valid()
      ensures base.Snap(cq, pq, st) == Exec(old(base.Snap(cq, pq, Running)), base.progStep, WaypointsPlan(base.render, wps))
    {
      ExecFramed(base.Snap(cq, pq, Running), base.progStep, [Lmpcd("2")],
                 FlatMap(Units(WaypointActsOf(base.render)), wps), [Lmpcd("2")]);
      base.Perform(Lmpcd("2"));
      st := EnterWaypointList(wps, cq, pq);
      if st == Running {
        base.Perform(Lmpcd("2"));
      }
    }

    /** The `try` block of `enter_all`: the waypoints, then the closing advance. */
    method EnterBody(wps: seq<Waypoint>, cq: CommandQueue?, pq: ProgressQueue?) returns (st: Status)
      requires base.Valid()
      modifies base`sent, base`log, base`progCur, cq, pq
      ensures base.Valid()
      ensures base.Snap(cq, pq, st)
              == Exec(old(base.Snap(cq, pq, Running)), base.progStep, WaypointsPlan(base.render, wps) + [Finish])
    {
      ExecSnoc(base.Snap(cq, pq, Running), base.progStep, WaypointsPlan(base.render, wps), Finish);
      st := EnterWaypoints(wps, cq, pq);
      if st == Running {
        st := base.BkgndAdvance(cq, pq, true);
      }
    }

    /** The part of `enter_all` before any press: the validated waypoints and the progress parts. */
    method Prepare(p: Profile) returns (waypoints: seq<Waypoint>, parts: nat)
      requires base.limits == HarrierLimits
      ensures waypoints == HarrierWaypoints(p.waypoints) && parts == HarrierParts(p.waypoints)
    {
      var kept;
      waypoints, kept := base.ValidateWaypoints(WaypointsAsList(p.waypoints));
      parts := |waypoints| + 1;
    }

    /**
     * `enter_all`: validate the plain waypoints, split the progress into one part per
     * waypoint plus one, then enter them and close the run. An exception ends the run,
     * and is swallowed.
     */
    method EnterAll(p: Profile, cq: CommandQueue?, pq: ProgressQueue?) returns (st: Status)
      requires base.Valid() && base.limits == HarrierLimits
      modifies base`sent, base`log, base`progCur, base`progStep, cq, pq
      ensures base.Valid()
      ensures base.progStep == StepSize(HarrierParts(p.waypoints))
      ensures base.Snap(cq, pq, st)
              == Exec(old(base.Snap(cq, pq, Running)).(cur := 0.0), base.progStep,
                      WaypointsPlan(base.render, HarrierWaypoints(p.waypoints)) + [Finish])
    {
      var waypoints, parts := Prepare(p);
      base.Start(parts);
      st := EnterBody(waypoints, cq, pq);
    }
  }
}
