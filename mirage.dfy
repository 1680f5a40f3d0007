/**
 * The M-2000C driver: the INS PCN keypad, whose number grammar is "digits then ENTER",
 * and waypoint entry into the numbered INS slots 1 to 9.
 */
module Mirage {
  import opened Wrappers
  import opened Text
  import opened Profiles
  import opened Actuations
  import opened Runs
  import opened Drivers

  /** Plain waypoints numbered up to 9: the INS has nine slots. */
  function MirageLimits(): Limits {
    map["WP" := Some(9)]
  }

  // ---------------------------------------------------------------- buttons

  /** `pcn`: ENTER and CLR are "INS_<num>_BTN", PREP is a switch, every other key "INS_BTN_<num>". */
  function Pcn(num: string): Actuation {
    if num == "ENTER" || num == "CLR" then Push("INS_" + num + "_BTN")
    else if num == "PREP" then Push("INS_PREP_SW")
    else Push("INS_BTN_" + num)
  }

  /** The key of a PCN button other than ENTER, CLR and PREP: the digits. */
  function PcnButton(num: string): Actuation {
    Push("INS_BTN_" + num)
  }

  /** The PCN ENTER key. */
  function PcnEnter(): Actuation {
    Push("INS_ENTER_BTN")
  }

  /** The PCN PREP switch. */
  function PcnPrep(): Actuation {
    Push("INS_PREP_SW")
  }

  /** The plans below name the PCN keys through `PcnButton`, `PcnEnter` and `PcnPrep`; `pcn` agrees. */
  lemma PcnKeys(num: string)
    ensures Pcn("ENTER") == PcnEnter() && Pcn("PREP") == PcnPrep() && Pcn("CLR") == Push("INS_CLR_BTN")
    ensures num != "ENTER" && num != "CLR" && num != "PREP" ==> Pcn(num) == PcnButton(num)
  {
  }

  /** A slot number is a plain button: `pcn(str(i))` presses "INS_BTN_<i>". */
  lemma PcnNumber(n: nat)
    ensures Pcn(IntToString(n)) == PcnButton(IntToString(n))
  {
    NatToStringDigits(n);
    var s := IntToString(n);
    assert IsDigit(s[0]);
    assert s != "ENTER" && s != "CLR" && s != "PREP" by {
      assert "ENTER"[0] == 'E' && "CLR"[0] == 'C' && "PREP"[0] == 'P';
    }
  }

  /** Distinct PCN keys never share a key name. */
  lemma PcnInjective(a: string, b: string)
    requires a != b
    ensures Pcn(a) != Pcn(b)
  {
    var ab, ae := "INS_BTN_" + a, "INS_" + a + "_BTN";
    var bb, be := "INS_BTN_" + b, "INS_" + b + "_BTN";
    var special := ["ENTER", "CLR", "PREP"];
    if a !in special && b !in special {
      assert ab[8..] == a && bb[8..] == b;
    } else if a !in special {
      assert ab[4] == 'B';
      assert b == "ENTER" ==> be[4] == 'E';
      assert b == "CLR" ==> be[4] == 'C';
    } else if b !in special {
      assert bb[4] == 'B';
      assert a == "ENTER" ==> ae[4] == 'E';
      assert a == "CLR" ==> ae[4] == 'C';
    } else {
      assert a == "ENTER" ==> ae[4] == 'E';
      assert a == "CLR" ==> ae[4] == 'C';
      assert b == "ENTER" ==> be[4] == 'E';
      assert b == "CLR" ==> be[4] == 'C';
    }
  }

  // ---------------------------------------------------------------- numbers

  /** `enter_number`: one press per digit, every other character skipped, then ENTER. */
  function NumberKeys(s: string): seq<Actuation> {
    Digits(PcnButton, s) + [PcnEnter()]
  }

  /**
   * What `enter_number` types is exactly the digits of its argument: every press but the
   * last is the button of a digit of `s`, in order, and the last is ENTER.
   */
  lemma NumberKeysDigits(s: string, a: string, b: string)
    requires s == a + b && AllDigits(a) && forall k :: 0 <= k < |b| ==> !IsDigit(b[k])
    ensures NumberKeys(s) == Each(PcnButton, a) + [PcnEnter()]
  {
    DigitsAppend(PcnButton, a, b);
    DigitsAll(PcnButton, a);
    NoDigits(b);
  }

  /** A string without digits makes no press. */
  lemma {:induction false} NoDigits(b: string)
    requires forall k :: 0 <= k < |b| ==> !IsDigit(b[k])
    ensures Digits(PcnButton, b) == []
    decreases |b|
  {
    if b != [] {
      NoDigits(b[..|b| - 1]);
    }
  }

  // ---------------------------------------------------------------- coordinates

  /** Decimal minutes, with the longitude's degrees on three digits. */
  function MirageFormat(): CoordFormat {
    CoordFormat(true, 3, 2, false, 4)
  }

  function NorthSouth(pos: LatLon): Actuation {
    PcnButton(if pos.latDegree > 0.0 then "2" else "8")
  }

  function EastWest(pos: LatLon): Actuation {
    PcnButton(if pos.lonDegree > 0.0 then "6" else "4")
  }

  /** The latitude: PCN 1, its hemisphere key, then the rendered text without its last two characters. */
  function LatKeys(pos: LatLon, lat: string): seq<Actuation> {
    [PcnButton("1"), NorthSouth(pos)] + NumberKeys(DropLast(lat, 2))
  }

  /** The longitude: PCN 3, its hemisphere key, then the rendered text without its last two characters. */
  function LonKeys(pos: LatLon, lon: string): seq<Actuation> {
    [PcnButton("3"), EastWest(pos)] + NumberKeys(DropLast(lon, 2))
  }

  /** `enter_coords` once the coordinates are rendered. */
  function CoordsText(pos: LatLon, lat: string, lon: string): seq<Actuation> {
    LatKeys(pos, lat) + LonKeys(pos, lon)
  }

  /** `enter_coords`. */
  function CoordsKeys(render: Renderer, pos: LatLon): seq<Actuation> {
    var text := render(pos, MirageFormat());
    CoordsText(pos, text.0, text.1)
  }

  /**
   * The last two characters of each rendered coordinate are never typed: for "<a><xy>"
   * and "<c><zw>" the PCN gets the digits of a and of c only.
   */
  lemma CoordsDropTail(pos: LatLon, a: string, x: string, c: string, z: string)
    requires |x| == 2 && |z| == 2
    ensures CoordsText(pos, a + x, c + z)
            == [PcnButton("1"), NorthSouth(pos)] + NumberKeys(a) + [PcnButton("3"), EastWest(pos)] + NumberKeys(c)
  {
    assert DropLast(a + x, 2) == a;
    assert DropLast(c + z, 2) == c;
    AppendAssoc([PcnButton("1"), NorthSouth(pos)] + NumberKeys(a), [PcnButton("3"), EastWest(pos)], NumberKeys(c));
  }

  // ---------------------------------------------------------------- waypoints

  /** The slot selection for waypoint `i`: PREP, 0, then the slot's number. */
  function SlotKeys(i: int): seq<Actuation> {
    [PcnPrep(), PcnButton("0"), PcnButton(IntToString(i))]
  }

  /** One numbered waypoint: select its slot, its coordinates, then ENTER. */
  function WaypointActs(render: Renderer, p: (int, Waypoint)): seq<Actuation> {
    SlotKeys(p.0) + CoordsKeys(render, p.1.position) + [PcnEnter()]
  }

  function WaypointActsOf(render: Renderer): ((int, Waypoint)) -> seq<Actuation> {
    (p: (int, Waypoint)) => WaypointActs(render, p)
  }

  /** `enter_waypoints`: each waypoint, numbered from 1, after an advance. */
  function WaypointsPlan(render: Renderer, wps: seq<Waypoint>): seq<Step> {
    FlatMap(Units(WaypointActsOf(render)), Numbered(wps))
  }

  /**
   * The k-th waypoint entered goes into INS slot k + 1: its unit is an advance, then
   * PREP, 0 and the key `pcn(str(k + 1))` presses, then its coordinates and ENTER.
   */
  lemma WaypointSlot(render: Renderer, wps: seq<Waypoint>, k: nat)
    requires k < |wps|
    ensures Units(WaypointActsOf(render))(Numbered(wps)[k])
            == [Advance] + Acts(SlotKeys(k + 1) + CoordsKeys(render, wps[k].position) + [PcnEnter()])
    ensures SlotKeys(k + 1) == [Pcn("PREP"), Pcn("0"), Pcn(IntToString(k + 1))]
  {
    PcnNumber(k + 1);
    PcnKeys("0");
  }

  /** The waypoints `enter_all` enters: the plain ones that pass validation, sorted by type. */
  function MirageWaypoints(ws: seq<Waypoint>): seq<Waypoint> {
    SortByType(Survivors(MirageLimits(), WaypointsAsList(ws), 0))
  }

  /** The parts `enter_all` splits the progress into: one per waypoint, plus one. */
  function MirageParts(ws: seq<Waypoint>): nat {
    |MirageWaypoints(ws)| + 1
  }

  /**
   * The progress of a Mirage entry: the waypoint loop advances once per waypoint, so
   * with the step `enter_all` sets every percentage published before the end is below
   * 100, a cancelled run publishes no "DONE", and a finished one ends with 100 and "DONE".
   */
  lemma MirageProgress(r: Run, render: Renderer, wps: seq<Waypoint>)
    requires r.status == Running && r.progress.Some? && r.cur == 0.0
    ensures Exec(r, StepSize(|wps| + 1), WaypointsPlan(render, wps)).progress.Some?
    ensures Exec(r, StepSize(|wps| + 1), WaypointsPlan(render, wps) + [Finish]).progress.Some?
    ensures PercentsBelow(Published(r, Exec(r, StepSize(|wps| + 1), WaypointsPlan(render, wps))), 100.0)
    ensures Exec(r, StepSize(|wps| + 1), WaypointsPlan(render, wps) + [Finish]).status == Cancelled ==>
      Done !in Published(r, Exec(r, StepSize(|wps| + 1), WaypointsPlan(render, wps) + [Finish]))
    ensures Exec(r, StepSize(|wps| + 1), WaypointsPlan(render, wps) + [Finish]).status == Running ==>
      var p := Exec(r, StepSize(|wps| + 1), WaypointsPlan(render, wps) + [Finish]).progress.value;
      |p| >= 2 && p[|p| - 2..] == [Percent(100.0), Done]
  {
    UnitsShape(WaypointActsOf(render), Numbered(wps));
    EntryProgress(r, |wps| + 1, WaypointsPlan(render, wps));
  }

  // ---------------------------------------------------------------- the driver

  class MirageDriver {
    const base: Driver

    constructor (render: Renderer)
      ensures fresh(base) && base.Valid() && base.sent == [] && base.log == []
      ensures base.limits == MirageLimits() && base.render == render
      ensures base.progCur == 0.0 && base.progStep == 0.0
    {
      base := new Driver(render, MirageLimits());
    }

    /** `enter_number`. */
    method EnterNumber(s: string)
      requires base.Valid()
      modifies base`sent, base`log
      ensures base.Valid() && base.log == old(base.log) + NumberKeys(s)
    {
      base.PressDigits(PcnButton, s);
      base.Perform(PcnEnter());
    }

    /** The latitude part of `enter_coords`. */
    method EnterLat(pos: LatLon, lat: string)
      requires base.Valid()
      modifies base`sent, base`log
      ensures base.Valid() && base.log == old(base.log) + LatKeys(pos, lat)
    {
      base.PerformAll([PcnButton("1"), NorthSouth(pos)]);
      EnterNumber(DropLast(lat, 2));
      AppendAssoc(old(base.log), [PcnButton("1"), NorthSouth(pos)], NumberKeys(DropLast(lat, 2)));
    }

    /** The longitude part of `enter_coords`. */
    method EnterLon(pos: LatLon, lon: string)
      requires base.Valid()
      modifies base`sent, base`log
      ensures base.Valid() && base.log == old(base.log) + LonKeys(pos, lon)
    {
      base.PerformAll([PcnButton("3"), EastWest(pos)]);
      EnterNumber(DropLast(lon, 2));
      AppendAssoc(old(base.log), [PcnButton("3"), EastWest(pos)], NumberKeys(DropLast(lon, 2)));
    }

    /** `enter_coords`. */
    method EnterCoords(pos: LatLon)
      requires base.Valid()
      modifies base`sent, base`log
      ensures base.Valid() && base.log == old(base.log) + CoordsKeys(base.render, pos)
    {
      var text := base.render(pos, MirageFormat());
      EnterLat(pos, text.0);
      EnterLon(pos, text.1);
      AppendAssoc(old(base.log), LatKeys(pos, text.0), LonKeys(pos, text.1));
    }

    /** The presses for one numbered waypoint. */
    method EnterWaypointActs(p: (int, Waypoint))
      requires base.Valid()
      modifies base`sent, base`log
      ensures base.Valid() && base.log == old(base.log) + WaypointActs(base.render, p)
    {
      base.PerformAll(SlotKeys(p.0));
      EnterCoords(p.1.position);
      base.Perform(PcnEnter());
      ghost var coords := CoordsKeys(base.render, p.1.position);
      AppendAssoc(old(base.log), SlotKeys(p.0), coords);
      AppendAssoc(old(base.log), SlotKeys(p.0) + coords, [PcnEnter()]);
    }

    /** One iteration of the waypoint loop: advance, then the waypoint's presses. */
    method EnterWaypointUnit(p: (int, Waypoint), cq: CommandQueue?, pq: ProgressQueue?) returns (st: Status)
      requires base.Valid()
      modifies base`sent, base`log, base`progCur, cq, pq
      ensures base.Valid()
      ensures base.Snap(cq, pq, st)
              == Exec(old(base.Snap(cq, pq, Running)), base.progStep, Units(WaypointActsOf(base.render))(p))
    {
      ExecUnit(base.Snap(cq, pq, Running), base.progStep, WaypointActs(base.render, p));
      st := base.BkgndAdvance(cq, pq, false);
      if st == Running {
        EnterWaypointActs(p);
      }
    }

    /**
     * The waypoint loop once it has entered the first `i` waypoints: it enters the next
     * one, and when the run stops there, that is the run of the whole loop.
     */
    method EnterWaypointNext(ns: seq<(int, Waypoint)>, i: nat, ghost r0: Run, cq: CommandQueue?, pq: ProgressQueue?)
      returns (st: Status)
      requires base.Valid() && i < |ns|
      requires base.Snap(cq, pq, Running) == Exec(r0, base.progStep, FlatMap(Units(WaypointActsOf(base.render)), ns[..i]))
      modifies base`sent, base`log, base`progCur, cq, pq
      ensures base.Valid()
      ensures base.Snap(cq, pq, st)
              == Exec(r0, base.progStep, FlatMap(Units(WaypointActsOf(base.render)), if st == Running then ns[..i + 1] else ns))
    {
      ghost var f := Units(WaypointActsOf(base.render));
      st := EnterWaypointUnit(ns[i], cq, pq);
      ExecFlatMapNext(r0, base.progStep, f, ns, i);
      if st != Running {
        ExecFlatMapStop(r0, base.progStep, f, ns, i);
      }
    }

    /** `enter_waypoints`: the waypoints numbered from 1, each after an advance. */
    method EnterWaypoints(wps: seq<Waypoint>, cq: CommandQueue?, pq: ProgressQueue?) returns (st: Status)
      requires base.Valid()
      modifies base`sent, base`log, base`progCur, cq, pq
      ensures base.Valid()
      ensures base.Snap(cq, pq, st) == Exec(old(base.Snap(cq, pq, Running)), base.progStep, WaypointsPlan(base.render, wps))
    {
      ghost var r0 := base.Snap(cq, pq, Running);
      var ns := Numbered(wps);
      st := Running;
      var i := 0;
      while i < |ns|
        modifies base`sent, base`log, base`progCur, cq, pq
        invariant 0 <= i <= |ns| && base.Valid() && st == Running
        invariant base.Snap(cq, pq, Running) == Exec(r0, base.progStep, FlatMap(Units(WaypointActsOf(base.render)), ns[..i]))
      {
        st := EnterWaypointNext(ns, i, r0, cq, pq);
        if st != Running {
          return;
        }
        i := i + 1;
      }
      assert ns[..i] == ns;
    }

    /** The `try` block of `enter_all`: the waypoints, then the closing advance. */
    method EnterBody(wps: seq<Waypoint>, cq: CommandQueue?, pq: ProgressQueue?) returns (st: Status)
      requires base.Valid()
      modifies base`sent, base`log, base`progCur, cq, pq
      ensures base.Valid()
      ensures base.Snap(cq, pq, st)
              == Exec(old(base.Snap(cq, pq, Running)), base.progStep, WaypointsPlan(base.render, wps) + [Finish])
    {
      ExecSnoc(base.Snap(cq, pq, Running), base.progStep, WaypointsPlan(base.render, wps), Finish);
      st := EnterWaypoints(wps, cq, pq);
      if st == Running {
        st := base.BkgndAdvance(cq, pq, true);
      }
    }

    /** The part of `enter_all` before any press: the validated waypoints and the progress parts. */
    method Prepare(p: Profile) returns (waypoints: seq<Waypoint>, parts: nat)
      requires base.limits == MirageLimits()
      ensures waypoints == MirageWaypoints(p.waypoints) && parts == MirageParts(p.waypoints)
    {
      var kept;
      waypoints, kept := base.ValidateWaypoints(WaypointsAsList(p.waypoints));
      parts := |waypoints| + 1;
    }

    /**
     * `enter_all`: validate the plain waypoints, split the progress into one part per
     * waypoint plus one, then enter them and close the run. An exception ends the run,
     * and is swallowed.
     */
    method EnterAll(p: Profile, cq: CommandQueue?, pq: ProgressQueue?) returns (st: Status)
      requires base.Valid() && base.limits == MirageLimits()
      modifies base`sent, base`log, base`progCur, base`progStep, cq, pq
      ensures base.Valid()
      ensures base.progStep == StepSize(MirageParts(p.waypoints))
      ensures base.Snap(cq, pq, st)
              == Exec(old(base.Snap(cq, pq, Running)).(cur := 0.0), base.progStep,
                      WaypointsPlan(base.render, MirageWaypoints(p.waypoints)) + [Finish])
    {
      var waypoints, parts := Prepare(p);
      base.Start(parts);
      st := EnterBody(waypoints, cq, pq);
    }
  }
}
