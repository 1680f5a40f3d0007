/**
 * The F-16C driver object: the ICP keys and rockers, steerpoint entry, and the avionics
 * setup pages (TACAN, MFD formats, CMDS programs, bullseye, JHMCS), each method proved to
 * perform the plan `Viper` gives for it.
 */
module ViperDriving {
  import opened Wrappers
  import opened Text
  import opened Profiles
  import opened Actuations
  import opened Runs
  import opened Drivers
  import opened Viper

  class ViperDriver {
    const base: Driver
    /** The `hotkey_dgft_cycle` preference: the keyboard hotkey that cycles the dogfight modes. */
    const dgftCycle: string

    constructor (render: Renderer, dgftCycle: string)
      ensures fresh(base) && base.Valid() && base.sent == [] && base.log == []
      ensures base.limits == ViperLimits() && base.render == render && this.dgftCycle == dgftCycle
      ensures base.progCur == 0.0 && base.progStep == 0.0
    {
      base := new Driver(render, ViperLimits());
      this.dgftCycle := dgftCycle;
    }

    // ------------------------------------------------------------ rockers and numbers

    /** `icp_ded`. */
    method IcpDed(num: string)
      requires base.Valid()
      modifies base`sent, base`log
      ensures base.Valid() && base.log == old(base.log) + Ded(num)
    {
      if num == "DN" {
        base.Perform(Switch("ICP_DED_SW 0\n"));
      } else if num == "UP" {
        base.Perform(Switch("ICP_DED_SW 2\n"));
      }
      base.Perform(DedCentre());
    }

    /** `icp_data`. */
    method IcpData(num: string)
      requires base.Valid()
      modifies base`sent, base`log
      ensures base.Valid() && base.log == old(base.log) + Data(num)
    {
      ghost var pos := Data(num)[..|Data(num)| - 2];
      if num == "DN" {
        base.Perform(Switch("ICP_DATA_UP_DN_SW 0\n"));
      } else if num == "UP" {
        base.Perform(Switch("ICP_DATA_UP_DN_SW 2\n"));
      } else if num == "RTN" {
        base.Perform(Switch("ICP_DATA_RTN_SEQ_SW 0\n"));
      } else if num == "SEQ" {
        base.Perform(Switch("ICP_DATA_RTN_SEQ_SW 2\n"));
      }
      assert base.log == old(base.log) + pos;
      base.PerformAll([UpDnCentre(), RtnSeqCentre()]);
      AppendAssoc(old(base.log), pos, [UpDnCentre(), RtnSeqCentre()]);
    }

    /** `enter_number`. */
    method EnterNumber(s: string)
      requires base.Valid()
      modifies base`sent, base`log
      ensures base.Valid() && base.log == old(base.log) + NumberKeys(s)
    {
      base.PressDigits(IcpButton, s);
    }

    /** `enter_elevation`. */
    method EnterElevation(elev: int)
      requires base.Valid()
      modifies base`sent, base`log
      ensures base.Valid() && base.log == old(base.log) + ElevationKeys(elev)
    {
      var e := elev;
      if e < 0 {
        if e < -1500 {
          e := -1500;
        }
        e := -e;
        base.Perform(IcpButton("0"));
      }
      ghost var sign := if elev < 0 then [IcpButton("0")] else [];
      EnterNumber(IntToString(e));
      base.Perform(IcpEntr());
      AppendAssoc(old(base.log), sign, NumberKeys(IntToString(e)));
      AppendAssoc(old(base.log), sign + NumberKeys(IntToString(e)), [IcpEntr()]);
    }

    /** The elevation part of one steerpoint. */
    method EnterElevationPart(elev: int)
      requires base.Valid()
      modifies base`sent, base`log
      ensures base.Valid() && base.log == old(base.log) + ElevationPart(elev)
    {
      if elev != 0 {
        EnterElevation(elev);
      }
    }

    /** DATA down, as the plans name it. */
    method DataDown()
      requires base.Valid()
      modifies base`sent, base`log
      ensures base.Valid() && base.log == old(base.log) + DataDn()
    {
      IcpData("DN");
      RockerKeys();
    }

    /** DATA return, as the plans name it. */
    method DataReturn()
      requires base.Valid()
      modifies base`sent, base`log
      ensures base.Valid() && base.log == old(base.log) + DataRtn()
    {
      IcpData("RTN");
      RockerKeys();
    }

    /** DATA sequence, as the plans name it. */
    method DataSequence()
      requires base.Valid()
      modifies base`sent, base`log
      ensures base.Valid() && base.log == old(base.log) + DataSeq()
    {
      IcpData("SEQ");
      RockerKeys();
    }

    /** One coordinate field: its hemisphere key, its digits, ENTR, then DATA down. */
    method EnterField(hemisphere: Actuation, s: string)
      requires base.Valid()
      modifies base`sent, base`log
      ensures base.Valid() && base.log == old(base.log) + ([hemisphere] + NumberKeys(s) + [IcpEntr()] + DataDn())
    {
      base.Perform(hemisphere);
      EnterNumber(s);
      base.Perform(IcpEntr());
      DataDown();
      AppendAssoc(old(base.log), [hemisphere], NumberKeys(s));
      AppendAssoc(old(base.log), [hemisphere] + NumberKeys(s), [IcpEntr()]);
      AppendAssoc(old(base.log), [hemisphere] + NumberKeys(s) + [IcpEntr()], DataDn());
    }

    /** `enter_coords` once the coordinates are rendered. */
    method EnterCoordsText(pos: LatLon, lat: string, lon: string)
      requires base.Valid()
      modifies base`sent, base`log
      ensures base.Valid() && base.log == old(base.log) + CoordsText(pos, lat, lon)
    {
      EnterField(NorthSouth(pos), lat);
      EnterField(EastWest(pos), lon);
      AppendAssoc(old(base.log), LatKeys(pos, lat), LonKeys(pos, lon));
    }

    /** `enter_coords`. */
    method EnterCoords(pos: LatLon)
      requires base.Valid()
      modifies base`sent, base`log
      ensures base.Valid() && base.log == old(base.log) + CoordsKeys(base.render, pos)
    {
      var text := base.render(pos, ViperFormat());
      EnterCoordsText(pos, text.0, text.1);
    }

    // ------------------------------------------------------------ steerpoints

    /** DATA down twice, to MAN/AUTO and then to LAT. */
    method EnterStptDown()
      requires base.Valid()
      modifies base`sent, base`log
      ensures base.Valid() && base.log == old(base.log) + StptDown()
    {
      DataDown();
      DataDown();
      AppendAssoc(old(base.log), DataDn(), DataDn());
    }

    /** DATA up four times to the STPT number, then DED up to the next one. */
    method EnterStptNext()
      requires base.Valid()
      modifies base`sent, base`log
      ensures base.Valid() && base.log == old(base.log) + StptNext()
    {
      RockerKeys();
      var ups := DataUp() + DataUp() + DataUp() + DataUp();
      base.PerformAll(ups);
      IcpDed("UP");
      AppendAssoc(old(base.log), ups, DedUp());
    }

    /** The presses for one steerpoint after its advance. */
    method EnterWaypointActs(wp: Waypoint)
      requires base.Valid()
      modifies base`sent, base`log
      ensures base.Valid() && base.log == old(base.log) + WaypointActs(base.render, wp)
    {
      EnterCoords(wp.position);
      EnterElevationPart(wp.elevation);
      EnterStptNext();
      ghost var a, b := CoordsKeys(base.render, wp.position), ElevationPart(wp.elevation);
      AppendAssoc(old(base.log), a, b);
      AppendAssoc(old(base.log), a + b, StptNext());
    }

    /** One iteration of the steerpoint loop: down to LAT, advance, then the steerpoint. */
    method EnterWaypointUnit(wp: Waypoint, cq: CommandQueue?, pq: ProgressQueue?) returns (st: Status)
      requires base.Valid()
      modifies base`sent, base`log, base`progCur, cq, pq
      ensures base.Valid()
      ensures base.Snap(cq, pq, st) == Exec(old(base.Snap(cq, pq, Running)), base.progStep, WaypointSteps(base.render)(wp))
    {
      ghost var r0 := base.Snap(cq, pq, Running);
      ExecThen(r0, base.progStep, StptDown(), Unit(WaypointActs(base.render, wp)));
      EnterStptDown();
      ExecUnit(base.Snap(cq, pq, Running), base.progStep, WaypointActs(base.render, wp));
      st := base.BkgndAdvance(cq, pq, false);
      if st == Running {
        EnterWaypointActs(wp);
      }
    }

    /**
     * The steerpoint loop once it has entered the first `i` steerpoints: it enters the
     * next one, and when the run stops there, that is the run of the whole loop.
     */
    method EnterWaypointNext(wps: seq<Waypoint>, i: nat, ghost r0: Run, cq: CommandQueue?, pq: ProgressQueue?)
      returns (st: Status)
      requires base.Valid() && i < |wps|
      requires base.Snap(cq, pq, Running) == Exec(r0, base.progStep, FlatMap(WaypointSteps(base.render), wps[..i]))
      modifies base`sent, base`log, base`progCur, cq, pq
      ensures base.Valid()
      ensures base.Snap(cq, pq, st)
              == Exec(r0, base.progStep, FlatMap(WaypointSteps(base.render), if st == Running then wps[..i + 1] else wps))
    {
      ghost var f := WaypointSteps(base.render);
      st := EnterWaypointUnit(wps[i], cq, pq);
      ExecFlatMapNext(r0, base.progStep, f, wps, i);
      if st != Running {
        ExecFlatMapStop(r0, base.progStep, f, wps, i);
      }
    }

    /**
     * The steerpoint loop of `enter_waypoints`, which also counts the DED decrements that
     * bring the STPT number back to the first steerpoint marked as current.
     */
    method EnterWaypointList(wps: seq<Waypoint>, cq: CommandQueue?, pq: ProgressQueue?) returns (st: Status, backups: nat)
      requires base.Valid()
      modifies base`sent, base`log, base`progCur, cq, pq
      ensures base.Valid()
      ensures base.Snap(cq, pq, st)
              == Exec(old(base.Snap(cq, pq, Running)), base.progStep, FlatMap(WaypointSteps(base.render), wps))
      ensures st == Running ==> backups == Backups(wps)
    {
      ghost var r0 := base.Snap(cq, pq, Running);
      st := Running;
      var isCurSeen := false;
      backups := 1;
      var i := 0;
      while i < |wps|
        modifies base`sent, base`log, base`progCur, cq, pq
        invariant 0 <= i <= |wps| && base.Valid() && st == Running
        invariant base.Snap(cq, pq, Running) == Exec(r0, base.progStep, FlatMap(WaypointSteps(base.render), wps[..i]))
        invariant isCurSeen == (FirstCurrent(wps[..i]) != -1) && backups == Backups(wps[..i])
      {
        st := EnterWaypointNext(wps, i, r0, cq, pq);
        if st != Running {
          return;
        }
        FirstCurrentNext(wps, i);
        if isCurSeen {
          backups := backups + 1;
        } else if wps[i].isSetCur {
          isCurSeen := true;
        }
        i := i + 1;
      }
      assert wps[..i] == wps;
    }

    /** The back-up: `n` DED decrements. */
    method EnterBacktrack(n: nat)
      requires base.Valid()
      modifies base`sent, base`log
      ensures base.Valid() && base.log == old(base.log) + Backtrack(n)
    {
      for k := 0 to n
        invariant base.Valid() && base.log == old(base.log) + Backtrack(k)
      {
        IcpDed("DN");
        RockerKeys();
      }
    }

    /** RTN, then key 4 (STPT). */
    method EnterStptOpen()
      requires base.Valid()
      modifies base`sent, base`log
      ensures base.Valid() && base.log == old(base.log) + StptOpen()
    {
      DataReturn();
      base.Perform(IcpButton("4"));
    }

    /** The back-up by `n`, then RTN. */
    method EnterStptClose(n: nat)
      requires base.Valid()
      modifies base`sent, base`log
      ensures base.Valid() && base.log == old(base.log) + (Backtrack(n) + DataRtn())
    {
      EnterBacktrack(n);
      DataReturn();
      AppendAssoc(old(base.log), Backtrack(n), DataRtn());
    }

    /** `enter_waypoints`. */
    method EnterWaypoints(wps: seq<Waypoint>, cq: CommandQueue?, pq: ProgressQueue?) returns (st: Status)
      requires base.Valid()
      modifies base`sent, base`log, base`progCur, cq, pq
      ensures base.Valid()
      ensures base.Snap(cq, pq, st) == Exec(old(base.Snap(cq, pq, Running)), base.progStep, WaypointsPlan(base.render, wps))
    {
      st := Running;
      if |wps| > 0 {
        ExecFramed(base.Snap(cq, pq, Running), base.progStep, StptOpen(),
                   FlatMap(WaypointSteps(base.render), wps), StptClose(wps));
        EnterStptOpen();
        var backups;
        st, backups := EnterWaypointList(wps, cq, pq);
        if st == Running {
          EnterStptClose(backups);
        }
      }
    }

    // ------------------------------------------------------------ TACAN

    /** RTN, then key 1 (T-ILS). */
    method EnterTacanOpen()
      requires base.Valid()
      modifies base`sent, base`log
      ensures base.Valid() && base.log == old(base.log) + TacanOpen()
    {
      DataReturn();
      base.Perform(IcpButton("1"));
    }

    /** SEQ twice, RTN, EHSI MODE twice, RTN. */
    method EnterTacanClose()
      requires base.Valid()
      modifies base`sent, base`log
      ensures base.Valid() && base.log == old(base.log) + TacanClose()
    {
      RockerKeys();
      base.PerformAll(DataSeq() + DataSeq() + DataRtn() + [Ehsi("MODE"), Ehsi("MODE")]);
      DataReturn();
    }

    /** The channel field and the keys after it. */
    method EnterChannel(chan: int)
      requires base.Valid()
      modifies base`sent, base`log
      ensures base.Valid() && base.log == old(base.log) + ChannelKeys(chan)
    {
      EnterNumber(IntToString(chan));
      base.Perform(IcpEntr());
      EnterTacanClose();
      AppendAssoc(old(base.log), NumberKeys(IntToString(chan)), [IcpEntr()]);
      AppendAssoc(old(base.log), NumberKeys(IntToString(chan)) + [IcpEntr()], TacanClose());
    }

    /** The band field: key 0 and ENTR for band Y, then DATA down to the channel field. */
    method EnterBand(xy: string)
      requires base.Valid()
      modifies base`sent, base`log
      ensures base.Valid() && base.log == old(base.log) + (BandKeys(xy) + DataDn())
    {
      if xy == "Y" {
        base.Perform(IcpButton("0"));
        base.Perform(IcpEntr());
      }
      DataDown();
      AppendAssoc(old(base.log), BandKeys(xy), DataDn());
    }

    /** The channel field of `enter_tacan`. */
    method EnterChannelField(fields: seq<string>, ghost cq: CommandQueue?, ghost pq: ProgressQueue?) returns (st: Status)
      requires base.Valid()
      modifies base`sent, base`log
      ensures base.Valid()
      ensures base.Snap(cq, pq, st) == Exec(old(base.Snap(cq, pq, Running)), base.progStep, ChannelSteps(fields))
    {
      if |fields| < 3 {
        ExecRaise(base.Snap(cq, pq, Running), base.progStep);
        return Failed;
      }
      var chan := ParseInt(fields[0]);
      if chan.None? {
        ExecRaise(base.Snap(cq, pq, Running), base.progStep);
        return Failed;
      }
      var c := chan.value;
      if fields[2] == "W" {
        c := c + 63;
      }
      assert c == TacanChannel(chan.value, fields[2]);
      ExecActs(base.Snap(cq, pq, Running), base.progStep, ChannelKeys(c));
      EnterChannel(c);
      st := Running;
    }

    /** `enter_tacan` after its advance. */
    method EnterTacanFields(spec: string, ghost cq: CommandQueue?, ghost pq: ProgressQueue?) returns (st: Status)
      requires base.Valid()
      modifies base`sent, base`log
      ensures base.Valid()
      ensures base.Snap(cq, pq, st) == Exec(old(base.Snap(cq, pq, Running)), base.progStep, TacanSteps(spec))
    {
      ghost var r0 := base.Snap(cq, pq, Running);
      var fields := Split(spec, ',');
      EnterTacanOpen();
      if |fields| < 2 {
        assert TacanSteps(spec) == Acts(TacanOpen()) + [Abort];
        ExecAbort(r0, base.progStep, TacanOpen());
        return Failed;
      }
      assert TacanSteps(spec) == Acts(TacanOpen()) + (Acts(BandKeys(fields[1]) + DataDn()) + ChannelSteps(fields));
      ExecThen(r0, base.progStep, TacanOpen(), Acts(BandKeys(fields[1]) + DataDn()) + ChannelSteps(fields));
      ExecThen(base.Snap(cq, pq, Running), base.progStep, BandKeys(fields[1]) + DataDn(), ChannelSteps(fields));
      EnterBand(fields[1]);
      st := EnterChannelField(fields, cq, pq);
    }

    /** `enter_tacan`. */
    method EnterTacan(spec: Option<string>, cq: CommandQueue?, pq: ProgressQueue?) returns (st: Status)
      requires base.Valid()
      modifies base`sent, base`log, base`progCur, cq, pq
      ensures base.Valid()
      ensures base.Snap(cq, pq, st) == Exec(old(base.Snap(cq, pq, Running)), base.progStep, TacanPlan(spec))
    {
      if spec.None? {
        return Running;
      }
      ExecStepThen(base.Snap(cq, pq, Running), base.progStep, Advance, TacanSteps(spec.value));
      st := base.BkgndAdvance(cq, pq, false);
      if st != Running {
        ExecHalted(base.Snap(cq, pq, st), base.progStep, TacanSteps(spec.value));
        return;
      }
      st := EnterTacanFields(spec.value, cq, pq);
    }

    // ------------------------------------------------------------ MFD formats

    /** `enter_mfd_format`. */
    method EnterMfdFormat(lr: string, osb: string, format: string, dflt: string)
      requires base.Valid()
      modifies base`sent, base`log
      ensures base.Valid() && base.log == old(base.log) + FormatKeys(lr, osb, format, dflt)
    {
      base.Perform(Mfd(lr, osb));
      if format != dflt {
        base.Perform(Mfd(lr, osb));
        base.Perform(Mfd(lr, format));
      }
    }

    /** The right MFD's OSBs 12, 13 and 14. */
    method EnterRightFormats(f: seq<string>, d: seq<string>)
      requires base.Valid() && |f| >= 6 && |d| >= 6
      modifies base`sent, base`log
      ensures base.Valid() && base.log == old(base.log) + RightKeys(f, d)
    {
      EnterMfdFormat("R", "12", f[5], d[5]);
      EnterMfdFormat("R", "13", f[4], d[4]);
      EnterMfdFormat("R", "14", f[3], d[3]);
      ghost var a, b := FormatKeys("R", "12", f[5], d[5]), FormatKeys("R", "13", f[4], d[4]);
      AppendAssoc(old(base.log), a, b);
      AppendAssoc(old(base.log), a + b, FormatKeys("R", "14", f[3], d[3]));
    }

    /** The left MFD's OSBs 12, 13 and 14. */
    method EnterLeftFormats(f: seq<string>, d: seq<string>)
      requires base.Valid() && |f| >= 6 && |d| >= 6
      modifies base`sent, base`log
      ensures base.Valid() && base.log == old(base.log) + LeftKeys(f, d)
    {
      EnterMfdFormat("L", "12", f[2], d[2]);
      EnterMfdFormat("L", "13", f[1], d[1]);
      EnterMfdFormat("L", "14", f[0], d[0]);
      ghost var a, b := FormatKeys("L", "12", f[2], d[2]), FormatKeys("L", "13", f[1], d[1]);
      AppendAssoc(old(base.log), a, b);
      AppendAssoc(old(base.log), a + b, FormatKeys("L", "14", f[0], d[0]));
    }

    /** Into the master mode. */
    method EnterModeIn(mode: string)
      requires base.Valid()
      modifies base`sent, base`log
      ensures base.Valid() && base.log == old(base.log) + ModeEntry(mode, dgftCycle)
    {
      if mode == "DGFT_D" {
        base.Perform(Hotkey(dgftCycle));
      } else if mode == "DGFT_M" {
        base.Perform(Hotkey(dgftCycle));
        base.Perform(Hotkey(dgftCycle));
      } else if mode != "NAV" {
        base.Perform(Icp(mode));
      }
    }

    /** Out of the master mode. */
    method EnterModeOut(mode: string)
      requires base.Valid()
      modifies base`sent, base`log
      ensures base.Valid() && base.log == old(base.log) + ModeExit(mode, dgftCycle)
    {
      if mode == "DGFT_D" {
        base.Perform(Hotkey(dgftCycle));
        base.Perform(Hotkey(dgftCycle));
      } else if mode == "DGFT_M" {
        base.Perform(Hotkey(dgftCycle));
      } else if mode != "NAV" {
        base.Perform(Icp(mode));
      }
    }

    /** The six slots, right MFD first, then out of the mode. */
    method EnterModeFormats(mode: string, f: seq<string>, d: seq<string>)
      requires base.Valid() && |f| >= 6 && |d| >= 6
      modifies base`sent, base`log
      ensures base.Valid() && base.log == old(base.log) + (RightKeys(f, d) + LeftKeys(f, d) + ModeExit(mode, dgftCycle))
    {
      EnterRightFormats(f, d);
      EnterLeftFormats(f, d);
      EnterModeOut(mode);
      AppendAssoc(old(base.log), RightKeys(f, d), LeftKeys(f, d));
      AppendAssoc(old(base.log), RightKeys(f, d) + LeftKeys(f, d), ModeExit(mode, dgftCycle));
    }

    /**
     * The NAV reselection loop over every slot of the row; the slot index runs off the
     * six-entry OSB table, and raises, for a row of more than six slots.
     */
    method EnterNavFormats(f: seq<string>) returns (ok: bool)
      requires base.Valid() && |f| >= 6
      modifies base`sent, base`log
      ensures base.Valid() && base.log == old(base.log) + NavKeys(f, 6)
      ensures ok <==> |f| == 6
    {
      var osbIndex := OsbIndex();
      var i := 0;
      while i < |f|
        invariant 0 <= i <= 6 && i <= |f| && base.Valid()
        invariant base.log == old(base.log) + NavKeys(f, i)
      {
        if i >= |osbIndex| {
          return false;
        }
        if osbIndex[i] != "14" && (f[i] == "20" || f[i] == "7") {
          if i > 3 {
            base.Perform(Mfd("R", osbIndex[i]));
          } else {
            base.Perform(Mfd("L", osbIndex[i]));
          }
        }
        AppendAssoc(old(base.log), NavKeys(f, i), NavPress(f, i));
        i := i + 1;
      }
      return true;
    }

    /** What NAV adds at the end of `enter_mfd`. */
    method EnterNavSteps(mode: string, f: seq<string>, ghost cq: CommandQueue?, ghost pq: ProgressQueue?) returns (st: Status)
      requires base.Valid() && |f| >= 6
      modifies base`sent, base`log
      ensures base.Valid()
      ensures base.Snap(cq, pq, st) == Exec(old(base.Snap(cq, pq, Running)), base.progStep, NavSteps(mode, f))
    {
      ghost var r0 := base.Snap(cq, pq, Running);
      st := Running;
      if mode == "NAV" {
        var ok := EnterNavFormats(f);
        if ok {
          assert NavSteps(mode, f) == Acts(NavKeys(f, 6));
          ExecActs(r0, base.progStep, NavKeys(f, 6));
        } else {
          assert NavSteps(mode, f) == Acts(NavKeys(f, 6)) + [Abort];
          ExecAbort(r0, base.progStep, NavKeys(f, 6));
          st := Failed;
        }
      } else {
        assert NavSteps(mode, f) == [];
        assert Exec(r0, base.progStep, []) == r0;
      }
    }

    /** `enter_mfd` after its advance. */
    method EnterMfdSteps(mode: string, spec: string, dflt: Option<string>, ghost cq: CommandQueue?, ghost pq: ProgressQueue?)
      returns (st: Status)
      requires base.Valid()
      modifies base`sent, base`log
      ensures base.Valid()
      ensures base.Snap(cq, pq, st) == Exec(old(base.Snap(cq, pq, Running)), base.progStep, MfdSteps(mode, dgftCycle, spec, dflt))
    {
      ghost var r0 := base.Snap(cq, pq, Running);
      ghost var entry := ModeEntry(mode, dgftCycle);
      EnterModeIn(mode);
      var f := Split(spec, ',');
      if dflt.None? {
        ExecAbort(r0, base.progStep, entry);
        return Failed;
      }
      var d := Split(dflt.value, ',');
      if |f| < 6 || |d| < 6 {
        ExecAbort(r0, base.progStep, entry);
        return Failed;
      }
      st := EnterMfdRows(mode, f, d, r0, cq, pq);
    }

    /** `enter_mfd` once the mode is entered and both rows have six slots: the slots, the exit, NAV's reselection. */
    method EnterMfdRows(mode: string, f: seq<string>, d: seq<string>, ghost r0: Run, ghost cq: CommandQueue?, ghost pq: ProgressQueue?)
      returns (st: Status)
      requires base.Valid() && |f| >= 6 && |d| >= 6
      requires base.Snap(cq, pq, Running) == r0.(log := r0.log + ModeEntry(mode, dgftCycle))
      modifies base`sent, base`log
      ensures base.Valid()
      ensures base.Snap(cq, pq, st)
              == Exec(r0, base.progStep, Acts(ModeEntry(mode, dgftCycle) + RightKeys(f, d) + LeftKeys(f, d) + ModeExit(mode, dgftCycle)) + NavSteps(mode, f))
    {
      ghost var entry := ModeEntry(mode, dgftCycle);
      ghost var body := RightKeys(f, d) + LeftKeys(f, d) + ModeExit(mode, dgftCycle);
      EnterModeFormats(mode, f, d);
      AppendAssoc(r0.log, entry, body);
      assert entry + body == entry + RightKeys(f, d) + LeftKeys(f, d) + ModeExit(mode, dgftCycle);
      ExecThen(r0, base.progStep, entry + body, NavSteps(mode, f));
      st := EnterNavSteps(mode, f, cq, pq);
    }

    /** `enter_mfd`. */
    method EnterMfd(mode: string, spec: Option<string>, dflt: Option<string>, cq: CommandQueue?, pq: ProgressQueue?)
      returns (st: Status)
      requires base.Valid()
      modifies base`sent, base`log, base`progCur, cq, pq
      ensures base.Valid()
      ensures base.Snap(cq, pq, st) == Exec(old(base.Snap(cq, pq, Running)), base.progStep, MfdPlan(mode, dgftCycle, spec, dflt))
    {
      if spec.None? {
        return Running;
      }
      ExecStepThen(base.Snap(cq, pq, Running), base.progStep, Advance, MfdSteps(mode, dgftCycle, spec.value, dflt));
      st := base.BkgndAdvance(cq, pq, false);
      if st != Running {
        ExecHalted(base.Snap(cq, pq, st), base.progStep, MfdSteps(mode, dgftCycle, spec.value, dflt));
        return;
      }
      st := EnterMfdSteps(mode, spec.value, dflt, cq, pq);
    }

    /**
     * The MFD loop of `enter_all` once it has set up the first `i` modes: it sets up the
     * next one, and when the run stops there, that is the run of the whole loop.
     */
    method EnterMfdNext(d: map<AvKey, AvValue>, ms: seq<(string, SetupMode, SetupMode)>, i: nat, ghost r0: Run,
                        cq: CommandQueue?, pq: ProgressQueue?)
      returns (st: Status)
      requires base.Valid() && i < |ms|
      requires base.Snap(cq, pq, Running) == Exec(r0, base.progStep, FlatMap(MfdStepsOf(dgftCycle, d), ms[..i]))
      modifies base`sent, base`log, base`progCur, cq, pq
      ensures base.Valid()
      ensures base.Snap(cq, pq, st)
              == Exec(r0, base.progStep, FlatMap(MfdStepsOf(dgftCycle, d), if st == Running then ms[..i + 1] else ms))
    {
      var m := ms[i];
      st := EnterMfd(m.0, StrEntry(d, MfdSetup(m.1)), MfdDefault(d, m.2), cq, pq);
      ExecFlatMapNext(r0, base.progStep, MfdStepsOf(dgftCycle, d), ms, i);
      if st != Running {
        ExecFlatMapStop(r0, base.progStep, MfdStepsOf(dgftCycle, d), ms, i);
      }
    }

    /** The MFD loop of `enter_all`: every master mode, with its setup and its default. */
    method EnterMfds(d: map<AvKey, AvValue>, cq: CommandQueue?, pq: ProgressQueue?) returns (st: Status)
      requires base.Valid()
      modifies base`sent, base`log, base`progCur, cq, pq
      ensures base.Valid()
      ensures base.Snap(cq, pq, st) == Exec(old(base.Snap(cq, pq, Running)), base.progStep, FlatMap(MfdStepsOf(dgftCycle, d), MfdModes()))
    {
      ghost var r0 := base.Snap(cq, pq, Running);
      var ms := MfdModes();
      st := Running;
      var i := 0;
      while i < |ms|
        modifies base`sent, base`log, base`progCur, cq, pq
        invariant 0 <= i <= |ms| && base.Valid() && st == Running
        invariant base.Snap(cq, pq, Running) == Exec(r0, base.progStep, FlatMap(MfdStepsOf(dgftCycle, d), ms[..i]))
      {
        st := EnterMfdNext(d, ms, i, r0, cq, pq);
        if st != Running {
          return;
        }
        i := i + 1;
      }
      assert ms[..i] == ms;
    }

    // ------------------------------------------------------------ CMDS programs

    /** `enter_cmds_prog_elem`. */
    method EnterCmdsProgElem(field: string, dflt: string)
      requires base.Valid()
      modifies base`sent, base`log
      ensures base.Valid() && base.log == old(base.log) + ElemKeys(field, dflt)
    {
      ghost var typed := if field != dflt then NumberKeys(field) + [IcpEntr()] else [];
      if field != dflt {
        EnterNumber(field);
        base.Perform(IcpEntr());
        AppendAssoc(old(base.log), NumberKeys(field), [IcpEntr()]);
      }
      DataDown();
      AppendAssoc(old(base.log), typed, DataDn());
    }

    /**
     * Field `k` of a program once the first `k` are done; reading a field the program or
     * its default lacks raises, and then that is the run of all four.
     */
    method EnterElemAt(f: seq<string>, d: seq<string>, k: nat, ghost r0: Run, ghost cq: CommandQueue?, ghost pq: ProgressQueue?)
      returns (st: Status)
      requires base.Valid() && k < 4
      requires base.Snap(cq, pq, Running) == Exec(r0, base.progStep, Fields(f, d, k))
      modifies base`sent, base`log
      ensures base.Valid()
      ensures base.Snap(cq, pq, st) == Exec(r0, base.progStep, Fields(f, d, if st == Running then k + 1 else 4))
    {
      ghost var r1 := base.Snap(cq, pq, Running);
      ExecAppend(r0, base.progStep, Fields(f, d, k), ElemStep(f, d, k));
      if k < |f| && k < |d| {
        ExecActs(r1, base.progStep, ElemKeys(f[k], d[k]));
        EnterCmdsProgElem(f[k], d[k]);
        st := Running;
      } else {
        ExecRaise(r1, base.progStep);
        st := Failed;
        if k < 3 {
          FieldsStop(r0, base.progStep, f, d, k, 4);
        }
      }
    }

    /** The four fields of a program (BQ, BI, SQ, SI) against those of its default. */
    method EnterProgFields(prog: string, dflt: string, ghost cq: CommandQueue?, ghost pq: ProgressQueue?) returns (st: Status)
      requires base.Valid()
      modifies base`sent, base`log
      ensures base.Valid()
      ensures base.Snap(cq, pq, st) == Exec(old(base.Snap(cq, pq, Running)), base.progStep, ProgFields(prog, dflt))
    {
      var fields := Split(prog, ',');
      var dflts := Split(dflt, ',');
      ghost var r0 := base.Snap(cq, pq, Running);
      st := EnterElemAt(fields, dflts, 0, r0, cq, pq);
      if st != Running {
        return;
      }
      st := EnterElemAt(fields, dflts, 1, r0, cq, pq);
      if st != Running {
        return;
      }
      st := EnterElemAt(fields, dflts, 2, r0, cq, pq);
      if st != Running {
        return;
      }
      st := EnterElemAt(fields, dflts, 3, r0, cq, pq);
    }

    /** A changed program: the advance, then its four fields. */
    method EnterChangedProg(prog: string, dflt: string, cq: CommandQueue?, pq: ProgressQueue?) returns (st: Status)
      requires base.Valid()
      modifies base`sent, base`log, base`progCur, cq, pq
      ensures base.Valid()
      ensures base.Snap(cq, pq, st) == Exec(old(base.Snap(cq, pq, Running)), base.progStep, [Advance] + ProgFields(prog, dflt))
    {
      ExecStepThen(base.Snap(cq, pq, Running), base.progStep, Advance, ProgFields(prog, dflt));
      st := base.BkgndAdvance(cq, pq, false);
      if st != Running {
        ExecHalted(base.Snap(cq, pq, st), base.progStep, ProgFields(prog, dflt));
        return;
      }
      st := EnterProgFields(prog, dflt, cq, pq);
    }

    /** `enter_cmds_prog`, with the program and its default as one optional pair. */
    method EnterCmdsProg(p: Option<(string, string)>, cq: CommandQueue?, pq: ProgressQueue?) returns (st: Status)
      requires base.Valid()
      modifies base`sent, base`log, base`progCur, cq, pq
      ensures base.Valid()
      ensures base.Snap(cq, pq, st) == Exec(old(base.Snap(cq, pq, Running)), base.progStep, ProgPlan(p))
    {
      ghost var r0 := base.Snap(cq, pq, Running);
      ghost var head := if p.Some? && p.value.0 != p.value.1 then [Advance] + ProgFields(p.value.0, p.value.1) else [];
      ExecAppend(r0, base.progStep, head, Acts(DedUp()));
      st := Running;
      if p.Some? && p.value.0 != p.value.1 {
        st := EnterChangedProg(p.value.0, p.value.1, cq, pq);
        if st != Running {
          ExecHalted(base.Snap(cq, pq, st), base.progStep, Acts(DedUp()));
          return;
        }
      }
      ExecActs(base.Snap(cq, pq, Running), base.progStep, DedUp());
      IcpDed("UP");
      RockerKeys();
    }

    /** One program of the chaff (`t` = 0) or flare (`t` = 1) half of `enter_cmds`. */
    method EnterProgram(t: nat, p: (Option<string>, Option<string>), cq: CommandQueue?, pq: ProgressQueue?) returns (st: Status)
      requires base.Valid()
      modifies base`sent, base`log, base`progCur, cq, pq
      ensures base.Valid()
      ensures base.Snap(cq, pq, st) == Exec(old(base.Snap(cq, pq, Running)), base.progStep, ProgramSteps(t)(p))
    {
      if p.0.None? {
        st := EnterCmdsProg(None, cq, pq);
        return;
      }
      var progs := Split(p.0.value, ';');
      if t >= |progs| || p.1.None? {
        ExecRaise(base.Snap(cq, pq, Running), base.progStep);
        return Failed;
      }
      var dflts := Split(p.1.value, ';');
      if t >= |dflts| {
        ExecRaise(base.Snap(cq, pq, Running), base.progStep);
        return Failed;
      }
      st := EnterCmdsProg(Some((progs[t], dflts[t])), cq, pq);
    }

    /**
     * The program loop of one half once it has entered the first `i` programs: it enters
     * the next one, and when the run stops there, that is the run of the whole loop.
     */
    method EnterProgramNext(t: nat, progs: seq<(Option<string>, Option<string>)>, i: nat, ghost r0: Run,
                            cq: CommandQueue?, pq: ProgressQueue?)
      returns (st: Status)
      requires base.Valid() && i < |progs|
      requires base.Snap(cq, pq, Running) == Exec(r0, base.progStep, FlatMap(ProgramSteps(t), progs[..i]))
      modifies base`sent, base`log, base`progCur, cq, pq
      ensures base.Valid()
      ensures base.Snap(cq, pq, st)
              == Exec(r0, base.progStep, FlatMap(ProgramSteps(t), if st == Running then progs[..i + 1] else progs))
    {
      st := EnterProgram(t, progs[i], cq, pq);
      ExecFlatMapNext(r0, base.progStep, ProgramSteps(t), progs, i);
      if st != Running {
        ExecFlatMapStop(r0, base.progStep, ProgramSteps(t), progs, i);
      }
    }

    /** The program loop of one half. */
    method EnterPrograms(t: nat, progs: seq<(Option<string>, Option<string>)>, cq: CommandQueue?, pq: ProgressQueue?)
      returns (st: Status)
      requires base.Valid()
      modifies base`sent, base`log, base`progCur, cq, pq
      ensures base.Valid()
      ensures base.Snap(cq, pq, st) == Exec(old(base.Snap(cq, pq, Running)), base.progStep, FlatMap(ProgramSteps(t), progs))
    {
      ghost var r0 := base.Snap(cq, pq, Running);
      st := Running;
      var i := 0;
      while i < |progs|
        modifies base`sent, base`log, base`progCur, cq, pq
        invariant 0 <= i <= |progs| && base.Valid() && st == Running
        invariant base.Snap(cq, pq, Running) == Exec(r0, base.progStep, FlatMap(ProgramSteps(t), progs[..i]))
      {
        st := EnterProgramNext(t, progs, i, r0, cq, pq);
        if st != Running {
          return;
        }
        i := i + 1;
      }
      assert progs[..i] == progs;
    }

    /** One half over all programs, then SEQ to the flare page after the chaff half. */
    method EnterCmdsType(progs: seq<(Option<string>, Option<string>)>, t: nat, cq: CommandQueue?, pq: ProgressQueue?)
      returns (st: Status)
      requires base.Valid()
      modifies base`sent, base`log, base`progCur, cq, pq
      ensures base.Valid()
      ensures base.Snap(cq, pq, st) == Exec(old(base.Snap(cq, pq, Running)), base.progStep, TypeSteps(progs)(t))
    {
      ghost var tail := if t == 0 then Acts(DataSeq()) else [];
      ExecAppend(base.Snap(cq, pq, Running), base.progStep, FlatMap(ProgramSteps(t), progs), tail);
      st := EnterPrograms(t, progs, cq, pq);
      if st != Running {
        ExecHalted(base.Snap(cq, pq, st), base.progStep, tail);
        return;
      }
      if t == 0 {
        ExecActs(base.Snap(cq, pq, Running), base.progStep, DataSeq());
        DataSequence();
      }
    }

    /**
     * The loop over the two halves once it has entered the first `i`: it enters the
     * next, and when the run stops there, that is the run of the whole loop.
     */
    method EnterCmdsTypeNext(progs: seq<(Option<string>, Option<string>)>, ts: seq<nat>, i: nat, ghost r0: Run,
                             cq: CommandQueue?, pq: ProgressQueue?)
      returns (st: Status)
      requires base.Valid() && i < |ts|
      requires base.Snap(cq, pq, Running) == Exec(r0, base.progStep, FlatMap(TypeSteps(progs), ts[..i]))
      modifies base`sent, base`log, base`progCur, cq, pq
      ensures base.Valid()
      ensures base.Snap(cq, pq, st)
              == Exec(r0, base.progStep, FlatMap(TypeSteps(progs), if st == Running then ts[..i + 1] else ts))
    {
      st := EnterCmdsType(progs, ts[i], cq, pq);
      ExecFlatMapNext(r0, base.progStep, TypeSteps(progs), ts, i);
      if st != Running {
        ExecFlatMapStop(r0, base.progStep, TypeSteps(progs), ts, i);
      }
    }

    /** Both halves, chaff then flare. */
    method EnterCmdsTypes(progs: seq<(Option<string>, Option<string>)>, cq: CommandQueue?, pq: ProgressQueue?)
      returns (st: Status)
      requires base.Valid()
      modifies base`sent, base`log, base`progCur, cq, pq
      ensures base.Valid()
      ensures base.Snap(cq, pq, st) == Exec(old(base.Snap(cq, pq, Running)), base.progStep, FlatMap(TypeSteps(progs), [0, 1]))
    {
      ghost var r0 := base.Snap(cq, pq, Running);
      var ts: seq<nat> := [0, 1];
      st := Running;
      var i := 0;
      while i < |ts|
        modifies base`sent, base`log, base`progCur, cq, pq
        invariant 0 <= i <= |ts| && base.Valid() && st == Running
        invariant base.Snap(cq, pq, Running) == Exec(r0, base.progStep, FlatMap(TypeSteps(progs), ts[..i]))
      {
        st := EnterCmdsTypeNext(progs, ts, i, r0, cq, pq);
        if st != Running {
          return;
        }
        i := i + 1;
      }
      assert ts[..i] == ts;
    }

    /** `num_update`: the programs that are set. */
    method CountUpdates(progs: seq<(Option<string>, Option<string>)>) returns (n: nat)
      ensures n == NumUpdate(progs)
    {
      n := 0;
      for i := 0 to |progs|
        invariant n == NumUpdate(progs[..i])
      {
        if progs[i].0.Some? {
          n := n + 1;
        }
        assert progs[..i + 1][..i] == progs[..i];
      }
      assert progs[..|progs|] == progs;
    }

    /** LIST, key 7, then SEQ from BINGO to CHAFF. */
    method EnterCmdsOpen()
      requires base.Valid()
      modifies base`sent, base`log
      ensures base.Valid() && base.log == old(base.log) + CmdsOpen()
    {
      base.Perform(IcpList());
      base.Perform(IcpButton("7"));
      DataSequence();
    }

    /** `enter_cmds`. */
    method EnterCmds(progs: seq<(Option<string>, Option<string>)>, cq: CommandQueue?, pq: ProgressQueue?) returns (st: Status)
      requires base.Valid()
      modifies base`sent, base`log, base`progCur, cq, pq
      ensures base.Valid()
      ensures base.Snap(cq, pq, st) == Exec(old(base.Snap(cq, pq, Running)), base.progStep, CmdsPlan(progs))
    {
      var numUpdate := CountUpdates(progs);
      st := Running;
      if numUpdate > 0 {
        ExecFramed(base.Snap(cq, pq, Running), base.progStep, CmdsOpen(), FlatMap(TypeSteps(progs), [0, 1]), DataRtn());
        EnterCmdsOpen();
        st := EnterCmdsTypes(progs, cq, pq);
        if st == Running {
          DataReturn();
        }
      }
    }

    // ------------------------------------------------------------ bullseye and JHMCS

    /** The bullseye page, and OWNSHIP mode for setup "1". */
    method EnterBullsPage(bulls: string)
      requires base.Valid()
      modifies base`sent, base`log
      ensures base.Valid() && base.log == old(base.log) + BullsKeys(bulls)
    {
      base.Perform(IcpList());
      base.Perform(IcpButton("0"));
      base.Perform(IcpButton("8"));
      if bulls == "1" {
        base.Perform(IcpButton("0"));
      }
    }

    /** `enter_bulls`. */
    method EnterBulls(bulls: Option<string>, cq: CommandQueue?, pq: ProgressQueue?) returns (st: Status)
      requires base.Valid()
      modifies base`sent, base`log, base`progCur, cq, pq
      ensures base.Valid()
      ensures base.Snap(cq, pq, st) == Exec(old(base.Snap(cq, pq, Running)), base.progStep, BullsPlan(bulls))
    {
      st := Running;
      if bulls.Some? {
        ExecThen(base.Snap(cq, pq, Running), base.progStep, BullsKeys(bulls.value), Unit(DataRtn()));
        EnterBullsPage(bulls.value);
        ExecUnit(base.Snap(cq, pq, Running), base.progStep, DataRtn());
        st := base.BkgndAdvance(cq, pq, false);
        if st == Running {
          DataReturn();
        }
      }
    }

    /** A blanking field: key 0 to disable it, else DATA down past it. */
    method EnterBlank(v: int)
      requires base.Valid()
      modifies base`sent, base`log
      ensures base.Valid() && base.log == old(base.log) + BlankKeys(v)
    {
      if v == 0 {
        base.Perform(IcpButton("0"));
      } else {
        DataDown();
      }
    }

    /** The declutter level, the move on, and the RWR field. */
    method EnterJhmcsRest(f: seq<int>)
      requires base.Valid() && |f| >= 4
      modifies base`sent, base`log
      ensures base.Valid() && base.log == old(base.log) + JhmcsRest(f)
    {
      if f[3] > 1 {
        base.Perform(IcpButton("1"));
      }
      if f[3] > 0 {
        base.Perform(IcpButton("1"));
      }
      DataDown();
      if f[2] == 0 {
        base.Perform(IcpButton("0"));
      }
      ghost var a := DeclutterKeys(f[3]) + DataDn();
      AppendAssoc(old(base.log), DeclutterKeys(f[3]), DataDn());
      AppendAssoc(old(base.log), a, if f[2] == 0 then [IcpButton("0")] else []);
    }

    /** After the blanking fields: the rest, the advance and RTN, or the exception reading the fourth field. */
    method EnterJhmcsTail(f: seq<int>, cq: CommandQueue?, pq: ProgressQueue?) returns (st: Status)
      requires base.Valid()
      modifies base`sent, base`log, base`progCur, cq, pq
      ensures base.Valid()
      ensures base.Snap(cq, pq, st) == Exec(old(base.Snap(cq, pq, Running)), base.progStep, JhmcsTail(f))
    {
      if |f| < 4 {
        ExecRaise(base.Snap(cq, pq, Running), base.progStep);
        return Failed;
      }
      ExecThen(base.Snap(cq, pq, Running), base.progStep, JhmcsRest(f), Unit(DataRtn()));
      EnterJhmcsRest(f);
      ExecUnit(base.Snap(cq, pq, Running), base.progStep, DataRtn());
      st := base.BkgndAdvance(cq, pq, false);
      if st == Running {
        DataReturn();
      }
    }

    /** The JHMCS fields as integers. */
    method EnterJhmcsFields(f: seq<int>, cq: CommandQueue?, pq: ProgressQueue?) returns (st: Status)
      requires base.Valid() && |f| >= 1
      modifies base`sent, base`log, base`progCur, cq, pq
      ensures base.Valid()
      ensures base.Snap(cq, pq, st) == Exec(old(base.Snap(cq, pq, Running)), base.progStep, JhmcsFields(f))
    {
      ghost var r0 := base.Snap(cq, pq, Running);
      EnterBlank(f[0]);
      if |f| < 2 {
        ExecAbort(r0, base.progStep, BlankKeys(f[0]));
        return Failed;
      }
      assert JhmcsFields(f) == Acts(BlankKeys(f[0])) + (Acts(BlankKeys(f[1])) + JhmcsTail(f));
      ExecThen(r0, base.progStep, BlankKeys(f[0]), Acts(BlankKeys(f[1])) + JhmcsTail(f));
      ExecThen(base.Snap(cq, pq, Running), base.progStep, BlankKeys(f[1]), JhmcsTail(f));
      EnterBlank(f[1]);
      st := EnterJhmcsTail(f, cq, pq);
    }

    /** `enter_jhmcs`. */
    method EnterJhmcs(jhmcs: Option<string>, cq: CommandQueue?, pq: ProgressQueue?) returns (st: Status)
      requires base.Valid()
      modifies base`sent, base`log, base`progCur, cq, pq
      ensures base.Valid()
      ensures base.Snap(cq, pq, st) == Exec(old(base.Snap(cq, pq, Running)), base.progStep, JhmcsPlan(jhmcs))
    {
      if jhmcs.None? {
        return Running;
      }
      ExecThen(base.Snap(cq, pq, Running), base.progStep, JhmcsOpen(), JhmcsSteps(jhmcs.value));
      base.PerformAll(JhmcsOpen());
      var fields := ParseInts(Split(jhmcs.value, ','));
      if fields.None? {
        ExecRaise(base.Snap(cq, pq, Running), base.progStep);
        return Failed;
      }
      st := EnterJhmcsFields(fields.value, cq, pq);
    }

    // ------------------------------------------------------------ enter_all

    /** The TACAN yardstick, then the MFD loop. */
    method EnterSetupHead(d: map<AvKey, AvValue>, cq: CommandQueue?, pq: ProgressQueue?) returns (st: Status)
      requires base.Valid()
      modifies base`sent, base`log, base`progCur, cq, pq
      ensures base.Valid()
      ensures base.Snap(cq, pq, st)
              == Exec(old(base.Snap(cq, pq, Running)), base.progStep,
                      TacanPlan(StrEntry(d, TacanYard)) + FlatMap(MfdStepsOf(dgftCycle, d), MfdModes()))
    {
      ghost var mfds := FlatMap(MfdStepsOf(dgftCycle, d), MfdModes());
      ExecAppend(base.Snap(cq, pq, Running), base.progStep, TacanPlan(StrEntry(d, TacanYard)), mfds);
      st := EnterTacan(StrEntry(d, TacanYard), cq, pq);
      if st != Running {
        ExecHalted(base.Snap(cq, pq, st), base.progStep, mfds);
        return;
      }
      st := EnterMfds(d, cq, pq);
    }

    /** CMDS, bullseye and JHMCS. */
    method EnterSetupTail(d: map<AvKey, AvValue>, progs: seq<(Option<string>, Option<string>)>, cq: CommandQueue?, pq: ProgressQueue?)
      returns (st: Status)
      requires base.Valid()
      modifies base`sent, base`log, base`progCur, cq, pq
      ensures base.Valid()
      ensures base.Snap(cq, pq, st)
              == Exec(old(base.Snap(cq, pq, Running)), base.progStep,
                      CmdsPlan(progs) + BullsPlan(StrEntry(d, BullsSetup)) + JhmcsPlan(StrEntry(d, JhmcsSetup)))
    {
      ghost var r0 := base.Snap(cq, pq, Running);
      ghost var c, b, j := CmdsPlan(progs), BullsPlan(StrEntry(d, BullsSetup)), JhmcsPlan(StrEntry(d, JhmcsSetup));
      ExecAppend(r0, base.progStep, c + b, j);
      ExecAppend(r0, base.progStep, c, b);
      st := EnterCmds(progs, cq, pq);
      if st != Running {
        ExecHalted(base.Snap(cq, pq, st), base.progStep, b);
        ExecHalted(base.Snap(cq, pq, st), base.progStep, j);
        return;
      }
      st := EnterBulls(StrEntry(d, BullsSetup), cq, pq);
      if st != Running {
        ExecHalted(base.Snap(cq, pq, st), base.progStep, j);
        return;
      }
      st := EnterJhmcs(StrEntry(d, JhmcsSetup), cq, pq);
    }

    /** The avionics setup of `enter_all`, with the CMDS programs it built. */
    method EnterSetup(d: map<AvKey, AvValue>, progs: seq<(Option<string>, Option<string>)>, cq: CommandQueue?, pq: ProgressQueue?)
      returns (st: Status)
      requires base.Valid()
      modifies base`sent, base`log, base`progCur, cq, pq
      ensures base.Valid()
      ensures base.Snap(cq, pq, st) == Exec(old(base.Snap(cq, pq, Running)), base.progStep, SetupWith(dgftCycle, d, progs))
    {
      ghost var head := TacanPlan(StrEntry(d, TacanYard)) + FlatMap(MfdStepsOf(dgftCycle, d), MfdModes());
      ghost var c, b, j := CmdsPlan(progs), BullsPlan(StrEntry(d, BullsSetup)), JhmcsPlan(StrEntry(d, JhmcsSetup));
      AppendAssoc(head, c, b);
      AppendAssoc(head, c + b, j);
      ExecAppend(base.Snap(cq, pq, Running), base.progStep, head, c + b + j);
      st := EnterSetupHead(d, cq, pq);
      if st != Running {
        ExecHalted(base.Snap(cq, pq, st), base.progStep, c + b + j);
        return;
      }
      st := EnterSetupTail(d, progs, cq, pq);
    }

    /** The steerpoints, then the setup. */
    method EnterStptsAndSetup(wps: seq<Waypoint>, d: map<AvKey, AvValue>, progs: seq<(Option<string>, Option<string>)>,
                              cq: CommandQueue?, pq: ProgressQueue?)
      returns (st: Status)
      requires base.Valid()
      modifies base`sent, base`log, base`progCur, cq, pq
      ensures base.Valid()
      ensures base.Snap(cq, pq, st)
              == Exec(old(base.Snap(cq, pq, Running)), base.progStep, WaypointsPlan(base.render, wps) + SetupWith(dgftCycle, d, progs))
    {
      ghost var s := SetupWith(dgftCycle, d, progs);
      ExecAppend(base.Snap(cq, pq, Running), base.progStep, WaypointsPlan(base.render, wps), s);
      st := EnterWaypoints(wps, cq, pq);
      if st != Running {
        ExecHalted(base.Snap(cq, pq, st), base.progStep, s);
        return;
      }
      st := EnterSetup(d, progs, cq, pq);
    }

    /** The `try` block of `enter_all`: the steerpoints, the setup, then the closing advance. */
    method EnterBody(wps: seq<Waypoint>, d: map<AvKey, AvValue>, progs: seq<(Option<string>, Option<string>)>,
                     cq: CommandQueue?, pq: ProgressQueue?)
      returns (st: Status)
      requires base.Valid()
      modifies base`sent, base`log, base`progCur, cq, pq
      ensures base.Valid()
      ensures base.Snap(cq, pq, st)
              == Exec(old(base.Snap(cq, pq, Running)), base.progStep, WaypointsPlan(base.render, wps) + SetupWith(dgftCycle, d, progs) + [Finish])
    {
      ghost var r0 := base.Snap(cq, pq, Running);
      st := EnterStptsAndSetup(wps, d, progs, cq, pq);
      st := base.CloseRun(r0, WaypointsPlan(base.render, wps) + SetupWith(dgftCycle, d, progs), st, cq, pq);
    }

    /** `num_steps`. */
    method CountSteps(d: map<AvKey, AvValue>) returns (n: nat)
      ensures n == NumSteps(d)
    {
      n := |d|;
      if MfdSetup(DogSetup) in d {
        n := n + 1;
      }
      if BullsSetup in d {
        n := n + 1;
      }
      if JhmcsSetup in d {
        n := n + 1;
      }
    }

    /** The CMDS programs `enter_all` builds, each with the default it is compared with. */
    method BuildCmdsProgs(d: map<AvKey, AvValue>) returns (progs: seq<(Option<string>, Option<string>)>)
      ensures progs == CmdsProgs(d)
    {
      progs := [];
      for n := 1 to 7
        invariant |progs| == n - 1
        invariant forall k :: 0 <= k < n - 1 ==> progs[k] == (StrEntry(d, CmdsSetup(k + 1)), CmdsDefault(d, k + 1))
      {
        var dfl := if FlagTrue(d, CmdsSetupOpt) then StrEntry(d, CmdsSetupDflt(n)) else Some("-1,-1,-1,-1;-1,-1,-1,-1");
        progs := progs + [(StrEntry(d, CmdsSetup(n)), dfl)];
      }
      assert forall k :: 0 <= k < 6 ==> progs[k] == CmdsProgs(d)[k];
    }

    /**
     * The part of `enter_all` before any press: the validated steerpoints, the avionics
     * dictionary, the CMDS programs and the progress parts.
     */
    method Prepare(p: Profile, db: map<string, AvRecord>)
      returns (waypoints: seq<Waypoint>, d: map<AvKey, AvValue>, progs: seq<(Option<string>, Option<string>)>, parts: nat)
      requires base.limits == ViperLimits()
      ensures waypoints == ViperWaypoints(p.waypoints) && d == ProfileDict(p.avSetupName, p.aircraft, db)
      ensures progs == CmdsProgs(d) && parts == ViperParts(p.waypoints, d)
    {
      var kept;
      waypoints, kept := base.ValidateWaypoints(WaypointsAsList(p.waypoints));
      d := ProfileDict(p.avSetupName, p.aircraft, db);
      var numSteps := CountSteps(d);
      progs := BuildCmdsProgs(d);
      parts := |waypoints| + numSteps + 1;
    }

    /**
     * `enter_all`: validate the steerpoints, read the profile's avionics setup (looked up
     * in `db`), split the progress into one part per steerpoint and per setup step plus
     * one, then enter the steerpoints and the setup and close the run. An exception ends
     * the run, and is swallowed.
     */
    method EnterAll(p: Profile, db: map<string, AvRecord>, cq: CommandQueue?, pq: ProgressQueue?) returns (st: Status)
      requires base.Valid() && base.limits == ViperLimits()
      modifies base`sent, base`log, base`progCur, base`progStep, cq, pq
      ensures base.Valid()
      ensures base.progStep == StepSize(ViperParts(p.waypoints, ProfileDict(p.avSetupName, p.aircraft, db)))
      ensures base.Snap(cq, pq, st)
              == Exec(old(base.Snap(cq, pq, Running)).(cur := 0.0), base.progStep,
                      ViperBody(base.render, dgftCycle, p.waypoints, ProfileDict(p.avSetupName, p.aircraft, db)) + [Finish])
    {
      var waypoints, d, progs, parts := Prepare(p, db);
      base.Start(parts);
      st := EnterBody(waypoints, d, progs, cq, pq);
      assert SetupWith(dgftCycle, d, progs) == SetupPlan(dgftCycle, d);
    }
  }
}
