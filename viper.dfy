/**
 * The F-16C driver's keypad grammar and plans: ICP keys, the DED and DATA rocker switches
 * sent as raw switch positions, steerpoint entry ending with the back-up to the current
 * steerpoint, and the TACAN, MFD format, CMDS program, bullseye and JHMCS pages.
 */
module Viper {
  import opened Wrappers
  import opened Text
  import opened Profiles
  import opened Actuations
  import opened Runs
  import opened Drivers

  /** Plain steerpoints numbered up to 127. */
  function ViperLimits(): Limits {
    map["WP" := Some(127)]
  }

  // ---------------------------------------------------------------- buttons

  /** `icp_btn`: "ICP_BTN_<num>", except the five keys that have names of their own. */
  function Icp(num: string): Actuation {
    if num == "ENTR" then Push("ICP_ENTR_BTN")
    else if num == "AA_MODE" then Push("ICP_AA_MODE_BTN")
    else if num == "AG_MODE" then Push("ICP_AG_MODE_BTN")
    else if num == "LIST" then Push("ICP_LIST_BTN")
    else if num == "RCL" then Push("ICP_RCL_BTN")
    else Push("ICP_BTN_" + num)
  }

  /** A numbered ICP key. */
  function IcpButton(num: string): Actuation {
    Push("ICP_BTN_" + num)
  }

  function IcpEntr(): Actuation {
    Push("ICP_ENTR_BTN")
  }

  function IcpList(): Actuation {
    Push("ICP_LIST_BTN")
  }

  function IcpRcl(): Actuation {
    Push("ICP_RCL_BTN")
  }

  /** `ehsi_btn`. */
  function Ehsi(btn: string): Actuation {
    Push("EHSI_" + btn)
  }

  /** `mfd_btn`: OSB `num` of the left ("L") or right ("R") MFD. */
  function Mfd(lr: string, num: string): Actuation {
    Push("MFD_" + lr + "_" + num)
  }

  /** The plans name ICP keys through the functions above; `icp_btn` agrees with them. */
  lemma IcpKeys(num: string)
    ensures Icp("ENTR") == IcpEntr() && Icp("LIST") == IcpList() && Icp("RCL") == IcpRcl()
    ensures Icp("AA_MODE") == Push("ICP_AA_MODE_BTN") && Icp("AG_MODE") == Push("ICP_AG_MODE_BTN")
    ensures num != "ENTR" && num != "AA_MODE" && num != "AG_MODE" && num != "LIST" && num != "RCL" ==>
      Icp(num) == IcpButton(num)
  {
  }

  // ---------------------------------------------------------------- rocker switches

  function DedCentre(): Actuation {
    Switch("ICP_DED_SW 1\n")
  }

  function UpDnCentre(): Actuation {
    Switch("ICP_DATA_UP_DN_SW 1\n")
  }

  function RtnSeqCentre(): Actuation {
    Switch("ICP_DATA_RTN_SEQ_SW 1\n")
  }

  /**
   * `icp_ded`: the DED rocker to 0 for "DN" or to 2 for "UP" (nothing else moves it), then
   * back to the centre position 1.
   */
  function Ded(num: string): seq<Actuation> {
    (if num == "DN" then [Switch("ICP_DED_SW 0\n")]
     else if num == "UP" then [Switch("ICP_DED_SW 2\n")]
     else [])
    + [DedCentre()]
  }

  /**
   * `icp_data`: the DATA up/down rocker to 0 ("DN") or 2 ("UP"), or the RTN/SEQ switch to
   * 0 ("RTN") or 2 ("SEQ"), then both switches back to the centre.
   */
  function Data(num: string): seq<Actuation> {
    (if num == "DN" then [Switch("ICP_DATA_UP_DN_SW 0\n")]
     else if num == "UP" then [Switch("ICP_DATA_UP_DN_SW 2\n")]
     else if num == "RTN" then [Switch("ICP_DATA_RTN_SEQ_SW 0\n")]
     else if num == "SEQ" then [Switch("ICP_DATA_RTN_SEQ_SW 2\n")]
     else [])
    + [UpDnCentre(), RtnSeqCentre()]
  }

  function DedDown(): seq<Actuation> {
    [Switch("ICP_DED_SW 0\n"), DedCentre()]
  }

  function DedUp(): seq<Actuation> {
    [Switch("ICP_DED_SW 2\n"), DedCentre()]
  }

  function DataDn(): seq<Actuation> {
    [Switch("ICP_DATA_UP_DN_SW 0\n"), UpDnCentre(), RtnSeqCentre()]
  }

  function DataUp(): seq<Actuation> {
    [Switch("ICP_DATA_UP_DN_SW 2\n"), UpDnCentre(), RtnSeqCentre()]
  }

  function DataRtn(): seq<Actuation> {
    [Switch("ICP_DATA_RTN_SEQ_SW 0\n"), UpDnCentre(), RtnSeqCentre()]
  }

  function DataSeq(): seq<Actuation> {
    [Switch("ICP_DATA_RTN_SEQ_SW 2\n"), UpDnCentre(), RtnSeqCentre()]
  }

  /** The plans name the rocker movements through the functions above; `icp_ded` and `icp_data` agree. */
  lemma RockerKeys()
    ensures Ded("DN") == DedDown() && Ded("UP") == DedUp()
    ensures Data("DN") == DataDn() && Data("UP") == DataUp() && Data("RTN") == DataRtn() && Data("SEQ") == DataSeq()
  {
  }

  /**
   * A rocker movement always ends with the switches centred: one position message for a
   * direction the switch knows and none for any other, then the centre message(s).
   */
  lemma RockersRecentre(num: string)
    ensures |Ded(num)| == (if num == "DN" || num == "UP" then 2 else 1) && Ded(num)[|Ded(num)| - 1] == DedCentre()
    ensures |Data(num)| == (if num == "DN" || num == "UP" || num == "RTN" || num == "SEQ" then 3 else 2)
    ensures Data(num)[|Data(num)| - 2..] == [UpDnCentre(), RtnSeqCentre()]
  {
  }

  // ---------------------------------------------------------------- numbers and coordinates

  /** `enter_number`: one ICP key per digit of the text, every other character skipped; no ENTR. */
  function NumberKeys(s: string): seq<Actuation> {
    Digits(IcpButton, s)
  }

  /** The value `enter_elevation` types: a negative elevation is negated after being raised to -1500. */
  function ElevationValue(elev: int): nat {
    if elev < 0 then -(if elev > -1500 then elev else -1500) else elev
  }

  /** `enter_elevation`: key 0 first for a negative elevation, the value's digits, then ENTR. */
  function ElevationKeys(elev: int): seq<Actuation> {
    (if elev < 0 then [IcpButton("0")] else []) + NumberKeys(IntToString(ElevationValue(elev))) + [IcpEntr()]
  }

  /**
   * A negative elevation is entered as key 0 followed by its magnitude capped at 1500,
   * the lowest elevation the avionics take; any other is typed digit by digit. ENTR ends
   * both.
   */
  lemma ElevationClamp(elev: int)
    ensures elev < 0 ==>
      ElevationKeys(elev) == [IcpButton("0")] + Each(IcpButton, NatToString(if -elev < 1500 then -elev else 1500)) + [IcpEntr()]
    ensures elev >= 0 ==> ElevationKeys(elev) == Each(IcpButton, NatToString(elev)) + [IcpEntr()]
  {
    var v := ElevationValue(elev);
    NatToStringDigits(v);
    DigitsAll(IcpButton, NatToString(v));
  }

  /** The elevation part of a steerpoint: nothing for exactly 0, else `enter_elevation`. */
  function ElevationPart(elev: int): seq<Actuation> {
    if elev != 0 then ElevationKeys(elev) else []
  }

  /** Degrees and decimal minutes to three places, with the longitude's degrees on three digits. */
  function ViperFormat(): CoordFormat {
    CoordFormat(true, 3, 2, false, 3)
  }

  /** North is key 2 and south key 8 on the ICP. */
  function NorthSouth(pos: LatLon): Actuation {
    IcpButton(if pos.latDegree > 0.0 then "2" else "8")
  }

  /** East is key 6 and west key 4 on the ICP. */
  function EastWest(pos: LatLon): Actuation {
    IcpButton(if pos.lonDegree > 0.0 then "6" else "4")
  }

  /** The latitude: its hemisphere, its digits, ENTR, then DATA down to the longitude. */
  function LatKeys(pos: LatLon, lat: string): seq<Actuation> {
    [NorthSouth(pos)] + NumberKeys(lat) + [IcpEntr()] + DataDn()
  }

  /** The longitude: its hemisphere, its digits, ENTR, then DATA down. */
  function LonKeys(pos: LatLon, lon: string): seq<Actuation> {
    [EastWest(pos)] + NumberKeys(lon) + [IcpEntr()] + DataDn()
  }

  /** `enter_coords` once the coordinates are rendered. */
  function CoordsText(pos: LatLon, lat: string, lon: string): seq<Actuation> {
    LatKeys(pos, lat) + LonKeys(pos, lon)
  }

  /** `enter_coords`. */
  function CoordsKeys(render: Renderer, pos: LatLon): seq<Actuation> {
    var text := render(pos, ViperFormat());
    CoordsText(pos, text.0, text.1)
  }

  // ---------------------------------------------------------------- steerpoints

  /** Before each steerpoint's advance: DATA down to MAN/AUTO, then down to LAT. */
  function StptDown(): seq<Actuation> {
    DataDn() + DataDn()
  }

  /** After each steerpoint: DATA up four times back to the STPT number, then DED up to the next number. */
  function StptNext(): seq<Actuation> {
    DataUp() + DataUp() + DataUp() + DataUp() + DedUp()
  }

  /** One steerpoint after its advance: coordinates, elevation, then on to the next number. */
  function WaypointActs(render: Renderer, wp: Waypoint): seq<Actuation> {
    CoordsKeys(render, wp.position) + ElevationPart(wp.elevation) + StptNext()
  }

  /** One iteration of the steerpoint loop: down to LAT, the advance, then the steerpoint. */
  function WaypointSteps(render: Renderer): Waypoint -> seq<Step> {
    (wp: Waypoint) => Acts(StptDown()) + Unit(WaypointActs(render, wp))
  }

  /** The 0-based position of the first steerpoint marked as current, or -1 when none is. */
  function FirstCurrent(wps: seq<Waypoint>): (r: int)
    ensures -1 <= r < |wps|
  {
    if wps == [] then -1
    else
      var f := FirstCurrent(wps[..|wps| - 1]);
      if f != -1 then f else if wps[|wps| - 1].isSetCur then |wps| - 1 else -1
  }

  /**
   * `FirstCurrent` is -1 exactly when no steerpoint is marked; otherwise it is a marked
   * steerpoint with none marked before it.
   */
  lemma {:induction false} FirstCurrentSpec(wps: seq<Waypoint>)
    ensures FirstCurrent(wps) == -1 <==> forall k :: 0 <= k < |wps| ==> !wps[k].isSetCur
    ensures FirstCurrent(wps) != -1 ==> wps[FirstCurrent(wps)].isSetCur
    ensures forall k :: 0 <= k < FirstCurrent(wps) ==> !wps[k].isSetCur
    decreases |wps|
  {
    if wps != [] {
      var init := wps[..|wps| - 1];
      FirstCurrentSpec(init);
      assert forall k :: 0 <= k < |init| ==> init[k] == wps[k];
    }
  }

  /** One more steerpoint: it becomes the first current one when none was marked before it. */
  lemma FirstCurrentNext(wps: seq<Waypoint>, i: nat)
    requires i < |wps|
    ensures FirstCurrent(wps[..i + 1])
            == if FirstCurrent(wps[..i]) != -1 then FirstCurrent(wps[..i]) else if wps[i].isSetCur then i else -1
  {
    assert wps[..i + 1][..i] == wps[..i];
  }

  /**
   * The DED decrements after the loop (`num_backups`): one, plus one for every steerpoint
   * after the first marked one.
   */
  function Backups(wps: seq<Waypoint>): nat {
    if FirstCurrent(wps) == -1 then 1 else |wps| - FirstCurrent(wps)
  }

  /**
   * The STPT number goes up once per steerpoint, so the back-up leaves it on the first
   * steerpoint marked as current, or on the last one entered when none is marked; it
   * never backs up past the first steerpoint entered.
   */
  lemma BackupsSelect(wps: seq<Waypoint>)
    requires wps != []
    ensures 1 <= Backups(wps) <= |wps|
    ensures |wps| - Backups(wps) == if FirstCurrent(wps) == -1 then |wps| - 1 else FirstCurrent(wps)
    ensures (forall k :: 0 <= k < |wps| ==> !wps[k].isSetCur) ==> Backups(wps) == 1
    ensures wps[|wps| - Backups(wps)].isSetCur || Backups(wps) == 1
    ensures forall k :: 0 <= k < |wps| - Backups(wps) ==> !wps[k].isSetCur
  {
    FirstCurrentSpec(wps);
  }

  /** `n` DED decrements. */
  function Backtrack(n: nat): (acts: seq<Actuation>)
    ensures |acts| == 2 * n
  {
    if n == 0 then [] else Backtrack(n - 1) + DedDown()
  }

  /** The back-up holds exactly `n` DED down movements, each followed by the centre position. */
  lemma {:induction false} BacktrackMoves(n: nat)
    ensures multiset(Backtrack(n))[Switch("ICP_DED_SW 0\n")] == n
    ensures multiset(Backtrack(n))[DedCentre()] == n
    decreases n
  {
    if n > 0 {
      BacktrackMoves(n - 1);
      assert multiset(Backtrack(n)) == multiset(Backtrack(n - 1)) + multiset(DedDown());
    }
  }

  /** The keys that open the steerpoint page: RTN, then key 4 (STPT). */
  function StptOpen(): seq<Actuation> {
    DataRtn() + [IcpButton("4")]
  }

  /** The keys that close it: the back-up, then RTN. */
  function StptClose(wps: seq<Waypoint>): seq<Actuation> {
    Backtrack(Backups(wps)) + DataRtn()
  }

  /** `enter_waypoints`: nothing for no steerpoints, else open, the loop, back up and return. */
  function WaypointsPlan(render: Renderer, wps: seq<Waypoint>): seq<Step> {
    if wps == [] then []
    else Acts(StptOpen()) + FlatMap(WaypointSteps(render), wps) + Acts(StptClose(wps))
  }

  /** The steerpoint loop advances once per steerpoint and never finishes. */
  lemma WaypointsShape(render: Renderer, wps: seq<Waypoint>)
    ensures Advances(WaypointsPlan(render, wps)) == |wps| && NoFinish(WaypointsPlan(render, wps))
  {
    var f := WaypointSteps(render);
    forall k | 0 <= k < |wps| ensures Advances(f(wps[k])) == 1 && NoFinish(f(wps[k])) {
      UnitShape(WaypointActs(render, wps[k]));
      AdvancesActs(StptDown());
      AdvancesAppend(Acts(StptDown()), Unit(WaypointActs(render, wps[k])));
      NoFinishActs(StptDown());
    }
    AdvancesFlatMapOne(f, wps);
    NoFinishFlatMap(f, wps);
    if wps != [] {
      FramedShape(StptOpen(), FlatMap(f, wps), StptClose(wps));
    }
  }

  // ---------------------------------------------------------------- TACAN

  /** The channel `enter_tacan` types: a wingman ("W") flies 63 channels above the lead's. */
  function TacanChannel(chan: int, role: string): int {
    if role == "W" then chan + 63 else chan
  }

  /** Band Y is selected with key 0 and ENTR; band X needs nothing. */
  function BandKeys(xy: string): seq<Actuation> {
    if xy == "Y" then [IcpButton("0"), IcpEntr()] else []
  }

  /** T-ILS page: RTN, then key 1. */
  function TacanOpen(): seq<Actuation> {
    DataRtn() + [IcpButton("1")]
  }

  /** After the channel: SEQ twice (REC to T/R to A/A TR), RTN, EHSI MODE twice, RTN. */
  function TacanClose(): seq<Actuation> {
    DataSeq() + DataSeq() + DataRtn() + [Ehsi("MODE"), Ehsi("MODE")] + DataRtn()
  }

  /** The channel field: its digits, ENTR, then the closing keys. */
  function ChannelKeys(chan: int): seq<Actuation> {
    NumberKeys(IntToString(chan)) + [IcpEntr()] + TacanClose()
  }

  /** The channel field, or the exception a channel that is not an integer or a missing role field raises. */
  function ChannelSteps(f: seq<string>): seq<Step> {
    if |f| < 3 || ParseInt(f[0]).None? then [Abort]
    else Acts(ChannelKeys(TacanChannel(ParseInt(f[0]).value, f[2])))
  }

  /**
   * `enter_tacan` after its advance, for the yardstick text "chan,xy,role": a missing band
   * field, a channel that is not an integer or a missing role field raises, at the point
   * the source reads it.
   */
  function TacanSteps(spec: string): seq<Step> {
    var f := Split(spec, ',');
    Acts(TacanOpen()) + if |f| < 2 then [Abort] else Acts(BandKeys(f[1]) + DataDn()) + ChannelSteps(f)
  }

  /** `enter_tacan`: nothing without a yardstick, else an advance and the TACAN keys. */
  function TacanPlan(spec: Option<string>): seq<Step> {
    if spec.None? then [] else [Advance] + TacanSteps(spec.value)
  }

  /** The decimal text of an integer holds no comma. */
  lemma IntToStringNoComma(i: int)
    ensures ',' !in IntToString(i)
  {
    var n: nat := if i < 0 then -i else i;
    NatToStringDigits(n);
    forall k | 0 <= k < |IntToString(i)| ensures IntToString(i)[k] != ',' {
      if i < 0 && k > 0 {
        assert IntToString(i)[k] == NatToString(n)[k - 1];
      }
    }
  }

  /**
   * A yardstick written as "chan,xy,role" is entered with its band keys and the channel
   * `TacanChannel` gives, 63 above `chan` for a wingman; nothing raises.
   */
  lemma TacanOfYardstick(chan: int, xy: string, role: string)
    requires ',' !in xy && ',' !in role
    ensures TacanSteps(IntToString(chan) + "," + xy + "," + role)
            == Acts(TacanOpen()) + (Acts(BandKeys(xy) + DataDn()) + Acts(ChannelKeys(TacanChannel(chan, role))))
  {
    var c := IntToString(chan);
    IntToStringNoComma(chan);
    SplitNoSep(c, ',');
    SplitAfterSep(c, xy, ',');
    SplitAfterSep(c + [','] + xy, role, ',');
    assert c + "," + xy + "," + role == c + [','] + xy + [','] + role;
    IntToStringRoundTrip(chan);
  }

  /** A wingman's channel is typed as the lead's plus 63, digit by digit. */
  lemma WingmanChannel(chan: nat)
    ensures ChannelKeys(TacanChannel(chan, "W")) == Each(IcpButton, NatToString(chan + 63)) + [IcpEntr()] + TacanClose()
    ensures ChannelKeys(TacanChannel(chan, "L")) == Each(IcpButton, NatToString(chan)) + [IcpEntr()] + TacanClose()
  {
    NatToStringDigits(chan + 63);
    DigitsAll(IcpButton, NatToString(chan + 63));
    NatToStringDigits(chan);
    DigitsAll(IcpButton, NatToString(chan));
  }

  // ---------------------------------------------------------------- MFD formats

  /** Into a master mode: the dogfight hotkey once for DGFT_D and twice for DGFT_M, the ICP key for others but NAV. */
  function ModeEntry(mode: string, hotkey: string): seq<Actuation> {
    if mode == "DGFT_D" then [Hotkey(hotkey)]
    else if mode == "DGFT_M" then [Hotkey(hotkey), Hotkey(hotkey)]
    else if mode != "NAV" then [Icp(mode)]
    else []
  }

  /** Out of a master mode: the dogfight hotkey twice for DGFT_D and once for DGFT_M, the ICP key again for others but NAV. */
  function ModeExit(mode: string, hotkey: string): seq<Actuation> {
    if mode == "DGFT_D" then [Hotkey(hotkey), Hotkey(hotkey)]
    else if mode == "DGFT_M" then [Hotkey(hotkey)]
    else if mode != "NAV" then [Icp(mode)]
    else []
  }

  /**
   * Entering and leaving a mode returns to NAV: the dogfight hotkey cycles through three
   * positions and is pressed three times in all, an ICP mode key is pressed once in and
   * once out, and NAV needs nothing.
   */
  lemma ModeRoundTrip(mode: string, hotkey: string)
    ensures mode == "DGFT_D" || mode == "DGFT_M" ==>
      ModeEntry(mode, hotkey) + ModeExit(mode, hotkey) == [Hotkey(hotkey), Hotkey(hotkey), Hotkey(hotkey)]
    ensures mode != "DGFT_D" && mode != "DGFT_M" && mode != "NAV" ==>
      ModeEntry(mode, hotkey) == ModeExit(mode, hotkey) == [Icp(mode)]
    ensures mode == "NAV" ==> ModeEntry(mode, hotkey) == ModeExit(mode, hotkey) == []
  {
  }

  /**
   * `enter_mfd_format`: select the OSB, and only when the format differs from the default,
   * select it again to enter format selection and pick the format's OSB.
   */
  function FormatKeys(lr: string, osb: string, format: string, dflt: string): (acts: seq<Actuation>)
    ensures |acts| == if format == dflt then 1 else 3
    ensures acts[0] == Mfd(lr, osb)
    ensures format != dflt ==> acts[1..] == [Mfd(lr, osb), Mfd(lr, format)]
  {
    [Mfd(lr, osb)] + (if format != dflt then [Mfd(lr, osb), Mfd(lr, format)] else [])
  }

  /** The right MFD's OSBs 12, 13, 14 take the last three formats of the row, from the sixth back. */
  function RightKeys(f: seq<string>, d: seq<string>): seq<Actuation>
    requires |f| >= 6 && |d| >= 6
  {
    FormatKeys("R", "12", f[5], d[5]) + FormatKeys("R", "13", f[4], d[4]) + FormatKeys("R", "14", f[3], d[3])
  }

  /** The left MFD's OSBs 12, 13, 14 take the first three formats of the row, from the third back. */
  function LeftKeys(f: seq<string>, d: seq<string>): seq<Actuation>
    requires |f| >= 6 && |d| >= 6
  {
    FormatKeys("L", "12", f[2], d[2]) + FormatKeys("L", "13", f[1], d[1]) + FormatKeys("L", "14", f[0], d[0])
  }

  /** The OSB of each slot of a row: left 14, 13, 12, then right 14, 13, 12. */
  function OsbIndex(): seq<string> {
    ["14", "13", "12", "14", "13", "12"]
  }

  /** Back in NAV, slot `i` is reselected when it is not on OSB 14 and holds FCR ("20") or HSD ("7"). */
  function NavPress(f: seq<string>, i: nat): seq<Actuation>
    requires i < 6 && i < |f|
  {
    if OsbIndex()[i] != "14" && (f[i] == "20" || f[i] == "7") then [Mfd(if i > 3 then "R" else "L", OsbIndex()[i])]
    else []
  }

  /** The NAV reselection loop over the first `n` slots. */
  function NavKeys(f: seq<string>, n: nat): seq<Actuation>
    requires n <= 6 && n <= |f|
  {
    if n == 0 then [] else NavKeys(f, n - 1) + NavPress(f, n - 1)
  }

  predicate FcrOrHsd(format: string) {
    format == "20" || format == "7"
  }

  /** The slot presses: never for the OSB 14 slots, else the slot's OSB when it holds FCR or HSD. */
  lemma NavPressSlots(f: seq<string>)
    requires |f| >= 6
    ensures NavPress(f, 0) == [] && NavPress(f, 3) == []
    ensures NavPress(f, 1) == if FcrOrHsd(f[1]) then [Mfd("L", "13")] else []
    ensures NavPress(f, 2) == if FcrOrHsd(f[2]) then [Mfd("L", "12")] else []
    ensures NavPress(f, 4) == if FcrOrHsd(f[4]) then [Mfd("R", "13")] else []
    ensures NavPress(f, 5) == if FcrOrHsd(f[5]) then [Mfd("R", "12")] else []
  {
    assert OsbIndex()[0] == "14" && OsbIndex()[3] == "14";
  }

  /**
   * The NAV reselection presses OSB 13 then 12 of the left MFD and then of the right one,
   * each only when its slot holds FCR or HSD; the OSB 14 slots are never pressed.
   */
  lemma NavKeysSelect(f: seq<string>)
    requires |f| >= 6
    ensures NavKeys(f, 6)
            == (if FcrOrHsd(f[1]) then [Mfd("L", "13")] else []) + (if FcrOrHsd(f[2]) then [Mfd("L", "12")] else [])
             + (if FcrOrHsd(f[4]) then [Mfd("R", "13")] else []) + (if FcrOrHsd(f[5]) then [Mfd("R", "12")] else [])
  {
    NavPressSlots(f);
    assert NavKeys(f, 2) == NavPress(f, 1) by {
      assert NavKeys(f, 1) == NavKeys(f, 0) + NavPress(f, 0);
    }
    assert NavKeys(f, 4) == NavPress(f, 1) + NavPress(f, 2) by {
      assert NavKeys(f, 4) == NavKeys(f, 3) + NavPress(f, 3);
    }
  }

  /** What NAV adds at the end: the reselection, and an exception when the row has more than six slots. */
  function NavSteps(mode: string, f: seq<string>): seq<Step>
    requires |f| >= 6
  {
    if mode != "NAV" then [] else Acts(NavKeys(f, 6)) + (if |f| > 6 then [Abort] else [])
  }

  /**
   * `enter_mfd` after its advance: into the mode, the six slots right MFD first, out of
   * the mode, then NAV's reselection. A missing default or a row of fewer than six slots
   * raises once the mode is entered.
   */
  function MfdSteps(mode: string, hotkey: string, spec: string, dflt: Option<string>): seq<Step> {
    if dflt.None? then Acts(ModeEntry(mode, hotkey)) + [Abort]
    else
      var f := Split(spec, ',');
      var d := Split(dflt.value, ',');
      if |f| < 6 || |d| < 6 then Acts(ModeEntry(mode, hotkey)) + [Abort]
      else Acts(ModeEntry(mode, hotkey) + RightKeys(f, d) + LeftKeys(f, d) + ModeExit(mode, hotkey)) + NavSteps(mode, f)
  }

  /** `enter_mfd`: nothing without a setup, else an advance and the MFD keys. */
  function MfdPlan(mode: string, hotkey: string, spec: Option<string>, dflt: Option<string>): seq<Step> {
    if spec.None? then [] else [Advance] + MfdSteps(mode, hotkey, spec.value, dflt)
  }

  // ---------------------------------------------------------------- CMDS programs

  /**
   * `enter_cmds_prog_elem`: a field that differs from its default is typed and committed
   * with ENTR; every field is then left with DATA down.
   */
  function ElemKeys(field: string, dflt: string): seq<Actuation> {
    (if field != dflt then NumberKeys(field) + [IcpEntr()] else []) + DataDn()
  }

  /** Field `k` of a program, or the exception reading a missing field raises. */
  function ElemStep(f: seq<string>, d: seq<string>, k: nat): seq<Step> {
    if k < |f| && k < |d| then Acts(ElemKeys(f[k], d[k])) else [Abort]
  }

  /** The first `n` fields of a program. */
  function Fields(f: seq<string>, d: seq<string>, n: nat): seq<Step>
    requires n <= 4
  {
    if n == 0 then [] else Fields(f, d, n - 1) + ElemStep(f, d, n - 1)
  }

  /** Once a field has raised, the later fields change nothing. */
  lemma {:induction false} FieldsStop(r: Run, step: real, f: seq<string>, d: seq<string>, k: nat, n: nat)
    requires k < n <= 4 && Exec(r, step, Fields(f, d, k + 1)).status != Running
    ensures Exec(r, step, Fields(f, d, n)) == Exec(r, step, Fields(f, d, k + 1))
    decreases n
  {
    if n > k + 1 {
      FieldsStop(r, step, f, d, k, n - 1);
      ExecStopped(r, step, Fields(f, d, n - 1), ElemStep(f, d, n - 1));
    }
  }

  /** The four fields of a program (BQ, BI, SQ, SI) against those of its default. */
  function ProgFields(prog: string, dflt: string): seq<Step> {
    Fields(Split(prog, ','), Split(dflt, ','), 4)
  }

  /**
   * `enter_cmds_prog`: a program that is set and differs from its default gets an advance
   * and its fields; every program then moves the DED up to the next program.
   */
  function ProgPlan(p: Option<(string, string)>): seq<Step> {
    (if p.Some? && p.value.0 != p.value.1 then [Advance] + ProgFields(p.value.0, p.value.1) else []) + Acts(DedUp())
  }

  /**
   * One program for the chaff (`t` = 0) or flare (`t` = 1) half: a set program hands on
   * its half and its default's; a missing half or a missing default raises.
   */
  function ProgramSteps(t: nat): ((Option<string>, Option<string>)) -> seq<Step> {
    (p: (Option<string>, Option<string>)) =>
      if p.0.None? then ProgPlan(None)
      else
        var ps := Split(p.0.value, ';');
        if t >= |ps| || p.1.None? then [Abort]
        else
          var ds := Split(p.1.value, ';');
          if t >= |ds| then [Abort] else ProgPlan(Some((ps[t], ds[t])))
  }

  /** One half over all programs; after the chaff half, SEQ moves to the flare page. */
  function TypeSteps(progs: seq<(Option<string>, Option<string>)>): nat -> seq<Step> {
    (t: nat) => FlatMap(ProgramSteps(t), progs) + (if t == 0 then Acts(DataSeq()) else [])
  }

  /** The number of programs that are set (`num_update`). */
  function NumUpdate(progs: seq<(Option<string>, Option<string>)>): (n: nat)
    ensures n <= |progs|
  {
    if progs == [] then 0 else NumUpdate(progs[..|progs| - 1]) + (if progs[|progs| - 1].0.Some? then 1 else 0)
  }

  /** The CMDS page: LIST, key 7, then SEQ from BINGO to CHAFF. */
  function CmdsOpen(): seq<Actuation> {
    [IcpList(), IcpButton("7")] + DataSeq()
  }

  /** `enter_cmds`: nothing when no program is set, else both halves over all programs, then RTN. */
  function CmdsPlan(progs: seq<(Option<string>, Option<string>)>): seq<Step> {
    if NumUpdate(progs) == 0 then []
    else Acts(CmdsOpen()) + FlatMap(TypeSteps(progs), [0, 1]) + Acts(DataRtn())
  }

  /** A program equal to its default, or not set, costs only the move to the next program. */
  lemma UnchangedProgram(prog: string)
    ensures ProgPlan(Some((prog, prog))) == Acts(DedUp())
    ensures ProgPlan(None) == Acts(DedUp())
  {
  }

  /** A field equal to its default is skipped with DATA down alone; any other is typed and committed. */
  lemma ElemCost(field: string, dflt: string)
    ensures field == dflt ==> ElemKeys(field, dflt) == DataDn()
    ensures field != dflt ==> |ElemKeys(field, dflt)| == |NumberKeys(field)| + 4
    ensures ElemKeys(field, dflt)[|ElemKeys(field, dflt)| - 3..] == DataDn()
  {
  }

  // ---------------------------------------------------------------- bullseye and JHMCS

  /** The bullseye page: LIST, 0, 8, then key 0 for OWNSHIP mode when the setup is "1". */
  function BullsKeys(bulls: string): seq<Actuation> {
    [IcpList(), IcpButton("0"), IcpButton("8")] + (if bulls == "1" then [IcpButton("0")] else [])
  }

  /** `enter_bulls`: nothing without a setup, else the page, an advance and RTN. */
  function BullsPlan(bulls: Option<string>): seq<Step> {
    if bulls.None? then [] else Acts(BullsKeys(bulls.value)) + Unit(DataRtn())
  }

  /** `[int(field) for field in fields]`: every field as an integer, or `None` when one is not. */
  function ParseInts(fields: seq<string>): (r: Option<seq<int>>)
    ensures r.Some? ==> |r.value| == |fields| && forall k :: 0 <= k < |fields| ==> ParseInt(fields[k]) == Some(r.value[k])
    ensures r.None? ==> exists k :: 0 <= k < |fields| && ParseInt(fields[k]).None?
  {
    if fields == [] then Some([])
    else
      var init := ParseInts(fields[..|fields| - 1]);
      var last := ParseInt(fields[|fields| - 1]);
      if init.None? then None
      else if last.None? then None
      else Some(init.value + [last.value])
  }

  /** A blanking field: key 0 disables it and moves on; when it is set, DATA down moves on. */
  function BlankKeys(v: int): seq<Actuation> {
    if v == 0 then [IcpButton("0")] else DataDn()
  }

  /** The declutter level: key 1 twice above 1, once at 1, not at all at 0 or below. */
  function DeclutterKeys(dc: int): (acts: seq<Actuation>)
    ensures |acts| == if dc > 1 then 2 else if dc > 0 then 1 else 0
    ensures forall k :: 0 <= k < |acts| ==> acts[k] == IcpButton("1")
  {
    (if dc > 1 then [IcpButton("1")] else []) + (if dc > 0 then [IcpButton("1")] else [])
  }

  /** The JHMCS page: LIST, 0, RCL. */
  function JhmcsOpen(): seq<Actuation> {
    [IcpList(), IcpButton("0"), IcpRcl()]
  }

  /** Declutter, DATA down, then key 0 to disable the RWR display when it is off. */
  function JhmcsRest(f: seq<int>): seq<Actuation>
    requires |f| >= 4
  {
    DeclutterKeys(f[3]) + DataDn() + (if f[2] == 0 then [IcpButton("0")] else [])
  }

  /** After the blanking fields: the rest when all four fields are there, else the exception reading the fourth. */
  function JhmcsTail(f: seq<int>): seq<Step> {
    if |f| < 4 then [Abort] else Acts(JhmcsRest(f)) + Unit(DataRtn())
  }

  /**
   * The fields as integers: the HUD blanking field, then (raising when it is missing) the
   * cockpit blanking field, then the tail.
   */
  function JhmcsFields(f: seq<int>): seq<Step>
    requires |f| >= 1
  {
    Acts(BlankKeys(f[0])) + if |f| < 2 then [Abort] else Acts(BlankKeys(f[1])) + JhmcsTail(f)
  }

  /**
   * `enter_jhmcs` after the page opens, for "hud,pit,rwr,dc": a field that is not an
   * integer raises before any key; reading a missing field raises where the source reads
   * it (the second, then the fourth, which also covers the third).
   */
  function JhmcsSteps(spec: string): seq<Step> {
    var p := ParseInts(Split(spec, ','));
    if p.None? then [Abort] else JhmcsFields(p.value)
  }

  /** `enter_jhmcs`: nothing without a setup, else the page and the fields. */
  function JhmcsPlan(jhmcs: Option<string>): seq<Step> {
    if jhmcs.None? then [] else Acts(JhmcsOpen()) + JhmcsSteps(jhmcs.value)
  }

  // ---------------------------------------------------------------- enter_all

  /** A string entry of the avionics dictionary, `None` when absent. */
  function StrEntry(d: map<AvKey, AvValue>, k: AvKey): (r: Option<string>)
    ensures r.Some? <==> k in d && d[k].Str?
    ensures r.Some? ==> d[k] == Str(r.value)
  {
    if k in d && d[k].Str? then Some(d[k].s) else None
  }

  /** `avs_dict.get(k) == True`. */
  predicate FlagTrue(d: map<AvKey, AvValue>, k: AvKey) {
    k in d && d[k] == Flag(true)
  }

  /** The master modes set up, in order, each with the setup it takes its formats from and the one it takes its defaults from. */
  function MfdModes(): seq<(string, SetupMode, SetupMode)> {
    [("NAV", NavSetup, NavSetup), ("AA_MODE", AirSetup, AirSetup), ("AG_MODE", GndSetup, GndSetup),
     ("DGFT_D", DogSetup, DogSetup), ("DGFT_M", AirSetup, DogSetup)]
  }

  /** The default a mode's formats are compared with: the stored default when optimising, else all zeros. */
  function MfdDefault(d: map<AvKey, AvValue>, m: SetupMode): Option<string> {
    if FlagTrue(d, MfdSetupOpt) then StrEntry(d, MfdSetupDflt(m)) else Some("0,0,0,0,0,0")
  }

  /** The default a CMDS program is compared with: the stored default when optimising, else all -1. */
  function CmdsDefault(d: map<AvKey, AvValue>, n: int): Option<string> {
    if FlagTrue(d, CmdsSetupOpt) then StrEntry(d, CmdsSetupDflt(n)) else Some("-1,-1,-1,-1;-1,-1,-1,-1")
  }

  /** The six CMDS programs in order, each with its default. */
  function CmdsProgs(d: map<AvKey, AvValue>): (progs: seq<(Option<string>, Option<string>)>)
    ensures |progs| == 6
    ensures forall n :: 1 <= n <= 6 ==> progs[n - 1] == (StrEntry(d, CmdsSetup(n)), CmdsDefault(d, n))
  {
    seq(6, i requires 0 <= i < 6 => (StrEntry(d, CmdsSetup(i + 1)), CmdsDefault(d, i + 1)))
  }

  /**
   * Without the optimise flags the defaults are sentinels no setup equals: "0,0,0,0,0,0"
   * for every MFD mode and "-1,-1,-1,-1;-1,-1,-1,-1" for every CMDS program, so every
   * slot and every set field is entered.
   */
  lemma SentinelDefaults(d: map<AvKey, AvValue>, m: SetupMode, n: int)
    ensures !FlagTrue(d, MfdSetupOpt) ==> MfdDefault(d, m) == Some("0,0,0,0,0,0")
    ensures !FlagTrue(d, CmdsSetupOpt) ==> CmdsDefault(d, n) == Some("-1,-1,-1,-1;-1,-1,-1,-1")
  {
  }

  /** One MFD mode of `enter_all`'s loop. */
  function MfdStepsOf(hotkey: string, d: map<AvKey, AvValue>): ((string, SetupMode, SetupMode)) -> seq<Step> {
    (m: (string, SetupMode, SetupMode)) => MfdPlan(m.0, hotkey, StrEntry(d, MfdSetup(m.1)), MfdDefault(d, m.2))
  }

  /** The avionics setup with the CMDS programs `progs`: TACAN, the five MFD modes, CMDS, bullseye, JHMCS. */
  function SetupWith(hotkey: string, d: map<AvKey, AvValue>, progs: seq<(Option<string>, Option<string>)>): seq<Step> {
    TacanPlan(StrEntry(d, TacanYard)) + FlatMap(MfdStepsOf(hotkey, d), MfdModes()) + CmdsPlan(progs)
    + BullsPlan(StrEntry(d, BullsSetup)) + JhmcsPlan(StrEntry(d, JhmcsSetup))
  }

  /** The avionics setup after the steerpoints, with the CMDS programs `enter_all` builds. */
  function SetupPlan(hotkey: string, d: map<AvKey, AvValue>): seq<Step> {
    SetupWith(hotkey, d, CmdsProgs(d))
  }

  /** The steerpoints `enter_all` enters: the plain ones that pass validation, sorted by type. */
  function ViperWaypoints(ws: seq<Waypoint>): seq<Waypoint> {
    SortByType(Survivors(ViperLimits(), WaypointsAsList(ws), 0))
  }

  /** `num_steps`: one per dictionary entry, one more for each of the dogfight MFD, bullseye and JHMCS setups. */
  function NumSteps(d: map<AvKey, AvValue>): nat {
    |d| + (if MfdSetup(DogSetup) in d then 1 else 0) + (if BullsSetup in d then 1 else 0)
    + (if JhmcsSetup in d then 1 else 0)
  }

  /** The avionics dictionary of a profile: its setup, looked up in the database, as `to_dict` gives it. */
  function ProfileDict(avSetupName: Option<string>, aircraft: string, db: map<string, AvRecord>): map<AvKey, AvValue> {
    ToDict(ProfileAvSetup(avSetupName, aircraft, db))
  }

  /** The `try` block of `enter_all` before its closing advance: the steerpoints, then the setup. */
  function ViperBody(render: Renderer, hotkey: string, ws: seq<Waypoint>, d: map<AvKey, AvValue>): seq<Step> {
    WaypointsPlan(render, ViperWaypoints(ws)) + SetupPlan(hotkey, d)
  }

  /** The parts `enter_all` splits the progress into: steerpoints, steps, plus one. */
  function ViperParts(ws: seq<Waypoint>, d: map<AvKey, AvValue>): nat {
    |ViperWaypoints(ws)| + NumSteps(d) + 1
  }
}
