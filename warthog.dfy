/**
 * The A-10C driver: the CDU keypad, waypoint names cleaned up for the CDU, and waypoint
 * entry that ends by selecting the waypoint marked as current.
 */
module Warthog {
  import opened Wrappers
  import opened Text
  import opened Profiles
  import opened Actuations
  import opened Runs
  import opened Drivers

  /** Plain waypoints numbered up to 99. */
  function WarthogLimits(): Limits {
    map["WP" := Some(99)]
  }

  // ---------------------------------------------------------------- buttons

  /** `cdu`: a space is the SPC key, every other key is "CDU_<num>". */
  function Cdu(num: string): Actuation {
    Push("CDU_" + (if num == " " then "SPC" else num))
  }

  /** The CDU key for anything but a space. */
  function CduKey(num: string): Actuation {
    Push("CDU_" + num)
  }

  /** The plans below name CDU keys through `CduKey`; `cdu` agrees except on the space. */
  lemma CduKeys(num: string)
    ensures num != " " ==> Cdu(num) == CduKey(num)
    ensures Cdu(" ") == CduKey("SPC")
  {
  }

  /** `clear_input(n)`: CLR pressed n times. */
  function Clears(n: nat): (acts: seq<Actuation>)
    ensures |acts| == n && forall k :: 0 <= k < n ==> acts[k] == CduKey("CLR")
  {
    if n == 0 then [] else Clears(n - 1) + [CduKey("CLR")]
  }

  // ---------------------------------------------------------------- waypoint names

  predicate IsUpperLetter(c: char) { 'A' <= c <= 'Z' }

  /** The characters a CDU waypoint name keeps: capital letters and digits. */
  predicate IsNameChar(c: char) { IsUpperLetter(c) || IsDigit(c) }

  /** `re.sub(r'^[^A-Z]+', '', s)`: drops everything before the first capital letter. */
  function StripLeading(s: string): (r: string)
    ensures |r| <= |s| && r == s[|s| - |r|..]
    ensures r == [] || IsUpperLetter(r[0])
    ensures forall k :: 0 <= k < |s| - |r| ==> !IsUpperLetter(s[k])
  {
    if s == [] then []
    else if IsUpperLetter(s[0]) then s
    else StripLeading(s[1..])
  }

  /** `re.sub(r'[^A-Z0-9]', '', s)`: keeps the capital letters and digits, in order. */
  function KeepNameChars(s: string): (r: string)
    ensures |r| <= |s| && forall k :: 0 <= k < |r| ==> IsNameChar(r[k])
    ensures s != [] && IsNameChar(s[0]) ==> r != [] && r[0] == s[0]
    ensures forall c :: IsNameChar(c) ==> multiset(r)[c] == multiset(s)[c]
  {
    if s == [] then []
    else
      assert s == [s[0]] + s[1..];
      (if IsNameChar(s[0]) then [s[0]] else []) + KeepNameChars(s[1..])
  }

  /** The filter works piecewise, so the characters it keeps stay in their order. */
  lemma {:induction false} KeepNameCharsAppend(a: string, b: string)
    ensures KeepNameChars(a + b) == KeepNameChars(a) + KeepNameChars(b)
    decreases |a|
  {
    if a == [] {
      assert a + b == b;
    } else {
      var h, t := if IsNameChar(a[0]) then [a[0]] else [], a[1..];
      assert a + b == [a[0]] + (t + b);
      KeepNameCharsCons(a[0], t + b);
      KeepNameCharsAppend(t, b);
      AppendAssoc(h, KeepNameChars(t), KeepNameChars(b));
    }
  }

  lemma KeepNameCharsCons(x: char, t: string)
    ensures KeepNameChars([x] + t) == (if IsNameChar(x) then [x] else []) + KeepNameChars(t)
  {
    assert ([x] + t)[0] == x && ([x] + t)[1..] == t;
  }

  /** A string of name characters is kept whole. */
  lemma {:induction false} KeepNameCharsIdempotent(s: string)
    requires forall k :: 0 <= k < |s| ==> IsNameChar(s[k])
    ensures KeepNameChars(s) == s
    decreases |s|
  {
    if s != [] {
      KeepNameCharsIdempotent(s[1..]);
    }
  }

  /** The name with its leading non-letters and every other character outside A-Z and 0-9 removed. */
  function CleanName(name: string): string {
    KeepNameChars(StripLeading(Upper(name)))
  }

  /** The text the name is taken from: the cleaned name, or "WP<number>" when nothing is left. */
  function NameSource(wp: Waypoint): string {
    var c := CleanName(wp.name);
    if c == "" then "WP" + IntToString(wp.number) else c
  }

  /** `enter_waypoint_name`'s name: a source longer than 12 characters is cut to its first 11. */
  function WaypointName(wp: Waypoint): string {
    var n := NameSource(wp);
    if |n| > 12 then n[0..11] else n
  }

  /** A character `cdu(c.upper())` presses as "CDU_<c>": not a space, and unchanged by `upper()`. */
  predicate PlainKey(c: char) {
    c != ' ' && UpperChar(c) == c
  }

  /** `str(i)` is made of digits and possibly a leading minus sign. */
  lemma IntToStringPlain(i: int)
    ensures forall k :: 0 <= k < |IntToString(i)| ==> PlainKey(IntToString(i)[k])
  {
    var n: nat := if i < 0 then -i else i;
    NatToStringDigits(n);
    var d := NatToString(n);
    if i < 0 {
      forall k | 0 <= k < |IntToString(i)| ensures PlainKey(IntToString(i)[k]) {
        if k > 0 {
          assert IntToString(i)[k] == d[k - 1];
        }
      }
    }
  }

  /** A non-empty cleaned name starts with a capital letter and has only capital letters and digits. */
  lemma CleanShape(name: string)
    requires CleanName(name) != ""
    ensures IsUpperLetter(CleanName(name)[0])
    ensures forall k :: 0 <= k < |CleanName(name)| ==> IsNameChar(CleanName(name)[k])
  {
    var t := StripLeading(Upper(name));
    assert t != [];
  }

  /** The fallback name "WP<number>" starts with W and has only plain keys. */
  lemma FallbackShape(number: int)
    ensures ("WP" + IntToString(number))[0] == 'W'
    ensures forall k :: 0 <= k < |"WP" + IntToString(number)| ==> PlainKey(("WP" + IntToString(number))[k])
  {
    var d := IntToString(number);
    IntToStringPlain(number);
    var n := "WP" + d;
    forall k | 0 <= k < |n| ensures PlainKey(n[k]) {
      if k >= 2 {
        assert n[k] == d[k - 2];
      }
    }
  }

  /**
   * The name's source starts with a capital letter and has only plain keys; a non-empty
   * cleaned name has only capital letters and digits.
   */
  lemma SourceShape(wp: Waypoint)
    ensures |NameSource(wp)| >= 1 && IsUpperLetter(NameSource(wp)[0])
    ensures forall k :: 0 <= k < |NameSource(wp)| ==> PlainKey(NameSource(wp)[k])
    ensures CleanName(wp.name) != "" ==> forall k :: 0 <= k < |NameSource(wp)| ==> IsNameChar(NameSource(wp)[k])
  {
    if CleanName(wp.name) == "" {
      FallbackShape(wp.number);
    } else {
      CleanShape(wp.name);
    }
  }

  /** The name typed is a prefix of its source, whole up to 12 characters and cut to 11 beyond. */
  lemma NamePrefix(wp: Waypoint)
    ensures WaypointName(wp) == NameSource(wp)[..|WaypointName(wp)|]
    ensures |WaypointName(wp)| == if |NameSource(wp)| > 12 then 11 else |NameSource(wp)|
  {
    CutShape(NameSource(wp), WaypointName(wp));
  }

  /** Cutting a text beyond 12 characters to its first 11 leaves a prefix of it. */
  lemma CutShape(n: string, m: string)
    requires m == if |n| > 12 then n[0..11] else n
    ensures m == n[..|m|]
    ensures |m| == if |n| > 12 then 11 else |n|
  {
    if |n| <= 12 {
      assert n[..|n|] == n;
    }
  }

  /**
   * The name typed for a waypoint is never empty and never longer than 12 characters; it
   * starts with a capital letter and is a prefix of its source, whole up to 12 characters
   * and cut to 11 beyond. A non-empty cleaned name yields only capital letters and digits,
   * and every character is pressed as its own key.
   */
  lemma NameShape(wp: Waypoint)
    ensures 1 <= |WaypointName(wp)| <= 12
    ensures IsUpperLetter(WaypointName(wp)[0])
    ensures WaypointName(wp) == NameSource(wp)[..|WaypointName(wp)|]
    ensures |WaypointName(wp)| == if |NameSource(wp)| > 12 then 11 else |NameSource(wp)|
    ensures CleanName(wp.name) != "" ==> forall k :: 0 <= k < |WaypointName(wp)| ==> IsNameChar(WaypointName(wp)[k])
    ensures forall k :: 0 <= k < |WaypointName(wp)| ==> PlainKey(WaypointName(wp)[k])
  {
    SourceShape(wp);
    NamePrefix(wp);
    var n, src := WaypointName(wp), NameSource(wp);
    assert forall k :: 0 <= k < |n| ==> n[k] == src[k];
  }

  // ---------------------------------------------------------------- numbers and coordinates

  /** `enter_number`: one press per digit, every other character skipped; no enter key. */
  function NumberKeys(s: string): seq<Actuation> {
    Digits(CduKey, s)
  }

  /** Degrees and decimal minutes to three places, with the longitude's degrees on three digits. */
  function WarthogFormat(): CoordFormat {
    CoordFormat(true, 3, 2, false, 3)
  }

  function NorthSouth(pos: LatLon): Actuation {
    CduKey(if pos.latDegree > 0.0 then "N" else "S")
  }

  function EastWest(pos: LatLon): Actuation {
    CduKey(if pos.lonDegree > 0.0 then "E" else "W")
  }

  /** The latitude: clear twice, its hemisphere, its digits, then LSK 7L. */
  function LatKeys(pos: LatLon, lat: string): seq<Actuation> {
    Clears(2) + [NorthSouth(pos)] + NumberKeys(lat) + [CduKey("LSK_7L")]
  }

  /** The longitude: clear twice, its hemisphere, its digits, then LSK 9L. */
  function LonKeys(pos: LatLon, lon: string): seq<Actuation> {
    Clears(2) + [EastWest(pos)] + NumberKeys(lon) + [CduKey("LSK_9L")]
  }

  /** `enter_coords` once the coordinates are rendered: latitude, longitude, then clear twice. */
  function CoordsText(pos: LatLon, lat: string, lon: string): seq<Actuation> {
    LatKeys(pos, lat) + LonKeys(pos, lon) + Clears(2)
  }

  /** `enter_coords`. */
  function CoordsKeys(render: Renderer, pos: LatLon): seq<Actuation> {
    var text := render(pos, WarthogFormat());
    CoordsText(pos, text.0, text.1)
  }

  /** `enter_elevation`: clear twice, the value with negatives raised to 0, LSK 5L, clear twice. */
  function ElevationKeys(elev: int): seq<Actuation> {
    Clears(2) + NumberKeys(IntToString(if elev < 0 then 0 else elev)) + [CduKey("LSK_5L")] + Clears(2)
  }

  /**
   * A negative elevation is entered as the single digit 0; any other is typed digit by
   * digit between the clears and LSK 5L.
   */
  lemma ElevationClamp(elev: int)
    ensures elev < 0 ==> ElevationKeys(elev) == Clears(2) + [CduKey("0"), CduKey("LSK_5L")] + Clears(2)
    ensures elev >= 0 ==> ElevationKeys(elev) == Clears(2) + Each(CduKey, NatToString(elev)) + [CduKey("LSK_5L")] + Clears(2)
  {
    var e := if elev < 0 then 0 else elev;
    NatToStringDigits(e);
    DigitsAll(CduKey, NatToString(e));
    if elev < 0 {
      assert NatToString(0) == "0";
      assert Each(CduKey, "0") == [CduKey("0")];
      AppendAssoc(Clears(2), [CduKey("0")], [CduKey("LSK_5L")]);
    }
  }

  // ---------------------------------------------------------------- waypoints

  /** `enter_waypoint_name`: clear three times, one key per character, then LSK 3R. */
  function NameKeys(wp: Waypoint): seq<Actuation> {
    Clears(3) + Each(CduKey, WaypointName(wp)) + [CduKey("LSK_3R")]
  }

  /** The elevation part of a waypoint: nothing for exactly 0, else `enter_elevation`. */
  function ElevationPart(elev: int): seq<Actuation> {
    if elev != 0 then ElevationKeys(elev) else []
  }

  /** One waypoint: LSK 7R, its name, its coordinates, then its elevation. */
  function WaypointActs(render: Renderer, wp: Waypoint): seq<Actuation> {
    [CduKey("LSK_7R")] + NameKeys(wp) + CoordsKeys(render, wp.position) + ElevationPart(wp.elevation)
  }

  function WaypointActsOf(render: Renderer): Waypoint -> seq<Actuation> {
    (wp: Waypoint) => WaypointActs(render, wp)
  }

  /**
   * The 1-based position of the last waypoint marked as current, or -1 when none is:
   * `ret_wp` after the loop.
   */
  function LastCurrent(wps: seq<Waypoint>): int {
    if wps == [] then -1
    else if wps[|wps| - 1].isSetCur then |wps|
    else LastCurrent(wps[..|wps| - 1])
  }

  /**
   * `ret_wp` is -1 exactly when no waypoint is marked as current; otherwise it is the
   * position of a marked waypoint with none marked after it.
   */
  lemma {:induction false} LastCurrentSpec(wps: seq<Waypoint>)
    ensures LastCurrent(wps) == -1 <==> forall k :: 0 <= k < |wps| ==> !wps[k].isSetCur
    ensures LastCurrent(wps) != -1 ==> 1 <= LastCurrent(wps) <= |wps| && wps[LastCurrent(wps) - 1].isSetCur
    ensures LastCurrent(wps) != -1 ==> forall k :: LastCurrent(wps) <= k < |wps| ==> !wps[k].isSetCur
    decreases |wps|
  {
    if wps != [] && !wps[|wps| - 1].isSetCur {
      var init := wps[..|wps| - 1];
      LastCurrentSpec(init);
      assert forall k :: 0 <= k < |init| ==> init[k] == wps[k];
    }
  }

  /** One more waypoint: it becomes the current one when it is marked, else nothing changes. */
  lemma LastCurrentNext(wps: seq<Waypoint>, i: nat)
    requires i < |wps|
    ensures LastCurrent(wps[..i + 1]) == if wps[i].isSetCur then i + 1 else LastCurrent(wps[..i])
  {
    assert wps[..i + 1][..i] == wps[..i];
  }

  /** The closing selection: nothing without a current waypoint, else clear three times, its position, LSK 3L. */
  function ReturnKeys(ret: int): seq<Actuation> {
    if ret == -1 then [] else Clears(3) + NumberKeys(IntToString(ret)) + [CduKey("LSK_3L")]
  }

  /** The current waypoint's position is typed digit by digit. */
  lemma ReturnOfPosition(ret: nat)
    ensures ReturnKeys(ret) == Clears(3) + Each(CduKey, NatToString(ret)) + [CduKey("LSK_3L")]
  {
    NatToStringDigits(ret);
    DigitsAll(CduKey, NatToString(ret));
  }

  /** The keys that open the waypoint page: WP, then LSK 3L. */
  function OpenKeys(): seq<Actuation> {
    [CduKey("WP"), CduKey("LSK_3L")]
  }

  /** `enter_waypoints`: open the page, each waypoint after an advance, then select the current one. */
  function WaypointsPlan(render: Renderer, wps: seq<Waypoint>): seq<Step> {
    Acts(OpenKeys()) + FlatMap(Units(WaypointActsOf(render)), wps) + Acts(ReturnKeys(LastCurrent(wps)))
  }

  /** The waypoints `enter_all` enters: the plain ones that pass validation, sorted by type. */
  function WarthogWaypoints(ws: seq<Waypoint>): seq<Waypoint> {
    SortByType(Survivors(WarthogLimits(), WaypointsAsList(ws), 0))
  }

  /** The parts `enter_all` splits the progress into: one per waypoint, plus one. */
  function WarthogParts(ws: seq<Waypoint>): nat {
    |WarthogWaypoints(ws)| + 1
  }

  /**
   * The progress of a Warthog entry: the waypoint loop advances once per waypoint, so
   * with the step `enter_all` sets every percentage published before the end is below
   * 100, a cancelled run publishes no "DONE", and a finished one ends with 100 and "DONE".
   */
  lemma WarthogProgress(r: Run, render: Renderer, wps: seq<Waypoint>)
    requires r.status == Running && r.progress.Some? && r.cur == 0.0
    ensures Exec(r, StepSize(|wps| + 1), WaypointsPlan(render, wps)).progress.Some?
    ensures Exec(r, StepSize(|wps| + 1), WaypointsPlan(render, wps) + [Finish]).progress.Some?
    ensures PercentsBelow(Published(r, Exec(r, StepSize(|wps| + 1), WaypointsPlan(render, wps))), 100.0)
    ensures Exec(r, StepSize(|wps| + 1), WaypointsPlan(render, wps) + [Finish]).status == Cancelled ==>
      Done !in Published(r, Exec(r, StepSize(|wps| + 1), WaypointsPlan(render, wps) + [Finish]))
    ensures Exec(r, StepSize(|wps| + 1), WaypointsPlan(render, wps) + [Finish]).status == Running ==>
      var p := Exec(r, StepSize(|wps| + 1), WaypointsPlan(render, wps) + [Finish]).progress.value;
      |p| >= 2 && p[|p| - 2..] == [Percent(100.0), Done]
  {
    UnitsShape(WaypointActsOf(render), wps);
    FramedShape(OpenKeys(), FlatMap(Units(WaypointActsOf(render)), wps), ReturnKeys(LastCurrent(wps)));
    EntryProgress(r, |wps| + 1, WaypointsPlan(render, wps));
  }

  // ---------------------------------------------------------------- the driver

  class WarthogDriver {
    const base: Driver

    constructor (render: Renderer)
      ensures fresh(base) && base.Valid() && base.sent == [] && base.log == []
      ensures base.limits == WarthogLimits() && base.render == render
      ensures base.progCur == 0.0 && base.progStep == 0.0
    {
      base := new Driver(render, WarthogLimits());
    }

    /** `clear_input`. */
    method ClearInput(repeat: nat)
      requires base.Valid()
      modifies base`sent, base`log
      ensures base.Valid() && base.log == old(base.log) + Clears(repeat)
    {
      for i := 0 to repeat
        invariant base.Valid() && base.log == old(base.log) + Clears(i)
      {
        base.Perform(CduKey("CLR"));
      }
    }

    /** `enter_waypoint_name`. */
    method EnterWaypointName(wp: Waypoint)
      requires base.Valid()
      modifies base`sent, base`log
      ensures base.Valid() && base.log == old(base.log) + NameKeys(wp)
    {
      var name := WaypointName(wp);
      ClearInput(3);
      base.PressEach(CduKey, name);
      base.Perform(CduKey("LSK_3R"));
      AppendAssoc(old(base.log), Clears(3), Each(CduKey, name));
      AppendAssoc(old(base.log), Clears(3) + Each(CduKey, name), [CduKey("LSK_3R")]);
    }

    /** `enter_number`. */
    method EnterNumber(s: string)
      requires base.Valid()
      modifies base`sent, base`log
      ensures base.Valid() && base.log == old(base.log) + NumberKeys(s)
    {
      base.PressDigits(CduKey, s);
    }

    /** A hemisphere key and a number between two clears and a line select key. */
    method EnterField(hemisphere: Actuation, s: string, lsk: string)
      requires base.Valid()
      modifies base`sent, base`log
      ensures base.Valid() && base.log == old(base.log) + (Clears(2) + [hemisphere] + NumberKeys(s) + [CduKey(lsk)])
    {
      ClearInput(2);
      base.Perform(hemisphere);
      EnterNumber(s);
      base.Perform(CduKey(lsk));
      AppendAssoc(old(base.log), Clears(2), [hemisphere]);
      AppendAssoc(old(base.log), Clears(2) + [hemisphere], NumberKeys(s));
      AppendAssoc(old(base.log), Clears(2) + [hemisphere] + NumberKeys(s), [CduKey(lsk)]);
    }

    /** `enter_coords` once the coordinates are rendered. */
    method EnterCoordsText(pos: LatLon, lat: string, lon: string)
      requires base.Valid()
      modifies base`sent, base`log
      ensures base.Valid() && base.log == old(base.log) + CoordsText(pos, lat, lon)
    {
      EnterField(NorthSouth(pos), lat, "LSK_7L");
      EnterField(EastWest(pos), lon, "LSK_9L");
      ClearInput(2);
      AppendAssoc(old(base.log), LatKeys(pos, lat), LonKeys(pos, lon));
      AppendAssoc(old(base.log), LatKeys(pos, lat) + LonKeys(pos, lon), Clears(2));
    }

    /** `enter_coords`. */
    method EnterCoords(pos: LatLon)
      requires base.Valid()
      modifies base`sent, base`log
      ensures base.Valid() && base.log == old(base.log) + CoordsKeys(base.render, pos)
    {
      var text := base.render(pos, WarthogFormat());
      EnterCoordsText(pos, text.0, text.1);
    }

    /** `enter_elevation`. */
    method EnterElevation(elev: int)
      requires base.Valid()
      modifies base`sent, base`log
      ensures base.Valid() && base.log == old(base.log) + ElevationKeys(elev)
    {
      ClearInput(2);
      var e := elev;
      if e < 0 {
        e := 0;
      }
      EnterNumber(IntToString(e));
      base.Perform(CduKey("LSK_5L"));
      ClearInput(2);
      ghost var a, b := Clears(2), NumberKeys(IntToString(e));
      AppendAssoc(old(base.log), a, b);
      AppendAssoc(old(base.log), a + b, [CduKey("LSK_5L")]);
      AppendAssoc(old(base.log), a + b + [CduKey("LSK_5L")], Clears(2));
    }

    /** The elevation part of one waypoint. */
    method EnterElevationPart(elev: int)
      requires base.Valid()
      modifies base`sent, base`log
      ensures base.Valid() && base.log == old(base.log) + ElevationPart(elev)
    {
      if elev != 0 {
        EnterElevation(elev);
      }
    }

    /** The presses for one waypoint. */
    method EnterWaypointActs(wp: Waypoint)
      requires base.Valid()
      modifies base`sent, base`log
      ensures base.Valid() && base.log == old(base.log) + WaypointActs(base.render, wp)
    {
      base.Perform(CduKey("LSK_7R"));
      EnterWaypointName(wp);
      EnterCoords(wp.position);
      EnterElevationPart(wp.elevation);
      ghost var a, b, c := [CduKey("LSK_7R")], NameKeys(wp), CoordsKeys(base.render, wp.position);
      AppendAssoc(old(base.log), a, b);
      AppendAssoc(old(base.log), a + b, c);
      AppendAssoc(old(base.log), a + b + c, ElevationPart(wp.elevation));
    }

    /** One iteration of the waypoint loop: advance, then the waypoint's presses. */
    method EnterWaypointUnit(wp: Waypoint, cq: CommandQueue?, pq: ProgressQueue?) returns (st: Status)
      requires base.Valid()
      modifies base`sent, base`log, base`progCur, cq, pq
      ensures base.Valid()
      ensures base.Snap(cq, pq, st)
              == Exec(old(base.Snap(cq, pq, Running)), base.progStep, Units(WaypointActsOf(base.render))(wp))
    {
      ExecUnit(base.Snap(cq, pq, Running), base.progStep, WaypointActs(base.render, wp));
      st := base.BkgndAdvance(cq, pq, false);
      if st == Running {
        EnterWaypointActs(wp);
      }
    }

    /**
     * The waypoint loop once it has entered the first `i` waypoints: it enters the next
     * one, and when the run stops there, that is the run of the whole loop.
     */
    method EnterWaypointNext(wps: seq<Waypoint>, i: nat, ghost r0: Run, cq: CommandQueue?, pq: ProgressQueue?)
      returns (st: Status)
      requires base.Valid() && i < |wps|
      requires base.Snap(cq, pq, Running) == Exec(r0, base.progStep, FlatMap(Units(WaypointActsOf(base.render)), wps[..i]))
      modifies base`sent, base`log, base`progCur, cq, pq
      ensures base.Valid()
      ensures base.Snap(cq, pq, st)
              == Exec(r0, base.progStep, FlatMap(Units(WaypointActsOf(base.render)), if st == Running then wps[..i + 1] else wps))
    {
      ghost var f := Units(WaypointActsOf(base.render));
      st := EnterWaypointUnit(wps[i], cq, pq);
      ExecFlatMapNext(r0, base.progStep, f, wps, i);
      if st != Running {
        ExecFlatMapStop(r0, base.progStep, f, wps, i);
      }
    }

    /**
     * The waypoint loop of `enter_waypoints`, which also tracks the position of the last
     * waypoint marked as current.
     */
    method EnterWaypointList(wps: seq<Waypoint>, cq: CommandQueue?, pq: ProgressQueue?) returns (st: Status, ret: int)
      requires base.Valid()
      modifies base`sent, base`log, base`progCur, cq, pq
      ensures base.Valid()
      ensures base.Snap(cq, pq, st)
              == Exec(old(base.Snap(cq, pq, Running)), base.progStep, FlatMap(Units(WaypointActsOf(base.render)), wps))
      ensures st == Running ==> ret == LastCurrent(wps)
    {
      ghost var r0 := base.Snap(cq, pq, Running);
      st := Running;
      ret := -1;
      var cur := 1;
      var i := 0;
      while i < |wps|
        modifies base`sent, base`log, base`progCur, cq, pq
        invariant 0 <= i <= |wps| && base.Valid() && st == Running
        invariant base.Snap(cq, pq, Running) == Exec(r0, base.progStep, FlatMap(Units(WaypointActsOf(base.render)), wps[..i]))
        invariant cur == i + 1 && ret == LastCurrent(wps[..i])
      {
        st := EnterWaypointNext(wps, i, r0, cq, pq);
        if st != Running {
          return;
        }
        if wps[i].isSetCur {
          ret := cur;
        }
        LastCurrentNext(wps, i);
        cur := cur + 1;
        i := i + 1;
      }
      assert wps[..i] == wps;
    }

    /** The closing selection of the current waypoint. */
    method EnterReturn(ret: int)
      requires base.Valid()
      modifies base`sent, base`log
      ensures base.Valid() && base.log == old(base.log) + ReturnKeys(ret)
    {
      if ret != -1 {
        ClearInput(3);
        EnterNumber(IntToString(ret));
        base.Perform(CduKey("LSK_3L"));
        AppendAssoc(old(base.log), Clears(3), NumberKeys(IntToString(ret)));
        AppendAssoc(old(base.log), Clears(3) + NumberKeys(IntToString(ret)), [CduKey("LSK_3L")]);
      }
    }

    /** `enter_waypoints`. */
    method EnterWaypoints(wps: seq<Waypoint>, cq: CommandQueue?, pq: ProgressQueue?) returns (st: Status)
      requires base.Valid()
      modifies base`sent, base`log, base`progCur, cq, pq
      ensures base.Valid()
      ensures base.Snap(cq, pq, st) == Exec(old(base.Snap(cq, pq, Running)), base.progStep, WaypointsPlan(base.render, wps))
    {
      ExecFramed(base.Snap(cq, pq, Running), base.progStep, OpenKeys(),
                 FlatMap(Units(WaypointActsOf(base.render)), wps), ReturnKeys(LastCurrent(wps)));
      base.PerformAll(OpenKeys());
      var ret;
      st, ret := EnterWaypointList(wps, cq, pq);
      if st == Running {
        EnterReturn(ret);
      }
    }

    /** The `try` block of `enter_all`: the waypoints, then the closing advance. */
    method EnterBody(wps: seq<Waypoint>, cq: CommandQueue?, pq: ProgressQueue?) returns (st: Status)
      requires base.Valid()
      modifies base`sent, base`log, base`progCur, cq, pq
      ensures base.Valid()
      ensures base.Snap(cq, pq, st)
              == Exec(old(base.Snap(cq, pq, Running)), base.progStep, WaypointsPlan(base.render, wps) + [Finish])
    {
      ExecSnoc(base.Snap(cq, pq, Running), base.progStep, WaypointsPlan(base.render, wps), Finish);
      st := EnterWaypoints(wps, cq, pq);
      if st == Running {
        st := base.BkgndAdvance(cq, pq, true);
      }
    }

    /** The part of `enter_all` before any press: the validated waypoints and the progress parts. */
    method Prepare(p: Profile) returns (waypoints: seq<Waypoint>, parts: nat)
      requires base.limits == WarthogLimits()
      ensures waypoints == WarthogWaypoints(p.waypoints) && parts == WarthogParts(p.waypoints)
    {
      var kept;
      waypoints, kept := base.ValidateWaypoints(WaypointsAsList(p.waypoints));
      parts := |waypoints| + 1;
    }

    /**
     * `enter_all`: validate the plain waypoints, split the progress into one part per
     * waypoint plus one, then enter them and close the run. An exception ends the run,
     * and is swallowed.
     */
    method EnterAll(p: Profile, cq: CommandQueue?, pq: ProgressQueue?) returns (st: Status)
      requires base.Valid() && base.limits == WarthogLimits()
      modifies base`sent, base`log, base`progCur, base`progStep, cq, pq
      ensures base.Valid()
      ensures base.progStep == StepSize(WarthogParts(p.waypoints))
      ensures base.Snap(cq, pq, st)
              == Exec(old(base.Snap(cq, pq, Running)).(cur := 0.0), base.progStep,
                      WaypointsPlan(base.render, WarthogWaypoints(p.waypoints)) + [Finish])
    {
      var waypoints, parts := Prepare(p);
      base.Start(parts);
      st := EnterBody(waypoints, cq, pq);
    }
  }
}
