/**
 * Profiles: waypoints, pre-planned missions (MSN), the derived views a `Profile` offers
 * (plain/MSN lists, sequences, grouping by station or type, renumbering) and the avionics
 * setup dictionary handed to the Viper driver.
 */
module Profiles {
  import opened Wrappers
  import opened Text

  /**
   * A position. The drivers only look at the sign of the whole degrees; the full value is
   * handed to the coordinate renderer.
   */
  datatype LatLon = LatLon(latDegree: real, latMinute: real, lonDegree: real, lonMinute: real)

  /** A plain `Waypoint`, or an `MSN` (a pre-planned mission point on a weapon station). */
  datatype Kind = Plain | Msn(station: int)

  datatype Waypoint = Waypoint(
    position: LatLon,
    number: int,
    elevation: int,
    name: string,
    sequence: int,
    wpType: string,
    isSetCur: bool,
    kind: Kind)
  {
    predicate IsMsn() { kind.Msn? }
  }

  /** A plain waypoint with the constructor's defaults. */
  function NewWaypoint(position: LatLon): (w: Waypoint)
    ensures !w.IsMsn() && w.wpType == "WP" && w.number == 0 && w.sequence == 0 && !w.isSetCur
  {
    Waypoint(position, 0, 0, "", 0, "WP", false, Plain)
  }

  /** Building an MSN: the type is forced to "MSN", and a zero station is a `ValueError`. */
  function NewMsn(position: LatLon, number: int, elevation: int, name: string, sequence: int,
                  wpType: string, isSetCur: bool, station: int): (r: Result<Waypoint, string>)
    ensures r.Ok? <==> station != 0
    ensures r.Ok? ==> r.value.IsMsn() && r.value.kind.station == station && r.value.wpType == "MSN"
    ensures r.Ok? ==>
      r.value.position == position && r.value.number == number && r.value.elevation == elevation
      && r.value.name == name && r.value.sequence == sequence && r.value.isSetCur == isSetCur
  {
    if station == 0 then Err("MSN station not defined")
    else Ok(Waypoint(position, number, elevation, name, sequence, "MSN", isSetCur, Msn(station)))
  }

  // ---------------------------------------------------------------- rendering

  /** The sequence tag of a plain waypoint's text: shown only for a "WP" in a sequence. */
  function SeqTag(w: Waypoint): (tag: string)
    ensures tag != "" <==> w.wpType == "WP" && w.sequence != 0
    ensures tag != "" ==> tag == " | SEQ" + IntToString(w.sequence)
  {
    if w.wpType == "WP" && w.sequence != 0 then " | SEQ" + IntToString(w.sequence) else ""
  }

  /**
   * The list-box text of a waypoint (`Waypoint.__str__` / `MSN.__str__`): an MSN shows its
   * number and station, a plain waypoint its type and number, then its sequence tag, then
   * " | [CUR]" or " |"; a name, when there is one, ends the text.
   */
  function Describe(w: Waypoint): (r: string)
    ensures w.IsMsn() ==> StartsWith(r, "MSN" + IntToString(w.number) + " | STA" + IntToString(w.kind.station))
    ensures w.IsMsn() && w.name != "" ==> EndsWith(r, " | " + w.name)
    ensures w.IsMsn() ==>
      |r| == |"MSN" + IntToString(w.number) + " | STA" + IntToString(w.kind.station)|
             + (if w.name != "" then 3 + |w.name| else 0)
    ensures !w.IsMsn() ==>
      var head := w.wpType + IntToString(w.number) + SeqTag(w);
      StartsWith(r, head) && StartsWith(r[|head|..], if w.isSetCur then " | [CUR]" else " |")
    ensures !w.IsMsn() && w.name != "" ==> EndsWith(r, " " + w.name)
    ensures !w.IsMsn() && w.name == "" ==> (EndsWith(r, " | [CUR]") <==> w.isSetCur)
    ensures !w.IsMsn() ==>
      |r| == |w.wpType + IntToString(w.number) + SeqTag(w)| + (if w.isSetCur then 8 else 2)
             + (if w.name != "" then 1 + |w.name| else 0)
  {
    match w.kind
    case Msn(station) =>
      var head := "MSN" + IntToString(w.number) + " | STA" + IntToString(station);
      Affixes(head, " | " + w.name);
      if w.name != "" then head + (" | " + w.name) else head
    case Plain =>
      var head := w.wpType + IntToString(w.number) + SeqTag(w);
      var cur := if w.isSetCur then " | [CUR]" else " |";
      var tail := if w.name != "" then cur + (" " + w.name) else cur;
      Affixes(head, tail);
      Affixes(cur, " " + w.name);
      assert w.name == "" ==> (EndsWith(head + tail, " | [CUR]") <==> w.isSetCur) by {
        if w.name == "" && !w.isSetCur {
          assert (head + tail)[|head + tail| - 1] == tail[|tail| - 1] == '|';
        }
      }
      head + tail
  }

  // ---------------------------------------------------------------- list views

  /** `waypoints_as_list` (and `all_waypoints_as_list`): the plain waypoints, in order. */
  function WaypointsAsList(ws: seq<Waypoint>): (r: seq<Waypoint>)
    ensures |r| <= |ws|
    ensures forall k :: 0 <= k < |r| ==> !r[k].IsMsn()
  {
    if ws == [] then []
    else
      var init := WaypointsAsList(ws[..|ws| - 1]);
      if ws[|ws| - 1].IsMsn() then init else init + [ws[|ws| - 1]]
  }

  /** `msns_as_list`: the MSNs, in order. */
  function MsnsAsList(ws: seq<Waypoint>): (r: seq<Waypoint>)
    ensures |r| <= |ws|
    ensures forall k :: 0 <= k < |r| ==> r[k].IsMsn()
  {
    if ws == [] then []
    else
      var init := MsnsAsList(ws[..|ws| - 1]);
      if ws[|ws| - 1].IsMsn() then init + [ws[|ws| - 1]] else init
  }

  lemma {:induction false} ViewsAppend(a: seq<Waypoint>, b: seq<Waypoint>)
    ensures WaypointsAsList(a + b) == WaypointsAsList(a) + WaypointsAsList(b)
    ensures MsnsAsList(a + b) == MsnsAsList(a) + MsnsAsList(b)
    decreases |b|
  {
    if b == [] {
      assert a + b == a;
    } else {
      var init, last := b[..|b| - 1], b[|b| - 1];
      ViewsAppend(a, init);
      var ab := a + b;
      assert ab[..|ab| - 1] == a + init && ab[|ab| - 1] == last;
      if last.IsMsn() {
        calc {
          MsnsAsList(ab);
          MsnsAsList(a + init) + [last];
          MsnsAsList(a) + (MsnsAsList(init) + [last]);
        }
      } else {
        calc {
          WaypointsAsList(ab);
          WaypointsAsList(a + init) + [last];
          WaypointsAsList(a) + (WaypointsAsList(init) + [last]);
        }
      }
    }
  }

  /**
   * The MSN view and the plain view split the list: every element lands in exactly one
   * of them, and both keep the list's order (each distributes over concatenation).
   */
  lemma {:induction false} ViewsPartition(ws: seq<Waypoint>)
    ensures multiset(MsnsAsList(ws)) + multiset(WaypointsAsList(ws)) == multiset(ws)
    ensures |MsnsAsList(ws)| + |WaypointsAsList(ws)| == |ws|
    decreases |ws|
  {
    if ws != [] {
      var init, w := ws[..|ws| - 1], ws[|ws| - 1];
      ViewsPartition(init);
      assert ws == init + [w];
      assert multiset(ws) == multiset(init) + multiset{w};
      var m, p := MsnsAsList(init), WaypointsAsList(init);
      if w.IsMsn() {
        assert MsnsAsList(ws) == m + [w] && WaypointsAsList(ws) == p;
        assert multiset(m + [w]) == multiset(m) + multiset{w};
      } else {
        assert MsnsAsList(ws) == m && WaypointsAsList(ws) == p + [w];
        assert multiset(p + [w]) == multiset(p) + multiset{w};
      }
    }
  }

  // ---------------------------------------------------------------- sequences

  /** The distinct non-zero sequence identifiers of the plain waypoints. */
  ghost function SequenceSet(ws: seq<Waypoint>): set<int> {
    set k | 0 <= k < |ws| && !ws[k].IsMsn() && ws[k].sequence != 0 :: ws[k].sequence
  }

  /** `update_sequences`: the sequence identifiers, ascending and without duplicates. */
  function Sequences(ws: seq<Waypoint>): (r: seq<int>)
    ensures forall i, j :: 0 <= i < j < |r| ==> r[i] < r[j]
    ensures forall s :: s in r <==> s in SequenceSet(ws)
  {
    if ws == [] then []
    else
      var init := ws[..|ws| - 1];
      var w := ws[|ws| - 1];
      assert forall k :: 0 <= k < |init| ==> init[k] == ws[k];
      if !w.IsMsn() && w.sequence != 0 then InsertUnique(Sequences(init), w.sequence) else Sequences(init)
  }

  /** Adds `x` to an ascending list unless it is already there. */
  function InsertUnique(r: seq<int>, x: int): (q: seq<int>)
    requires forall i, j :: 0 <= i < j < |r| ==> r[i] < r[j]
    ensures forall i, j :: 0 <= i < j < |q| ==> q[i] < q[j]
    ensures forall y :: y in q <==> y in r || y == x
  {
    if r == [] then [x]
    else if x < r[0] then [x] + r
    else if x == r[0] then r
    else
      var q := InsertUnique(r[1..], x);
      assert forall k :: 0 <= k < |q| ==> q[k] in q && r[0] < q[k];
      [r[0]] + q
  }

  /** The 1-based positions in `ws` of the waypoints whose sequence is `s`, ascending. */
  function PositionsOf(ws: seq<Waypoint>, s: int): (r: seq<int>)
    ensures forall k :: 0 <= k < |r| ==> 1 <= r[k] <= |ws| && ws[r[k] - 1].sequence == s
    ensures forall i, j :: 0 <= i < j < |r| ==> r[i] < r[j]
    ensures forall p :: 1 <= p <= |ws| && ws[p - 1].sequence == s ==> p in r
  {
    if ws == [] then []
    else
      var init := PositionsOf(ws[..|ws| - 1], s);
      if ws[|ws| - 1].sequence == s then init + [|ws|] else init
  }

  /**
   * `sequences_dict`: for each sequence identifier, the ascending 1-based positions in
   * `waypoints_as_list` of its waypoints.
   */
  function SequencesDict(ws: seq<Waypoint>): (d: map<int, seq<int>>)
    ensures forall s :: s in d <==> s in SequenceSet(ws)
  {
    map s | s in Sequences(ws) :: PositionsOf(WaypointsAsList(ws), s)
  }

  /**
   * `sequences_dict.items()` in the dictionary's order: the identifiers ascending, each with
   * its positions.
   */
  function SequenceItems(ws: seq<Waypoint>): (items: seq<(int, seq<int>)>)
    ensures |items| == |Sequences(ws)|
    ensures forall k :: 0 <= k < |items| ==>
      items[k].0 == Sequences(ws)[k] && items[k].0 in SequencesDict(ws) && items[k].1 == SequencesDict(ws)[items[k].0]
  {
    seq(|Sequences(ws)|, k requires 0 <= k < |Sequences(ws)| =>
      (Sequences(ws)[k], PositionsOf(WaypointsAsList(ws), Sequences(ws)[k])))
  }

  // ---------------------------------------------------------------- grouping and numbering

  /** The group a waypoint is numbered in: MSNs per station, plain waypoints per type. */
  datatype GroupKey = StationGroup(station: int) | TypeGroup(wpType: string)

  function GroupOf(w: Waypoint): GroupKey {
    match w.kind
    case Msn(station) => StationGroup(station)
    case Plain => TypeGroup(w.wpType)
  }

  /** The members of one group, in list order. */
  function Members(ws: seq<Waypoint>, g: GroupKey): (r: seq<Waypoint>)
    ensures |r| <= |ws|
    ensures forall k :: 0 <= k < |r| ==> GroupOf(r[k]) == g
  {
    if ws == [] then []
    else
      var init := Members(ws[..|ws| - 1], g);
      if GroupOf(ws[|ws| - 1]) == g then init + [ws[|ws| - 1]] else init
  }

  /** `stations_dict`, built as the source's loop does: append each MSN to its station's list. */
  function StationsDict(ws: seq<Waypoint>): map<int, seq<Waypoint>> {
    if ws == [] then map[]
    else
      var d := StationsDict(ws[..|ws| - 1]);
      var w := ws[|ws| - 1];
      match w.kind
      case Msn(station) => d[station := (if station in d then d[station] else []) + [w]]
      case Plain => d
  }

  /** `waypoints_dict`, built the same way: append each plain waypoint to its type's list. */
  function WaypointsDict(ws: seq<Waypoint>): map<string, seq<Waypoint>> {
    if ws == [] then map[]
    else
      var d := WaypointsDict(ws[..|ws| - 1]);
      var w := ws[|ws| - 1];
      match w.kind
      case Msn(_) => d
      case Plain => d[w.wpType := (if w.wpType in d then d[w.wpType] else []) + [w]]
  }

  /**
   * The station dictionary holds one entry per station that has an MSN, listing that
   * station's MSNs in list order.
   */
  lemma {:induction false} StationsDictGroups(ws: seq<Waypoint>)
    ensures forall s :: s in StationsDict(ws) <==> |Members(ws, StationGroup(s))| > 0
    ensures forall s :: s in StationsDict(ws) ==> StationsDict(ws)[s] == Members(ws, StationGroup(s))
    decreases |ws|
  {
    if ws != [] {
      StationsDictGroups(ws[..|ws| - 1]);
    }
  }

  /** The type dictionary holds one entry per type that has a plain waypoint, in list order. */
  lemma {:induction false} WaypointsDictGroups(ws: seq<Waypoint>)
    ensures forall t :: t in WaypointsDict(ws) <==> |Members(ws, TypeGroup(t))| > 0
    ensures forall t :: t in WaypointsDict(ws) ==> WaypointsDict(ws)[t] == Members(ws, TypeGroup(t))
    decreases |ws|
  {
    if ws != [] {
      WaypointsDictGroups(ws[..|ws| - 1]);
    }
  }

  /**
   * The list after `update_waypoint_numbers`: each element gets one more than the number
   * of earlier elements in its group.
   */
  function Renumbered(ws: seq<Waypoint>): (r: seq<Waypoint>)
    ensures |r| == |ws|
  {
    if ws == [] then []
    else
      var init := ws[..|ws| - 1];
      var w := ws[|ws| - 1];
      Renumbered(init) + [w.(number := |Members(init, GroupOf(w))| + 1)]
  }

  lemma {:induction false} RenumberedKeepsRest(ws: seq<Waypoint>)
    ensures forall k :: 0 <= k < |ws| ==> Renumbered(ws)[k] == ws[k].(number := Renumbered(ws)[k].number)
    decreases |ws|
  {
    if ws != [] {
      RenumberedKeepsRest(ws[..|ws| - 1]);
    }
  }

  lemma {:induction false} RenumberedMembers(ws: seq<Waypoint>, g: GroupKey)
    ensures |Members(Renumbered(ws), g)| == |Members(ws, g)|
    ensures forall k :: 0 <= k < |Members(ws, g)| ==>
      Members(Renumbered(ws), g)[k] == Members(ws, g)[k].(number := k + 1)
    decreases |ws|
  {
    if ws != [] {
      var init := ws[..|ws| - 1];
      RenumberedMembers(init, g);
      var r := Renumbered(ws);
      assert r[..|r| - 1] == Renumbered(init);
    }
  }

  /**
   * After renumbering, the MSNs of each station are numbered 1..k in list order, and so are
   * the plain waypoints of each type; nothing but the numbers changes.
   */
  lemma NumberingPerGroup(ws: seq<Waypoint>)
    ensures forall k :: 0 <= k < |ws| ==> Renumbered(ws)[k] == ws[k].(number := Renumbered(ws)[k].number)
    ensures forall s, k :: s in StationsDict(Renumbered(ws)) && 0 <= k < |StationsDict(Renumbered(ws))[s]| ==>
      StationsDict(Renumbered(ws))[s][k].number == k + 1
    ensures forall t, k :: t in WaypointsDict(Renumbered(ws)) && 0 <= k < |WaypointsDict(Renumbered(ws))[t]| ==>
      WaypointsDict(Renumbered(ws))[t][k].number == k + 1
  {
    RenumberedKeepsRest(ws);
    var r := Renumbered(ws);
    StationsDictGroups(r);
    WaypointsDictGroups(r);
    forall g { RenumberedMembers(ws, g); }
  }

  /** A profile: a name, an airframe, an optional avionics setup name and its waypoints. */
  class Profile {
    var profileName: string
    var aircraft: string
    var avSetupName: Option<string>
    var waypoints: seq<Waypoint>

    /** Waypoints given at construction are renumbered straight away. */
    constructor (profileName: string, waypoints: Option<seq<Waypoint>>, aircraft: string, avSetupName: Option<string>)
      ensures this.profileName == profileName && this.aircraft == aircraft && this.avSetupName == avSetupName
      ensures this.waypoints == if waypoints.None? then [] else Renumbered(waypoints.value)
    {
      this.profileName := profileName;
      this.aircraft := aircraft;
      this.avSetupName := avSetupName;
      this.waypoints := if waypoints.None? then [] else waypoints.value;
      new;
      if waypoints.Some? {
        UpdateWaypointNumbers();
      }
    }

    /** `update_waypoint_numbers`: a per-group counter assigns 1, 2, ... in list order. */
    method UpdateWaypointNumbers()
      modifies this`waypoints
      ensures waypoints == Renumbered(old(waypoints))
    {
      ghost var orig := waypoints;
      var counts: map<GroupKey, nat> := map[];
      var i := 0;
      while i < |waypoints|
        invariant 0 <= i <= |waypoints| == |orig|
        invariant waypoints == Renumbered(orig[..i]) + orig[i..]
        invariant forall g :: (if g in counts then counts[g] else 0) == |Members(orig[..i], g)|
      {
        var w := waypoints[i];
        assert w == orig[i];
        var g := GroupOf(w);
        var n: nat := if g in counts then counts[g] else 0;
        RenumberStep(orig, i);
        waypoints := waypoints[i := w.(number := n + 1)];
        counts := counts[g := n + 1];
        forall h ensures (if h in counts then counts[h] else 0) == |Members(orig[..i + 1], h)| {
          if h != g {
            assert (if h in counts then counts[h] else 0) == |Members(orig[..i], h)|;
          }
        }
        i := i + 1;
      }
      assert orig[..i] == orig;
    }
  }

  /** One step of the renumbering loop, in terms of the prefix already done. */
  lemma RenumberStep(ws: seq<Waypoint>, i: nat)
    requires i < |ws|
    ensures Renumbered(ws[..i + 1]) == Renumbered(ws[..i]) + [ws[i].(number := |Members(ws[..i], GroupOf(ws[i]))| + 1)]
    ensures forall g :: Members(ws[..i + 1], g) == if GroupOf(ws[i]) == g then Members(ws[..i], g) + [ws[i]] else Members(ws[..i], g)
    ensures (Renumbered(ws[..i]) + ws[i..])[i := ws[i].(number := |Members(ws[..i], GroupOf(ws[i]))| + 1)]
      == Renumbered(ws[..i + 1]) + ws[i + 1..]
  {
    assert ws[..i + 1][..i] == ws[..i];
    var w := ws[i].(number := |Members(ws[..i], GroupOf(ws[i]))| + 1);
    var left := (Renumbered(ws[..i]) + ws[i..])[i := w];
    var right := Renumbered(ws[..i + 1]) + ws[i + 1..];
    assert |left| == |right|;
    forall k | 0 <= k < |left| ensures left[k] == right[k] {
      if k > i {
        assert ws[i..][k - i] == ws[i + 1..][k - i - 1];
      }
    }
  }

  /** `has_av_setup`: a non-empty name other than "DCS Default". */
  predicate HasAvSetup(avSetupName: Option<string>) {
    avSetupName.Some? && avSetupName.value != "" && avSetupName.value != "DCS Default"
  }

  // ---------------------------------------------------------------- avionics setup dictionary

  /** The four master-mode MFD setups. */
  datatype SetupMode = NavSetup | AirSetup | GndSetup | DogSetup

  /**
   * The keys of the avionics dictionary: `tacan_yard`, `f16_mfd_setup_<mode>[_dflt]`,
   * `f16_mfd_setup_opt`, `f16_cmds_setup_p<n>[_dflt]`, `f16_cmds_setup_opt`,
   * `f16_bulls_setup` and `f16_jhmcs_setup`.
   */
  datatype AvKey =
    | TacanYard
    | MfdSetup(mode: SetupMode) | MfdSetupDflt(mode: SetupMode) | MfdSetupOpt
    | CmdsSetup(program: int) | CmdsSetupDflt(program: int) | CmdsSetupOpt
    | BullsSetup | JhmcsSetup

  /** The stored columns of one avionics setup record; `None` is a NULL column. */
  datatype AvRecord = AvRecord(
    tacanYard: Option<string>,
    mfdNav: Option<string>, mfdAir: Option<string>, mfdGnd: Option<string>, mfdDog: Option<string>,
    mfdOpt: Option<bool>,
    cmdsP1: Option<string>, cmdsP2: Option<string>, cmdsP3: Option<string>,
    cmdsP4: Option<string>, cmdsP5: Option<string>, cmdsP6: Option<string>,
    cmdsOpt: Option<bool>,
    bulls: Option<string>, jhmcs: Option<string>)

  /** A dictionary value: a setup string or one of the two optimise flags. */
  datatype AvValue = Str(s: string) | Flag(b: bool)

  /** An `AvionicsSetup` with the database record it found, if any. */
  datatype AvionicsSetup = AvionicsSetup(name: Option<string>, aircraft: string, record: Option<AvRecord>)

  /**
   * Looking a setup up by name in the database (`db` maps setup names to records): no
   * lookup for a missing name or "DCS Default", and a failed lookup leaves no record.
   */
  function LoadAvionicsSetup(name: Option<string>, aircraft: string, db: map<string, AvRecord>): (a: AvionicsSetup)
    ensures a.record.Some? <==> name.Some? && name.value != "DCS Default" && name.value in db
    ensures a.record.Some? ==> a.record.value == db[name.value]
  {
    var rec := if name.Some? && name.value != "DCS Default" && name.value in db then Some(db[name.value]) else None;
    AvionicsSetup(name, aircraft, rec)
  }

  /** `Profile.av_setup`: the named setup when the profile has one, else an empty setup. */
  function ProfileAvSetup(avSetupName: Option<string>, aircraft: string, db: map<string, AvRecord>): (a: AvionicsSetup)
    ensures !HasAvSetup(avSetupName) ==> a.record.None?
    ensures HasAvSetup(avSetupName) ==> a.aircraft == aircraft && (a.record.Some? <==> avSetupName.value in db)
  {
    if HasAvSetup(avSetupName) then LoadAvionicsSetup(avSetupName, aircraft, db)
    else LoadAvionicsSetup(None, "viper", db)
  }

  const NavDflt := "20,9,8,6,7,1"
  const AirDflt := "20,10,9,6,7,1"
  const GndDflt := "20,10,9,6,7,1"
  const DogDflt := "20,1,1,6,1,1"
  const P1Dflt := "1,0.020,10,1.00;1,0.020,10,1.00"
  const P2Dflt := "1,0.020,10,0.50;1,0.020,10,0.50"
  const P3Dflt := "2,0.100,5,1.00;2,0.100,5,1.00"
  const P4Dflt := "2,0.100,5,0.50;2,0.100,5,0.50"
  const P5Dflt := "2,0.050,20,0.75;2,0.050,20,0.75"
  const P6Dflt := "1,0.020,1,0.50;1,0.020,1,0.50"

  /** The ten entries every non-empty dictionary carries: the DCS defaults of each setup. */
  function DefaultEntry(k: AvKey): Option<AvValue> {
    match k
    case MfdSetupDflt(NavSetup) => Some(Str(NavDflt))
    case MfdSetupDflt(AirSetup) => Some(Str(AirDflt))
    case MfdSetupDflt(GndSetup) => Some(Str(GndDflt))
    case MfdSetupDflt(DogSetup) => Some(Str(DogDflt))
    case CmdsSetupDflt(p) =>
      if p == 1 then Some(Str(P1Dflt)) else if p == 2 then Some(Str(P2Dflt))
      else if p == 3 then Some(Str(P3Dflt)) else if p == 4 then Some(Str(P4Dflt))
      else if p == 5 then Some(Str(P5Dflt)) else if p == 6 then Some(Str(P6Dflt))
      else None
    case _ => None
  }

  /** The record column behind a key, as a dictionary value, or `None` for a NULL column. */
  function Column(m: AvRecord, k: AvKey): Option<AvValue> {
    match k
    case TacanYard => StrColumn(m.tacanYard)
    case MfdSetup(NavSetup) => StrColumn(m.mfdNav)
    case MfdSetup(AirSetup) => StrColumn(m.mfdAir)
    case MfdSetup(GndSetup) => StrColumn(m.mfdGnd)
    case MfdSetup(DogSetup) => StrColumn(m.mfdDog)
    case MfdSetupOpt => FlagColumn(m.mfdOpt)
    case CmdsSetup(p) =>
      if p == 1 then StrColumn(m.cmdsP1) else if p == 2 then StrColumn(m.cmdsP2)
      else if p == 3 then StrColumn(m.cmdsP3) else if p == 4 then StrColumn(m.cmdsP4)
      else if p == 5 then StrColumn(m.cmdsP5) else if p == 6 then StrColumn(m.cmdsP6)
      else None
    case CmdsSetupOpt => FlagColumn(m.cmdsOpt)
    case BullsSetup => StrColumn(m.bulls)
    case JhmcsSetup => StrColumn(m.jhmcs)
    case _ => None
  }

  function StrColumn(v: Option<string>): Option<AvValue> {
    if v.Some? then Some(Str(v.value)) else None
  }

  function FlagColumn(v: Option<bool>): Option<AvValue> {
    if v.Some? then Some(Flag(v.value)) else None
  }

  /** The stored columns in the order `to_dict` copies them. */
  const StoredKeys: seq<AvKey> := [
    TacanYard, MfdSetup(NavSetup), MfdSetup(AirSetup), MfdSetup(GndSetup), MfdSetup(DogSetup), MfdSetupOpt,
    CmdsSetup(1), CmdsSetup(2), CmdsSetup(3), CmdsSetup(4), CmdsSetup(5), CmdsSetup(6), CmdsSetupOpt,
    BullsSetup, JhmcsSetup]

  /** The ten defaults, keyed. */
  function DefaultsDict(): (d: map<AvKey, AvValue>)
    ensures forall k :: k in d <==> DefaultEntry(k).Some?
    ensures forall k :: k in d ==> Some(d[k]) == DefaultEntry(k)
  {
    var d := map[
      MfdSetupDflt(NavSetup) := Str(NavDflt), MfdSetupDflt(AirSetup) := Str(AirDflt),
      MfdSetupDflt(GndSetup) := Str(GndDflt), MfdSetupDflt(DogSetup) := Str(DogDflt),
      CmdsSetupDflt(1) := Str(P1Dflt), CmdsSetupDflt(2) := Str(P2Dflt), CmdsSetupDflt(3) := Str(P3Dflt),
      CmdsSetupDflt(4) := Str(P4Dflt), CmdsSetupDflt(5) := Str(P5Dflt), CmdsSetupDflt(6) := Str(P6Dflt)];
    assert forall k :: DefaultEntry(k).Some? ==> k in d by {
      forall k | DefaultEntry(k).Some? ensures k in d {
        if k.CmdsSetupDflt? {
          assert 1 <= k.program <= 6;
        }
      }
    }
    d
  }

  /** Copies each listed column into the dictionary when it is not NULL. */
  function CopyColumns(d: map<AvKey, AvValue>, m: AvRecord, keys: seq<AvKey>): (r: map<AvKey, AvValue>)
    ensures forall k :: k in r <==> k in d || (k in keys && Column(m, k).Some?)
    ensures forall k :: k in r ==> r[k] == if k in keys && Column(m, k).Some? then Column(m, k).value else d[k]
    decreases |keys|
  {
    if keys == [] then d
    else
      var c := Column(m, keys[0]);
      CopyColumns(if c.Some? then d[keys[0] := c.value] else d, m, keys[1..])
  }

  /** `d` holds the defaults and the non-NULL columns of `m`: each key for its default or its column, the default first. */
  ghost predicate ColumnsOver(m: AvRecord, d: map<AvKey, AvValue>) {
    forall k :: (k in d <==> DefaultEntry(k).Some? || Column(m, k).Some?)
      && (k in d ==> Some(d[k]) == if DefaultEntry(k).Some? then DefaultEntry(k) else Column(m, k))
  }

  /**
   * `to_dict`: empty unless there is a record and the airframe is "viper"; then the ten
   * defaults, always, and each stored column exactly when it is not NULL.
   */
  function ToDict(a: AvionicsSetup): (d: map<AvKey, AvValue>)
    ensures a.record.None? || a.aircraft != "viper" ==> d == map[]
    ensures a.record.Some? && a.aircraft == "viper" ==> ColumnsOver(a.record.value, d)
  {
    if a.record.None? || a.aircraft != "viper" then map[]
    else
      ColumnsOverDefaults(a.record.value);
      CopyColumns(DefaultsDict(), a.record.value, StoredKeys)
  }

  /** Copying the stored columns over the defaults gives the dictionary `to_dict` promises. */
  lemma ColumnsOverDefaults(m: AvRecord)
    ensures ColumnsOver(m, CopyColumns(DefaultsDict(), m, StoredKeys))
  {
    forall k | Column(m, k).Some? ensures k in StoredKeys {
      ColumnKey(m, k);
    }
    ColumnsOverCopy(m, StoredKeys);
  }

  /** Copying over the defaults any list of keys that holds every non-NULL column. */
  lemma ColumnsOverCopy(m: AvRecord, keys: seq<AvKey>)
    requires forall k :: Column(m, k).Some? ==> k in keys
    ensures ColumnsOver(m, CopyColumns(DefaultsDict(), m, keys))
  {
    var d := CopyColumns(DefaultsDict(), m, keys);
    forall k
      ensures (k in d <==> DefaultEntry(k).Some? || Column(m, k).Some?)
        && (k in d ==> Some(d[k]) == if DefaultEntry(k).Some? then DefaultEntry(k) else Column(m, k))
    {
      ColumnKey(m, k);
    }
  }

  /** Only the fifteen stored keys have a column, and none of them is a default key. */
  lemma ColumnKey(m: AvRecord, k: AvKey)
    ensures Column(m, k).Some? ==> k in StoredKeys && DefaultEntry(k).None?
    ensures DefaultEntry(k).Some? ==> Column(m, k).None?
  {
    match k
    case MfdSetupDflt(_) =>
    case CmdsSetupDflt(_) =>
    case TacanYard => assert k == StoredKeys[0];
    case MfdSetup(mode) =>
      match mode {
        case NavSetup => assert k == StoredKeys[1];
        case AirSetup => assert k == StoredKeys[2];
        case GndSetup => assert k == StoredKeys[3];
        case DogSetup => assert k == StoredKeys[4];
      }
    case MfdSetupOpt => assert k == StoredKeys[5];
    case CmdsSetup(p) => if 1 <= p <= 6 { assert k == StoredKeys[5 + p]; }
    case CmdsSetupOpt => assert k == StoredKeys[12];
    case BullsSetup => assert k == StoredKeys[13];
    case JhmcsSetup => assert k == StoredKeys[14];
  }
}
