/**
 * The F-16C avionics setup editor: the MFD format rows, the TACAN yardstick, the JHMCS
 * options and the CMDS quantities, as the editor reads them from its window and writes
 * them back. The window's values are two maps, text widgets and checkboxes, by key.
 */
module ViperSetup {
  import opened Wrappers
  import opened Text
  import opened Actuations
  import opened Runs
  import opened Viper

  // ---------------------------------------------------------------- MFD formats

  /** `mfd_format_map`: each format's UI text and the OSB that selects it on the format page, in the table's order. */
  function FormatEntries(): seq<(string, int)> {
    [("", 1), ("DTE", 8), ("FCR", 20), ("FLCS", 10), ("HAD", 2), ("HSD", 7), ("SMS", 6), ("TEST", 9), ("TGP", 19), ("WPN", 18)]
  }

  /** A lookup in a table of entries, `None` for the `KeyError` of a missing key. */
  function Lookup(entries: seq<(string, int)>, text: string): (r: Option<int>)
    ensures r.Some? <==> exists k :: 0 <= k < |entries| && entries[k].0 == text
    ensures r.Some? ==> exists k :: 0 <= k < |entries| && entries[k] == (text, r.value)
  {
    if entries == [] then None
    else if entries[0].0 == text then Some(entries[0].1)
    else
      var r := Lookup(entries[1..], text);
      assert forall k :: 1 <= k < |entries| ==> entries[k] == entries[1..][k - 1];
      r
  }

  /** `[k for k, v in mfd_format_map.items() if v == osb]`: the texts mapped to an OSB, in table order. */
  function Hits(entries: seq<(string, int)>, osb: int): (hits: seq<string>)
    ensures |hits| <= |entries|
  {
    if entries == [] then []
    else (if entries[0].1 == osb then [entries[0].0] else []) + Hits(entries[1..], osb)
  }

  /** An entry whose value is unique is the only hit for that value. */
  lemma {:induction false} HitsUnique(entries: seq<(string, int)>, k: nat)
    requires k < |entries|
    requires forall i :: 0 <= i < |entries| && i != k ==> entries[i].1 != entries[k].1
    ensures Hits(entries, entries[k].1) == [entries[k].0]
    decreases |entries|
  {
    if k > 0 {
      HitsUnique(entries[1..], k - 1);
    } else {
      HitsNone(entries[1..], entries[0].1);
    }
  }

  /** An OSB no entry holds has no hits. */
  lemma {:induction false} HitsNone(entries: seq<(string, int)>, osb: int)
    requires forall i :: 0 <= i < |entries| ==> entries[i].1 != osb
    ensures Hits(entries, osb) == []
    decreases |entries|
  {
    if entries != [] {
      HitsNone(entries[1..], osb);
    }
  }

  /** `mfd_format_map[text]`. */
  function FormatOsb(text: string): Option<int> {
    Lookup(FormatEntries(), text)
  }

  /** The format shown for an OSB: the first text mapped to it, or "" when none is. */
  function FormatOfOsb(osb: int): string {
    var hits := Hits(FormatEntries(), osb);
    if |hits| == 0 then "" else hits[0]
  }

  /** The OSBs of the formats. */
  predicate IsFormatOsb(osb: int) {
    exists k :: 0 <= k < |FormatEntries()| && FormatEntries()[k].1 == osb
  }

  /** The position of a format's text in the table. */
  function FormatCode(text: string): int {
    if text == "" then 0 else if text == "DTE" then 1 else if text == "FCR" then 2
    else if text == "FLCS" then 3 else if text == "HAD" then 4 else if text == "HSD" then 5
    else if text == "SMS" then 6 else if text == "TEST" then 7 else if text == "TGP" then 8
    else if text == "WPN" then 9 else -1
  }

  /** No two formats share a text. */
  lemma FormatTextsDistinct()
    ensures forall i, j :: 0 <= i < |FormatEntries()| && 0 <= j < |FormatEntries()| && i != j ==> FormatEntries()[i].0 != FormatEntries()[j].0
  {
    var e := FormatEntries();
    forall i | 0 <= i < |e| ensures FormatCode(e[i].0) == i { }
  }

  /** A text of the table looks up the OSB next to it. */
  lemma {:induction false} LookupUnique(entries: seq<(string, int)>, k: nat)
    requires k < |entries|
    requires forall i :: 0 <= i < |entries| && i != k ==> entries[i].0 != entries[k].0
    ensures Lookup(entries, entries[k].0) == Some(entries[k].1)
    decreases |entries|
  {
    if k > 0 {
      LookupUnique(entries[1..], k - 1);
    }
  }

  /** No two formats share an OSB. */
  lemma FormatOsbsDistinct()
    ensures forall i, j :: 0 <= i < j < |FormatEntries()| ==> FormatEntries()[i].1 != FormatEntries()[j].1
  {
  }

  /** A format's OSB shows that format again: the table is injective. */
  lemma FormatRoundTrip(text: string)
    requires FormatOsb(text).Some?
    ensures FormatOfOsb(FormatOsb(text).value) == text
  {
    var e := FormatEntries();
    var k :| 0 <= k < |e| && e[k] == (text, FormatOsb(text).value);
    FormatOsbsDistinct();
    HitsUnique(e, k);
  }

  /** The OSB of a format is looked up back from the format's text; any other OSB shows "". */
  lemma OsbRoundTrip(osb: int)
    ensures IsFormatOsb(osb) ==> FormatOsb(FormatOfOsb(osb)) == Some(osb)
    ensures !IsFormatOsb(osb) ==> FormatOfOsb(osb) == ""
  {
    var e := FormatEntries();
    if IsFormatOsb(osb) {
      var k :| 0 <= k < |e| && e[k].1 == osb;
      FormatOsbsDistinct();
      HitsUnique(e, k);
      FormatTextsDistinct();
      LookupUnique(e, k);
    } else {
      HitsNone(e, osb);
    }
  }

  // ---------------------------------------------------------------- MFD rows

  /** The slot suffixes of a row, in the order the formats appear left to right. */
  function MfdSuffixes(): seq<string> {
    ["_l14", "_l13", "_l12", "_r14", "_r13", "_r12"]
  }

  /** The window key of slot `i` of the row `base`. */
  function SlotKey(base: string, i: nat): string
    requires i < 6
  {
    base + MfdSuffixes()[i]
  }

  /** The window key of the row's checkbox. */
  function CheckKey(base: string): string {
    base + "_ckbx"
  }

  /** The six slots of a row have six different keys. */
  lemma SlotKeysDistinct(base: string, i: nat, j: nat)
    requires i < 6 && j < 6 && i != j
    ensures SlotKey(base, i) != SlotKey(base, j)
  {
    assert SlotKey(base, i)[|base|..] == MfdSuffixes()[i];
    assert SlotKey(base, j)[|base|..] == MfdSuffixes()[j];
  }

  /** `mfd_default_setup_map`: the formats DCS gives each mode, or `None` for the `KeyError` of another row. */
  function MfdDefaults(base: string): Option<seq<int>> {
    if base == "ux_nav" then Some([20, 9, 8, 6, 7, 1])
    else if base == "ux_air" || base == "ux_gnd" then Some([20, 10, 9, 6, 7, 1])
    else if base == "ux_dog" then Some([20, 1, 1, 6, 1, 1])
    else None
  }

  /** The OSBs of the first `n` slots, or `None` for a missing slot or a text that is not a format. */
  function RowOsbs(texts: map<string, string>, base: string, n: nat): (r: Option<seq<int>>)
    requires n <= 6
    ensures r.Some? ==> |r.value| == n
    ensures r.Some? ==> forall i :: 0 <= i < n ==> SlotKey(base, i) in texts && FormatOsb(texts[SlotKey(base, i)]) == Some(r.value[i])
    ensures r.None? ==> exists i :: 0 <= i < n && (SlotKey(base, i) !in texts || FormatOsb(texts[SlotKey(base, i)]).None?)
  {
    if n == 0 then Some([])
    else
      var init := RowOsbs(texts, base, n - 1);
      var k := SlotKey(base, n - 1);
      if init.None? || k !in texts || FormatOsb(texts[k]).None? then None
      else Some(init.value + [FormatOsb(texts[k]).value])
  }

  /** `str(item)` for each item. */
  function Strs(osbs: seq<int>): (r: seq<string>)
    ensures |r| == |osbs| && forall i :: 0 <= i < |osbs| ==> r[i] == IntToString(osbs[i])
  {
    seq(|osbs|, i requires 0 <= i < |osbs| => IntToString(osbs[i]))
  }

  /**
   * `get_gui_mfd_row`: `None` when the row's checkbox is off, else the six OSBs of the
   * slots' formats joined with commas; a missing key raises.
   */
  function GetMfdRow(checks: map<string, bool>, texts: map<string, string>, base: string): (r: Result<Option<string>, string>)
    ensures CheckKey(base) !in checks ==> r.Err?
    ensures CheckKey(base) in checks && !checks[CheckKey(base)] ==> r == Ok(None)
    ensures CheckKey(base) in checks && checks[CheckKey(base)] ==> (r.Ok? <==> RowOsbs(texts, base, 6).Some?)
    ensures r.Ok? && r.value.Some? ==> ParseInts(Split(r.value.value, ',')) == RowOsbs(texts, base, 6)
  {
    if CheckKey(base) !in checks then Err("KeyError")
    else if !checks[CheckKey(base)] then Ok(None)
    else
      var osbs := RowOsbs(texts, base, 6);
      if osbs.None? then Err("KeyError")
      else
        JoinParses(osbs.value);
        Ok(Some(Join(Strs(osbs.value), ',')))
  }

  /** A list of integers joined with commas parses back to the list. */
  lemma JoinParses(osbs: seq<int>)
    requires |osbs| >= 1
    ensures ParseInts(Split(Join(Strs(osbs), ','), ',')) == Some(osbs)
  {
    forall k | 0 <= k < |osbs| ensures ',' !in Strs(osbs)[k] {
      IntToStringNoComma(osbs[k]);
    }
    SplitJoin(Strs(osbs), ',');
    ParseStrs(osbs);
  }

  lemma {:induction false} ParseStrs(osbs: seq<int>)
    ensures ParseInts(Strs(osbs)) == Some(osbs)
    decreases |osbs|
  {
    if osbs != [] {
      var n := |osbs| - 1;
      ParseStrs(osbs[..n]);
      assert Strs(osbs)[..n] == Strs(osbs[..n]);
      IntToStringRoundTrip(osbs[n]);
      assert osbs[..n] + [osbs[n]] == osbs;
    }
  }

  /** The OSBs `set_gui_mfd_row` shows: the row's defaults for `None`, else the integers of the text. */
  function RowList(base: string, value: Option<string>): Option<seq<int>> {
    if value.None? then MfdDefaults(base) else ParseInts(Split(value.value, ','))
  }

  /** The texts after the first `n` slots show the formats of `osbs`. */
  function ShowRow(texts: map<string, string>, base: string, osbs: seq<int>, n: nat): map<string, string>
    requires n <= 6 && n <= |osbs|
  {
    if n == 0 then texts else ShowRow(texts, base, osbs, n - 1)[SlotKey(base, n - 1) := FormatOfOsb(osbs[n - 1])]
  }

  /** What `ShowRow` shows, slot by slot, and that it leaves every other key alone. */
  lemma {:induction false} ShowRowAt(texts: map<string, string>, base: string, osbs: seq<int>, n: nat)
    requires n <= 6 && n <= |osbs|
    ensures forall i :: 0 <= i < n ==> SlotKey(base, i) in ShowRow(texts, base, osbs, n)
    ensures forall i :: 0 <= i < n ==> ShowRow(texts, base, osbs, n)[SlotKey(base, i)] == FormatOfOsb(osbs[i])
    ensures forall k :: k in texts ==> k in ShowRow(texts, base, osbs, n)
    ensures forall k :: k in texts && (forall i :: 0 <= i < n ==> k != SlotKey(base, i)) ==> ShowRow(texts, base, osbs, n)[k] == texts[k]
    decreases n
  {
    if n > 0 {
      ShowRowAt(texts, base, osbs, n - 1);
      forall i | 0 <= i < n - 1 ensures SlotKey(base, i) != SlotKey(base, n - 1) {
        SlotKeysDistinct(base, i, n - 1);
      }
    }
  }

  /** A row shown from six format OSBs reads back as those OSBs. */
  lemma ShowRowReads(texts: map<string, string>, base: string, osbs: seq<int>)
    requires |osbs| == 6 && forall i :: 0 <= i < 6 ==> IsFormatOsb(osbs[i])
    ensures RowOsbs(ShowRow(texts, base, osbs, 6), base, 6) == Some(osbs)
  {
    ShowRowAt(texts, base, osbs, 6);
    SlotsReadBack(ShowRow(texts, base, osbs, 6), base, osbs);
  }

  /** Slots that show the formats of six format OSBs read back as those OSBs. */
  lemma SlotsReadBack(t: map<string, string>, base: string, osbs: seq<int>)
    requires |osbs| == 6 && forall i :: 0 <= i < 6 ==> IsFormatOsb(osbs[i])
    requires forall i :: 0 <= i < 6 ==> SlotKey(base, i) in t && t[SlotKey(base, i)] == FormatOfOsb(osbs[i])
    ensures RowOsbs(t, base, 6) == Some(osbs)
  {
    forall i | 0 <= i < 6 ensures FormatOsb(t[SlotKey(base, i)]) == Some(osbs[i]) {
      OsbRoundTrip(osbs[i]);
    }
    RowOsbsAll(t, base, osbs, 6);
    assert osbs[..6] == osbs;
  }

  lemma {:induction false} RowOsbsAll(texts: map<string, string>, base: string, osbs: seq<int>, n: nat)
    requires n <= 6 && n <= |osbs|
    requires forall i :: 0 <= i < n ==> SlotKey(base, i) in texts && FormatOsb(texts[SlotKey(base, i)]) == Some(osbs[i])
    ensures RowOsbs(texts, base, n) == Some(osbs[..n])
    decreases n
  {
    if n > 0 {
      RowOsbsAll(texts, base, osbs, n - 1);
      assert osbs[..n - 1] + [osbs[n - 1]] == osbs[..n];
    }
  }

  /**
   * Setting a row from a six-entry text of format OSBs and reading it back gives the same
   * text: the checkbox is set, the text parses to the OSBs, and the slots show their formats.
   */
  lemma MfdRowRoundTrip(checks: map<string, bool>, texts: map<string, string>, base: string, osbs: seq<int>)
    requires |osbs| == 6 && forall i :: 0 <= i < 6 ==> IsFormatOsb(osbs[i])
    ensures var csv := Join(Strs(osbs), ',');
      RowList(base, Some(csv)) == Some(osbs)
      && GetMfdRow(checks[CheckKey(base) := true], ShowRow(texts, base, osbs, 6), base) == Ok(Some(csv))
  {
    JoinParses(osbs);
    ShowRowReads(texts, base, osbs);
  }

  /** Setting a row to `None` clears its checkbox, so reading it back gives `None` again. */
  lemma MfdRowNone(checks: map<string, bool>, texts: map<string, string>, base: string)
    requires MfdDefaults(base).Some?
    ensures RowList(base, None) == MfdDefaults(base) && |MfdDefaults(base).value| == 6
    ensures GetMfdRow(checks[CheckKey(base) := false], texts, base) == Ok(None)
  {
  }

  /** The slots after `update_gui_unique_mfd_row` has visited the first `n`. */
  function Uniqued(values: map<string, string>, key: string, base: string, n: nat): map<string, string>
    requires n <= 6 && key in values && forall i :: 0 <= i < 6 ==> SlotKey(base, i) in values
  {
    if n == 0 then values
    else
      var m := Uniqued(values, key, base, n - 1);
      var rowKey := SlotKey(base, n - 1);
      if rowKey != key && values[rowKey] == values[key] then m[rowKey := ""] else m
  }

  /**
   * After the update, a slot other than the changed one is cleared exactly when it held the
   * changed slot's format, so no other slot holds that format unless it is the empty one;
   * every other key keeps its text.
   */
  lemma {:induction false} UniquedSlots(values: map<string, string>, key: string, base: string, n: nat)
    requires n <= 6 && key in values && forall i :: 0 <= i < 6 ==> SlotKey(base, i) in values
    ensures Uniqued(values, key, base, n).Keys == values.Keys
    ensures forall i :: 0 <= i < n ==>
      Uniqued(values, key, base, n)[SlotKey(base, i)]
        == if SlotKey(base, i) != key && values[SlotKey(base, i)] == values[key] then "" else values[SlotKey(base, i)]
    ensures forall k :: k in values && (forall i :: 0 <= i < n ==> k != SlotKey(base, i)) ==> Uniqued(values, key, base, n)[k] == values[k]
    ensures values[key] != "" ==> forall i :: 0 <= i < n && SlotKey(base, i) != key ==> Uniqued(values, key, base, n)[SlotKey(base, i)] != values[key]
    decreases n
  {
    if n > 0 {
      UniquedSlots(values, key, base, n - 1);
      forall i | 0 <= i < n - 1 ensures SlotKey(base, i) != SlotKey(base, n - 1) {
        SlotKeysDistinct(base, i, n - 1);
      }
    }
  }

  // ---------------------------------------------------------------- TACAN

  /** The TACAN widgets: the checkbox, the channel text, the band and the role ("Flight Lead" or "Wingman"). */
  datatype TacanUi = TacanUi(on: bool, chan: string, xy: string, role: string)

  /** `copy_tacan_ui_to_dbase`: `None` when off, else "chan,xy,L|W"; `None` outside for the `ValueError` of a channel that is not an integer. */
  function EncodeTacan(ui: TacanUi): (r: Option<Option<string>>)
    ensures r.None? <==> ui.on && ParseInt(ui.chan).None?
    ensures r == Some(None) <==> !ui.on
  {
    if !ui.on then Some(None)
    else
      var chan := ParseInt(ui.chan);
      if chan.None? then None
      else Some(Some(IntToString(chan.value) + "," + ui.xy + "," + (if ui.role == "Flight Lead" then "L" else "W")))
  }

  /** `copy_tacan_core_to_ui`: the defaults for `None`; `None` outside for the `IndexError` of fewer than three fields. */
  function DecodeTacan(yard: Option<string>): (r: Option<TacanUi>)
    ensures yard.None? ==> r == Some(TacanUi(false, "1", "X", "Flight Lead"))
    ensures yard.Some? ==> (r.Some? <==> |Split(yard.value, ',')| >= 3)
  {
    if yard.None? then Some(TacanUi(false, "1", "X", "Flight Lead"))
    else
      var f := Split(yard.value, ',');
      if |f| < 3 then None
      else Some(TacanUi(true, f[0], f[1], if f[2] == "L" then "Flight Lead" else "Wingman"))
  }

  /** The yardstick text for a channel, band and role letter. */
  function Yardstick(chan: int, xy: string, lw: string): string {
    IntToString(chan) + "," + xy + "," + lw
  }

  lemma SplitYardstick(chan: int, xy: string, lw: string)
    requires ',' !in xy && ',' !in lw
    ensures Split(Yardstick(chan, xy, lw), ',') == [IntToString(chan), xy, lw]
  {
    var c := IntToString(chan);
    IntToStringNoComma(chan);
    SplitNoSep(c, ',');
    SplitAfterSep(c, xy, ',');
    SplitAfterSep(c + [','] + xy, lw, ',');
    assert Yardstick(chan, xy, lw) == c + [','] + xy + [','] + lw;
  }

  /**
   * Saving the widgets and loading them back turns the checkbox on and gives the channel
   * in canonical form, the same band, and the role as one of the two choices, "Flight
   * Lead" exactly when it was "Flight Lead".
   */
  lemma TacanUiRoundTrip(ui: TacanUi)
    requires ui.on && ParseInt(ui.chan).Some? && ',' !in ui.xy
    ensures DecodeTacan(EncodeTacan(ui).value)
            == Some(TacanUi(true, IntToString(ParseInt(ui.chan).value), ui.xy, if ui.role == "Flight Lead" then "Flight Lead" else "Wingman"))
  {
    SplitYardstick(ParseInt(ui.chan).value, ui.xy, if ui.role == "Flight Lead" then "L" else "W");
  }

  /** Loading a yardstick into the widgets and saving them gives the same yardstick back. */
  lemma TacanYardRoundTrip(chan: int, xy: string, lw: string)
    requires ',' !in xy && (lw == "L" || lw == "W")
    ensures DecodeTacan(Some(Yardstick(chan, xy, lw))).Some?
    ensures EncodeTacan(DecodeTacan(Some(Yardstick(chan, xy, lw))).value) == Some(Some(Yardstick(chan, xy, lw)))
  {
    SplitYardstick(chan, xy, lw);
    IntToStringRoundTrip(chan);
  }

  /**
   * A saved yardstick is entered by `enter_tacan` without raising: its band, then the
   * channel `TacanChannel` gives for the saved role, 63 above the typed one for a wingman.
   */
  lemma SavedTacanEntered(ui: TacanUi)
    requires ui.on && ParseInt(ui.chan).Some? && ',' !in ui.xy
    ensures var chan := ParseInt(ui.chan).value;
      var lw := if ui.role == "Flight Lead" then "L" else "W";
      TacanSteps(EncodeTacan(ui).value.value)
        == Acts(TacanOpen()) + (Acts(BandKeys(ui.xy) + DataDn()) + Acts(ChannelKeys(TacanChannel(chan, lw))))
  {
    var chan := ParseInt(ui.chan).value;
    var lw := if ui.role == "Flight Lead" then "L" else "W";
    TacanOfYardstick(chan, ui.xy, lw);
    assert EncodeTacan(ui).value.value == IntToString(chan) + "," + ui.xy + "," + lw;
  }

  /** `update_gui_enable_tacan_row`'s summary: a wingman's channel is shown 63 higher, a lead's as typed. */
  function TacanSummary(ui: TacanUi): (r: Option<string>)
    ensures !ui.on ==> r == Some("")
    ensures ui.on && ui.role != "Wingman" ==> r.Some?
    ensures ui.on && ui.role == "Wingman" ==> (r.Some? <==> ParseInt(ui.chan).Some?)
  {
    if !ui.on then Some("")
    else
      var chan := if ui.role == "Wingman" then (var c := ParseInt(ui.chan); if c.None? then None else Some(IntToString(c.value + 63)))
                  else Some(ui.chan);
      if chan.None? then None
      else Some(" (setup will program TACAN to " + chan.value + ui.xy + " A/A)")
  }

  /** For a channel in canonical form, the summary shows the channel `enter_tacan` types. */
  lemma SummaryShowsEnteredChannel(chan: int, xy: string, role: string)
    requires role == "Flight Lead" || role == "Wingman"
    ensures TacanSummary(TacanUi(true, IntToString(chan), xy, role))
            == Some(" (setup will program TACAN to " + IntToString(TacanChannel(chan, if role == "Flight Lead" then "L" else "W")) + xy + " A/A)")
  {
    IntToStringRoundTrip(chan);
  }

  /** The channels `do_tacan_chan` accepts: integers from 1 to 63. */
  predicate ValidChan(s: string) {
    ParseInt(s).Some? && 1 <= ParseInt(s).value <= 63
  }

  /** An accepted channel saves, and the driver enters it as 1 to 63 for a lead and 64 to 126 for a wingman. */
  lemma AcceptedChannel(s: string, xy: string, role: string)
    requires ValidChan(s)
    ensures EncodeTacan(TacanUi(true, s, xy, role)).Some?
    ensures var c := ParseInt(s).value;
      1 <= TacanChannel(c, "L") <= 63 && 64 <= TacanChannel(c, "W") <= 126
  {
  }

  // ---------------------------------------------------------------- JHMCS and bullseye

  /** The declutter choices, in the order of their stored levels 0, 1, 2. */
  function DcLevels(): seq<string> {
    ["Level 1 (Show All Content)", "Level 2 (Hide Heading, Waypoint, Altitude)", "Level 3 (Show Mode Only)"]
  }

  /** `jhmcs_dc_setup_map[text]`, `None` for the `KeyError` of another text. */
  function DcLevel(text: string): (r: Option<nat>)
    ensures r.Some? ==> r.value < 3 && DcLevels()[r.value] == text
    ensures r.None? ==> text !in DcLevels()
  {
    if text == DcLevels()[0] then Some(0)
    else if text == DcLevels()[1] then Some(1)
    else if text == DcLevels()[2] then Some(2)
    else None
  }

  /** `int(b)` for a checkbox. */
  function BoolInt(b: bool): int {
    if b then 1 else 0
  }

  /** The JHMCS widgets: the two blanking checkboxes, the RWR checkbox and the declutter level. */
  datatype JhmcsUi = JhmcsUi(hud: bool, pit: bool, rwr: bool, dc: int)

  /** The stored text of the JHMCS widgets. */
  function JhmcsText(hud: bool, pit: bool, rwr: bool, dc: nat): string {
    IntToString(BoolInt(hud)) + "," + IntToString(BoolInt(pit)) + "," + IntToString(BoolInt(rwr)) + "," + IntToString(dc)
  }

  /**
   * `copy_f16_misc_ui_to_dbase`'s JHMCS part: "hud,pit,rwr,dc", stored as `None` when it is the
   * all-default "1,1,1,0"; `None` outside for an unknown declutter text.
   */
  function EncodeJhmcs(hud: bool, pit: bool, rwr: bool, dcText: string): (r: Option<Option<string>>)
    ensures r.None? <==> DcLevel(dcText).None?
    ensures r == Some(None) <==> hud && pit && rwr && dcText == DcLevels()[0]
    ensures r.Some? && r.value.Some? ==> r.value.value == JhmcsText(hud, pit, rwr, DcLevel(dcText).value)
  {
    var dc := DcLevel(dcText);
    if dc.None? then None
    else
      var s := JhmcsText(hud, pit, rwr, dc.value);
      JhmcsTextDefault(hud, pit, rwr, dc.value);
      if s != "1,1,1,0" then Some(Some(s)) else Some(None)
  }

  /** Python's `str` of a single digit. */
  lemma DigitString(x: int)
    requires 0 <= x < 10
    ensures IntToString(x) == [DigitChar(x)]
  {
  }

  /** The stored text is the all-default "1,1,1,0" exactly for all three checkboxes on at level 0. */
  lemma JhmcsTextDefault(hud: bool, pit: bool, rwr: bool, dc: nat)
    requires dc < 3
    ensures JhmcsText(hud, pit, rwr, dc) == "1,1,1,0" <==> hud && pit && rwr && dc == 0
  {
    DigitString(BoolInt(hud));
    DigitString(BoolInt(pit));
    DigitString(BoolInt(rwr));
    DigitString(dc);
    var s := JhmcsText(hud, pit, rwr, dc);
    assert s == [DigitChar(BoolInt(hud)), ',', DigitChar(BoolInt(pit)), ',', DigitChar(BoolInt(rwr)), ',', DigitChar(dc)];
  }

  /** The JHMCS checkboxes, in the order of the stored fields that set them. */
  function JhmcsBoxes(): seq<string> {
    ["ux_jhmcs_hud", "ux_jhmcs_pit", "ux_jhmcs_rwr"]
  }

  /** How many checkboxes the stored fields reach: one per field, at most three. */
  function BoxesReached(fields: seq<int>): nat {
    if |fields| < 3 then |fields| else 3
  }

  /**
   * The checkboxes once `copy_f16_misc_core_to_ui` has set them from the stored integers:
   * one box per field, in order, until the fields run out; every other entry is kept.
   */
  function JhmcsShown(checks: map<string, bool>, fields: seq<int>): (r: map<string, bool>)
    ensures forall key :: key in r <==> key in checks || key in JhmcsBoxes()[..BoxesReached(fields)]
    ensures forall key :: key in checks && key !in JhmcsBoxes()[..BoxesReached(fields)] ==> r[key] == checks[key]
    ensures forall k :: 0 <= k < BoxesReached(fields) ==> r[JhmcsBoxes()[k]] == (fields[k] != 0)
  {
    if |fields| == 0 then checks
    else
      var hud := checks["ux_jhmcs_hud" := fields[0] != 0];
      if |fields| == 1 then
        assert JhmcsBoxes()[..1] == ["ux_jhmcs_hud"];
        hud
      else
        var pit := hud["ux_jhmcs_pit" := fields[1] != 0];
        if |fields| == 2 then
          assert JhmcsBoxes()[..2] == ["ux_jhmcs_hud", "ux_jhmcs_pit"];
          pit
        else
          assert JhmcsBoxes()[..3] == JhmcsBoxes();
          pit["ux_jhmcs_rwr" := fields[2] != 0]
  }

  /** `copy_f16_misc_core_to_ui`'s JHMCS part: all on at level 0 for `None`, else the four integers; `None` when one is not an integer or missing. */
  function DecodeJhmcs(jhmcs: Option<string>): (r: Option<JhmcsUi>)
    ensures jhmcs.None? ==> r == Some(JhmcsUi(true, true, true, 0))
  {
    if jhmcs.None? then Some(JhmcsUi(true, true, true, 0))
    else
      var f := ParseInts(Split(jhmcs.value, ','));
      if f.None? || |f.value| < 4 then None
      else Some(JhmcsUi(f.value[0] != 0, f.value[1] != 0, f.value[2] != 0, f.value[3]))
  }

  lemma SplitJhmcs(hud: bool, pit: bool, rwr: bool, dc: nat)
    ensures ParseInts(Split(JhmcsText(hud, pit, rwr, dc), ',')) == Some([BoolInt(hud), BoolInt(pit), BoolInt(rwr), dc])
  {
    var v := [BoolInt(hud), BoolInt(pit), BoolInt(rwr), dc];
    var parts := Strs(v);
    assert Join(parts, ',') == JhmcsText(hud, pit, rwr, dc) by {
      assert parts[..1] == [parts[0]];
      assert Join(parts[..2], ',') == parts[0] + [','] + parts[1] by { assert parts[..2][..1] == parts[..1]; }
      assert Join(parts[..3], ',') == Join(parts[..2], ',') + [','] + parts[2] by { assert parts[..3][..2] == parts[..2]; }
      assert parts[..4] == parts;
    }
    JoinParses(v);
  }

  /** Saving the JHMCS widgets and loading them back gives the same widgets, the default included. */
  lemma JhmcsRoundTrip(hud: bool, pit: bool, rwr: bool, level: nat)
    requires level < 3
    ensures EncodeJhmcs(hud, pit, rwr, DcLevels()[level]).Some?
    ensures DecodeJhmcs(EncodeJhmcs(hud, pit, rwr, DcLevels()[level]).value) == Some(JhmcsUi(hud, pit, rwr, level))
  {
    var text := DcLevels()[level];
    assert DcLevel(text) == Some(level);
    var stored := EncodeJhmcs(hud, pit, rwr, text).value;
    if stored.Some? {
      assert stored.value == JhmcsText(hud, pit, rwr, level);
      SplitJhmcs(hud, pit, rwr, level);
    }
  }

  /** A saved JHMCS setup is entered by `enter_jhmcs` without raising: both blanking fields, the rest, RTN. */
  lemma SavedJhmcsEntered(hud: bool, pit: bool, rwr: bool, level: nat)
    requires level < 3
    ensures var f := [BoolInt(hud), BoolInt(pit), BoolInt(rwr), level];
      JhmcsSteps(JhmcsText(hud, pit, rwr, level))
        == Acts(BlankKeys(f[0])) + (Acts(BlankKeys(f[1])) + (Acts(JhmcsRest(f)) + Unit(DataRtn())))
  {
    SplitJhmcs(hud, pit, rwr, level);
  }

  /**
   * A stored setup cut to three fields, such as "1,0,1": it does not decode, yet its three
   * integers reach all three checkboxes before the missing level raises.
   */
  lemma ThreeFieldJhmcs(hud: bool, pit: bool, rwr: bool, checks: map<string, bool>)
    ensures var text := IntToString(BoolInt(hud)) + "," + IntToString(BoolInt(pit)) + "," + IntToString(BoolInt(rwr));
      && DecodeJhmcs(Some(text)).None?
      && ParseInts(Split(text, ',')) == Some([BoolInt(hud), BoolInt(pit), BoolInt(rwr)])
      && JhmcsShown(checks, [BoolInt(hud), BoolInt(pit), BoolInt(rwr)])
         == checks["ux_jhmcs_hud" := hud]["ux_jhmcs_pit" := pit]["ux_jhmcs_rwr" := rwr]
  {
    ThreeFieldsParse(hud, pit, rwr);
    ThreeBoxesShown(checks, [BoolInt(hud), BoolInt(pit), BoolInt(rwr)]);
  }

  /** Three fields set the three checkboxes, in order. */
  lemma ThreeBoxesShown(checks: map<string, bool>, fields: seq<int>)
    requires |fields| == 3
    ensures JhmcsShown(checks, fields)
            == checks["ux_jhmcs_hud" := fields[0] != 0]["ux_jhmcs_pit" := fields[1] != 0]["ux_jhmcs_rwr" := fields[2] != 0]
  {
  }

  /** Three checkbox integers joined with commas parse back to them. */
  lemma ThreeFieldsParse(hud: bool, pit: bool, rwr: bool)
    ensures ParseInts(Split(IntToString(BoolInt(hud)) + "," + IntToString(BoolInt(pit)) + "," + IntToString(BoolInt(rwr)), ','))
            == Some([BoolInt(hud), BoolInt(pit), BoolInt(rwr)])
  {
    var v := [BoolInt(hud), BoolInt(pit), BoolInt(rwr)];
    var parts := Strs(v);
    assert Join(parts, ',') == IntToString(BoolInt(hud)) + "," + IntToString(BoolInt(pit)) + "," + IntToString(BoolInt(rwr)) by {
      assert parts[..1] == [parts[0]];
      assert Join(parts[..2], ',') == parts[0] + [','] + parts[1] by { assert parts[..2][..1] == parts[..1]; }
      assert parts[..3] == parts;
    }
    JoinParses(v);
  }

  /** `copy_f16_misc_ui_to_dbase`'s bullseye part: "1" for ownship bullseye, else `None`. */
  function EncodeBulls(select: string): (r: Option<string>)
    ensures r.Some? <==> select == "Ownship Bullseye"
    ensures r.Some? ==> BullsKeys(r.value) == [IcpList(), IcpButton("0"), IcpButton("8"), IcpButton("0")]
  {
    if select == "Ownship Bullseye" then Some("1") else None
  }

  /** The bullseye choices, in the order of their indices. */
  function BullsChoices(): seq<string> {
    ["Steering Cue", "Ownship Bullseye"]
  }

  /**
   * `copy_f16_misc_core_to_ui`'s bullseye part: the first choice for `None`, else the choice
   * the stored text indexes; `None` when it indexes no choice, which leaves the widget as it was.
   */
  function DecodeBulls(bulls: Option<string>): (r: Option<string>)
    ensures bulls.None? ==> r == Some(BullsChoices()[0])
    ensures r.Some? ==> r.value in BullsChoices()
    ensures bulls.Some? && r.Some? ==>
      var n := ParseInt(bulls.value); n.Some? && 0 <= n.value < 2 && BullsChoices()[n.value] == r.value
  {
    if bulls.None? then Some(BullsChoices()[0])
    else
      var n := ParseInt(bulls.value);
      if n.Some? && 0 <= n.value < |BullsChoices()| then Some(BullsChoices()[n.value]) else None
  }

  /** Saving the bullseye choice and loading it back selects the same choice. */
  lemma BullsRoundTrip(select: string)
    requires select in BullsChoices()
    ensures DecodeBulls(EncodeBulls(select)) == Some(select)
  {
    if select == "Ownship Bullseye" {
      DigitString(1);
      IntToStringRoundTrip(1);
    }
  }

  // ---------------------------------------------------------------- CMDS quantities

  /** `val_cmds_prog_field_quantity`: an integer from 0 to 99. */
  predicate QuantityValid(value: string) {
    ParseInt(value).Some? && 0 <= ParseInt(value).value <= 99
  }

  /** `get_gui_cmds_prog_field_quant`: the quantity as an integer, or "0" for anything the validator refuses. */
  function QuantityField(value: string): (r: string)
    ensures QuantityValid(r)
    ensures QuantityValid(value) ==> ParseInt(r) == ParseInt(value)
    ensures !QuantityValid(value) ==> r == "0"
  {
    if QuantityValid(value) then
      IntToStringRoundTrip(ParseInt(value).value);
      IntToString(ParseInt(value).value)
    else
      assert ParseInt("0") == Some(0) by { DigitString(0); IntToStringRoundTrip(0); }
      "0"
  }

  /** Serialising a serialised quantity changes nothing. */
  lemma QuantityIdempotent(value: string)
    ensures QuantityField(QuantityField(value)) == QuantityField(value)
  {
    var r := QuantityField(value);
    IntToStringRoundTrip(ParseInt(r).value);
    if QuantityValid(value) {
      assert r == IntToString(ParseInt(value).value);
    } else {
      DigitString(0);
      IntToStringRoundTrip(0);
      assert r == IntToString(0);
    }
  }

  // ---------------------------------------------------------------- the editor

  /** The F-16C setup editor: the window's values, and whether they differ from the database. */
  class ViperSetupEditor {
    var checks: map<string, bool>
    var texts: map<string, string>
    var isDirty: bool

    /** A fresh editor over a window, with nothing changed. */
    constructor (checks0: map<string, bool>, texts0: map<string, string>)
      ensures checks == checks0 && texts == texts0 && !isDirty
    {
      checks := checks0;
      texts := texts0;
      isDirty := false;
    }

    /**
     * `set_gui_mfd_row`: the checkbox shows whether a setup is given; the slots then show,
     * in order, the formats of the row's defaults or of the given OSBs, popping one OSB
     * per slot. A text that does not parse raises before any slot changes, an unknown row
     * raises for `None`, and a list of fewer than six raises after its slots are shown.
     */
    method SetMfdRow(base: string, value: Option<string>) returns (ok: bool)
      modifies this
      ensures checks == old(checks)[CheckKey(base) := value.Some?] && isDirty == old(isDirty)
      ensures RowList(base, value).None? ==> !ok && texts == old(texts)
      ensures RowList(base, value).Some? ==>
        var list := RowList(base, value).value;
        (ok <==> |list| >= 6) && texts == ShowRow(old(texts), base, list, if |list| < 6 then |list| else 6)
    {
      checks := checks[CheckKey(base) := value.Some?];
      var parsed := if value.None? then MfdDefaults(base) else ParseInts(Split(value.value, ','));
      if parsed.None? {
        return false;
      }
      ok := ShowOsbs(base, parsed.value);
    }

    /** The loop of `set_gui_mfd_row`: the first six formats of `list` fill the row's slots in order. */
    method ShowOsbs(base: string, list: seq<int>) returns (ok: bool)
      modifies this`texts
      ensures (ok <==> |list| >= 6) && texts == ShowRow(old(texts), base, list, if |list| < 6 then |list| else 6)
    {
      var osbs := list;
      var i := 0;
      while i < 6
        invariant 0 <= i <= 6 && i <= |list| && osbs == list[i..]
        invariant texts == ShowRow(old(texts), base, list, i)
        decreases 6 - i
      {
        if osbs == [] {
          return false;
        }
        var osb := osbs[0];
        osbs := osbs[1..];
        texts := texts[SlotKey(base, i) := FormatOfOsb(osb)];
        i := i + 1;
      }
      ok := true;
    }

    /**
     * `update_gui_unique_mfd_row`: every other slot of the row that holds the changed slot's
     * format is cleared, reading the values as they were when the change was made.
     */
    method UpdateUniqueMfdRow(key: string, base: string)
      requires key in texts && forall i :: 0 <= i < 6 ==> SlotKey(base, i) in texts
      modifies this
      ensures texts == Uniqued(old(texts), key, base, 6)
      ensures checks == old(checks) && isDirty == old(isDirty)
    {
      var values := texts;
      var value := values[key];
      for i := 0 to 6
        invariant texts == Uniqued(values, key, base, i)
        invariant checks == old(checks) && isDirty == old(isDirty)
      {
        var rowKey := SlotKey(base, i);
        if rowKey != key && values[rowKey] == value {
          texts := texts[rowKey := ""];
        }
      }
    }

    /**
     * `do_tacan_chan`: a non-empty channel that is not an integer from 1 to 63 loses its last
     * character; an accepted one marks the editor dirty; an empty one changes nothing.
     */
    method TacanChanEdited(event: string)
      requires event in texts
      modifies this
      ensures checks == old(checks)
      ensures old(texts)[event] == "" ==> texts == old(texts) && isDirty == old(isDirty)
      ensures old(texts)[event] != "" && ValidChan(old(texts)[event]) ==> texts == old(texts) && isDirty
      ensures old(texts)[event] != "" && !ValidChan(old(texts)[event]) ==>
        texts == old(texts)[event := DropLast(old(texts)[event], 1)] && isDirty == old(isDirty)
    {
      var s := texts[event];
      if s != "" {
        var n := ParseInt(s);
        if n.Some? && 1 <= n.value <= 63 {
          isDirty := true;
        } else {
          texts := texts[event := DropLast(s, 1)];
        }
      }
    }

    /** The TACAN widgets as the window holds them. */
    function TacanWindow(): (ui: TacanUi)
      reads this
      requires "ux_tacan_ckbx" in checks && "ux_tacan_chan" in texts
      requires "ux_tacan_xy_select" in texts && "ux_tacan_lw_select" in texts
      ensures ui.on == checks["ux_tacan_ckbx"] && ui.chan == texts["ux_tacan_chan"]
      ensures ui.xy == texts["ux_tacan_xy_select"] && ui.role == texts["ux_tacan_lw_select"]
    {
      TacanUi(checks["ux_tacan_ckbx"], texts["ux_tacan_chan"], texts["ux_tacan_xy_select"], texts["ux_tacan_lw_select"])
    }

    /**
     * `copy_tacan_core_to_ui`: the widgets show the decoded yardstick, or the defaults for
     * `None`; a yardstick of fewer than three fields raises before any widget changes.
     */
    method CopyTacanToUi(yard: Option<string>) returns (ok: bool)
      modifies this
      ensures ok <==> DecodeTacan(yard).Some?
      ensures !ok ==> checks == old(checks) && texts == old(texts)
      ensures ok ==> "ux_tacan_ckbx" in checks && "ux_tacan_chan" in texts
      ensures ok ==> "ux_tacan_xy_select" in texts && "ux_tacan_lw_select" in texts
      ensures ok ==> TacanWindow() == DecodeTacan(yard).value
      ensures isDirty == old(isDirty)
    {
      var ui := DecodeTacan(yard);
      if ui.None? {
        return false;
      }
      checks := checks["ux_tacan_ckbx" := ui.value.on];
      texts := texts["ux_tacan_chan" := ui.value.chan]["ux_tacan_xy_select" := ui.value.xy]["ux_tacan_lw_select" := ui.value.role];
      ok := true;
    }

    /**
     * `copy_f16_misc_core_to_ui`'s bullseye part: the choice the stored text indexes, or the
     * first one for `None`; a text that indexes no choice leaves the widget as it was.
     */
    method CopyBullsToUi(bulls: Option<string>)
      modifies this`texts
      ensures DecodeBulls(bulls).Some? ==> texts == old(texts)["ux_bulls_select" := DecodeBulls(bulls).value]
      ensures DecodeBulls(bulls).None? ==> texts == old(texts)
    {
      var choice := DecodeBulls(bulls);
      if choice.Some? {
        texts := texts["ux_bulls_select" := choice.value];
      }
    }

    /**
     * `copy_f16_misc_core_to_ui`'s JHMCS part: the checkboxes and the declutter choice show the
     * decoded setup, or the defaults for `None`. A field that is not an integer raises before
     * any widget changes; otherwise the boxes are set one field at a time, so a setup of fewer
     * than four fields raises after setting the boxes its fields reach, and a level that is
     * not one of the three choices fails after all three boxes are set.
     */
    method CopyJhmcsToUi(jhmcs: Option<string>) returns (ok: bool)
      modifies this
      ensures ok <==> DecodeJhmcs(jhmcs).Some? && 0 <= DecodeJhmcs(jhmcs).value.dc < 3
      ensures ok ==> var ui := DecodeJhmcs(jhmcs).value;
        checks == old(checks)["ux_jhmcs_hud" := ui.hud]["ux_jhmcs_pit" := ui.pit]["ux_jhmcs_rwr" := ui.rwr]
        && texts == old(texts)["ux_jhmcs_dc_select" := DcLevels()[ui.dc]]
      ensures !ok ==> texts == old(texts)
      ensures jhmcs.Some? ==> var fields := ParseInts(Split(jhmcs.value, ','));
        checks == if fields.None? then old(checks) else JhmcsShown(old(checks), fields.value)
      ensures isDirty == old(isDirty)
    {
      if jhmcs.None? {
        checks := checks["ux_jhmcs_hud" := true]["ux_jhmcs_pit" := true]["ux_jhmcs_rwr" := true];
        texts := texts["ux_jhmcs_dc_select" := DcLevels()[0]];
        return true;
      }
      var parsed := ParseInts(Split(jhmcs.value, ','));
      if parsed.None? {
        return false;
      }
      var fields := parsed.value;
      assert DecodeJhmcs(jhmcs) == if |fields| < 4 then None else Some(JhmcsUi(fields[0] != 0, fields[1] != 0, fields[2] != 0, fields[3]));
      ok := ShowJhmcsFields(fields);
    }

    /**
     * The `else` branch of `copy_f16_misc_core_to_ui`'s JHMCS part: each checkbox shows its
     * field, in order, until the fields run out; with a fourth field that names a level, the
     * declutter choice shows it.
     */
    method ShowJhmcsFields(fields: seq<int>) returns (ok: bool)
      modifies this`checks, this`texts
      ensures checks == JhmcsShown(old(checks), fields)
      ensures ok <==> |fields| >= 4 && 0 <= fields[3] < 3
      ensures texts == if ok then old(texts)["ux_jhmcs_dc_select" := DcLevels()[fields[3]]] else old(texts)
    {
      if |fields| < 1 {
        return false;
      }
      checks := checks["ux_jhmcs_hud" := fields[0] != 0];
      if |fields| < 2 {
        return false;
      }
      checks := checks["ux_jhmcs_pit" := fields[1] != 0];
      if |fields| < 3 {
        return false;
      }
      checks := checks["ux_jhmcs_rwr" := fields[2] != 0];
      if |fields| < 4 || fields[3] < 0 || fields[3] >= 3 {
        return false;
      }
      texts := texts["ux_jhmcs_dc_select" := DcLevels()[fields[3]]];
      ok := true;
    }

    /**
     * `copy_f16_misc_core_to_ui`: the bullseye choice, then the JHMCS widgets; the bullseye
     * choice is shown even when the JHMCS setup then raises.
     */
    method CopyMiscToUi(bulls: Option<string>, jhmcs: Option<string>) returns (ok: bool)
      modifies this
      ensures ok <==> DecodeJhmcs(jhmcs).Some? && 0 <= DecodeJhmcs(jhmcs).value.dc < 3
      ensures var shown := if DecodeBulls(bulls).Some? then old(texts)["ux_bulls_select" := DecodeBulls(bulls).value] else old(texts);
        texts == if ok then shown["ux_jhmcs_dc_select" := DcLevels()[DecodeJhmcs(jhmcs).value.dc]] else shown
      ensures ok ==> var ui := DecodeJhmcs(jhmcs).value;
        checks == old(checks)["ux_jhmcs_hud" := ui.hud]["ux_jhmcs_pit" := ui.pit]["ux_jhmcs_rwr" := ui.rwr]
      ensures jhmcs.Some? ==> var fields := ParseInts(Split(jhmcs.value, ','));
        checks == if fields.None? then old(checks) else JhmcsShown(old(checks), fields.value)
      ensures isDirty == old(isDirty)
    {
      CopyBullsToUi(bulls);
      ok := CopyJhmcsToUi(jhmcs);
    }
  }
}
