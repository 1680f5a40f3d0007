/**
 * The preferences object: its validators for hotkeys and callsigns, the setters that
 * check or normalise what they store, and the boolean settings kept as strings.
 */
module Prefs {
  import opened Wrappers
  import opened Text
  import GuiUtil

  // ---------------------------------------------------------------- hotkeys

  /** A token naming one of the modifiers ctrl, alt, shift, left or right, in any case. */
  predicate IsModifier(token: string) {
    var word := Lower(token);
    word == "ctrl" || word == "alt" || word == "shift" || word == "left" || word == "right"
  }

  /** `hotkey.replace(" ", "+")`. */
  function SpacesToPlus(s: string): string {
    seq(|s|, i requires 0 <= i < |s| => if s[i] == ' ' then '+' else s[i])
  }

  /**
   * `is_hotkey_valid`: `None` and "" are accepted; otherwise, with spaces read as "+",
   * the last "+"-separated token must be a single character and every token before it
   * a modifier.
   */
  predicate IsHotkeyValid(hotkey: Option<string>) {
    match hotkey
    case None => true
    case Some(h) => h == "" || ValidTokens(Tokens(h))
  }

  /** The "+"-separated tokens of a hotkey, spaces counting as "+". */
  function Tokens(h: string): (tokens: seq<string>)
    ensures |tokens| >= 1
  {
    Split(SpacesToPlus(h), '+')
  }

  /** The last token is one character and every token before it a modifier. */
  predicate ValidTokens(tokens: seq<string>)
    requires |tokens| >= 1
  {
    |tokens[|tokens| - 1]| == 1
    && forall k :: 0 <= k < |tokens| - 1 ==> IsModifier(tokens[k])
  }

  /** Parts ending in a non-empty one join to a non-empty text. */
  lemma JoinNonEmpty(parts: seq<string>)
    requires |parts| >= 1 && |parts[|parts| - 1]| >= 1
    ensures |Join(parts, '+')| >= 1
  {
    if |parts| > 1 {
      assert Join(parts, '+') == Join(parts[..|parts| - 1], '+') + ['+'] + parts[|parts| - 1];
    }
  }

  /** Modifiers joined by "+" (or by spaces) to a one-character key make a valid hotkey. */
  lemma HotkeyOfParts(h: string, parts: seq<string>)
    requires |parts| >= 1 && ValidTokens(parts)
    requires forall k :: 0 <= k < |parts| ==> '+' !in parts[k]
    requires SpacesToPlus(h) == Join(parts, '+')
    ensures IsHotkeyValid(Some(h))
  {
    SplitJoin(parts, '+');
    JoinNonEmpty(parts);
  }

  /** A valid non-empty hotkey is, with spaces read as "+", modifiers joined to a one-character key. */
  lemma HotkeyParts(h: string)
    requires h != "" && IsHotkeyValid(Some(h))
    ensures exists parts: seq<string> :: |parts| >= 1 && ValidTokens(parts) && SpacesToPlus(h) == Join(parts, '+')
  {
    JoinSplit(SpacesToPlus(h), '+');
    assert ValidTokens(Tokens(h));
  }

  /** A hotkey ending in a separator names no key and is refused. */
  lemma TrailingSeparatorInvalid(h: string)
    requires h != "" && h[|h| - 1] in {'+', ' '}
    ensures !IsHotkeyValid(Some(h))
  {
    var s := SpacesToPlus(h);
    var init := s[..|s| - 1];
    assert s == init + ['+'] + "";
    SplitAfterSep(init, "", '+');
  }

  /** A hotkey of several characters without a separator is refused. */
  lemma LongKeyInvalid(h: string)
    requires |h| > 1 && '+' !in h && ' ' !in h
    ensures !IsHotkeyValid(Some(h))
  {
    assert SpacesToPlus(h) == h;
    SplitNoSep(h, '+');
  }

  /** A modifier holds no "+". */
  lemma ModifierNoPlus(m: string)
    requires IsModifier(m)
    ensures '+' !in m
  {
    var w := Lower(m);
    assert forall j :: 0 <= j < |w| ==> 'a' <= w[j] <= 'z';
    forall i | 0 <= i < |m| ensures m[i] != '+' {
      assert w[i] == LowerChar(m[i]);
    }
  }

  /** A word of lower-case letters is its own lower case. */
  lemma LowerKeeps(w: string)
    requires forall i :: 0 <= i < |w| ==> 'a' <= w[i] <= 'z'
    ensures Lower(w) == w
  {
  }

  /** The five modifier words are modifiers. */
  lemma ModifierWords()
    ensures IsModifier("ctrl") && IsModifier("alt") && IsModifier("shift") && IsModifier("left") && IsModifier("right")
  {
    LowerKeeps("ctrl");
    LowerKeeps("alt");
    LowerKeeps("shift");
    LowerKeeps("left");
    LowerKeeps("right");
  }

  lemma SplitTwo(a: string, b: string)
    requires '+' !in a && '+' !in b
    ensures Split(a + "+" + b, '+') == [a, b]
  {
    SplitNoSep(a, '+');
    SplitAfterSep(a, b, '+');
  }

  lemma SplitThree(a: string, b: string, c: string)
    requires '+' !in a && '+' !in b && '+' !in c
    ensures Split(a + "+" + b + "+" + c, '+') == [a, b, c]
  {
    SplitTwo(a, b);
    SplitAfterSep(a + "+" + b, c, '+');
  }

  lemma SplitFour(a: string, b: string, c: string, d: string)
    requires '+' !in a && '+' !in b && '+' !in c && '+' !in d
    ensures Split(a + "+" + b + "+" + c + "+" + d, '+') == [a, b, c, d]
  {
    SplitThree(a, b, c);
    SplitAfterSep(a + "+" + b + "+" + c, d, '+');
  }

  /** One modifier and a key. */
  lemma HotkeyOfTwo(h: string, a: string, key: char)
    requires SpacesToPlus(h) == a + "+" + [key]
    requires IsModifier(a) && key != '+'
    ensures IsHotkeyValid(Some(h))
  {
    ModifierNoPlus(a);
    SplitTwo(a, [key]);
    assert h != "";
    assert Tokens(h) == [a, [key]];
  }

  /** Two modifiers and a key. */
  lemma HotkeyOfThree(h: string, a: string, b: string, key: char)
    requires SpacesToPlus(h) == a + "+" + b + "+" + [key]
    requires IsModifier(a) && IsModifier(b) && key != '+'
    ensures IsHotkeyValid(Some(h))
  {
    ModifierNoPlus(a);
    ModifierNoPlus(b);
    SplitThree(a, b, [key]);
    assert h != "";
    assert Tokens(h) == [a, b, [key]];
  }

  /** Three modifiers and a key. */
  lemma HotkeyOfFour(h: string, a: string, b: string, c: string, key: char)
    requires SpacesToPlus(h) == a + "+" + b + "+" + c + "+" + [key]
    requires IsModifier(a) && IsModifier(b) && IsModifier(c) && key != '+'
    ensures IsHotkeyValid(Some(h))
  {
    ModifierNoPlus(a);
    ModifierNoPlus(b);
    ModifierNoPlus(c);
    SplitFour(a, b, c, [key]);
    assert h != "";
    assert Tokens(h) == [a, b, c, [key]];
  }

  /** The hotkey settings. */
  datatype Hotkey = Capture | CaptureMode | EnterProfile | EnterMission | ItemSelTypeToggle | ItemSelAdvance | DgftCycle

  /** The hotkey `reset_prefs` gives each setting. */
  function DefaultHotkey(k: Hotkey): string {
    match k
    case Capture => "ctrl+t"
    case CaptureMode => "ctrl+shift+t"
    case EnterProfile => "ctrl+alt+t"
    case EnterMission => "ctrl+alt+shift+t"
    case ItemSelTypeToggle => "ctrl+alt+a"
    case ItemSelAdvance => "ctrl+alt+z"
    case DgftCycle => "left ctrl+3"
  }

  /** The default hotkeys with their spaces read as "+", word by word. */
  lemma DefaultHotkeysSpelled()
    ensures SpacesToPlus("ctrl+t") == "ctrl" + "+" + ['t']
    ensures SpacesToPlus("ctrl+shift+t") == "ctrl" + "+" + "shift" + "+" + ['t']
    ensures SpacesToPlus("ctrl+alt+t") == "ctrl" + "+" + "alt" + "+" + ['t']
    ensures SpacesToPlus("ctrl+alt+shift+t") == "ctrl" + "+" + "alt" + "+" + "shift" + "+" + ['t']
    ensures SpacesToPlus("ctrl+alt+a") == "ctrl" + "+" + "alt" + "+" + ['a']
    ensures SpacesToPlus("ctrl+alt+z") == "ctrl" + "+" + "alt" + "+" + ['z']
    ensures SpacesToPlus("left ctrl+3") == "left" + "+" + "ctrl" + "+" + ['3']
  {
  }

  /** Every default hotkey passes validation, "left ctrl+3" included. */
  lemma DefaultHotkeyValid(k: Hotkey)
    ensures IsHotkeyValid(Some(DefaultHotkey(k)))
  {
    DefaultHotkeysSpelled();
    ModifierWords();
    match k
    case Capture => HotkeyOfTwo("ctrl+t", "ctrl", 't');
    case CaptureMode => HotkeyOfThree("ctrl+shift+t", "ctrl", "shift", 't');
    case EnterProfile => HotkeyOfThree("ctrl+alt+t", "ctrl", "alt", 't');
    case EnterMission => HotkeyOfFour("ctrl+alt+shift+t", "ctrl", "alt", "shift", 't');
    case ItemSelTypeToggle => HotkeyOfThree("ctrl+alt+a", "ctrl", "alt", 'a');
    case ItemSelAdvance => HotkeyOfThree("ctrl+alt+z", "ctrl", "alt", 'z');
    case DgftCycle => HotkeyOfThree("left ctrl+3", "left", "ctrl", '3');
  }

  // ---------------------------------------------------------------- callsigns

  predicate NoDigits(s: string) {
    forall i :: 0 <= i < |s| ==> !IsDigit(s[i])
  }

  /**
   * The whole of `s` matches `[\D]+[\d]+-[\d]+`: non-digits, digits, a hyphen and
   * digits, none of the three runs empty.
   */
  predicate CallsignShape(s: string) {
    exists i, j :: 0 < i < j < |s| - 1
      && NoDigits(s[..i]) && AllDigits(s[i..j]) && s[j] == '-' && AllDigits(s[j + 1..])
  }

  /**
   * `is_callsign_valid`: "" or a match of `^[\D]+[\d]+-[\d]+$`. Python's `$` also matches
   * just before a final newline, so a matching callsign followed by "\n" passes too.
   */
  predicate IsCallsignValid(callsign: string) {
    callsign == ""
    || CallsignShape(callsign)
    || (|callsign| > 0 && callsign[|callsign| - 1] == '\n' && CallsignShape(callsign[..|callsign| - 1]))
  }

  /** A name without digits, a flight number, a hyphen and a member number make a valid callsign. */
  lemma CallsignOfParts(name: string, flight: string, member: string)
    requires name != "" && NoDigits(name)
    requires flight != "" && AllDigits(flight)
    requires member != "" && AllDigits(member)
    ensures IsCallsignValid(name + flight + "-" + member)
  {
    var s := name + flight + "-" + member;
    var i, j := |name|, |name| + |flight|;
    assert s[..i] == name && s[i..j] == flight && s[j] == '-' && s[j + 1..] == member;
  }

  /** A valid non-empty callsign starts with a non-digit and holds a hyphen. */
  lemma CallsignHasHyphen(callsign: string)
    requires callsign != "" && IsCallsignValid(callsign)
    ensures !IsDigit(callsign[0]) && '-' in callsign
  {
    var s := if CallsignShape(callsign) then callsign else callsign[..|callsign| - 1];
    var i, j :| 0 < i < j < |s| - 1
      && NoDigits(s[..i]) && AllDigits(s[i..j]) && s[j] == '-' && AllDigits(s[j + 1..]);
    assert s[..i][0] == s[0] == callsign[0];
    assert callsign[j] == '-';
  }

  /** The callsign `reset_prefs` sets. */
  function DefaultCallsign(): string {
    "Colt1-1"
  }

  /** The default callsign "Colt1-1" passes validation. */
  lemma DefaultCallsignValid()
    ensures IsCallsignValid(DefaultCallsign())
  {
    CallsignOfParts("Colt", "1", "1");
    assert "Colt" + "1" + "-" + "1" == "Colt1-1";
  }

  // ---------------------------------------------------------------- the DCS path

  /** The `path_dcs` setter's value: a trailing "\" is added unless one of "\" or "/" is there. */
  function NormalizedPath(value: Option<string>): (r: Option<string>)
    ensures r.None? <==> value.None?
    ensures r.Some? ==> EndsWith(r.value, "\\") || EndsWith(r.value, "/")
    ensures r.Some? ==> r.value == value.value || r.value == value.value + "\\"
  {
    match value
    case None => None
    case Some(v) =>
      if !EndsWith(v, "\\") && !EndsWith(v, "/") then Some(v + "\\") else Some(v)
  }

  /** Setting the DCS path to what it already holds changes nothing. */
  lemma NormalizedPathIdempotent(value: Option<string>)
    ensures NormalizedPath(NormalizedPath(value)) == NormalizedPath(value)
  {
  }

  /** A path that already ends in a separator is kept as it is. */
  lemma NormalizedPathKeeps(v: string)
    requires EndsWith(v, "\\") || EndsWith(v, "/")
    ensures NormalizedPath(Some(v)) == Some(v)
  {
  }

  // ---------------------------------------------------------------- boolean settings

  /** The settings kept as the strings "true" and "false". */
  datatype Flag = AutoUpdCheck | TesseractDebug | AvSetupForUnk | F10ElevClamped | LoadAutoQuit | DisableExport

  /** The values a boolean setter is handed. */
  datatype PyValue = PyBool(b: bool) | PyInt(i: int) | PyFloat(x: real) | PyStr(s: string)

  /** Python's `value == True`: true for `True`, `1` and `1.0` only. */
  predicate EqualsTrue(v: PyValue)
    requires !v.PyStr?
  {
    match v
    case PyBool(b) => b
    case PyInt(i) => i == 1
    case PyFloat(x) => x == 1.0
  }

  /** Python's truthiness of a number or boolean: anything but zero and `False`. */
  predicate Truthy(v: PyValue)
    requires !v.PyStr?
  {
    match v
    case PyBool(b) => b
    case PyInt(i) => i != 0
    case PyFloat(x) => x != 0.0
  }

  /**
   * What a boolean setter stores: a string as it is, any other value "true" or "false";
   * `is_auto_upd_check` compares with `True`, the other five test truthiness.
   */
  function FlagString(flag: Flag, v: PyValue): (r: string)
    ensures v.PyStr? ==> r == v.s
    ensures !v.PyStr? ==> r in {"true", "false"}
  {
    if v.PyStr? then v.s
    else if (if flag == AutoUpdCheck then EqualsTrue(v) else Truthy(v)) then "true"
    else "false"
  }

  /** A boolean handed to any boolean setter reads back through `*_bool` as itself. */
  lemma FlagBoolRoundTrip(flag: Flag, b: bool)
    ensures (FlagString(flag, PyBool(b)) == "true") == b
  {
  }

  /** A stored string reads back as true exactly when it is "true", case and all. */
  lemma FlagStringKept(flag: Flag, s: string)
    ensures (FlagString(flag, PyStr(s)) == "true") <==> s == "true"
  {
  }

  /**
   * The integer 2 turns the update check off but every other boolean setting on:
   * `== True` and truthiness part ways on numbers other than 0 and 1.
   */
  lemma AutoUpdCheckDiffers(flag: Flag)
    requires flag != AutoUpdCheck
    ensures FlagString(AutoUpdCheck, PyInt(2)) == "false"
    ensures FlagString(flag, PyInt(2)) == "true"
  {
  }

  /** On `True`, `False`, 0 and 1 both tests agree. */
  lemma FlagTestsAgree(flag: Flag, v: PyValue)
    requires v.PyBool? || v == PyInt(0) || v == PyInt(1) || v == PyFloat(0.0) || v == PyFloat(1.0)
    ensures FlagString(flag, v) == FlagString(AutoUpdCheck, v)
  {
  }

  // ---------------------------------------------------------------- the preferences object

  /** The settings `reset_prefs` gives each boolean setting. */
  function DefaultFlag(f: Flag): string {
    match f
    case AutoUpdCheck => "true"
    case TesseractDebug => "false"
    case AvSetupForUnk => "true"
    case F10ElevClamped => "true"
    case LoadAutoQuit => "false"
    case DisableExport => "false"
  }

  class Preferences {
    var pathDcs: Option<string>
    var pathTesseract: string
    var pathMission: string
    var hotkeys: map<Hotkey, Option<string>>
    var airframeDefault: string
    var avSetupDefault: string
    var callsignDefault: string
    var flags: map<Flag, string>
    var lastProfileSel: string

    /**
     * Every setting is present, every stored hotkey and the default callsign pass their
     * validators, and the DCS path ends in a separator when set.
     */
    ghost predicate Valid()
      reads this
    {
      (forall k: Hotkey :: k in hotkeys && IsHotkeyValid(hotkeys[k]))
      && (forall f: Flag :: f in flags)
      && IsCallsignValid(callsignDefault)
      && (pathDcs.Some? ==> EndsWith(pathDcs.value, "\\") || EndsWith(pathDcs.value, "/"))
    }

    /**
     * `__init__` without the settings file: the defaults of `reset_prefs`, with the
     * user's home folder and the program folder handed in.
     */
    constructor (home: string, programFiles: string)
      ensures Valid()
      ensures pathDcs == Some(home + "\\Saved Games\\DCS.openbeta\\")
      ensures forall k: Hotkey :: hotkeys[k] == Some(DefaultHotkey(k))
      ensures forall f: Flag :: flags[f] == DefaultFlag(f)
      ensures airframeDefault == "viper" && callsignDefault == DefaultCallsign()
    {
      new;
      ResetPrefs(home, programFiles);
    }

    /** `reset_prefs`: every setting back to its default through its own setter, none refusing it. */
    method ResetPrefs(home: string, programFiles: string)
      modifies this
      ensures Valid()
      ensures pathDcs == Some(home + "\\Saved Games\\DCS.openbeta\\")
      ensures pathTesseract == programFiles + "\\Tesseract-OCR\\tesseract.exe"
      ensures pathMission == home + "\\Desktop\\cf_mission.xml"
      ensures forall k: Hotkey :: hotkeys[k] == Some(DefaultHotkey(k))
      ensures forall f: Flag :: flags[f] == DefaultFlag(f)
      ensures airframeDefault == "viper" && avSetupDefault == "DCS Default"
      ensures callsignDefault == DefaultCallsign() && lastProfileSel == ""
    {
      ResetPaths(home, programFiles);
      ResetHotkeys();
      ResetNames();
      ResetFlags();
      lastProfileSel := "";
      forall k: Hotkey ensures IsHotkeyValid(hotkeys[k]) {
        DefaultHotkeyValid(k);
      }
      DefaultCallsignValid();
    }

    /** The paths of `reset_prefs`; the DCS path goes through its setter and keeps its separator. */
    method ResetPaths(home: string, programFiles: string)
      modifies this`pathDcs, this`pathTesseract, this`pathMission
      ensures pathDcs == Some(home + "\\Saved Games\\DCS.openbeta\\")
      ensures pathTesseract == programFiles + "\\Tesseract-OCR\\tesseract.exe"
      ensures pathMission == home + "\\Desktop\\cf_mission.xml"
      ensures EndsWith(pathDcs.value, "\\")
    {
      var dcs := home + "\\Saved Games\\DCS.openbeta" + "\\";
      assert dcs == home + "\\Saved Games\\DCS.openbeta\\";
      assert EndsWith(dcs, "\\");
      SetPathDcs(Some(dcs));
      pathTesseract := programFiles + "\\Tesseract-OCR\\tesseract.exe";
      pathMission := home + "\\Desktop\\cf_mission.xml";
    }

    /** One hotkey of `reset_prefs`, which its setter accepts. */
    method ResetHotkey(k: Hotkey)
      modifies this`hotkeys
      ensures hotkeys == old(hotkeys)[k := Some(DefaultHotkey(k))]
    {
      DefaultHotkeyValid(k);
      var r := SetHotkey(k, Some(DefaultHotkey(k)));
      assert r.Ok?;
    }

    /** The seven hotkeys of `reset_prefs`, in its order. */
    method ResetHotkeys()
      modifies this`hotkeys
      ensures forall k: Hotkey :: k in hotkeys && hotkeys[k] == Some(DefaultHotkey(k))
    {
      ResetHotkey(Capture);
      ResetHotkey(CaptureMode);
      ResetHotkey(EnterProfile);
      ResetHotkey(EnterMission);
      ResetHotkey(ItemSelTypeToggle);
      ResetHotkey(ItemSelAdvance);
      ResetHotkey(DgftCycle);
      forall k: Hotkey ensures k in hotkeys && hotkeys[k] == Some(DefaultHotkey(k)) {
        match k
        case Capture =>
        case CaptureMode =>
        case EnterProfile =>
        case EnterMission =>
        case ItemSelTypeToggle =>
        case ItemSelAdvance =>
        case DgftCycle =>
      }
    }

    /** The default airframe, avionics setup and callsign of `reset_prefs`; the callsign's setter accepts it. */
    method ResetNames()
      modifies this`airframeDefault, this`avSetupDefault, this`callsignDefault
      ensures airframeDefault == "viper" && avSetupDefault == "DCS Default"
      ensures callsignDefault == DefaultCallsign()
    {
      SetAirframeDefault("viper");
      avSetupDefault := "DCS Default";
      DefaultCallsignValid();
      var r := SetCallsignDefault(DefaultCallsign());
      assert r.Ok?;
    }

    /** The boolean settings of `reset_prefs`, handed to their setters as strings. */
    method ResetFlags()
      modifies this`flags
      ensures forall f: Flag :: f in flags && flags[f] == DefaultFlag(f)
    {
      SetFlag(AutoUpdCheck, PyStr("true"));
      SetFlag(TesseractDebug, PyStr("false"));
      SetFlag(AvSetupForUnk, PyStr("true"));
      SetFlag(F10ElevClamped, PyStr("true"));
      SetFlag(LoadAutoQuit, PyStr("false"));
      SetFlag(DisableExport, PyStr("false"));
      forall f: Flag ensures f in flags && flags[f] == DefaultFlag(f) {
        match f
        case AutoUpdCheck =>
        case TesseractDebug =>
        case AvSetupForUnk =>
        case F10ElevClamped =>
        case LoadAutoQuit =>
        case DisableExport =>
      }
    }

    /** The `path_dcs` setter. */
    method SetPathDcs(value: Option<string>)
      modifies this`pathDcs
      ensures pathDcs == NormalizedPath(value)
      ensures old(Valid()) ==> Valid()
    {
      var v := value;
      if v.Some? && !EndsWith(v.value, "\\") && !EndsWith(v.value, "/") {
        v := Some(v.value + "\\");
      }
      pathDcs := v;
    }

    /** The hotkey setters: an invalid hotkey raises "Invalid hotkey" and leaves the setting as it was. */
    method SetHotkey(k: Hotkey, value: Option<string>) returns (r: Result<(), string>)
      modifies this`hotkeys
      ensures IsHotkeyValid(value) ==> r.Ok? && hotkeys == old(hotkeys)[k := value]
      ensures !IsHotkeyValid(value) ==> r == Err("Invalid hotkey") && hotkeys == old(hotkeys)
      ensures old(Valid()) ==> Valid()
    {
      if !IsHotkeyValid(value) {
        return Err("Invalid hotkey");
      }
      hotkeys := hotkeys[k := value];
      r := Ok(());
    }

    /**
     * The `airframe_default` setter. Its "Unknown airframe type" check never fires:
     * `airframe_type_to_ui_text` always yields a text of the map.
     */
    method SetAirframeDefault(value: string)
      modifies this`airframeDefault
      ensures airframeDefault == value
      ensures GuiUtil.TypeToUiText(value) in GuiUtil.AirframeList()
    {
      GuiUtil.TypeToUiTextInMap(value);
      airframeDefault := value;
    }

    /** The `callsign_default` setter: an invalid callsign raises "Invalid callsign" and changes nothing. */
    method SetCallsignDefault(value: string) returns (r: Result<(), string>)
      modifies this`callsignDefault
      ensures IsCallsignValid(value) ==> r.Ok? && callsignDefault == value
      ensures !IsCallsignValid(value) ==> r == Err("Invalid callsign") && callsignDefault == old(callsignDefault)
      ensures old(Valid()) ==> Valid()
    {
      if !IsCallsignValid(value) {
        return Err("Invalid callsign");
      }
      callsignDefault := value;
      r := Ok(());
    }

    /** The boolean setters. */
    method SetFlag(f: Flag, value: PyValue)
      modifies this`flags
      ensures flags == old(flags)[f := FlagString(f, value)]
      ensures old(Valid()) ==> Valid()
    {
      var v := value;
      if !v.PyStr? {
        var on := if f == AutoUpdCheck then EqualsTrue(v) else Truthy(v);
        v := PyStr(if on then "true" else "false");
      }
      flags := flags[f := v.s];
    }

    /** The `*_bool` getters. */
    function FlagBool(f: Flag): (b: bool)
      reads this
      requires f in flags
      ensures b <==> flags[f] == "true"
    {
      if flags[f] == "true" then true else false
    }
  }
}
