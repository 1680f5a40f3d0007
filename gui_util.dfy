/**
 * GUI helpers without a window: strike-through text, the airframe pull-down names and
 * the test of the foreground window's title.
 */
module GuiUtil {
  import opened Wrappers

  // ---------------------------------------------------------------- strike-through

  /** The combining long stroke overlay, U+0336. */
  const Stroke: char := '\U{0336}'

  /**
   * The text `gui_text_strike` has built after its first `n` rounds: a stroke, then
   * every character followed by a stroke, except the last character of the whole text.
   */
  function StrikePrefix(t: string, n: nat): (r: string)
    requires n <= |t|
  {
    if n == 0 then [Stroke]
    else StrikePrefix(t, n - 1) + [t[n - 1]] + (if n - 1 != |t| - 1 then [Stroke] else [])
  }

  /** The struck-through form of `t`. */
  function Strike(t: string): string {
    StrikePrefix(t, |t|)
  }

  /** `gui_text_strike`: appends each character, and a stroke after all but the last. */
  method GuiTextStrike(text: string) returns (result: string)
    ensures result == Strike(text)
  {
    result := [Stroke];
    var i := 0;
    while i < |text|
      invariant 0 <= i <= |text|
      invariant result == StrikePrefix(text, i)
    {
      result := result + [text[i]];
      if i != |text| - 1 {
        result := result + [Stroke];
      }
      i := i + 1;
    }
  }

  /**
   * The shape of a struck text: a leading stroke, the characters of `t` at the odd
   * positions, a stroke between every two of them and none after the last.
   */
  lemma {:induction false} StrikePrefixShape(t: string, n: nat)
    requires n <= |t|
    ensures |StrikePrefix(t, n)| == (if n == |t| && n > 0 then 2 * n else 2 * n + 1)
    ensures StrikePrefix(t, n)[0] == Stroke
    ensures forall i :: 0 <= i < n ==> StrikePrefix(t, n)[2 * i + 1] == t[i]
    ensures forall i :: 0 <= i < n && i < |t| - 1 ==> StrikePrefix(t, n)[2 * i + 2] == Stroke
  {
    if n > 0 {
      StrikePrefixShape(t, n - 1);
    }
  }

  /** `gui_text_strike` of a non-empty text has twice its length; of "" it is a lone stroke. */
  lemma StrikeShape(t: string)
    ensures |Strike(t)| == (if t == [] then 1 else 2 * |t|)
    ensures Strike(t)[0] == Stroke
    ensures forall i :: 0 <= i < |t| ==> Strike(t)[2 * i + 1] == t[i]
    ensures forall i :: 0 <= i < |t| - 1 ==> Strike(t)[2 * i + 2] == Stroke
  {
    StrikePrefixShape(t, |t|);
  }

  /** `gui_text_unstrike`: `text.replace` of every U+0336 by nothing. */
  function Unstrike(s: string): (r: string)
    ensures Stroke !in r
    ensures |r| <= |s|
    ensures forall c :: c != Stroke ==> multiset(r)[c] == multiset(s)[c]
  {
    if s == [] then []
    else
      var rest := Unstrike(s[1..]);
      assert s == [s[0]] + s[1..];
      if s[0] == Stroke then rest else [s[0]] + rest
  }

  /** Removing strokes from two pieces one after the other is removing them from the whole. */
  lemma {:induction false} UnstrikeAppend(a: string, b: string)
    ensures Unstrike(a + b) == Unstrike(a) + Unstrike(b)
    decreases |a|
  {
    if a == [] {
      assert a + b == b;
    } else {
      assert (a + b)[0] == a[0] && (a + b)[1..] == a[1..] + b;
      UnstrikeAppend(a[1..], b);
      if a[0] == Stroke {
        assert Unstrike(a + b) == Unstrike(a[1..] + b);
      } else {
        assert Unstrike(a + b) == [a[0]] + Unstrike(a[1..] + b);
      }
    }
  }

  /** A text without strokes is left as it is. */
  lemma {:induction false} UnstrikeFree(s: string)
    requires Stroke !in s
    ensures Unstrike(s) == s
    decreases |s|
  {
    if s != [] {
      UnstrikeFree(s[1..]);
    }
  }

  /** Removing strokes twice is removing them once. */
  lemma UnstrikeIdempotent(s: string)
    ensures Unstrike(Unstrike(s)) == Unstrike(s)
  {
    UnstrikeFree(Unstrike(s));
  }

  /** Striking through the first `n` characters and removing the strokes gives them back. */
  lemma {:induction false} UnstrikePrefix(t: string, n: nat)
    requires n <= |t| && Stroke !in t
    ensures Unstrike(StrikePrefix(t, n)) == t[..n]
  {
    if n > 0 {
      UnstrikePrefix(t, n - 1);
      var tail := (if n - 1 != |t| - 1 then [Stroke] else []);
      UnstrikeAppend(StrikePrefix(t, n - 1) + [t[n - 1]], tail);
      UnstrikeAppend(StrikePrefix(t, n - 1), [t[n - 1]]);
      assert Unstrike([t[n - 1]]) == [t[n - 1]] by {
        assert [t[n - 1]][1..] == [];
      }
      assert Unstrike(tail) == [] by {
        if tail != [] {
          assert tail[1..] == [];
        }
      }
      assert t[..n - 1] + [t[n - 1]] == t[..n];
    }
  }

  /** Unstriking a struck text gives the text back when it held no stroke of its own. */
  lemma StrikeRoundTrip(t: string)
    requires Stroke !in t
    ensures Unstrike(Strike(t)) == t
  {
    UnstrikePrefix(t, |t|);
    assert t[..|t|] == t;
  }

  // ---------------------------------------------------------------- airframe names

  /** `airframe_map`: the UI text of each airframe and its internal type, in the map's order. */
  function AirframeEntries(): seq<(string, string)> {
    [("A-10C Warthog", "warthog"), ("AV-8B Harrier", "harrier"), ("F-14A/B Tomcat", "tomcat"),
     ("F-16C Viper", "viper"), ("F/A-18C Hornet", "hornet"), ("M-2000C Mirage", "mirage")]
  }

  /** `airframe_list`: the UI texts of the supported airframes. */
  function AirframeList(): (r: seq<string>)
    ensures |r| == |AirframeEntries()|
    ensures forall k :: 0 <= k < |r| ==> r[k] == AirframeEntries()[k].0
  {
    ["A-10C Warthog", "AV-8B Harrier", "F-14A/B Tomcat", "F-16C Viper", "F/A-18C Hornet", "M-2000C Mirage"]
  }

  /** The value of `key` in a table, or an error naming the key that is missing. */
  function Find(entries: seq<(string, string)>, key: string): (r: Result<string, string>)
    ensures r.Ok? <==> exists k :: 0 <= k < |entries| && entries[k].0 == key
    ensures r.Ok? ==> exists k :: 0 <= k < |entries| && entries[k] == (key, r.value)
    ensures r.Err? ==> r.error == key
  {
    if entries == [] then Err(key)
    else if entries[0].0 == key then Ok(entries[0].1)
    else
      var r := Find(entries[1..], key);
      assert forall k :: 1 <= k < |entries| ==> entries[k] == entries[1..][k - 1];
      r
  }

  /** `[k for k, v in entries if v == value]`: the keys mapped to a value, in table order. */
  function Hits(entries: seq<(string, string)>, value: string): (hits: seq<string>)
    ensures |hits| <= |entries|
  {
    if entries == [] then []
    else (if entries[0].1 == value then [entries[0].0] else []) + Hits(entries[1..], value)
  }

  /**
   * `airframe_ui_text_to_type`: the type of a UI text of the map, and the `KeyError` of
   * any other text. The `None` fallback to "viper" is never reached: no value is `None`.
   */
  function UiTextToType(uiText: string): (r: Result<string, string>)
    ensures r.Ok? <==> uiText in AirframeList()
    ensures r.Ok? ==> (uiText, r.value) in AirframeEntries()
    ensures r.Err? ==> r.error == uiText
  {
    var r := Find(AirframeEntries(), uiText);
    assert r.Ok? ==> exists k :: 0 <= k < |AirframeEntries()| && AirframeEntries()[k] == (uiText, r.value);
    r
  }

  /** `airframe_type_to_ui_text`: the first UI text mapped to the type, or "F-16C Viper". */
  function TypeToUiText(airframeType: string): string {
    var hits := Hits(AirframeEntries(), airframeType);
    if |hits| == 0 then "F-16C Viper" else hits[0]
  }

  /** A number for each UI text of the map, its position. */
  function UiTextCode(s: string): int {
    if s == "A-10C Warthog" then 0 else if s == "AV-8B Harrier" then 1
    else if s == "F-14A/B Tomcat" then 2 else if s == "F-16C Viper" then 3
    else if s == "F/A-18C Hornet" then 4 else if s == "M-2000C Mirage" then 5 else -1
  }

  /** A number for each internal type of the map, its position. */
  function TypeCode(s: string): int {
    if s == "warthog" then 0 else if s == "harrier" then 1 else if s == "tomcat" then 2
    else if s == "viper" then 3 else if s == "hornet" then 4 else if s == "mirage" then 5 else -1
  }

  /** No two entries of the map share a UI text, and no two share a type. */
  lemma AirframeMapInjective()
    ensures forall i, j :: 0 <= i < |AirframeEntries()| && 0 <= j < |AirframeEntries()| && i != j ==>
      AirframeEntries()[i].0 != AirframeEntries()[j].0 && AirframeEntries()[i].1 != AirframeEntries()[j].1
  {
    var e := AirframeEntries();
    forall i | 0 <= i < |e| ensures UiTextCode(e[i].0) == i && TypeCode(e[i].1) == i { }
  }

  /** The hits of a value held by exactly one entry are that entry's key alone. */
  lemma {:induction false} HitsUnique(entries: seq<(string, string)>, k: nat)
    requires k < |entries|
    requires forall i :: 0 <= i < |entries| && i != k ==> entries[i].1 != entries[k].1
    ensures Hits(entries, entries[k].1) == [entries[k].0]
    decreases |entries|
  {
    if k > 0 {
      HitsUnique(entries[1..], k - 1);
    } else {
      HitsNone(entries[1..], entries[0].1);
    }
  }

  /** A value no entry holds has no hits. */
  lemma {:induction false} HitsNone(entries: seq<(string, string)>, value: string)
    requires forall i :: 0 <= i < |entries| ==> entries[i].1 != value
    ensures Hits(entries, value) == []
    decreases |entries|
  {
    if entries != [] {
      HitsNone(entries[1..], value);
    }
  }

  /** A key held by exactly one entry finds that entry's value. */
  lemma {:induction false} FindUnique(entries: seq<(string, string)>, k: nat)
    requires k < |entries|
    requires forall i :: 0 <= i < |entries| && i != k ==> entries[i].0 != entries[k].0
    ensures Find(entries, entries[k].0) == Ok(entries[k].1)
    decreases |entries|
  {
    if k > 0 {
      FindUnique(entries[1..], k - 1);
    }
  }

  /**
   * Each of the six types shows its own UI text, which converts back to the type, and
   * each UI text converts to a type that shows that text again.
   */
  lemma AirframeRoundTrip(k: nat)
    requires k < |AirframeEntries()|
    ensures TypeToUiText(AirframeEntries()[k].1) == AirframeEntries()[k].0
    ensures UiTextToType(AirframeEntries()[k].0) == Ok(AirframeEntries()[k].1)
    ensures UiTextToType(TypeToUiText(AirframeEntries()[k].1)) == Ok(AirframeEntries()[k].1)
  {
    AirframeMapInjective();
    HitsUnique(AirframeEntries(), k);
    FindUnique(AirframeEntries(), k);
  }

  /** A type outside the map shows as "F-16C Viper". */
  lemma UnknownTypeShowsViper(airframeType: string)
    requires forall k :: 0 <= k < |AirframeEntries()| ==> AirframeEntries()[k].1 != airframeType
    ensures TypeToUiText(airframeType) == "F-16C Viper"
  {
    HitsNone(AirframeEntries(), airframeType);
  }

  /** Every type gets some UI text of the map: the conversion never yields nothing. */
  lemma TypeToUiTextInMap(airframeType: string)
    ensures TypeToUiText(airframeType) in AirframeList()
  {
    var e := AirframeEntries();
    if k :| 0 <= k < |e| && e[k].1 == airframeType {
      AirframeRoundTrip(k);
    } else {
      UnknownTypeShowsViper(airframeType);
    }
  }

  // ---------------------------------------------------------------- foreground window

  /** The window titles DCS runs under. */
  function DcsTitles(): seq<string> {
    ["Digital Combat Simulator", "DCS.openbeta", "DCS"]
  }

  /** `gui_is_dcs_foreground`, given the title of the foreground window. */
  predicate IsDcsForeground(title: string)
    ensures IsDcsForeground(title) <==> title in DcsTitles()
  {
    !(title != "Digital Combat Simulator" && title != "DCS.openbeta" && title != "DCS")
  }
}
