/**
 * What the drivers put on the wire. A button press is two datagrams to the DCS-BIOS
 * style UDP listener ("<key> 1\n" then "<key> 0\n", with every "OSB" rewritten to "OS"),
 * a raw press is the single datagram "<key>\n", a switch message is sent as it stands, and
 * a keyboard hotkey is a keystroke event.
 */
module Actuations {
  import opened Text

  /** One thing observable from outside: a UDP datagram's text or a synthesised keystroke. */
  datatype Event = Datagram(text: string) | Keystroke(hotkey: string)

  /** One control action a driver asks for. */
  datatype Actuation =
    | Push(key: string)         // press_with_delay(key)
    | RawPush(key: string)      // press_with_delay(key, raw=True)
    | Switch(message: string)   // a literal switch-position datagram
    | Hotkey(hotkey: string)    // keyboard_key_with_delay(hotkey)

  /** The datagrams `press_with_delay` sends for a key. */
  function PressDatagrams(key: string, raw: bool): seq<Event> {
    if key == "" then []
    else if raw then [Datagram(key + "\n")]
    else [Datagram(ReplaceOsb(key + " 1\n")), Datagram(ReplaceOsb(key + " 0\n"))]
  }

  /**
   * The datagrams of a press, spelled out: nothing for an empty key, the key verbatim for
   * a raw press, and for a normal press the rewritten key followed by " 1" then " 0".
   */
  lemma PressDatagramsShape(key: string, raw: bool)
    ensures key == "" ==> PressDatagrams(key, raw) == []
    ensures key != "" && raw ==> PressDatagrams(key, raw) == [Datagram(key + "\n")]
    ensures key != "" && !raw ==>
      PressDatagrams(key, raw) == [Datagram(ReplaceOsb(key) + " 1\n"), Datagram(ReplaceOsb(key) + " 0\n")]
  {
    ReplaceOsbAppend(key, " 1\n");
    ReplaceOsbAppend(key, " 0\n");
    ReplaceOsbFree(" 1\n");
    ReplaceOsbFree(" 0\n");
  }

  /** The datagrams of one actuation. */
  function Wire(a: Actuation): seq<Event> {
    match a
    case Push(key) => PressDatagrams(key, false)
    case RawPush(key) => PressDatagrams(key, true)
    case Switch(message) => [Datagram(message)]
    case Hotkey(hotkey) => [Keystroke(hotkey)]
  }

  /** Regrouping a log that grows piece by piece. */
  lemma AppendAssoc<T>(a: seq<T>, b: seq<T>, c: seq<T>)
    ensures a + b + c == a + (b + c)
  {
  }

  /** The events of a list of actuations, in order. */
  function WireAll(acts: seq<Actuation>): seq<Event>
    decreases |acts|, 1
  {
    if acts == [] then [] else WireAllLast(acts)
  }

  /** The events of a non-empty list: those of all but the last actuation, then the last's. */
  function WireAllLast(acts: seq<Actuation>): seq<Event>
    requires acts != []
    decreases |acts|, 0
  {
    WireAll(acts[..|acts| - 1]) + Wire(acts[|acts| - 1])
  }

  lemma {:induction false} WireAllAppend(a: seq<Actuation>, b: seq<Actuation>)
    ensures WireAll(a + b) == WireAll(a) + WireAll(b)
    decreases |b|
  {
    if b == [] {
      assert a + b == a;
    } else {
      WireAllAppend(a, b[..|b| - 1]);
      assert (a + b)[..|a + b| - 1] == a + b[..|b| - 1];
    }
  }

  // ---------------------------------------------------------------- typing strings

  /** One press per character of `t`, each made by `key` from that character. */
  function Each(key: string -> Actuation, t: string): (acts: seq<Actuation>)
    ensures |acts| == |t|
  {
    if t == [] then [] else Each(key, t[..|t| - 1]) + [key([t[|t| - 1]])]
  }

  /** The k-th press of `Each` is made from the k-th character. */
  lemma {:induction false} EachPresses(key: string -> Actuation, t: string, k: nat)
    requires k < |t|
    ensures Each(key, t)[k] == key([t[k]])
    decreases |t|
  {
    if k < |t| - 1 {
      EachPresses(key, t[..|t| - 1], k);
    }
  }

  lemma {:induction false} EachAppend(key: string -> Actuation, a: string, b: string)
    ensures Each(key, a + b) == Each(key, a) + Each(key, b)
    decreases |b|
  {
    if b == [] {
      assert a + b == a;
    } else {
      EachAppend(key, a, b[..|b| - 1]);
      assert (a + b)[..|a + b| - 1] == a + b[..|b| - 1];
    }
  }

  /** One press per digit of `t`; every other character is skipped. */
  function Digits(key: string -> Actuation, t: string): seq<Actuation> {
    if t == [] then []
    else Digits(key, t[..|t| - 1]) + (if IsDigit(t[|t| - 1]) then [key([t[|t| - 1]])] else [])
  }

  /** A string of digits only is typed character by character. */
  lemma {:induction false} DigitsAll(key: string -> Actuation, t: string)
    requires AllDigits(t)
    ensures Digits(key, t) == Each(key, t)
    decreases |t|
  {
    if t != [] {
      DigitsAll(key, t[..|t| - 1]);
    }
  }

  lemma {:induction false} DigitsAppend(key: string -> Actuation, a: string, b: string)
    ensures Digits(key, a + b) == Digits(key, a) + Digits(key, b)
    decreases |b|
  {
    if b == [] {
      assert a + b == a;
    } else {
      DigitsAppend(key, a, b[..|b| - 1]);
      assert (a + b)[..|a + b| - 1] == a + b[..|b| - 1];
    }
  }
}
