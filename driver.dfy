/**
 * The `Driver` base class: the UDP send primitive and `press_with_delay`, capacity
 * validation of waypoints, and the `bkgnd_advance` cancel/progress handshake on the two
 * queues shared with the user interface.
 */
module Drivers {
  import opened Wrappers
  import opened Text
  import opened Profiles
  import opened Actuations
  import opened Runs

  /** The options an airframe passes to `latlon_tostring`. */
  datatype CoordFormat = CoordFormat(
    decimalMinutes: bool, eastingZfill: nat, zfillMinutes: nat, oneDigitSeconds: bool, precision: nat)

  /** `latlon_tostring`: a position and options to the latitude and longitude strings. */
  type Renderer = (LatLon, CoordFormat) -> (string, string)

  /** The queue of command items ("CANCEL") the user interface feeds to a running operation. */
  class CommandQueue {
    var items: seq<string>

    constructor (items: seq<string>)
      ensures this.items == items
    {
      this.items := items;
    }
  }

  /** The queue of progress items a running operation publishes. */
  class ProgressQueue {
    var items: seq<Progress>

    constructor ()
      ensures items == []
    {
      items := [];
    }
  }

  /** A capacity table: waypoint type to its highest number, `None` for no limit. */
  type Limits = map<string, Option<int>>

  /**
   * `validate_waypoint`: a waypoint passes when its type is in the table and the type has
   * no limit or its number is within it; an unknown type fails rather than raising.
   */
  function Admits(limits: Limits, w: Waypoint): bool {
    if w.wpType !in limits then false
    else limits[w.wpType].None? || w.number <= limits[w.wpType].value
  }

  class Driver {
    /** Everything sent so far: datagrams and keystrokes, in order. */
    var sent: seq<Event>
    /** The actuations performed so far; `sent` is exactly their events. */
    ghost var log: seq<Actuation>
    var limits: Limits
    var progCur: real
    var progStep: real
    /** The coordinate renderer (`latlon_tostring`), which the model leaves uninterpreted. */
    const render: Renderer

    ghost predicate Valid()
      reads this
    {
      sent == WireAll(log)
    }

    constructor (render: Renderer, limits: Limits)
      ensures Valid() && sent == [] && log == [] && this.limits == limits
      ensures progCur == 0.0 && progStep == 0.0 && this.render == render
    {
      sent := [];
      log := [];
      this.limits := limits;
      progCur := 0.0;
      progStep := 0.0;
      this.render := render;
    }

    /** `socket.sendto`: the datagram goes out whole and its UTF-8 byte count is returned. */
    method SendTo(message: string) returns (n: nat)
      modifies this`sent
      ensures sent == old(sent) + [Datagram(message)]
      ensures n == Utf8Len(message)
    {
      sent := sent + [Datagram(message)];
      n := Utf8Len(message);
    }

    /** `keyboard_key_with_delay`: one synthesised keystroke. */
    method KeyboardKey(hotkey: string)
      modifies this`sent
      ensures sent == old(sent) + [Keystroke(hotkey)]
    {
      sent := sent + [Keystroke(hotkey)];
    }

    /**
     * `press_with_delay`: an empty key sends nothing and fails. A normal press sends
     * "<key> 1\n" and "<key> 0\n" with "OSB" rewritten to "OS"; a raw press sends
     * "<key>\n" as it is. Only the first send's byte count is compared with the expected
     * length, which is computed from the rewritten key in both modes, so a raw key holding
     * "OSB" reports failure although its datagram went out.
     */
    method PressWithDelay(key: string, raw: bool) returns (ok: bool)
      modifies this`sent
      ensures sent == old(sent) + PressDatagrams(key, raw)
      ensures ok <==> key != "" && (raw ==> OsbFree(key))
    {
      if key == "" {
        return false;
      }
      var encoded := ReplaceOsb(key);
      var count, strlen;
      if !raw {
        count := SendTo(ReplaceOsb(key + " 1\n"));
        var _ := SendTo(ReplaceOsb(key + " 0\n"));
        strlen := Utf8Len(encoded) + 3;
        ReplaceOsbAppend(key, " 1\n");
        ReplaceOsbFree(" 1\n");
        Utf8LenAppend(encoded, " 1\n");
      } else {
        count := SendTo(key + "\n");
        strlen := Utf8Len(encoded) + 1;
        Utf8LenAppend(key, "\n");
        ReplaceOsbUtf8Len(key);
      }
      ok := count == strlen;
    }

    /** Carries out one actuation. */
    method Perform(a: Actuation)
      requires Valid()
      modifies this`sent, this`log
      ensures Valid() && log == old(log) + [a]
    {
      match a {
        case Push(key) =>
          var _ := PressWithDelay(key, false);
        case RawPush(key) =>
          var _ := PressWithDelay(key, true);
        case Switch(message) =>
          var _ := SendTo(message);
        case Hotkey(hotkey) =>
          KeyboardKey(hotkey);
      }
      log := log + [a];
      assert log[..|log| - 1] == old(log);
    }

    /** Carries out actuations in order. */
    method PerformAll(acts: seq<Actuation>)
      requires Valid()
      modifies this`sent, this`log
      ensures Valid() && log == old(log) + acts
    {
      var i := 0;
      while i < |acts|
        invariant 0 <= i <= |acts|
        invariant Valid() && log == old(log) + acts[..i]
      {
        Perform(acts[i]);
        assert acts[..i + 1] == acts[..i] + [acts[i]];
        i := i + 1;
      }
      assert acts[..i] == acts;
    }

    /** A loop pressing `key` for every digit of `s` and skipping the other characters. */
    method PressDigits(key: string -> Actuation, s: string)
      requires Valid()
      modifies this`sent, this`log
      ensures Valid() && log == old(log) + Digits(key, s)
    {
      var i := 0;
      while i < |s|
        invariant 0 <= i <= |s|
        invariant Valid() && log == old(log) + Digits(key, s[..i])
      {
        assert s[..i + 1][..i] == s[..i];
        assert Digits(key, s[..i + 1]) == Digits(key, s[..i]) + (if IsDigit(s[i]) then [key([s[i]])] else []);
        if IsDigit(s[i]) {
          Perform(key([s[i]]));
        }
        i := i + 1;
      }
      assert s[..i] == s;
    }

    /**
     * A loop pressing `key` for every digit of `s` up to the first '.', where it stops; the
     * index it stopped at is returned.
     */
    method PressDigitsToPoint(key: string -> Actuation, s: string) returns (i: nat)
      requires Valid()
      modifies this`sent, this`log
      ensures Valid() && i <= |s| && log == old(log) + Digits(key, s[..i])
      ensures i == |s| || s[i] == '.'
      ensures '.' !in s[..i]
    {
      i := 0;
      while i < |s|
        invariant 0 <= i <= |s| && '.' !in s[..i]
        invariant Valid() && log == old(log) + Digits(key, s[..i])
      {
        assert s[..i + 1][..i] == s[..i];
        assert Digits(key, s[..i + 1]) == Digits(key, s[..i]) + (if IsDigit(s[i]) then [key([s[i]])] else []);
        if IsDigit(s[i]) {
          Perform(key([s[i]]));
        } else if s[i] == '.' {
          break;
        }
        i := i + 1;
      }
    }

    /** A loop pressing `key` for every character of `t`. */
    method PressEach(key: string -> Actuation, t: string)
      requires Valid()
      modifies this`sent, this`log
      ensures Valid() && log == old(log) + Each(key, t)
    {
      var j := 0;
      while j < |t|
        invariant 0 <= j <= |t|
        invariant Valid() && log == old(log) + Each(key, t[..j])
      {
        Perform(key([t[j]]));
        assert t[..j + 1][..j] == t[..j];
        j := j + 1;
      }
      assert t[..j] == t;
    }

    /** The state a run can change, seen as a `Run` with the given status. */
    ghost function Snap(cq: CommandQueue?, pq: ProgressQueue?, st: Status): Run
      reads this, cq, pq
    {
      Run(log, if cq == null then None else Some(cq.items), if pq == null then None else Some(pq.items), progCur, st)
    }

    /** The start of `enter_all`: 100 split into `parts` steps, and the counter reset. */
    method Start(parts: nat)
      requires parts > 0
      modifies this`progStep, this`progCur
      ensures progStep == StepSize(parts) && progCur == 0.0
    {
      progStep := (1.0 / parts as real) * 100.0;
      progCur := 0.0;
    }

    /**
     * `bkgnd_advance`: pops one command item and reports a "CANCEL" item as cancellation,
     * else publishes progress as `AdvanceRun` describes.
     */
    method BkgndAdvance(cq: CommandQueue?, pq: ProgressQueue?, isDone: bool) returns (st: Status)
      modifies this`progCur, cq, pq
      ensures Snap(cq, pq, st) == AdvanceRun(old(Snap(cq, pq, Running)), progStep, isDone)
    {
      if cq != null && |cq.items| > 0 {
        var item := cq.items[0];
        cq.items := cq.items[1..];
        if item == "CANCEL" {
          return Cancelled;
        }
      }
      if pq != null && isDone {
        pq.items := pq.items + [Percent(100.0), Done];
      } else if pq != null {
        progCur := progCur + progStep;
        pq.items := pq.items + [Percent(progCur)];
        if progCur > 100.0 {
          progCur := 100.0;
        }
      }
      st := Running;
    }

    /**
     * The closing advance of `enter_all`'s `try` block: a run still going after `plan`
     * advances to 100 and "DONE"; a stopped one is left as it is.
     */
    method CloseRun(ghost r0: Run, ghost plan: seq<Step>, st0: Status, cq: CommandQueue?, pq: ProgressQueue?)
      returns (st: Status)
      requires Valid() && Snap(cq, pq, st0) == Exec(r0, progStep, plan)
      modifies this`progCur, cq, pq
      ensures Valid() && Snap(cq, pq, st) == Exec(r0, progStep, plan + [Finish])
    {
      ExecSnoc(r0, progStep, plan, Finish);
      st := st0;
      if st == Running {
        st := BkgndAdvance(cq, pq, true);
      }
    }

    /**
     * `validate_waypoints`: drops failing waypoints while iterating over the same list, so
     * the element right after a dropped one is never examined, then sorts stably by type.
     * `kept` is what the caller's list is left holding.
     */
    method ValidateWaypoints(ws: seq<Waypoint>) returns (r: seq<Waypoint>, kept: seq<Waypoint>)
      ensures kept == Survivors(limits, ws, 0)
      ensures r == SortByType(kept)
    {
      var l := ws;
      var i := 0;
      while i < |l|
        invariant Survivors(limits, ws, 0) == Survivors(limits, l, i)
        decreases |l| + 1 - i
      {
        var w := l[i];
        if !Admits(limits, w) {
          l := RemoveFirst(l, w);
        }
        i := i + 1;
      }
      kept := l;
      r := SortByType(l);
    }
  }

  /** Each element with its 1-based position, as `enumerate(..., 1)` gives them. */
  function Numbered<T>(xs: seq<T>): (r: seq<(int, T)>)
    ensures |r| == |xs| && forall k :: 0 <= k < |xs| ==> r[k] == (k + 1, xs[k])
  {
    seq(|xs|, k requires 0 <= k < |xs| => (k + 1, xs[k]))
  }

  // ---------------------------------------------------------------- removal while iterating

  /** Python's `list.remove(x)`: drops the first element equal to `x`. */
  function RemoveFirst(l: seq<Waypoint>, x: Waypoint): (r: seq<Waypoint>)
    requires x in l
    ensures |r| == |l| - 1
    ensures multiset(r) == multiset(l) - multiset{x}
  {
    assert l == [l[0]] + l[1..];
    if l[0] == x then l[1..] else [l[0]] + RemoveFirst(l[1..], x)
  }

  /**
   * The list left by `validate_waypoints`' loop, from position `i` on: the iterator moves
   * to the next index whether or not the current element was removed.
   */
  function Survivors(limits: Limits, l: seq<Waypoint>, i: nat): seq<Waypoint>
    decreases |l| + 1 - i
  {
    if i >= |l| then l
    else if !Admits(limits, l[i]) then Survivors(limits, RemoveFirst(l, l[i]), i + 1)
    else Survivors(limits, l, i + 1)
  }

  /**
   * Only failing waypoints are dropped: what the loop removes is a sub-multiset of the
   * input made of waypoints that fail validation.
   */
  lemma {:induction false} SurvivorsDropOnlyFailing(limits: Limits, l: seq<Waypoint>, i: nat)
    ensures multiset(Survivors(limits, l, i)) <= multiset(l)
    ensures forall w :: w in multiset(l) - multiset(Survivors(limits, l, i)) ==> !Admits(limits, w)
    decreases |l| + 1 - i
  {
    if i < |l| {
      if !Admits(limits, l[i]) {
        var l' := RemoveFirst(l, l[i]);
        SurvivorsDropOnlyFailing(limits, l', i + 1);
      } else {
        SurvivorsDropOnlyFailing(limits, l, i + 1);
      }
    }
  }

  /** When every waypoint passes, nothing is dropped. */
  lemma {:induction false} SurvivorsAllPass(limits: Limits, l: seq<Waypoint>, i: nat)
    requires forall k :: 0 <= k < |l| ==> Admits(limits, l[k])
    ensures Survivors(limits, l, i) == l
    decreases |l| + 1 - i
  {
    if i < |l| {
      SurvivorsAllPass(limits, l, i + 1);
    }
  }

  /**
   * The element right after a dropped one is never examined: with a limit of 9 on "WP",
   * waypoints numbered 10 and 11 leave the second in place although it fails too.
   */
  lemma SkipAfterRemoval()
    ensures var limits: Limits := map["WP" := Some(9)];
      var p := LatLon(0.0, 0.0, 0.0, 0.0);
      var w10 := Waypoint(p, 10, 0, "", 0, "WP", false, Plain);
      var w11 := Waypoint(p, 11, 0, "", 0, "WP", false, Plain);
      Survivors(limits, [w10, w11], 0) == [w11] && !Admits(limits, w11)
  {
    var limits: Limits := map["WP" := Some(9)];
    var p := LatLon(0.0, 0.0, 0.0, 0.0);
    var w10 := Waypoint(p, 10, 0, "", 0, "WP", false, Plain);
    var w11 := Waypoint(p, 11, 0, "", 0, "WP", false, Plain);
    assert RemoveFirst([w10, w11], w10) == [w11];
  }

  // ---------------------------------------------------------------- stable sort by type

  /** Python's string order: lexicographic by code point. */
  predicate StrLe(a: string, b: string) {
    if a == [] then true
    else if b == [] then false
    else if a[0] != b[0] then a[0] < b[0]
    else StrLe(a[1..], b[1..])
  }

  lemma {:induction false} StrLeTotal(a: string, b: string)
    ensures StrLe(a, b) || StrLe(b, a)
    decreases |a|
  {
    if a != [] && b != [] && a[0] == b[0] {
      StrLeTotal(a[1..], b[1..]);
    }
  }

  lemma {:induction false} StrLeRefl(a: string)
    ensures StrLe(a, a)
    decreases |a|
  {
    if a != [] {
      StrLeRefl(a[1..]);
    }
  }

  lemma {:induction false} StrLeTrans(a: string, b: string, c: string)
    requires StrLe(a, b) && StrLe(b, c)
    ensures StrLe(a, c)
    decreases |a|
  {
    if a != [] && b != [] && c != [] && a[0] == b[0] && b[0] == c[0] {
      StrLeTrans(a[1..], b[1..], c[1..]);
    }
  }

  predicate SortedByType(l: seq<Waypoint>) {
    forall i, j :: 0 <= i < j < |l| ==> StrLe(l[i].wpType, l[j].wpType)
  }

  /** Inserts `w` after every element whose type does not sort above its own. */
  function InsertByType(l: seq<Waypoint>, w: Waypoint): (r: seq<Waypoint>)
    ensures multiset(r) == multiset(l) + multiset{w}
  {
    if l == [] then [w]
    else if StrLe(l[|l| - 1].wpType, w.wpType) then l + [w]
    else
      assert l == l[..|l| - 1] + [l[|l| - 1]];
      InsertByType(l[..|l| - 1], w) + [l[|l| - 1]]
  }

  /** `sorted(l, key=lambda wp: wp.wp_type)`: a stable insertion sort. */
  function SortByType(l: seq<Waypoint>): (r: seq<Waypoint>)
    ensures multiset(r) == multiset(l)
  {
    if l == [] then []
    else
      assert l == l[..|l| - 1] + [l[|l| - 1]];
      InsertByType(SortByType(l[..|l| - 1]), l[|l| - 1])
  }

  /** The elements of a given type, in order. */
  function OfType(l: seq<Waypoint>, t: string): seq<Waypoint> {
    if l == [] then []
    else OfType(l[..|l| - 1], t) + (if l[|l| - 1].wpType == t then [l[|l| - 1]] else [])
  }

  lemma {:induction false} OfTypeAppend(a: seq<Waypoint>, b: seq<Waypoint>, t: string)
    ensures OfType(a + b, t) == OfType(a, t) + OfType(b, t)
    decreases |b|
  {
    if b == [] {
      assert a + b == a;
    } else {
      OfTypeAppend(a, b[..|b| - 1], t);
      assert (a + b)[..|a + b| - 1] == a + b[..|b| - 1];
    }
  }

  /** Every element of `l` has a type that sorts at or below `t`. */
  predicate AllUpTo(l: seq<Waypoint>, t: string) {
    forall i :: 0 <= i < |l| ==> StrLe(l[i].wpType, t)
  }

  /** A sorted list whose last type sorts at or below `t` lies wholly at or below `t`. */
  lemma SortedUpTo(l: seq<Waypoint>, t: string)
    requires SortedByType(l) && l != [] && StrLe(l[|l| - 1].wpType, t)
    ensures AllUpTo(l, t)
  {
    forall i | 0 <= i < |l| - 1 ensures StrLe(l[i].wpType, t) {
      StrLeTrans(l[i].wpType, l[|l| - 1].wpType, t);
    }
  }

  /** Appending an element no list element sorts above keeps the list sorted. */
  lemma AppendSorted(l: seq<Waypoint>, w: Waypoint)
    requires SortedByType(l) && AllUpTo(l, w.wpType)
    ensures SortedByType(l + [w])
  {
  }

  /** Inserting an element at or below `t` into a list at or below `t` stays at or below `t`. */
  lemma {:induction false} InsertUpTo(l: seq<Waypoint>, w: Waypoint, t: string)
    requires AllUpTo(l, t) && StrLe(w.wpType, t)
    ensures AllUpTo(InsertByType(l, w), t)
    decreases |l|
  {
    if l != [] && !StrLe(l[|l| - 1].wpType, w.wpType) {
      InsertUpTo(l[..|l| - 1], w, t);
    }
  }

  /** Inserting into a list sorted by type keeps it sorted. */
  lemma {:induction false} InsertOrdered(l: seq<Waypoint>, w: Waypoint)
    requires SortedByType(l)
    ensures SortedByType(InsertByType(l, w))
    decreases |l|
  {
    if l == [] {
    } else if StrLe(l[|l| - 1].wpType, w.wpType) {
      SortedUpTo(l, w.wpType);
      AppendSorted(l, w);
    } else {
      var init := l[..|l| - 1];
      var last := l[|l| - 1];
      InsertOrdered(init, w);
      StrLeRefl(last.wpType);
      SortedUpTo(l, last.wpType);
      StrLeTotal(last.wpType, w.wpType);
      InsertUpTo(init, w, last.wpType);
      AppendSorted(InsertByType(init, w), last);
    }
  }

  lemma OfTypeSingle(w: Waypoint, t: string)
    ensures OfType([w], t) == if w.wpType == t then [w] else []
  {
    assert [w][..0] == [];
  }

  /** The elements of type `t` of a non-empty list: those before its last element, then the last one if it has type `t`. */
  lemma OfTypeLast(l: seq<Waypoint>, t: string)
    requires l != []
    ensures OfType(l, t) == OfType(l[..|l| - 1], t) + OfType([l[|l| - 1]], t)
  {
    OfTypeSingle(l[|l| - 1], t);
  }

  /** Two waypoints of different types: at most one of them has the type `t`, so their order does not matter. */
  lemma OfTypeSwap(x: seq<Waypoint>, a: Waypoint, b: Waypoint, t: string)
    requires a.wpType != b.wpType
    ensures x + OfType([a], t) + OfType([b], t) == x + OfType([b], t) + OfType([a], t)
  {
    OfTypeSingle(a, t);
    OfTypeSingle(b, t);
    if a.wpType == t {
      assert OfType([b], t) == [];
    } else {
      assert OfType([a], t) == [];
    }
  }

  /** Inserting `w` before a last element of a higher type adds `w` where inserting into the rest does. */
  lemma InsertPastLast(l: seq<Waypoint>, w: Waypoint, t: string)
    requires l != [] && !StrLe(l[|l| - 1].wpType, w.wpType)
    requires OfType(InsertByType(l[..|l| - 1], w), t) == OfType(l[..|l| - 1], t) + OfType([w], t)
    ensures OfType(InsertByType(l, w), t) == OfType(l, t) + OfType([w], t)
  {
    var init := l[..|l| - 1];
    var last := l[|l| - 1];
    var r := InsertByType(init, w);
    StrLeRefl(w.wpType);
    OfTypeSwap(OfType(init, t), w, last, t);
    OfTypeAppend(r, [last], t);
    OfTypeLast(l, t);
    calc {
      OfType(InsertByType(l, w), t);
      OfType(r + [last], t);
      OfType(r, t) + OfType([last], t);
      OfType(init, t) + OfType([w], t) + OfType([last], t);
      OfType(init, t) + OfType([last], t) + OfType([w], t);
      OfType(l, t) + OfType([w], t);
    }
  }

  /** Inserting keeps the order within every type and puts `w` last among its own type. */
  lemma {:induction false} InsertStable(l: seq<Waypoint>, w: Waypoint, t: string)
    ensures OfType(InsertByType(l, w), t) == OfType(l, t) + OfType([w], t)
    decreases |l|
  {
    if l == [] {
    } else if StrLe(l[|l| - 1].wpType, w.wpType) {
      OfTypeAppend(l, [w], t);
    } else {
      InsertStable(l[..|l| - 1], w, t);
      InsertPastLast(l, w, t);
    }
  }

  /** The sort keeps the input order among the waypoints of type `t`. */
  lemma {:induction false} SortStableFor(l: seq<Waypoint>, t: string)
    ensures OfType(SortByType(l), t) == OfType(l, t)
    decreases |l|
  {
    if l != [] {
      var init := l[..|l| - 1];
      var last := l[|l| - 1];
      var sorted := SortByType(init);
      SortStableFor(init, t);
      InsertStable(sorted, last, t);
      calc {
        OfType(SortByType(l), t);
        OfType(InsertByType(sorted, last), t);
        OfType(sorted, t) + OfType([last], t);
        OfType(init, t) + OfType([last], t);
        OfType(l, t);
      }
    }
  }

  /** The sort orders its result by type. */
  lemma {:induction false} SortSorted(l: seq<Waypoint>)
    ensures SortedByType(SortByType(l))
    decreases |l|
  {
    if l != [] {
      var init := l[..|l| - 1];
      SortSorted(init);
      InsertOrdered(SortByType(init), l[|l| - 1]);
    }
  }

  /**
   * The sort is a stable sort: the result is ordered by type, is a permutation of the
   * input, and keeps the input order among waypoints of the same type.
   */
  lemma SortByTypeStable(l: seq<Waypoint>)
    ensures SortedByType(SortByType(l))
    ensures multiset(SortByType(l)) == multiset(l)
    ensures forall t :: OfType(SortByType(l), t) == OfType(l, t)
  {
    SortSorted(l);
    forall t ensures OfType(SortByType(l), t) == OfType(l, t) {
      SortStableFor(l, t);
    }
  }
}
