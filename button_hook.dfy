/**
 * The DCS-BIOS export stream hook: the table of watched cockpit buttons per airframe, and
 * the scan of one received buffer for records that press the watched button. Each
 * press found asks the editor to enter the current profile.
 */
module ButtonHook {
  import opened Wrappers

  newtype byte = x: int | 0 <= x < 256

  /** A value a record can carry: two or four bytes. */
  type Word = x: nat | x < 0x1_0000_0000

  /** The export state of one button: its record address, the bits that hold it, and their shift. */
  datatype Watch = Watch(addr: int, mask: nat, shift: nat)

  /** The table's entry for an airframe: the watch, or the empty entry of an unsupported airframe. */
  datatype Entry = Watched(watch: Watch) | Empty

  /** `exp_button_map`: only the F-16C watches a button, ICP/FLIR Wx. */
  function ExpButtonMap(): map<string, Entry> {
    map["viper" := Watched(Watch(17450, 64, 6)), "warthog" := Empty, "harrier" := Empty,
        "tomcat" := Empty, "hornet" := Empty, "mirage" := Empty]
  }

  /** Reading the watch of an airframe: an unknown airframe or an empty entry raises `KeyError`. */
  function WatchOf(airframe: string): (r: Result<Watch, string>)
    ensures r.Ok? <==> airframe == "viper"
    ensures r.Ok? ==> r.value == Watch(17450, 64, 6)
  {
    if airframe !in ExpButtonMap() then Err("KeyError")
    else match ExpButtonMap()[airframe]
      case Watched(w) => Ok(w)
      case Empty => Err("KeyError")
  }

  /** The Python exceptions the scan can raise: a read past the buffer, or data never set. */
  datatype Fault = IndexError | NameError

  /**
   * What a buffer gives: the positions of the records that fired, in order, `btn_data`
   * after them, and the exception that ended the scan, if one did. The fires found before
   * an exception have already asked for a profile entry, so they are kept.
   */
  datatype Scan = Scan(fires: seq<nat>, btnData: Option<Word>, fault: Option<Fault>)

  /** A little-endian 16-bit value. */
  function Le16(lo: byte, hi: byte): (v: nat)
    ensures v < 0x1_0000
  {
    hi as nat * 256 + lo as nat
  }

  /** A little-endian 32-bit value. */
  function Le32(b0: byte, b1: byte, b2: byte, b3: byte): (v: nat)
    ensures v < 0x1_0000_0000
  {
    b3 as nat * 0x100_0000 + b2 as nat * 0x1_0000 + b1 as nat * 256 + b0 as nat
  }

  /** The low and high bytes of a 16-bit value decode back to it. */
  lemma Le16RoundTrip(v: nat)
    requires v < 0x1_0000
    ensures Le16((v % 256) as byte, (v / 256) as byte) == v
  {
  }

  /** The four bytes of a 32-bit value, least significant first, decode back to it. */
  lemma Le32RoundTrip(v: nat)
    requires v < 0x1_0000_0000
    ensures Le32((v % 256) as byte, (v / 256 % 256) as byte, (v / 0x1_0000 % 256) as byte, (v / 0x100_0000) as byte) == v
  {
    var b0, b1, b2, b3 := v % 256, v / 256 % 256, v / 0x1_0000 % 256, v / 0x100_0000;
    assert v / 256 == b1 + 256 * (v / 0x1_0000);
    assert v / 0x1_0000 == b2 + 256 * b3;
  }

  /** Four frame delimiter bytes start at `i`. */
  predicate IsMarker(data: seq<byte>, i: nat) {
    i + 3 < |data| && data[i] == 0x55 && data[i + 1] == 0x55 && data[i + 2] == 0x55 && data[i + 3] == 0x55
  }

  /** No delimiter starts in `[from, to)`. */
  predicate NoMarker(data: seq<byte>, from: nat, to: nat) {
    forall j :: from <= j < to ==> !IsMarker(data, j)
  }

  /**
   * The delimiter test at `i`, read byte by byte and stopping at the first byte that is
   * not 0x55; reading past the end raises.
   */
  function MarkerAt(data: seq<byte>, i: nat): (r: Result<bool, Fault>)
    requires i < |data|
    ensures r.Ok? ==> (r.value <==> IsMarker(data, i))
    ensures r.Err? <==> i + 3 >= |data| && forall j :: i <= j < |data| ==> data[j] == 0x55
  {
    if data[i] != 0x55 then Ok(false)
    else if i + 1 >= |data| then Err(IndexError)
    else if data[i + 1] != 0x55 then Ok(false)
    else if i + 2 >= |data| then Err(IndexError)
    else if data[i + 2] != 0x55 then Ok(false)
    else if i + 3 >= |data| then Err(IndexError)
    else Ok(data[i + 3] == 0x55)
  }

  /**
   * The first loop: from `i`, the position just after the first delimiter, or the end of
   * the buffer when there is none.
   */
  function FrameStart(data: seq<byte>, i: nat): (r: Result<nat, Fault>)
    requires i <= |data|
    ensures r.Ok? ==> i <= r.value <= |data|
    ensures r.Ok? ==> (r.value == |data| && NoMarker(data, i, |data|))
                      || (r.value >= i + 4 && IsMarker(data, r.value - 4) && NoMarker(data, i, r.value - 4))
    decreases |data| - i
  {
    if i == |data| then Ok(i)
    else
      var m := MarkerAt(data, i);
      if m.Err? then Err(m.error)
      else if m.value then Ok(i + 4)
      else FrameStart(data, i + 1)
  }

  /** Python's `a & b` on non-negative integers, bit by bit from the lowest. */
  function BitAnd(a: nat, b: nat): (r: nat)
    ensures r <= a && r <= b
  {
    if a == 0 || b == 0 then 0
    else 2 * BitAnd(a / 2, b / 2) + (if a % 2 == 1 && b % 2 == 1 then 1 else 0)
  }

  /** Python's `a >> n`: `n` halvings, rounding down. */
  function Shr(a: nat, n: nat): nat {
    if n == 0 then a else Shr(a / 2, n - 1)
  }

  /** Two to the power `n`. */
  function Pow2(n: nat): nat {
    if n == 0 then 1 else 2 * Pow2(n - 1)
  }

  /** The watched bits of a value: `(value & mask) >> shift`. */
  function Pressed(value: Word, w: Watch): nat {
    Shr(BitAnd(value, w.mask), w.shift)
  }

  /** `a & 2^n` keeps bit `n` of `a` and nothing else. */
  lemma {:induction false} BitAndPowerOfTwo(a: nat, n: nat)
    ensures BitAnd(a, Pow2(n)) == Pow2(n) * (Shr(a, n) % 2)
    decreases n
  {
    if n == 0 {
      if a != 0 {
        assert BitAnd(a, 1) == 2 * BitAnd(a / 2, 0) + (if a % 2 == 1 then 1 else 0);
      }
    } else if a == 0 {
      ShrDiv(0, n);
    } else {
      BitAndPowerOfTwo(a / 2, n - 1);
      assert Shr(a, n) == Shr(a / 2, n - 1);
      BitAndEven(a, Pow2(n - 1), Shr(a, n) % 2);
    }
  }

  /** One step of `BitAndPowerOfTwo`: an even mask keeps bit 0 out and shifts the rest. */
  lemma BitAndEven(a: nat, p: nat, b: nat)
    requires a != 0 && (b == 0 || b == 1) && BitAnd(a / 2, p) == p * b
    ensures BitAnd(a, 2 * p) == (2 * p) * b
  {
    if p != 0 {
      assert (2 * p) / 2 == p && (2 * p) % 2 == 0;
      assert BitAnd(a, 2 * p) == 2 * BitAnd(a / 2, p);
    }
    if b == 0 {
      assert p * b == 0 && (2 * p) * b == 0;
    } else {
      assert p * b == p && (2 * p) * b == 2 * p;
    }
  }

  /** Python's `a >> n` is floor division by `2^n`. */
  lemma {:induction false} ShrDiv(a: nat, n: nat)
    ensures Pow2(n) > 0 && Shr(a, n) == a / Pow2(n)
  {
    if n > 0 {
      ShrDiv(a / 2, n - 1);
      HalfThenDivide(a, Pow2(n - 1));
    }
  }

  /** Halving and then dividing by `p` is dividing by `2 * p`. */
  lemma HalfThenDivide(a: nat, p: nat)
    requires p > 0
    ensures (a / 2) / p == a / (2 * p)
  {
    var h, q := a / 2, (a / 2) / p;
    assert p * q <= h < p * q + p;
    assert 2 * h <= a <= 2 * h + 1;
    assert (2 * p) * q <= a < (2 * p) * q + 2 * p;
    DivideBetween(a, 2 * p, q);
  }

  /** A quotient is fixed by the bounds it sits between. */
  lemma DivideBetween(a: nat, d: nat, q: nat)
    requires d > 0 && d * q <= a < d * q + d
    ensures a / d == q
  {
    var r := a / d;
    assert a == d * r + a % d && 0 <= a % d < d;
    if r < q {
      MultipleGap(d, r, q);
    } else if r > q {
      MultipleGap(d, q, r);
    }
  }

  /** Two different multiples of `d` are at least `d` apart. */
  lemma {:induction false} MultipleGap(d: nat, i: nat, j: nat)
    requires i < j
    ensures d * i + d <= d * j
    decreases j - i
  {
    if i + 1 < j {
      MultipleGap(d, i + 1, j);
      assert d * (i + 1) == d * i + d;
    } else {
      assert d * j == d * i + d;
    }
  }

  /** Shifting a multiple of `2^n` right by `n` divides it out. */
  lemma {:induction false} ShrMultiple(b: nat, n: nat)
    ensures Shr(Pow2(n) * b, n) == b
  {
    if n > 0 {
      assert Pow2(n) * b / 2 == Pow2(n - 1) * b;
      ShrMultiple(b, n - 1);
    }
  }

  /** The F-16C watch reads bit 6 of a value, and nothing else. */
  lemma ViperBit(value: Word)
    ensures Pressed(value, Watch(17450, 64, 6)) == (value / 64) % 2
  {
    BitAndPowerOfTwo(value, 6);
    assert Pow2(6) == 64;
    ShrMultiple(Shr(value, 6) % 2, 6);
    assert value / 2 / 2 == value / 4;
    assert value / 4 / 2 == value / 8;
    assert value / 8 / 2 == value / 16;
    assert value / 16 / 2 == value / 32;
    assert value / 32 / 2 == value / 64;
    assert Shr(value / 64, 0) == value / 64;
    assert Shr(value / 32, 1) == Shr(value / 64, 0);
    assert Shr(value / 16, 2) == Shr(value / 32, 1);
    assert Shr(value / 8, 3) == Shr(value / 16, 2);
    assert Shr(value / 4, 4) == Shr(value / 8, 3);
    assert Shr(value / 2, 5) == Shr(value / 4, 4);
    assert Shr(value, 6) == Shr(value / 2, 5);
  }

  /** The record at `i` fits in the buffer: its header and its declared length. */
  predicate Fits(data: seq<byte>, i: nat) {
    i + 3 < |data| && i + 3 + Le16(data[i + 2], data[i + 3]) < |data|
  }

  /** The address of the record at `i`. */
  function Address(data: seq<byte>, i: nat): nat
    requires i + 3 < |data|
  {
    Le16(data[i], data[i + 1])
  }

  /** The declared length of the record at `i`. */
  function Length(data: seq<byte>, i: nat): nat
    requires i + 3 < |data|
  {
    Le16(data[i + 2], data[i + 3])
  }

  /** `btn_data` after the record at `i`: its value when it is 2 or 4 bytes long, else unchanged. */
  function Value(data: seq<byte>, i: nat, btnData: Option<Word>): Option<Word>
    requires Fits(data, i)
  {
    var len := Length(data, i);
    if len == 2 then Some(Le16(data[i + 4], data[i + 5]))
    else if len == 4 then Some(Le32(data[i + 4], data[i + 5], data[i + 6], data[i + 7]))
    else btnData
  }

  /** A record at `f` that fits and is at the watched address. */
  predicate WatchedAt(data: seq<byte>, f: nat, w: Watch) {
    Fits(data, f) && Address(data, f) == w.addr
  }

  /**
   * The second loop: from `i`, skip each delimiter, decode each record that fits and
   * fire for each at the watched address whose watched bits are not zero; stop at a
   * record that does not fit. A record of a length other than 2 or 4 leaves `btn_data`
   * as it was, so a fire test on it uses the stale value, or raises if there is none.
   */
  function Records(data: seq<byte>, i: nat, w: Watch, btnData: Option<Word>): (r: Scan)
    requires i <= |data|
    ensures forall k :: 0 <= k < |r.fires| ==> i <= r.fires[k] && WatchedAt(data, r.fires[k], w)
    ensures forall k, l :: 0 <= k < l < |r.fires| ==> r.fires[k] < r.fires[l]
    decreases |data| - i
  {
    if i == |data| then Scan([], btnData, None)
    else
      var m := MarkerAt(data, i);
      if m.Err? then Scan([], btnData, Some(m.error))
      else if m.value then Records(data, i + 4, w, btnData)
      else if !Fits(data, i) then Scan([], btnData, None)
      else
        var value := Value(data, i, btnData);
        var rest := Records(data, i + 4 + Length(data, i), w, value);
        if Address(data, i) != w.addr then rest
        else if value.None? then Scan([], value, Some(NameError))
        else if Pressed(value.value, w) == 0 then rest
        else rest.(fires := [i] + rest.fires)
  }

  /** One buffer: find the first delimiter, then scan the records after it. */
  function ParseBuffer(data: seq<byte>, w: Watch, btnData: Option<Word>): Scan {
    var start := FrameStart(data, 0);
    if start.Err? then Scan([], btnData, Some(start.error)) else Records(data, start.value, w, btnData)
  }

  /** The fires of `r` after the fires already found. */
  function After(fires: seq<nat>, r: Scan): Scan {
    r.(fires := fires + r.fires)
  }

  /**
   * The body of `dcs_exp_parse_thread` for one received buffer: the same two loops over a
   * cursor, calling for a profile entry (recorded in `fires`) per watched press.
   */
  method ScanBuffer(data: seq<byte>, w: Watch, btnData0: Option<Word>) returns (r: Scan)
    ensures r == ParseBuffer(data, w, btnData0)
  {
    var start := SkipToMarker(data);
    if start.Err? {
      return Scan([], btnData0, Some(start.error));
    }
    r := ScanRecords(data, start.value, w, btnData0);
  }

  /** The first loop of `dcs_exp_parse_thread`: the cursor just after the first delimiter. */
  method SkipToMarker(data: seq<byte>) returns (r: Result<nat, Fault>)
    ensures r == FrameStart(data, 0)
  {
    var i := 0;
    while i < |data|
      invariant 0 <= i <= |data|
      invariant FrameStart(data, 0) == FrameStart(data, i)
      decreases |data| - i
    {
      var m := MarkerAt(data, i);
      if m.Err? {
        return Err(m.error);
      }
      if m.value {
        return Ok(i + 4);
      }
      i := i + 1;
    }
    r := Ok(i);
  }

  /** The second loop of `dcs_exp_parse_thread`: the records from the cursor `i0` on. */
  method ScanRecords(data: seq<byte>, i0: nat, w: Watch, btnData0: Option<Word>) returns (r: Scan)
    requires i0 <= |data|
    ensures r == Records(data, i0, w, btnData0)
  {
    var i := i0;
    var fires: seq<nat> := [];
    var btnData: Option<Word> := btnData0;
    assert Records(data, i0, w, btnData0) == After(fires, Records(data, i, w, btnData)) by {
      var rest := Records(data, i, w, btnData);
      assert [] + rest.fires == rest.fires;
    }
    while i < |data|
      invariant i <= |data|
      invariant Records(data, i0, w, btnData0) == After(fires, Records(data, i, w, btnData))
      decreases |data| - i
    {
      var m := MarkerAt(data, i);
      if m.Err? {
        return After(fires, Scan([], btnData, Some(m.error)));
      }
      if m.value {
        i := i + 4;
      } else if |data| > i + 3 {
        var addr := Le16(data[i], data[i + 1]);
        var len := Le16(data[i + 2], data[i + 3]);
        if |data| > i + 3 + len {
          if len == 2 {
            btnData := Some(Le16(data[i + 4], data[i + 5]));
          } else if len == 4 {
            btnData := Some(Le32(data[i + 4], data[i + 5], data[i + 6], data[i + 7]));
          }
          var at := i;
          i := i + 4 + len;
          if addr == w.addr {
            if btnData.None? {
              return After(fires, Scan([], btnData, Some(NameError)));
            }
            if Pressed(btnData.value, w) != 0 {
              AfterFire(fires, at, Records(data, i, w, btnData));
              fires := fires + [at];
            }
          }
        } else {
          return After(fires, Scan([], btnData, None));
        }
      } else {
        return After(fires, Scan([], btnData, None));
      }
    }
    r := After(fires, Scan([], btnData, None));
  }

  lemma AfterFire(fires: seq<nat>, at: nat, r: Scan)
    ensures After(fires, r.(fires := [at] + r.fires)) == After(fires + [at], r)
  {
    assert fires + ([at] + r.fires) == fires + [at] + r.fires;
  }

  // ---------------------------------------------------------------- properties

  /** A buffer without a delimiter fires nothing, and keeps `btn_data`, when the scan stays within it. */
  lemma NoMarkerNoFires(data: seq<byte>, w: Watch, btnData: Option<Word>)
    requires NoMarker(data, 0, |data|) && ParseBuffer(data, w, btnData).fault.None?
    ensures ParseBuffer(data, w, btnData) == Scan([], btnData, None)
  {
  }

  /** Nothing before the first delimiter is read as a record: every fire is at least 4 bytes after it. */
  lemma FiresAfterFirstMarker(data: seq<byte>, w: Watch, btnData: Option<Word>, j: nat)
    requires IsMarker(data, j) && NoMarker(data, 0, j)
    ensures forall k :: 0 <= k < |ParseBuffer(data, w, btnData).fires| ==> ParseBuffer(data, w, btnData).fires[k] >= j + 4
  {
    FrameStartAt(data, 0, j);
  }

  /** From before the first delimiter, the first loop stops just after it, without raising. */
  lemma {:induction false} FrameStartAt(data: seq<byte>, i: nat, j: nat)
    requires i <= j && IsMarker(data, j) && NoMarker(data, i, j)
    ensures FrameStart(data, i) == Ok(j + 4)
    decreases j - i
  {
    if i < j {
      assert !IsMarker(data, i);
      FrameStartAt(data, i + 1, j);
    }
  }

  /** A record that does not fit ends the buffer: nothing fires from it on, and `btn_data` is kept. */
  lemma TruncatedRecordEnds(data: seq<byte>, i: nat, w: Watch, btnData: Option<Word>)
    requires i + 3 < |data| && !IsMarker(data, i) && !Fits(data, i)
    ensures Records(data, i, w, btnData) == Scan([], btnData, None)
  {
  }

  /** A delimiter met among the records is stepped over, exactly its four bytes. */
  lemma MarkerSkipped(data: seq<byte>, i: nat, w: Watch, btnData: Option<Word>)
    requires IsMarker(data, i)
    ensures Records(data, i, w, btnData) == Records(data, i + 4, w, btnData)
  {
  }

  /**
   * A record that fits, at the watched address and carrying a pressed value, fires at its
   * own position, ahead of whatever the rest of the buffer fires, and it stays fired when
   * the rest ends in an exception.
   */
  lemma PressFires(data: seq<byte>, i: nat, w: Watch, btnData: Option<Word>)
    requires i < |data| && !IsMarker(data, i) && WatchedAt(data, i, w)
    requires Value(data, i, btnData).Some? && Pressed(Value(data, i, btnData).value, w) != 0
    ensures var rest := Records(data, i + 4 + Length(data, i), w, Value(data, i, btnData));
      Records(data, i, w, btnData) == rest.(fires := [i] + rest.fires)
  {
  }

  /** The F-16C watch fires for a value exactly when its bit 6 is set. */
  lemma ViperFiresOnBit6(data: seq<byte>, i: nat, btnData: Option<Word>)
    requires i < |data| && !IsMarker(data, i) && WatchedAt(data, i, Watch(17450, 64, 6))
    requires Value(data, i, btnData).Some?
    ensures var rest := Records(data, i + 4 + Length(data, i), Watch(17450, 64, 6), Value(data, i, btnData));
      Records(data, i, Watch(17450, 64, 6), btnData)
      == if (Value(data, i, btnData).value / 64) % 2 == 1 then rest.(fires := [i] + rest.fires) else rest
  {
    ViperBit(Value(data, i, btnData).value);
  }

  /**
   * A press followed by a cut-off delimiter: the press at 4 fires, and then reading the
   * delimiter past the end of the buffer raises `IndexError`.
   */
  lemma FireThenFault(data: seq<byte>, w: Watch)
    requires data == [0x55, 0x55, 0x55, 0x55, 0x2A, 0x44, 0x02, 0x00, 0x40, 0x00, 0x55, 0x55]
    requires w == Watch(17450, 64, 6)
    ensures ParseBuffer(data, w, None) == Scan([4], Some(64), Some(IndexError))
  {
    assert ParseBuffer(data, w, None) == Records(data, 4, w, None) by {
      FrameStartAt(data, 0, 0);
    }
    var rest := Records(data, 10, w, Some(64));
    assert rest == Scan([], Some(64), Some(IndexError));
    assert Records(data, 4, w, None) == rest.(fires := [4] + rest.fires) by {
      assert !IsMarker(data, 4) && WatchedAt(data, 4, w) && Length(data, 4) == 2 && Value(data, 4, None) == Some(64);
      ViperFiresOnBit6(data, 4, None);
    }
    assert [4] + rest.fires == [4];
  }
}
