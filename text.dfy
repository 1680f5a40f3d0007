/**
 * The handful of Python string operations the drivers and the setup editors rely on:
 * `str(int)`, `int(str)`, `str.split`, `str.join`, `str.replace("OSB", "OS")`, `str.zfill`,
 * `str.find`, UTF-8 byte lengths and ASCII case mapping.
 */
module Text {
  import opened Wrappers

  predicate IsDigit(c: char) { '0' <= c <= '9' }

  predicate AllDigits(s: string) { forall i :: 0 <= i < |s| ==> IsDigit(s[i]) }

  function DigitChar(d: nat): (c: char)
    requires d < 10
    ensures IsDigit(c)
  {
    ['0', '1', '2', '3', '4', '5', '6', '7', '8', '9'][d]
  }

  function DigitValue(c: char): (d: nat)
    requires IsDigit(c)
    ensures d < 10 && DigitChar(d) == c
  {
    (c as int) - ('0' as int)
  }

  // ---------------------------------------------------------------- str(int) / int(str)

  /** Python's `str(n)` for a non-negative integer. */
  function NatToString(n: nat): (s: string)
    decreases n
  {
    if n < 10 then [DigitChar(n)] else NatToString(n / 10) + [DigitChar(n % 10)]
  }

  /** Python's `str(i)`. */
  function IntToString(i: int): string {
    if i < 0 then "-" + NatToString(-i) else NatToString(i)
  }

  /** The value of a string of decimal digits, read most significant digit first. */
  function DigitsValue(s: string): nat
    requires AllDigits(s)
  {
    if s == [] then 0 else DigitsValue(s[..|s| - 1]) * 10 + DigitValue(s[|s| - 1])
  }

  /**
   * Python's `int(s)` on the inputs the source feeds it: an optional sign followed by
   * one or more ASCII digits. `None` stands for the `ValueError` Python raises.
   */
  function ParseInt(s: string): (r: Option<int>)
    ensures r.Some? ==> |s| > 0
  {
    if |s| > 1 && (s[0] == '-' || s[0] == '+') && AllDigits(s[1..]) then
      var v: int := DigitsValue(s[1..]);
      Some(if s[0] == '-' then -v else v)
    else if |s| > 0 && AllDigits(s) then Some(DigitsValue(s))
    else None
  }

  lemma {:induction false} NatToStringDigits(n: nat)
    ensures |NatToString(n)| > 0 && AllDigits(NatToString(n))
    ensures NatToString(n)[0] != '-' && NatToString(n)[0] != '+'
    decreases n
  {
    if n >= 10 {
      NatToStringDigits(n / 10);
    }
  }

  lemma {:induction false} NatToStringValue(n: nat)
    ensures AllDigits(NatToString(n)) && DigitsValue(NatToString(n)) == n
    decreases n
  {
    NatToStringDigits(n);
    var s := NatToString(n);
    if n >= 10 {
      NatToStringValue(n / 10);
      assert s[..|s| - 1] == NatToString(n / 10);
    } else {
      assert s[..|s| - 1] == [];
    }
  }

  /** `int(str(i)) == i`: the rendering of an integer parses back to it. */
  lemma IntToStringRoundTrip(i: int)
    ensures ParseInt(IntToString(i)) == Some(i)
  {
    if i < 0 {
      var n: nat := -i;
      var digits := NatToString(n);
      NatToStringValue(n);
      NatToStringDigits(n);
      var s := "-" + digits;
      assert IntToString(i) == s;
      assert s[1..] == digits;
      assert |s| > 1 && s[0] == '-' && AllDigits(s[1..]);
    } else {
      var digits := NatToString(i);
      NatToStringValue(i);
      NatToStringDigits(i);
      assert IntToString(i) == digits;
    }
  }

  // ---------------------------------------------------------------- split / join

  /** Python's `s.split(sep)` for a one-character separator. */
  function Split(s: string, sep: char): (parts: seq<string>)
    ensures |parts| >= 1
    ensures forall k :: 0 <= k < |parts| ==> sep !in parts[k]
  {
    if s == [] then [""]
    else
      var p := Split(s[..|s| - 1], sep);
      var c := s[|s| - 1];
      if c == sep then p + [""] else p[..|p| - 1] + [p[|p| - 1] + [c]]
  }

  /** Python's `sep.join(parts)` for a one-character separator and a non-empty list. */
  function Join(parts: seq<string>, sep: char): string
    requires |parts| >= 1
  {
    if |parts| == 1 then parts[0] else Join(parts[..|parts| - 1], sep) + [sep] + parts[|parts| - 1]
  }

  lemma {:induction false} SplitNoSep(s: string, sep: char)
    requires sep !in s
    ensures Split(s, sep) == [s]
  {
    if s != [] {
      SplitNoSep(s[..|s| - 1], sep);
      assert s[..|s| - 1] + [s[|s| - 1]] == s;
    }
  }

  lemma {:induction false} SplitAfterSep(x: string, last: string, sep: char)
    requires sep !in last
    ensures Split(x + [sep] + last, sep) == Split(x, sep) + [last]
    decreases |last|
  {
    var s := x + [sep] + last;
    if last == [] {
      assert s[..|s| - 1] == x;
    } else {
      var init := last[..|last| - 1];
      SplitAfterSep(x, init, sep);
      assert s[..|s| - 1] == x + [sep] + init;
      assert init + [last[|last| - 1]] == last;
    }
  }

  /** Splitting a joined list gives the list back, provided no part holds the separator. */
  lemma {:induction false} SplitJoin(parts: seq<string>, sep: char)
    requires |parts| >= 1
    requires forall k :: 0 <= k < |parts| ==> sep !in parts[k]
    ensures Split(Join(parts, sep), sep) == parts
    decreases |parts|
  {
    if |parts| == 1 {
      SplitNoSep(parts[0], sep);
    } else {
      var init := parts[..|parts| - 1];
      SplitJoin(init, sep);
      SplitAfterSep(Join(init, sep), parts[|parts| - 1], sep);
      assert init + [parts[|parts| - 1]] == parts;
    }
  }

  /** Adding a character to the last part adds it to the end of the joined text. */
  lemma {:induction false} JoinExtendLast(q: seq<string>, c: char, sep: char)
    requires |q| >= 1
    ensures Join(q[..|q| - 1] + [q[|q| - 1] + [c]], sep) == Join(q, sep) + [c]
  {
    var q' := q[..|q| - 1] + [q[|q| - 1] + [c]];
    if |q| > 1 {
      assert q'[..|q'| - 1] == q[..|q| - 1];
    }
  }

  /** Joining the parts of a split gives the text back. */
  lemma {:induction false} JoinSplit(s: string, sep: char)
    ensures Join(Split(s, sep), sep) == s
    decreases |s|
  {
    if s != [] {
      var init := s[..|s| - 1];
      var p := Split(init, sep);
      var c := s[|s| - 1];
      assert s[..|s| - 1] == init;
      JoinSplit(init, sep);
      if c == sep {
        assert Split(s, sep) == p + [""];
        assert (p + [""])[..|p|] == p;
        assert Join(p + [""], sep) == Join(p, sep) + [sep];
      } else {
        assert Split(s, sep) == p[..|p| - 1] + [p[|p| - 1] + [c]];
        JoinExtendLast(p, c, sep);
      }
      assert init + [c] == s;
    }
  }

  // ---------------------------------------------------------------- replace("OSB", "OS")

  /** Whether "OSB" occurs at position i of s. */
  predicate OsbAt(s: string, i: int) {
    0 <= i && i + 3 <= |s| && s[i] == 'O' && s[i + 1] == 'S' && s[i + 2] == 'B'
  }

  ghost predicate OsbFree(s: string) { forall i :: !OsbAt(s, i) }

  /** Python's `s.replace("OSB", "OS")`: leftmost occurrences first, never overlapping. */
  function ReplaceOsb(s: string): string {
    if OsbAt(s, 0) then "OS" + ReplaceOsb(s[3..])
    else if s == [] then []
    else [s[0]] + ReplaceOsb(s[1..])
  }

  /**
   * Replacing distributes over a concatenation whose right part cannot complete an
   * occurrence begun at the end of the left part.
   */
  lemma {:induction false} ReplaceOsbAppend(a: string, b: string)
    requires b == [] || (b[0] != 'S' && b[0] != 'B')
    ensures ReplaceOsb(a + b) == ReplaceOsb(a) + ReplaceOsb(b)
    decreases |a|
  {
    if a == [] {
      assert a + b == b;
    } else if OsbAt(a, 0) {
      assert OsbAt(a + b, 0);
      assert (a + b)[3..] == a[3..] + b;
      ReplaceOsbAppend(a[3..], b);
    } else {
      assert !OsbAt(a + b, 0);
      assert (a + b)[1..] == a[1..] + b;
      ReplaceOsbAppend(a[1..], b);
    }
  }

  /** A string with no "OSB" in it is left as it is. */
  lemma {:induction false} ReplaceOsbFree(s: string)
    requires OsbFree(s)
    ensures ReplaceOsb(s) == s
    decreases |s|
  {
    if s != [] {
      assert !OsbAt(s, 0);
      assert OsbFree(s[1..]) by {
        forall i ensures !OsbAt(s[1..], i) {
          assert OsbAt(s[1..], i) ==> OsbAt(s, i + 1);
        }
      }
      ReplaceOsbFree(s[1..]);
    }
  }

  // ---------------------------------------------------------------- UTF-8 length

  /** Bytes of the UTF-8 encoding of one character. */
  function Utf8CharLen(c: char): nat {
    if (c as int) < 0x80 then 1 else if (c as int) < 0x800 then 2 else if (c as int) < 0x10000 then 3 else 4
  }

  /** `len(s.encode("utf-8"))`. */
  function Utf8Len(s: string): nat {
    if s == [] then 0 else Utf8CharLen(s[0]) + Utf8Len(s[1..])
  }

  lemma {:induction false} Utf8LenAppend(a: string, b: string)
    ensures Utf8Len(a + b) == Utf8Len(a) + Utf8Len(b)
    decreases |a|
  {
    if a == [] {
      assert a + b == b;
    } else {
      assert (a + b)[1..] == a[1..] + b;
      Utf8LenAppend(a[1..], b);
    }
  }

  /** Each replacement drops one byte ('B'), so the byte length is kept exactly when nothing is replaced. */
  lemma {:induction false} ReplaceOsbUtf8Len(s: string)
    ensures Utf8Len(ReplaceOsb(s)) <= Utf8Len(s)
    ensures Utf8Len(ReplaceOsb(s)) == Utf8Len(s) <==> OsbFree(s)
    decreases |s|
  {
    if s == [] {
    } else if OsbAt(s, 0) {
      ReplaceOsbUtf8Len(s[3..]);
      assert s == "OSB" + s[3..];
      Utf8LenAppend("OSB", s[3..]);
      Utf8LenAppend("OS", ReplaceOsb(s[3..]));
      assert !OsbFree(s);
    } else {
      ReplaceOsbUtf8Len(s[1..]);
      assert s == [s[0]] + s[1..];
      Utf8LenAppend([s[0]], ReplaceOsb(s[1..]));
      assert OsbFree(s) <==> OsbFree(s[1..]) by {
        forall i | OsbAt(s[1..], i) ensures OsbAt(s, i + 1) { }
        forall i | OsbAt(s, i) ensures i >= 1 && OsbAt(s[1..], i - 1) { }
      }
    }
  }

  // ---------------------------------------------------------------- small helpers

  /** Python's `s.find(c)`: the first index of c, or -1. */
  function Find(s: string, c: char): (r: int)
    ensures -1 <= r < |s|
    ensures r == -1 <==> c !in s
  {
    if s == [] then -1
    else if s[0] == c then 0
    else
      var r := Find(s[1..], c);
      if r == -1 then -1 else r + 1
  }

  /** What `Find` returns when it finds c: an index holding c, with no c before it. */
  lemma {:induction false} FindIndex(s: string, c: char)
    ensures Find(s, c) >= 0 ==> s[Find(s, c)] == c && c !in s[..Find(s, c)]
    decreases |s|
  {
    if s != [] && s[0] != c {
      FindIndex(s[1..], c);
      var r := Find(s[1..], c);
      if r >= 0 {
        assert s[1..][..r] == s[1..r + 1];
        assert s[..r + 1] == [s[0]] + s[1..r + 1];
      }
    }
  }

  /** An index holding c with no c before it is the one `Find` returns; no c at all gives -1. */
  lemma FindFirst(s: string, c: char, i: nat)
    requires i <= |s| && c !in s[..i] && (i == |s| || s[i] == c)
    ensures Find(s, c) == if i == |s| then -1 else i
  {
    FindIndex(s, c);
    if i == |s| {
      assert s[..i] == s;
    } else {
      assert s[..i + 1][i] == c;
    }
  }

  /** Python's `s[:-n]` for n > 0: all but the last n characters, or nothing when s is shorter. */
  function DropLast(s: string, n: nat): (r: string)
    ensures |r| == if |s| >= n then |s| - n else 0
    ensures r == s[..|r|]
  {
    if |s| >= n then s[..|s| - n] else ""
  }

  /** Python's `s.zfill(width)`: zero-pads after an optional sign to the given width. */
  function ZFill(s: string, width: nat): (r: string)
    ensures |r| == if |s| >= width then |s| else width
    ensures |s| >= width ==> r == s
    ensures |s| < width ==>
      var sign := if |s| > 0 && (s[0] == '-' || s[0] == '+') then 1 else 0;
      && r[..sign] == s[..sign]
      && (forall i :: sign <= i < width - |s| + sign ==> r[i] == '0')
      && r[width - |s| + sign..] == s[sign..]
  {
    if |s| >= width then s
    else if |s| > 0 && (s[0] == '-' || s[0] == '+') then [s[0]] + Zeros(width - |s|) + s[1..]
    else Zeros(width - |s|) + s
  }

  function Zeros(n: nat): (z: string)
    ensures |z| == n && forall i :: 0 <= i < n ==> z[i] == '0'
  {
    if n == 0 then [] else Zeros(n - 1) + ['0']
  }

  predicate StartsWith(s: string, prefix: string) {
    |prefix| <= |s| && s[..|prefix|] == prefix
  }

  predicate EndsWith(s: string, suffix: string) {
    |suffix| <= |s| && s[|s| - |suffix|..] == suffix
  }

  /** A concatenation starts with its left part and ends with its right part. */
  lemma Affixes(a: string, b: string)
    ensures StartsWith(a + b, a) && EndsWith(a + b, b) && (a + b)[|a|..] == b
  {
  }

  function LowerChar(c: char): char {
    if 'A' <= c <= 'Z' then (c as int + 32) as char else c
  }

  function UpperChar(c: char): char {
    if 'a' <= c <= 'z' then (c as int - 32) as char else c
  }

  /** `s.lower()` on ASCII letters. */
  function Lower(s: string): (r: string)
    ensures |r| == |s| && forall i :: 0 <= i < |s| ==> r[i] == LowerChar(s[i])
  {
    if s == [] then [] else [LowerChar(s[0])] + Lower(s[1..])
  }

  /** `s.upper()` on ASCII letters. */
  function Upper(s: string): (r: string)
    ensures |r| == |s| && forall i :: 0 <= i < |s| ==> r[i] == UpperChar(s[i])
  {
    if s == [] then [] else [UpperChar(s[0])] + Upper(s[1..])
  }
}
