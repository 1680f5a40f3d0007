/**
 * The progress bar of the F-16C `enter_all`: the steerpoints and the avionics setup
 * advance at most as often as the parts `enter_all` divides the progress into, so the
 * published percentages stay below 100 until the closing advance.
 */
module ViperBounds {
  import opened Wrappers
  import opened Text
  import opened Profiles
  import opened Actuations
  import opened Runs
  import opened Drivers
  import opened Viper

  // ---------------------------------------------------------------- small plans

  /** One advance. */
  lemma AdvanceShape()
    ensures Advances([Advance]) == 1 && NoFinish([Advance])
  {
    assert [Advance][..0] == [];
  }

  /** An exception is neither an advance nor a `Finish`. */
  lemma RaiseShape()
    ensures Advances([Abort]) == 0 && NoFinish([Abort])
  {
    assert [Abort][..0] == [];
  }

  /** Presses ahead of a plan add no advance and no `Finish`. */
  lemma ActsThen(acts: seq<Actuation>, rest: seq<Step>)
    ensures Advances(Acts(acts) + rest) == Advances(rest)
    ensures NoFinish(rest) ==> NoFinish(Acts(acts) + rest)
  {
    AdvancesActs(acts);
    AdvancesAppend(Acts(acts), rest);
    NoFinishActs(acts);
    if NoFinish(rest) {
      NoFinishAppend(Acts(acts), rest);
    }
  }

  /** An advance ahead of a plan adds one advance and no `Finish`. */
  lemma AdvanceThen(rest: seq<Step>)
    ensures Advances([Advance] + rest) == Advances(rest) + 1
    ensures NoFinish(rest) ==> NoFinish([Advance] + rest)
  {
    AdvanceShape();
    AdvancesAppend([Advance], rest);
    if NoFinish(rest) {
      NoFinishAppend([Advance], rest);
    }
  }

  // ---------------------------------------------------------------- the setup pages

  /** The channel field presses its keys or raises; it never advances or finishes. */
  lemma ChannelShape(f: seq<string>)
    ensures Advances(ChannelSteps(f)) == 0 && NoFinish(ChannelSteps(f))
  {
    if |f| < 3 || ParseInt(f[0]).None? {
      RaiseShape();
    } else {
      var keys := ChannelKeys(TacanChannel(ParseInt(f[0]).value, f[2]));
      AdvancesActs(keys);
      NoFinishActs(keys);
    }
  }

  /** `enter_tacan` after its advance neither advances nor finishes. */
  lemma TacanStepsShape(spec: string)
    ensures Advances(TacanSteps(spec)) == 0 && NoFinish(TacanSteps(spec))
  {
    var f := Split(spec, ',');
    var tail := if |f| < 2 then [Abort] else Acts(BandKeys(f[1]) + DataDn()) + ChannelSteps(f);
    if |f| < 2 {
      RaiseShape();
    } else {
      ChannelShape(f);
      ActsThen(BandKeys(f[1]) + DataDn(), ChannelSteps(f));
    }
    ActsThen(TacanOpen(), tail);
    assert TacanSteps(spec) == Acts(TacanOpen()) + tail;
  }

  /** `enter_tacan` advances once when there is a yardstick, and never otherwise. */
  lemma TacanAdvances(spec: Option<string>)
    ensures Advances(TacanPlan(spec)) == (if spec.Some? then 1 else 0)
    ensures NoFinish(TacanPlan(spec))
  {
    if spec.Some? {
      TacanStepsShape(spec.value);
      AdvanceThen(TacanSteps(spec.value));
    }
  }

  /** The slots, the exit and NAV's reselection of a valid MFD row neither advance nor finish. */
  lemma MfdRowsShape(mode: string, hotkey: string, f: seq<string>, d: seq<string>)
    requires |f| >= 6 && |d| >= 6
    ensures var p := Acts(ModeEntry(mode, hotkey) + RightKeys(f, d) + LeftKeys(f, d) + ModeExit(mode, hotkey)) + NavSteps(mode, f);
      Advances(p) == 0 && NoFinish(p)
  {
    if mode == "NAV" {
      var last: seq<Step> := if |f| > 6 then [Abort] else [];
      RaiseShape();
      assert Advances(last) == 0 && NoFinish(last);
      ActsThen(NavKeys(f, 6), last);
    }
    ActsThen(ModeEntry(mode, hotkey) + RightKeys(f, d) + LeftKeys(f, d) + ModeExit(mode, hotkey), NavSteps(mode, f));
  }

  /** `enter_mfd` after its advance neither advances nor finishes. */
  lemma MfdStepsShape(mode: string, hotkey: string, spec: string, dflt: Option<string>)
    ensures Advances(MfdSteps(mode, hotkey, spec, dflt)) == 0 && NoFinish(MfdSteps(mode, hotkey, spec, dflt))
  {
    RaiseShape();
    ActsThen(ModeEntry(mode, hotkey), [Abort]);
    if dflt.Some? {
      var f := Split(spec, ',');
      var d := Split(dflt.value, ',');
      if |f| >= 6 && |d| >= 6 {
        MfdRowsShape(mode, hotkey, f, d);
      }
    }
  }

  /** `enter_mfd` advances once when the mode has a setup, and never otherwise. */
  lemma MfdAdvances(mode: string, hotkey: string, spec: Option<string>, dflt: Option<string>)
    ensures Advances(MfdPlan(mode, hotkey, spec, dflt)) == (if spec.Some? then 1 else 0)
    ensures NoFinish(MfdPlan(mode, hotkey, spec, dflt))
  {
    if spec.Some? {
      MfdStepsShape(mode, hotkey, spec.value, dflt);
      AdvanceThen(MfdSteps(mode, hotkey, spec.value, dflt));
    }
  }

  /** The presence of a key, as a count. */
  function In(d: map<AvKey, AvValue>, k: AvKey): (n: nat)
    ensures n == 1 <==> k in d
  {
    if k in d then 1 else 0
  }

  /** One mode of the MFD loop advances at most once, and only when its setup is present. */
  lemma MfdModeAdvances(hotkey: string, d: map<AvKey, AvValue>, m: (string, SetupMode, SetupMode))
    ensures Advances(MfdStepsOf(hotkey, d)(m)) <= In(d, MfdSetup(m.1))
    ensures NoFinish(MfdStepsOf(hotkey, d)(m))
  {
    MfdAdvances(m.0, hotkey, StrEntry(d, MfdSetup(m.1)), MfdDefault(d, m.2));
  }

  /** The MFD loop advances once per mode with a setup; AA_MODE and DGFT_M share the air-to-air one. */
  lemma MfdsAdvances(hotkey: string, d: map<AvKey, AvValue>)
    ensures Advances(FlatMap(MfdStepsOf(hotkey, d), MfdModes()))
            <= In(d, MfdSetup(NavSetup)) + 2 * In(d, MfdSetup(AirSetup)) + In(d, MfdSetup(GndSetup)) + In(d, MfdSetup(DogSetup))
    ensures NoFinish(FlatMap(MfdStepsOf(hotkey, d), MfdModes()))
  {
    ModesAdvances(hotkey, d, MfdModes());
    MfdModesBound(d);
  }

  /** The setups present for a run of modes, counted once per mode. */
  function ModesBound(d: map<AvKey, AvValue>, ms: seq<(string, SetupMode, SetupMode)>): nat {
    if ms == [] then 0 else ModesBound(d, ms[..|ms| - 1]) + In(d, MfdSetup(ms[|ms| - 1].1))
  }

  /** A run of modes advances at most once per mode whose setup is present, and never finishes. */
  lemma {:induction false} ModesAdvances(hotkey: string, d: map<AvKey, AvValue>, ms: seq<(string, SetupMode, SetupMode)>)
    ensures Advances(FlatMap(MfdStepsOf(hotkey, d), ms)) <= ModesBound(d, ms)
    ensures NoFinish(FlatMap(MfdStepsOf(hotkey, d), ms))
    decreases |ms|
  {
    if ms != [] {
      var f := MfdStepsOf(hotkey, d);
      var init := ms[..|ms| - 1];
      ModesAdvances(hotkey, d, init);
      MfdModeAdvances(hotkey, d, ms[|ms| - 1]);
      assert FlatMap(f, ms) == FlatMap(f, init) + f(ms[|ms| - 1]);
      AdvancesAppend(FlatMap(f, init), f(ms[|ms| - 1]));
      NoFinishAppend(FlatMap(f, init), f(ms[|ms| - 1]));
    }
  }

  /** The five modes of the MFD loop count the air-to-air setup twice. */
  lemma MfdModesBound(d: map<AvKey, AvValue>)
    ensures ModesBound(d, MfdModes())
            == In(d, MfdSetup(NavSetup)) + 2 * In(d, MfdSetup(AirSetup)) + In(d, MfdSetup(GndSetup)) + In(d, MfdSetup(DogSetup))
  {
    var ms := MfdModes();
    assert ModesBound(d, ms[..1]) == In(d, MfdSetup(NavSetup)) by { assert ms[..1][..0] == []; }
    assert ModesBound(d, ms[..2]) == ModesBound(d, ms[..1]) + In(d, MfdSetup(AirSetup)) by { assert ms[..2][..1] == ms[..1]; }
    assert ModesBound(d, ms[..3]) == ModesBound(d, ms[..2]) + In(d, MfdSetup(GndSetup)) by { assert ms[..3][..2] == ms[..2]; }
    assert ModesBound(d, ms[..4]) == ModesBound(d, ms[..3]) + In(d, MfdSetup(DogSetup)) by { assert ms[..4][..3] == ms[..3]; }
    assert ModesBound(d, ms) == ModesBound(d, ms[..4]) + In(d, MfdSetup(AirSetup)) by { assert ms[..4] == ms[..|ms| - 1]; }
  }

  /** The fields of a program never advance. */
  lemma {:induction false} FieldsAdvances(f: seq<string>, d: seq<string>, n: nat)
    requires n <= 4
    ensures Advances(Fields(f, d, n)) == 0 && NoFinish(Fields(f, d, n))
    decreases n
  {
    if n > 0 {
      FieldsAdvances(f, d, n - 1);
      RaiseShape();
      if n - 1 < |f| && n - 1 < |d| {
        AdvancesActs(ElemKeys(f[n - 1], d[n - 1]));
        NoFinishActs(ElemKeys(f[n - 1], d[n - 1]));
      }
      AdvancesAppend(Fields(f, d, n - 1), ElemStep(f, d, n - 1));
      NoFinishAppend(Fields(f, d, n - 1), ElemStep(f, d, n - 1));
    }
  }

  /** `enter_cmds_prog` advances once for a program that differs from its default, and never otherwise. */
  lemma ProgAdvances(p: Option<(string, string)>)
    ensures Advances(ProgPlan(p)) == (if p.Some? && p.value.0 != p.value.1 then 1 else 0)
    ensures NoFinish(ProgPlan(p))
  {
    var head: seq<Step> := if p.Some? && p.value.0 != p.value.1 then [Advance] + ProgFields(p.value.0, p.value.1) else [];
    if p.Some? && p.value.0 != p.value.1 {
      FieldsAdvances(Split(p.value.0, ','), Split(p.value.1, ','), 4);
      AdvanceThen(ProgFields(p.value.0, p.value.1));
    }
    AdvancesActs(DedUp());
    NoFinishActs(DedUp());
    AdvancesAppend(head, Acts(DedUp()));
    NoFinishAppend(head, Acts(DedUp()));
  }

  /** One program of a half advances at most once, and only when it is set. */
  lemma ProgramAdvances(t: nat, p: (Option<string>, Option<string>))
    ensures Advances(ProgramSteps(t)(p)) <= (if p.0.Some? then 1 else 0)
    ensures NoFinish(ProgramSteps(t)(p))
  {
    RaiseShape();
    if p.0.None? {
      ProgAdvances(None);
    } else {
      var ps := Split(p.0.value, ';');
      if t < |ps| && p.1.Some? {
        var ds := Split(p.1.value, ';');
        if t < |ds| {
          ProgAdvances(Some((ps[t], ds[t])));
        }
      }
    }
  }

  /** A half advances at most once per set program. */
  lemma {:induction false} ProgramsAdvances(t: nat, progs: seq<(Option<string>, Option<string>)>)
    ensures Advances(FlatMap(ProgramSteps(t), progs)) <= NumUpdate(progs)
    ensures NoFinish(FlatMap(ProgramSteps(t), progs))
    decreases |progs|
  {
    if progs != [] {
      var init, last := progs[..|progs| - 1], progs[|progs| - 1];
      ProgramsAdvances(t, init);
      ProgramAdvances(t, last);
      AdvancesAppend(FlatMap(ProgramSteps(t), init), ProgramSteps(t)(last));
      NoFinishAppend(FlatMap(ProgramSteps(t), init), ProgramSteps(t)(last));
    }
  }

  /** One half, with the SEQ that closes the chaff half. */
  lemma TypeAdvances(progs: seq<(Option<string>, Option<string>)>, t: nat)
    ensures Advances(TypeSteps(progs)(t)) <= NumUpdate(progs)
    ensures NoFinish(TypeSteps(progs)(t))
  {
    var close: seq<Step> := if t == 0 then Acts(DataSeq()) else [];
    ProgramsAdvances(t, progs);
    AdvancesActs(DataSeq());
    NoFinishActs(DataSeq());
    AdvancesAppend(FlatMap(ProgramSteps(t), progs), close);
    NoFinishAppend(FlatMap(ProgramSteps(t), progs), close);
  }

  /** `enter_cmds` advances at most twice per set program, once in each half. */
  lemma CmdsAdvances(progs: seq<(Option<string>, Option<string>)>)
    ensures Advances(CmdsPlan(progs)) <= 2 * NumUpdate(progs)
    ensures NoFinish(CmdsPlan(progs))
  {
    if NumUpdate(progs) > 0 {
      var f := TypeSteps(progs);
      TypeAdvances(progs, 0);
      TypeAdvances(progs, 1);
      BothHalves(f);
      AdvancesAppend(f(0), f(1));
      NoFinishAppend(f(0), f(1));
      FramedShape(CmdsOpen(), FlatMap(f, [0, 1]), DataRtn());
    }
  }

  /** A loop over the two halves is the first half, then the second. */
  lemma BothHalves(f: nat -> seq<Step>)
    ensures FlatMap(f, [0, 1]) == f(0) + f(1)
  {
    var ts: seq<nat> := [0, 1];
    FlatMapNext(f, ts, 0);
    FlatMapNext(f, ts, 1);
    assert ts[..0] == [] && ts[..2] == ts;
  }

  /** `enter_bulls` advances once when there is a setup, and never otherwise. */
  lemma BullsAdvances(bulls: Option<string>)
    ensures Advances(BullsPlan(bulls)) == (if bulls.Some? then 1 else 0)
    ensures NoFinish(BullsPlan(bulls))
  {
    if bulls.Some? {
      UnitShape(DataRtn());
      ActsThen(BullsKeys(bulls.value), Unit(DataRtn()));
    }
  }

  /** `enter_jhmcs` advances at most once, and only when there is a setup. */
  lemma JhmcsAdvances(jhmcs: Option<string>)
    ensures Advances(JhmcsPlan(jhmcs)) <= (if jhmcs.Some? then 1 else 0)
    ensures NoFinish(JhmcsPlan(jhmcs))
  {
    if jhmcs.Some? {
      RaiseShape();
      var p := ParseInts(Split(jhmcs.value, ','));
      if p.Some? {
        var f := p.value;
        UnitShape(DataRtn());
        if |f| >= 4 {
          ActsThen(JhmcsRest(f), Unit(DataRtn()));
        }
        if |f| >= 2 {
          ActsThen(BlankKeys(f[1]), JhmcsTail(f));
        }
        var tail := if |f| < 2 then [Abort] else Acts(BlankKeys(f[1])) + JhmcsTail(f);
        ActsThen(BlankKeys(f[0]), tail);
        assert JhmcsFields(f) == Acts(BlankKeys(f[0])) + tail;
      }
      ActsThen(JhmcsOpen(), JhmcsSteps(jhmcs.value));
    }
  }

  /**
   * The whole setup: each page advances at most once per setup it finds, except that the
   * air-to-air MFD setup serves two modes and each set CMDS program is visited in both halves.
   */
  lemma SetupAdvances(hotkey: string, d: map<AvKey, AvValue>, progs: seq<(Option<string>, Option<string>)>)
    ensures Advances(SetupWith(hotkey, d, progs))
            <= In(d, TacanYard) + In(d, MfdSetup(NavSetup)) + 2 * In(d, MfdSetup(AirSetup)) + In(d, MfdSetup(GndSetup))
               + In(d, MfdSetup(DogSetup)) + 2 * NumUpdate(progs) + In(d, BullsSetup) + In(d, JhmcsSetup)
    ensures NoFinish(SetupWith(hotkey, d, progs))
  {
    var a := TacanPlan(StrEntry(d, TacanYard));
    var b := FlatMap(MfdStepsOf(hotkey, d), MfdModes());
    var c := CmdsPlan(progs);
    var e := BullsPlan(StrEntry(d, BullsSetup));
    var g := JhmcsPlan(StrEntry(d, JhmcsSetup));
    TacanAdvances(StrEntry(d, TacanYard));
    MfdsAdvances(hotkey, d);
    CmdsAdvances(progs);
    BullsAdvances(StrEntry(d, BullsSetup));
    JhmcsAdvances(StrEntry(d, JhmcsSetup));
    AdvancesAppend(a, b);
    AdvancesAppend(a + b, c);
    AdvancesAppend(a + b + c, e);
    AdvancesAppend(a + b + c + e, g);
    NoFinishAppend(a, b);
    NoFinishAppend(a + b, c);
    NoFinishAppend(a + b + c, e);
    NoFinishAppend(a + b + c + e, g);
  }

  // ---------------------------------------------------------------- counting keys

  /** How many of the keys are in the set. */
  function CountIn(keys: seq<AvKey>, s: set<AvKey>): (n: nat)
    ensures n <= |keys|
  {
    if keys == [] then 0 else (if keys[0] in s then 1 else 0) + CountIn(keys[1..], s)
  }

  /** No key is listed twice. */
  predicate Distinct(keys: seq<AvKey>) {
    forall i, j :: 0 <= i < j < |keys| ==> keys[i] != keys[j]
  }

  lemma {:induction false} CountInWithout(keys: seq<AvKey>, s: set<AvKey>, x: AvKey)
    requires x !in keys
    ensures CountIn(keys, s - {x}) == CountIn(keys, s)
    decreases |keys|
  {
    if keys != [] {
      CountInWithout(keys[1..], s, x);
    }
  }

  /** Distinct keys found in a set number at most its size. */
  lemma {:induction false} CountInBound(keys: seq<AvKey>, s: set<AvKey>)
    requires Distinct(keys)
    ensures CountIn(keys, s) <= |s|
    decreases |keys|
  {
    if keys != [] {
      var x, rest := keys[0], keys[1..];
      assert Distinct(rest) by {
        forall i, j | 0 <= i < j < |rest| ensures rest[i] != rest[j] {
          assert rest[i] == keys[i + 1] && rest[j] == keys[j + 1];
        }
      }
      if x in s {
        assert x !in rest by {
          forall i | 0 <= i < |rest| ensures rest[i] != x {
            assert rest[i] == keys[i + 1];
          }
        }
        CountInWithout(rest, s, x);
        CountInBound(rest, s - {x});
      } else {
        CountInBound(rest, s);
      }
    }
  }

  /** The ten default keys `to_dict` writes into every F-16C dictionary. */
  function DefaultKeys(): seq<AvKey> {
    [MfdSetupDflt(NavSetup), MfdSetupDflt(AirSetup), MfdSetupDflt(GndSetup), MfdSetupDflt(DogSetup),
     CmdsSetupDflt(1), CmdsSetupDflt(2), CmdsSetupDflt(3), CmdsSetupDflt(4), CmdsSetupDflt(5), CmdsSetupDflt(6)]
  }

  /** The keys of the six CMDS programs. */
  function CmdsKeys(): seq<AvKey> {
    [CmdsSetup(1), CmdsSetup(2), CmdsSetup(3), CmdsSetup(4), CmdsSetup(5), CmdsSetup(6)]
  }

  /** The set programs are among the program keys present. */
  lemma CmdsCount(d: map<AvKey, AvValue>)
    ensures NumUpdate(CmdsProgs(d)) <= CountIn(CmdsKeys(), d.Keys)
  {
    var progs := CmdsProgs(d);
    var keys := CmdsKeys();
    forall i | 0 <= i < 6 && progs[i].0.Some? ensures keys[i] in d {
      assert progs[i] == (StrEntry(d, CmdsSetup(i + 1)), CmdsDefault(d, i + 1));
    }
    NumUpdateCount(progs, keys, d.Keys);
  }

  /** Set programs counted against the keys they are read from, one for one. */
  lemma {:induction false} NumUpdateCount(progs: seq<(Option<string>, Option<string>)>, keys: seq<AvKey>, s: set<AvKey>)
    requires |progs| == |keys| && forall i :: 0 <= i < |progs| && progs[i].0.Some? ==> keys[i] in s
    ensures NumUpdate(progs) <= CountIn(keys, s)
    decreases |progs|
  {
    if progs != [] {
      NumUpdateFront(progs);
      NumUpdateCount(progs[1..], keys[1..], s);
    }
  }

  /** `NumUpdate` counted from the front. */
  lemma {:induction false} NumUpdateFront(progs: seq<(Option<string>, Option<string>)>)
    requires progs != []
    ensures NumUpdate(progs) == (if progs[0].0.Some? then 1 else 0) + NumUpdate(progs[1..])
    decreases |progs|
  {
    if |progs| > 1 {
      var n := |progs| - 1;
      NumUpdateFront(progs[..n]);
      assert progs[..n][1..] == progs[1..][..n - 1];
    } else {
      assert progs[1..] == [];
    }
  }

  lemma {:induction false} CountInAppend(a: seq<AvKey>, b: seq<AvKey>, s: set<AvKey>)
    ensures CountIn(a + b, s) == CountIn(a, s) + CountIn(b, s)
    decreases |a|
  {
    if a == [] {
      assert a + b == b;
    } else {
      CountInAppend(a[1..], b, s);
      assert (a + b)[1..] == a[1..] + b;
    }
  }

  /** No key is found in the empty set. */
  lemma {:induction false} CountInEmpty(keys: seq<AvKey>)
    ensures CountIn(keys, {}) == 0
    decreases |keys|
  {
    if keys != [] {
      CountInEmpty(keys[1..]);
    }
  }

  /** Keys all in the set are all counted. */
  lemma {:induction false} CountInAll(keys: seq<AvKey>, s: set<AvKey>)
    requires forall i :: 0 <= i < |keys| ==> keys[i] in s
    ensures CountIn(keys, s) == |keys|
    decreases |keys|
  {
    if keys != [] {
      CountInAll(keys[1..], s);
    }
  }

  /** A numbering of the default, page and program keys in the order they are listed. */
  function Code(k: AvKey): int {
    match k
    case MfdSetupDflt(m) => ModeCode(m)
    case CmdsSetupDflt(p) => 3 + p
    case TacanYard => 10
    case MfdSetup(m) => 11 + ModeCode(m)
    case BullsSetup => 15
    case JhmcsSetup => 16
    case CmdsSetup(p) => 16 + p
    case _ => -1
  }

  function ModeCode(m: SetupMode): int {
    match m
    case NavSetup => 0
    case AirSetup => 1
    case GndSetup => 2
    case DogSetup => 3
  }

  /** The default keys, the page keys and the program keys, each listed once. */
  lemma AllKeysDistinct()
    ensures Distinct(DefaultKeys() + [TacanYard] + [MfdSetup(NavSetup)] + [MfdSetup(AirSetup)] + [MfdSetup(GndSetup)] + [MfdSetup(DogSetup)]
                     + [BullsSetup] + [JhmcsSetup] + CmdsKeys())
  {
    var all := DefaultKeys() + [TacanYard] + [MfdSetup(NavSetup)] + [MfdSetup(AirSetup)] + [MfdSetup(GndSetup)] + [MfdSetup(DogSetup)]
               + [BullsSetup] + [JhmcsSetup] + CmdsKeys();
    forall i | 0 <= i < |all| ensures Code(all[i]) == i {
    }
  }

  /**
   * A dictionary holding the ten defaults is at least ten larger than the page setups and
   * CMDS programs it holds.
   */
  lemma DictSize(d: map<AvKey, AvValue>)
    requires forall k :: k in DefaultKeys() ==> k in d
    ensures |d| >= 10 + In(d, TacanYard) + In(d, MfdSetup(NavSetup)) + In(d, MfdSetup(AirSetup)) + In(d, MfdSetup(GndSetup))
                   + In(d, MfdSetup(DogSetup)) + In(d, BullsSetup) + In(d, JhmcsSetup) + CountIn(CmdsKeys(), d.Keys)
  {
    var s := d.Keys;
    var a0 := DefaultKeys();
    var a1 := a0 + [TacanYard];
    var a2 := a1 + [MfdSetup(NavSetup)];
    var a3 := a2 + [MfdSetup(AirSetup)];
    var a4 := a3 + [MfdSetup(GndSetup)];
    var a5 := a4 + [MfdSetup(DogSetup)];
    var a6 := a5 + [BullsSetup];
    var a7 := a6 + [JhmcsSetup];
    AllKeysDistinct();
    CountInBound(a7 + CmdsKeys(), s);
    CountInAppend(a7, CmdsKeys(), s);
    CountInSnoc(a6, JhmcsSetup, s);
    CountInSnoc(a5, BullsSetup, s);
    CountInSnoc(a4, MfdSetup(DogSetup), s);
    CountInSnoc(a3, MfdSetup(GndSetup), s);
    CountInSnoc(a2, MfdSetup(AirSetup), s);
    CountInSnoc(a1, MfdSetup(NavSetup), s);
    CountInSnoc(a0, TacanYard, s);
    CountInAll(a0, s);
    assert |d.Keys| == |d|;
  }

  /** Adding a key at the end counts it when it is in the set. */
  lemma CountInSnoc(keys: seq<AvKey>, x: AvKey, s: set<AvKey>)
    ensures CountIn(keys + [x], s) == CountIn(keys, s) + (if x in s then 1 else 0)
  {
    CountInAppend(keys, [x], s);
    assert [x][1..] == [];
  }

  /** `to_dict` writes the defaults whenever it writes anything. */
  lemma DefaultsPresent(a: AvionicsSetup)
    ensures ToDict(a) == map[] || forall k :: k in DefaultKeys() ==> k in ToDict(a)
  {
  }

  /**
   * The setup advances at most once per step `num_steps` counts: in a dictionary holding
   * the ten defaults they make room for the second air-to-air mode and the flare half.
   */
  lemma SetupBound(hotkey: string, d: map<AvKey, AvValue>)
    requires d == map[] || forall k :: k in DefaultKeys() ==> k in d
    ensures Advances(SetupPlan(hotkey, d)) <= NumSteps(d) && NoFinish(SetupPlan(hotkey, d))
  {
    SetupAdvances(hotkey, d, CmdsProgs(d));
    CmdsCount(d);
    if d == map[] {
      assert d.Keys == {};
      CountInEmpty(CmdsKeys());
    } else {
      DictSize(d);
    }
  }

  /** The steerpoints advance once each, and the setup at most once per step `num_steps` counts. */
  lemma BodyWithinParts(render: Renderer, hotkey: string, ws: seq<Waypoint>, d: map<AvKey, AvValue>)
    requires d == map[] || forall k :: k in DefaultKeys() ==> k in d
    ensures Advances(ViperBody(render, hotkey, ws, d)) < ViperParts(ws, d)
    ensures NoFinish(ViperBody(render, hotkey, ws, d))
  {
    var wps := ViperWaypoints(ws);
    WaypointsShape(render, wps);
    SetupBound(hotkey, d);
    AdvancesAppend(WaypointsPlan(render, wps), SetupPlan(hotkey, d));
    NoFinishAppend(WaypointsPlan(render, wps), SetupPlan(hotkey, d));
  }

  /** The progress promise for a setup dictionary that is empty or holds every default. */
  lemma DictProgress(r: Run, render: Renderer, hotkey: string, ws: seq<Waypoint>, d: map<AvKey, AvValue>)
    requires r.status == Running && r.progress.Some? && r.cur == 0.0
    requires d == map[] || forall k :: k in DefaultKeys() ==> k in d
    ensures EntryPromise(r, StepSize(ViperParts(ws, d)), ViperBody(render, hotkey, ws, d))
  {
    BodyWithinParts(render, hotkey, ws, d);
    EntryProgress(r, ViperParts(ws, d), ViperBody(render, hotkey, ws, d));
  }

  /**
   * The F-16C `enter_all`: its progress is split into the steerpoints, `num_steps` and
   * one more part, so every percentage before the closing advance stays below 100, a
   * cancelled run never publishes "DONE", and a finished one ends with 100 and "DONE".
   */
  lemma ViperProgress(r: Run, render: Renderer, hotkey: string, ws: seq<Waypoint>, name: Option<string>, aircraft: string, db: map<string, AvRecord>)
    requires r.status == Running && r.progress.Some? && r.cur == 0.0
    ensures var d := ProfileDict(name, aircraft, db);
      EntryPromise(r, StepSize(ViperParts(ws, d)), ViperBody(render, hotkey, ws, d))
  {
    DefaultsPresent(ProfileAvSetup(name, aircraft, db));
    DictProgress(r, render, hotkey, ws, ProfileDict(name, aircraft, db));
  }
}
