/**
 * The background-operation protocol every `enter_all` follows: actuations interleaved with
 * `bkgnd_advance` calls, which pop one command item (a "CANCEL" item aborts the run) and
 * publish progress, and a final advance that publishes 100 and "DONE". Any exception ends
 * the run; `enter_all` swallows it.
 *
 * A run is described by a plan (a list of steps) and its effect by `Exec`.
 */
module Runs {
  import opened Wrappers
  import opened Actuations

  /** An item on the progress queue: a percentage or the "DONE" marker. */
  datatype Progress = Percent(value: real) | Done

  /** How a run stands: still going, stopped by a "CANCEL" item, or stopped by another exception. */
  datatype Status = Running | Cancelled | Failed

  /** One step of a run. `Abort` is an exception other than cancellation (bad index, bad integer, unsortable keys). */
  datatype Step = Act(a: Actuation) | Advance | Finish | Abort

  /**
   * What a run can change: the actuations performed so far, the command queue and the
   * progress queue (absent when the caller passed `None`), the stored progress value and
   * the status.
   */
  datatype Run = Run(
    log: seq<Actuation>,
    commands: Option<seq<string>>,
    progress: Option<seq<Progress>>,
    cur: real,
    status: Status)

  /** Steps performing the given actuations. */
  function Acts(acts: seq<Actuation>): (p: seq<Step>)
    ensures |p| == |acts| && forall k :: 0 <= k < |p| ==> p[k] == Act(acts[k])
  {
    if acts == [] then [] else Acts(acts[..|acts| - 1]) + [Act(acts[|acts| - 1])]
  }

  /**
   * `bkgnd_advance`: pop one command item if there is one; a "CANCEL" item stops the run
   * before anything is published. Otherwise, with a progress queue, publish 100 and
   * "DONE" when finishing, else add the step, publish the sum and only then clamp the
   * stored value to 100.
   */
  function AdvanceRun(r: Run, step: real, isDone: bool): (r': Run)
    ensures r'.log == r.log
    ensures r.commands.Some? && |r.commands.value| > 0 ==> r'.commands == Some(r.commands.value[1..])
    ensures r.commands.None? || |r.commands.value| == 0 ==> r'.commands == r.commands
    ensures CancelNext(r) ==> r'.status == Cancelled && r'.progress == r.progress && r'.cur == r.cur
    ensures !CancelNext(r) ==> r'.status == r.status
    ensures !CancelNext(r) && r.progress.None? ==> r'.progress.None? && r'.cur == r.cur
    ensures !CancelNext(r) && r.progress.Some? && isDone ==>
      r'.progress == Some(r.progress.value + [Percent(100.0), Done]) && r'.cur == r.cur
    ensures !CancelNext(r) && r.progress.Some? && !isDone ==>
      r'.progress == Some(r.progress.value + [Percent(r.cur + step)])
      && r'.cur == (if r.cur + step > 100.0 then 100.0 else r.cur + step)
  {
    var popped := r.commands.Some? && |r.commands.value| > 0;
    var r1 := if popped then r.(commands := Some(r.commands.value[1..])) else r;
    if popped && r.commands.value[0] == "CANCEL" then r1.(status := Cancelled)
    else if r1.progress.None? then r1
    else if isDone then r1.(progress := Some(r1.progress.value + [Percent(100.0), Done]))
    else
      var c := r1.cur + step;
      r1.(progress := Some(r1.progress.value + [Percent(c)]), cur := if c > 100.0 then 100.0 else c)
  }

  /** Whether the next command item is "CANCEL". */
  predicate CancelNext(r: Run) {
    r.commands.Some? && |r.commands.value| > 0 && r.commands.value[0] == "CANCEL"
  }

  /** One step; a run that has stopped ignores the rest of its plan. */
  function Exec1(r: Run, step: real, s: Step): Run {
    if r.status != Running then r
    else
      match s
      case Act(a) => r.(log := r.log + [a])
      case Advance => AdvanceRun(r, step, false)
      case Finish => AdvanceRun(r, step, true)
      case Abort => r.(status := Failed)
  }

  /** A whole plan, step by step. */
  function Exec(r: Run, step: real, plan: seq<Step>): Run
    decreases |plan|, 1
  {
    if plan == [] then r else ExecLast(r, step, plan)
  }

  /** A non-empty plan: all but its last step, then the last step. */
  function ExecLast(r: Run, step: real, plan: seq<Step>): Run
    requires plan != []
    decreases |plan|, 0
  {
    Exec1(Exec(r, step, plan[..|plan| - 1]), step, plan[|plan| - 1])
  }

  lemma ExecSnoc(r: Run, step: real, plan: seq<Step>, s: Step)
    ensures Exec(r, step, plan + [s]) == Exec1(Exec(r, step, plan), step, s)
  {
    assert (plan + [s])[..|plan|] == plan;
  }

  lemma {:induction false} ExecAppend(r: Run, step: real, p: seq<Step>, q: seq<Step>)
    ensures Exec(r, step, p + q) == Exec(Exec(r, step, p), step, q)
    decreases |q|
  {
    if q == [] {
      assert p + q == p;
    } else {
      var q' := q[..|q| - 1];
      ExecAppend(r, step, p, q');
      assert p + q == (p + q') + [q[|q| - 1]];
      ExecSnoc(r, step, p + q', q[|q| - 1]);
    }
  }

  /** A stopped run stays as it is. */
  lemma {:induction false} ExecHalted(r: Run, step: real, plan: seq<Step>)
    requires r.status != Running
    ensures Exec(r, step, plan) == r
    decreases |plan|
  {
    if plan != [] {
      ExecHalted(r, step, plan[..|plan| - 1]);
    }
  }

  /** Actuation steps only extend the log of a running run. */
  lemma {:induction false} ExecActs(r: Run, step: real, acts: seq<Actuation>)
    ensures r.status == Running ==> Exec(r, step, Acts(acts)) == r.(log := r.log + acts)
    ensures r.status != Running ==> Exec(r, step, Acts(acts)) == r
    decreases |acts|
  {
    if r.status != Running {
      ExecHalted(r, step, Acts(acts));
    } else if acts != [] {
      var init := acts[..|acts| - 1];
      ExecActs(r, step, init);
      assert Acts(acts)[..|acts| - 1] == Acts(init);
      assert init + [acts[|acts| - 1]] == acts;
    }
  }

  /** The items a run added to the progress queue. */
  function Published(before: Run, after: Run): seq<Progress>
    requires before.progress.Some? && after.progress.Some?
  {
    var p := after.progress.value;
    if |before.progress.value| <= |p| then p[|before.progress.value|..] else []
  }

  /** No step of a plan before its last is `Finish`. */
  predicate FinishOnlyLast(plan: seq<Step>) {
    forall k :: 0 <= k < |plan| - 1 ==> plan[k] != Finish
  }

  /** Running a plan keeps the progress queue's earlier items, and a plan without `Finish` publishes no "DONE". */
  lemma {:induction false} NoFinishNoDone(r: Run, step: real, plan: seq<Step>)
    requires r.progress.Some?
    requires forall k :: 0 <= k < |plan| ==> plan[k] != Finish
    ensures Exec(r, step, plan).progress.Some?
    ensures |r.progress.value| <= |Exec(r, step, plan).progress.value|
    ensures Exec(r, step, plan).progress.value[..|r.progress.value|] == r.progress.value
    ensures Done !in Published(r, Exec(r, step, plan))
    decreases |plan|
  {
    if plan != [] {
      var init := plan[..|plan| - 1];
      NoFinishNoDone(r, step, init);
      var mid := Exec(r, step, init);
      var n := |r.progress.value|;
      var after := ExecLast(r, step, plan);
      assert after == Exec1(mid, step, plan[|plan| - 1]);
      if mid.status == Running && plan[|plan| - 1] == Advance {
        var m := mid.progress.value;
        if after.progress.value != m {
          assert Published(r, after) == Published(r, mid) + [after.progress.value[|after.progress.value| - 1]];
        }
      }
    }
  }

  /**
   * A cancelled run never publishes "DONE": as long as `Finish` comes only last, a run
   * that ends cancelled has added no "DONE" to the progress queue.
   */
  lemma CancelledNeverDone(r: Run, step: real, plan: seq<Step>)
    requires r.status == Running && r.progress.Some?
    requires FinishOnlyLast(plan)
    ensures Exec(r, step, plan).progress.Some?
    ensures Exec(r, step, plan).status == Cancelled ==> Done !in Published(r, Exec(r, step, plan))
  {
    ProgressKept(r, step, plan);
    if plan != [] {
      var init := plan[..|plan| - 1];
      NoFinishNoDone(r, step, init);
      var mid := Exec(r, step, init);
      var after := Exec(r, step, plan);
      if after.status == Cancelled && plan[|plan| - 1] == Finish {
        assert mid.status == Running ==> after.progress == mid.progress;
      } else if after.status == Cancelled && mid.status == Running && plan[|plan| - 1] == Advance {
        assert after.progress == mid.progress;
      }
    }
  }

  /**
   * A run that is still going when its closing `Finish` is reached ends the progress
   * queue with 100 and "DONE".
   */
  lemma FinishPublishesDone(r: Run, step: real, body: seq<Step>)
    requires r.progress.Some?
    requires Exec(r, step, body + [Finish]).status == Running
    ensures var p := Exec(r, step, body + [Finish]).progress;
      p.Some? && |p.value| >= 2 && p.value[|p.value| - 2..] == [Percent(100.0), Done]
  {
    ExecSnoc(r, step, body, Finish);
    ProgressKept(r, step, body);
  }

  /** The progress queue stays present once it is. */
  lemma {:induction false} ProgressKept(r: Run, step: real, plan: seq<Step>)
    requires r.progress.Some?
    ensures Exec(r, step, plan).progress.Some?
    decreases |plan|
  {
    if plan != [] {
      ProgressKept(r, step, plan[..|plan| - 1]);
    }
  }

  /** The percentages on a progress list never go down. */
  predicate NonDecreasing(ps: seq<Progress>) {
    forall i, j :: 0 <= i < j < |ps| && ps[i].Percent? && ps[j].Percent? ==> ps[i].value <= ps[j].value
  }

  /**
   * Without `Finish`, the published percentages never go down, and each is at most the
   * stored value plus one step: the stored value is clamped to 100 only after it was
   * published.
   */
  lemma {:induction false} ProgressMonotone(r: Run, step: real, plan: seq<Step>)
    requires step >= 0.0 && r.cur <= 100.0 && r.progress.Some?
    requires forall k :: 0 <= k < |plan| ==> plan[k] != Finish
    ensures NoFinishProgress(r, step, plan)
    decreases |plan|
  {
    NoFinishNoDone(r, step, plan);
    if plan != [] {
      var init := plan[..|plan| - 1];
      ProgressMonotone(r, step, init);
      NoFinishNoDone(r, step, init);
    }
  }

  /** The facts `ProgressMonotone` keeps along a plan. */
  ghost predicate NoFinishProgress(r: Run, step: real, plan: seq<Step>)
    requires r.progress.Some?
  {
    var after := Exec(r, step, plan);
    after.progress.Some?
    && |r.progress.value| <= |after.progress.value|
    && after.cur <= 100.0
    && NonDecreasing(Published(r, after))
    && forall k :: 0 <= k < |Published(r, after)| ==>
         Published(r, after)[k].Percent? && Published(r, after)[k].value <= after.cur + step
  }

  // ---------------------------------------------------------------- plans built from loops

  /** The plan of a loop: the steps of each element in turn. */
  function FlatMap<T>(f: T -> seq<Step>, xs: seq<T>): seq<Step>
    decreases |xs|, 1
  {
    if xs == [] then [] else FlatMapLast(f, xs)
  }

  /** The plan of a non-empty loop: the plan of all but the last element, then the last. */
  function FlatMapLast<T>(f: T -> seq<Step>, xs: seq<T>): seq<Step>
    requires xs != []
    decreases |xs|, 0
  {
    FlatMap(f, xs[..|xs| - 1]) + f(xs[|xs| - 1])
  }

  lemma FlatMapNext<T>(f: T -> seq<Step>, xs: seq<T>, i: nat)
    requires i < |xs|
    ensures FlatMap(f, xs[..i + 1]) == FlatMap(f, xs[..i]) + f(xs[i])
  {
    assert xs[..i + 1][..i] == xs[..i];
  }

  lemma {:induction false} FlatMapAppend<T>(f: T -> seq<Step>, a: seq<T>, b: seq<T>)
    ensures FlatMap(f, a + b) == FlatMap(f, a) + FlatMap(f, b)
    decreases |b|
  {
    if b == [] {
      assert a + b == a;
    } else {
      FlatMapAppend(f, a, b[..|b| - 1]);
      assert (a + b)[..|a + b| - 1] == a + b[..|b| - 1];
    }
  }

  // ---------------------------------------------------------------- progress arithmetic

  /** The number of `Advance` steps in a plan. */
  function Advances(plan: seq<Step>): nat {
    if plan == [] then 0 else Advances(plan[..|plan| - 1]) + (if plan[|plan| - 1] == Advance then 1 else 0)
  }

  lemma {:induction false} AdvancesAppend(a: seq<Step>, b: seq<Step>)
    ensures Advances(a + b) == Advances(a) + Advances(b)
    decreases |b|
  {
    if b == [] {
      assert a + b == a;
    } else {
      AdvancesAppend(a, b[..|b| - 1]);
      assert (a + b)[..|a + b| - 1] == a + b[..|b| - 1];
    }
  }

  lemma {:induction false} AdvancesActs(acts: seq<Actuation>)
    ensures Advances(Acts(acts)) == 0
    decreases |acts|
  {
    if acts != [] {
      AdvancesActs(acts[..|acts| - 1]);
      assert Acts(acts)[..|acts| - 1] == Acts(acts[..|acts| - 1]);
    }
  }

  /** A loop whose every element advances once advances once per element. */
  lemma {:induction false} AdvancesFlatMapOne<T>(f: T -> seq<Step>, xs: seq<T>)
    requires forall k :: 0 <= k < |xs| ==> Advances(f(xs[k])) == 1
    ensures Advances(FlatMap(f, xs)) == |xs|
    decreases |xs|
  {
    if xs != [] {
      AdvancesFlatMapOne(f, xs[..|xs| - 1]);
      AdvancesAppend(FlatMap(f, xs[..|xs| - 1]), f(xs[|xs| - 1]));
    }
  }

  /** Every item is a percentage of at most `bound`. */
  predicate PercentsAtMost(ps: seq<Progress>, bound: real) {
    forall k :: 0 <= k < |ps| ==> ps[k].Percent? && ps[k].value <= bound
  }

  /** Every item is a percentage below `bound`. */
  predicate PercentsBelow(ps: seq<Progress>, bound: real) {
    forall k :: 0 <= k < |ps| ==> ps[k].Percent? && ps[k].value < bound
  }

  /** `n` steps of size `step`, added one at a time. */
  function Times(step: real, n: nat): real {
    if n == 0 then 0.0 else Times(step, n - 1) + step
  }

  lemma {:induction false} TimesMonotone(step: real, m: nat, n: nat)
    requires step >= 0.0 && m <= n
    ensures Times(step, m) <= Times(step, n)
    decreases n
  {
    if m < n {
      TimesMonotone(step, m, n - 1);
    }
  }

  lemma {:induction false} TimesProduct(step: real, n: nat)
    ensures Times(step, n) == step * n as real
    decreases n
  {
    if n > 0 {
      TimesProduct(step, n - 1);
      assert step * n as real == step * (n - 1) as real + step;
    }
  }

  /**
   * Progress from a reset counter: after a plan without `Finish`, the stored value and every
   * published percentage are at most one step per `Advance` of the plan.
   */
  lemma {:induction false} ProgressBound(r: Run, step: real, plan: seq<Step>)
    requires step >= 0.0 && r.cur == 0.0 && r.progress.Some?
    requires forall k :: 0 <= k < |plan| ==> plan[k] != Finish
    ensures Exec(r, step, plan).progress.Some?
    ensures Exec(r, step, plan).cur <= Times(step, Advances(plan))
    ensures PercentsAtMost(Published(r, Exec(r, step, plan)), Times(step, Advances(plan)))
    decreases |plan|
  {
    NoFinishNoDone(r, step, plan);
    if plan != [] {
      var init := plan[..|plan| - 1];
      ProgressBound(r, step, init);
      NoFinishNoDone(r, step, init);
      var mid := Exec(r, step, init);
      var after := Exec(r, step, plan);
      assert after == Exec1(mid, step, plan[|plan| - 1]);
      TimesMonotone(step, Advances(init), Advances(plan));
      if mid.status == Running && plan[|plan| - 1] == Advance && !CancelNext(mid) {
        assert Published(r, after) == Published(r, mid) + [Percent(mid.cur + step)];
      } else {
        assert Published(r, after) == Published(r, mid);
      }
    }
  }

  /** The progress step `enter_all` sets: 1 / parts * 100, in percent. */
  function StepSize(parts: nat): real
    requires parts > 0
  {
    (1.0 / parts as real) * 100.0
  }

  lemma StepBelowHundred(n: nat, m: nat)
    requires m <= n
    ensures Times(StepSize(n + 1), m) < 100.0
  {
    var step := StepSize(n + 1);
    TimesMonotone(step, m, n);
    TimesProduct(step, n);
    TimesProduct(step, n + 1);
    assert Times(step, n + 1) == Times(step, n) + step;
  }

  /**
   * With a step of 100 / (n + 1), a body holding at most n advances publishes only
   * percentages below 100: only the closing `Finish` reaches 100.
   */
  lemma ProgressBelowHundred(r: Run, n: nat, body: seq<Step>)
    requires r.cur == 0.0 && r.progress.Some?
    requires forall k :: 0 <= k < |body| ==> body[k] != Finish
    requires Advances(body) <= n
    ensures Exec(r, StepSize(n + 1), body).progress.Some?
    ensures PercentsBelow(Published(r, Exec(r, StepSize(n + 1), body)), 100.0)
  {
    ProgressBound(r, StepSize(n + 1), body);
    StepBelowHundred(n, Advances(body));
  }

  /**
   * A run still going after a plan without `Finish` took every step: each advance added
   * exactly one step, so as long as that stays within 100 the stored value is one step per
   * advance, and the last advance published it.
   */
  lemma {:induction false} ProgressExact(r: Run, step: real, plan: seq<Step>)
    requires step >= 0.0 && r.cur == 0.0 && r.progress.Some?
    requires forall k :: 0 <= k < |plan| ==> plan[k] != Finish
    requires Exec(r, step, plan).status == Running && Times(step, Advances(plan)) <= 100.0
    ensures Exec(r, step, plan).progress.Some?
    ensures Exec(r, step, plan).cur == Times(step, Advances(plan))
    ensures Advances(plan) > 0 ==> Percent(Times(step, Advances(plan))) in Published(r, Exec(r, step, plan))
    decreases |plan|
  {
    NoFinishNoDone(r, step, plan);
    if plan != [] {
      var init := plan[..|plan| - 1];
      var mid := Exec(r, step, init);
      var after := Exec(r, step, plan);
      assert after == Exec1(mid, step, plan[|plan| - 1]);
      TimesMonotone(step, Advances(init), Advances(plan));
      ProgressExact(r, step, init);
      NoFinishNoDone(r, step, init);
      if plan[|plan| - 1] == Advance {
        assert Published(r, after) == Published(r, mid) + [Percent(mid.cur + step)];
      } else {
        assert Published(r, after) == Published(r, mid);
      }
    }
  }

  /**
   * A body whose advances add up to exactly 100 and that runs to its end has published
   * 100 before its closing `Finish`.
   */
  lemma FullStepsReachHundred(r: Run, step: real, body: seq<Step>)
    requires step >= 0.0 && r.cur == 0.0 && r.progress.Some?
    requires forall k :: 0 <= k < |body| ==> body[k] != Finish
    requires Advances(body) > 0 && Times(step, Advances(body)) == 100.0
    requires Exec(r, step, body).status == Running
    ensures Exec(r, step, body).progress.Some?
    ensures Percent(100.0) in Published(r, Exec(r, step, body))
    ensures !PercentsBelow(Published(r, Exec(r, step, body)), 100.0)
  {
    ProgressExact(r, step, body);
  }

  /** `parts` steps of 100 / parts add up to exactly 100. */
  lemma StepsFill(parts: nat)
    requires parts > 0
    ensures StepSize(parts) > 0.0 && Times(StepSize(parts), parts) == 100.0
  {
    TimesProduct(StepSize(parts), parts);
  }

  // ---------------------------------------------------------------- plans without Finish

  predicate NoFinish(plan: seq<Step>) {
    forall k :: 0 <= k < |plan| ==> plan[k] != Finish
  }

  lemma NoFinishAppend(a: seq<Step>, b: seq<Step>)
    requires NoFinish(a) && NoFinish(b)
    ensures NoFinish(a + b)
  {
  }

  lemma {:induction false} NoFinishFlatMap<T>(f: T -> seq<Step>, xs: seq<T>)
    requires forall k :: 0 <= k < |xs| ==> NoFinish(f(xs[k]))
    ensures NoFinish(FlatMap(f, xs))
    decreases |xs|
  {
    if xs != [] {
      NoFinishFlatMap(f, xs[..|xs| - 1]);
    }
  }

  /**
   * The shape of every `enter_all`: a body without `Finish`, then the closing advance. A
   * cancelled run of it publishes no "DONE", and a run still going at the end closes the
   * progress queue with 100 and "DONE".
   */
  lemma ClosedRun(r: Run, step: real, body: seq<Step>)
    requires r.status == Running && r.progress.Some? && NoFinish(body)
    ensures Exec(r, step, body + [Finish]).progress.Some?
    ensures Exec(r, step, body + [Finish]).status == Cancelled ==>
      Done !in Published(r, Exec(r, step, body + [Finish]))
    ensures Exec(r, step, body + [Finish]).status == Running ==>
      var p := Exec(r, step, body + [Finish]).progress.value;
      |p| >= 2 && p[|p| - 2..] == [Percent(100.0), Done]
  {
    CancelledNeverDone(r, step, body + [Finish]);
    if Exec(r, step, body + [Finish]).status == Running {
      FinishPublishesDone(r, step, body);
    }
  }

  // ---------------------------------------------------------------- loops of units

  /** The steps of one loop element that advances the progress and then presses. */
  function Unit(acts: seq<Actuation>): seq<Step> {
    [Advance] + Acts(acts)
  }

  /** A loop whose element `x` advances and then performs `g(x)`. */
  function Units<T>(g: T -> seq<Actuation>): T -> seq<Step> {
    (x: T) => Unit(g(x))
  }

  /** A unit advances exactly once and never finishes. */
  lemma UnitShape(acts: seq<Actuation>)
    ensures Advances(Unit(acts)) == 1 && NoFinish(Unit(acts))
  {
    AdvancesAppend([Advance], Acts(acts));
    AdvancesActs(acts);
  }

  /** A loop of units advances once per element and never finishes. */
  lemma UnitsShape<T>(g: T -> seq<Actuation>, xs: seq<T>)
    ensures Advances(FlatMap(Units(g), xs)) == |xs| && NoFinish(FlatMap(Units(g), xs))
  {
    forall k | 0 <= k < |xs| ensures Advances(Units(g)(xs[k])) == 1 && NoFinish(Units(g)(xs[k])) {
      UnitShape(g(xs[k]));
    }
    AdvancesFlatMapOne(Units(g), xs);
    NoFinishFlatMap(Units(g), xs);
  }

  /** A unit: the advance, and when the run goes on, its actuations. */
  lemma ExecUnit(r: Run, step: real, acts: seq<Actuation>)
    ensures Exec(r, step, Unit(acts))
            == var a := Exec1(r, step, Advance); if a.status == Running then a.(log := a.log + acts) else a
  {
    ExecAppend(r, step, [Advance], Acts(acts));
    ExecSnoc(r, step, [], Advance);
    ExecActs(Exec1(r, step, Advance), step, acts);
  }

  /** The run of a loop, one more element. */
  lemma ExecFlatMapNext<T>(r: Run, step: real, f: T -> seq<Step>, xs: seq<T>, i: nat)
    requires i < |xs|
    ensures Exec(r, step, FlatMap(f, xs[..i + 1])) == Exec(Exec(r, step, FlatMap(f, xs[..i])), step, f(xs[i]))
  {
    FlatMapNext(f, xs, i);
    ExecAppend(r, step, FlatMap(f, xs[..i]), f(xs[i]));
  }

  /** A loop whose run stopped at element `i` leaves what its first `i + 1` elements left. */
  lemma ExecFlatMapStop<T>(r: Run, step: real, f: T -> seq<Step>, xs: seq<T>, i: nat)
    requires i < |xs| && Exec(r, step, FlatMap(f, xs[..i + 1])).status != Running
    ensures Exec(r, step, FlatMap(f, xs)) == Exec(r, step, FlatMap(f, xs[..i + 1]))
  {
    FlatMapAppend(f, xs[..i + 1], xs[i + 1..]);
    assert xs[..i + 1] + xs[i + 1..] == xs;
    ExecStopped(r, step, FlatMap(f, xs[..i + 1]), FlatMap(f, xs[i + 1..]));
  }

  /** Presses ahead of the rest of a plan only extend the log of a running run. */
  lemma ExecThen(r: Run, step: real, acts: seq<Actuation>, rest: seq<Step>)
    requires r.status == Running
    ensures Exec(r, step, Acts(acts) + rest) == Exec(r.(log := r.log + acts), step, rest)
  {
    ExecAppend(r, step, Acts(acts), rest);
    ExecActs(r, step, acts);
  }

  /** A single step ahead of the rest of a plan. */
  lemma ExecStepThen(r: Run, step: real, s: Step, rest: seq<Step>)
    ensures Exec(r, step, [s] + rest) == Exec(Exec1(r, step, s), step, rest)
  {
    ExecAppend(r, step, [s], rest);
    ExecSnoc(r, step, [], s);
    assert [] + [s] == [s];
  }

  /** Presses and then an exception: the presses are logged and the run fails. */
  lemma ExecAbort(r: Run, step: real, acts: seq<Actuation>)
    requires r.status == Running
    ensures Exec(r, step, Acts(acts) + [Abort]) == r.(log := r.log + acts, status := Failed)
  {
    ExecSnoc(r, step, Acts(acts), Abort);
    ExecActs(r, step, acts);
  }

  /** An exception before any press: the run fails. */
  lemma ExecRaise(r: Run, step: real)
    requires r.status == Running
    ensures Exec(r, step, [Abort]) == r.(status := Failed)
  {
    ExecSnoc(r, step, [], Abort);
    assert [] + [Abort] == [Abort];
  }

  /** Nothing after a stop changes the run. */
  lemma ExecStopped(r: Run, step: real, p: seq<Step>, q: seq<Step>)
    requires Exec(r, step, p).status != Running
    ensures Exec(r, step, p + q) == Exec(r, step, p)
  {
    ExecAppend(r, step, p, q);
    ExecHalted(Exec(r, step, p), step, q);
  }

  // ---------------------------------------------------------------- framed loops

  lemma NoFinishActs(acts: seq<Actuation>)
    ensures NoFinish(Acts(acts))
  {
  }

  /**
   * A body between two runs of presses: the head's presses, the body, and the tail's
   * presses only when the run is still going after the body.
   */
  lemma ExecFramed(r: Run, step: real, head: seq<Actuation>, body: seq<Step>, tail: seq<Actuation>)
    requires r.status == Running
    ensures Exec(r, step, Acts(head) + body + Acts(tail))
            == var r1 := Exec(r.(log := r.log + head), step, body);
               if r1.status == Running then r1.(log := r1.log + tail) else r1
  {
    ExecAppend(r, step, Acts(head) + body, Acts(tail));
    ExecAppend(r, step, Acts(head), body);
    ExecActs(r, step, head);
    ExecActs(Exec(r, step, Acts(head) + body), step, tail);
  }

  /** Framing a body with presses adds no advance and no `Finish`. */
  lemma FramedShape(head: seq<Actuation>, body: seq<Step>, tail: seq<Actuation>)
    ensures Advances(Acts(head) + body + Acts(tail)) == Advances(body)
    ensures NoFinish(body) ==> NoFinish(Acts(head) + body + Acts(tail))
  {
    AdvancesActs(head);
    AdvancesActs(tail);
    AdvancesAppend(Acts(head), body);
    AdvancesAppend(Acts(head) + body, Acts(tail));
    NoFinishActs(head);
    NoFinishActs(tail);
  }

  /**
   * What an `enter_all` promises about its progress when it runs `body` and then closes
   * with `Finish`: every percentage the body publishes is below 100, a cancelled run
   * publishes no "DONE", and a run still going at the end closes with 100 and "DONE".
   */
  predicate EntryPromise(r: Run, step: real, body: seq<Step>) {
    && r.progress.Some?
    && Exec(r, step, body).progress.Some?
    && PercentsBelow(Published(r, Exec(r, step, body)), 100.0)
    && Exec(r, step, body + [Finish]).progress.Some?
    && (Exec(r, step, body + [Finish]).status == Cancelled ==>
          Done !in Published(r, Exec(r, step, body + [Finish])))
    && (Exec(r, step, body + [Finish]).status == Running ==>
          var p := Exec(r, step, body + [Finish]).progress.value;
          |p| >= 2 && p[|p| - 2..] == [Percent(100.0), Done])
  }

  /**
   * An `enter_all` whose step is 100 / parts and whose body advances fewer than `parts`
   * times keeps the progress promise.
   */
  lemma EntryProgress(r: Run, parts: nat, body: seq<Step>)
    requires r.status == Running && r.progress.Some? && r.cur == 0.0
    requires NoFinish(body) && Advances(body) < parts
    ensures EntryPromise(r, StepSize(parts), body)
  {
    ProgressBelowHundred(r, parts - 1, body);
    ClosedRun(r, StepSize(parts), body);
  }
}
