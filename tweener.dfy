/** Model of the scalar tweener of the Liquid engine (source/tweener/Tweener.cpp).

    A tweener interpolates one scalar from `initial` to `target` over `duration`
    time units, advancing by one frame delta per `update()`. The abstract state
    of a tweener is the value `Tween`; `Tick` is the meaning of one update and
    `Rewound` the meaning of a reset. The class `Tweener` holds the same fields
    and is proved against those functions.
 */
module Tweening {

  /** An easing curve: maps normalised progress to eased progress. Its
      definitions are not part of this model, so it is a plain parameter. */
  type Ease = real -> real

  /** An opaque name for an installed update callback. */
  type CallbackId = nat

  datatype Option<T> = None | Some(value: T)

  /** The five scalar fields of a tweener. */
  datatype Tween = Tween(initial: real, target: real, value: real, elapsed: real, duration: real)

  /** The guard of update() and the answer of isFinished(). */
  predicate Expired(t: Tween)
  {
    t.elapsed >= t.duration
  }

  /** An update of `t` never divides by zero: either it is guarded off, or the
      duration it divides by is nonzero. */
  predicate TickDefined(t: Tween)
  {
    Expired(t) || t.duration != 0.0
  }

  /** calculateValue(): the eased interpolation at the current elapsed time. */
  function CalculateValue(t: Tween, ease: Ease): (r: real)
    requires t.duration != 0.0
    ensures ease(t.elapsed / t.duration) == 0.0 ==> r == t.initial
    ensures ease(t.elapsed / t.duration) == 1.0 ==> r == t.target
    ensures t.initial == t.target ==> r == t.initial
    ensures 0.0 <= ease(t.elapsed / t.duration) <= 1.0 && t.initial <= t.target ==> t.initial <= r <= t.target
    ensures 0.0 <= ease(t.elapsed / t.duration) <= 1.0 && t.target <= t.initial ==> t.target <= r <= t.initial
  {
    var x := ease(t.elapsed / t.duration);
    var r := t.initial + x * (t.target - t.initial);
    if 0.0 <= x <= 1.0 then
      ScaledStaysBetween(x, t.target - t.initial);
      r
    else
      r
  }

  /** Scaling a span by a factor in [0, 1] stays between 0 and the span. */
  lemma ScaledStaysBetween(x: real, d: real)
    requires 0.0 <= x <= 1.0
    ensures d >= 0.0 ==> 0.0 <= x * d <= d
    ensures d <= 0.0 ==> d <= x * d <= 0.0
  {
  }

  /** One update() with frame delta `dt`: a no-op once expired; otherwise the
      value is recomputed from the elapsed time before the increment, and only
      then the elapsed time advances. */
  function Tick(t: Tween, ease: Ease, dt: real): Tween
    requires TickDefined(t)
  {
    if Expired(t) then t
    else t.(value := CalculateValue(t, ease), elapsed := t.elapsed + dt)
  }

  /** reset(): back to the start of the curve. */
  function Rewound(t: Tween): Tween
  {
    t.(elapsed := 0.0, value := t.initial)
  }

  /** `n` consecutive updates with the same frame delta. */
  function Ticks(t: Tween, ease: Ease, dt: real, n: nat): Tween
    requires t.elapsed >= 0.0 && dt >= 0.0
    decreases n
  {
    if n == 0 then t else Ticks(Tick(t, ease, dt), ease, dt, n - 1)
  }

  /** With a nonnegative elapsed time, the guard of update() is exactly what
      keeps calculateValue's division safe: it is reached only with a positive
      duration and a progress ratio in [0, 1). */
  lemma GuardProtectsDivision(t: Tween)
    requires t.elapsed >= 0.0 && !Expired(t)
    ensures t.duration > 0.0
    ensures 0.0 <= t.elapsed / t.duration < 1.0
  {
  }

  /** A zero or negative duration never divides: the tween is already expired
      and an update leaves it as it is. */
  lemma NonPositiveDurationNeverDivides(t: Tween, ease: Ease, dt: real)
    requires t.elapsed >= 0.0 && t.duration <= 0.0
    ensures Expired(t) && TickDefined(t)
    ensures Tick(t, ease, dt) == t
  {
  }

  /** Division safety is kept by every update, whatever its delta, and
      restored by every reset. */
  lemma DivisionSafetyKept(t: Tween, ease: Ease, dt: real)
    ensures TickDefined(t) ==> TickDefined(Tick(t, ease, dt))
    ensures TickDefined(Rewound(t))
  {
  }

  /** Running `m + k` updates is running `m`, then `k` more. */
  lemma {:induction false} TicksSplit(t: Tween, ease: Ease, dt: real, m: nat, k: nat)
    requires t.elapsed >= 0.0 && dt >= 0.0
    ensures Ticks(t, ease, dt, m).elapsed >= 0.0
    ensures Ticks(t, ease, dt, m + k) == Ticks(Ticks(t, ease, dt, m), ease, dt, k)
    decreases m
  {
    if m > 0 {
      TicksSplit(Tick(t, ease, dt), ease, dt, m - 1, k);
    }
  }

  /** With a nonnegative delta, the elapsed time never decreases along a run of
      updates. */
  lemma {:induction false} ElapsedMonotone(t: Tween, ease: Ease, dt: real, m: nat, n: nat)
    requires t.elapsed >= 0.0 && dt >= 0.0 && m <= n
    ensures Ticks(t, ease, dt, m).elapsed <= Ticks(t, ease, dt, n).elapsed
  {
    TicksSplit(t, ease, dt, m, n - m);
    ElapsedNeverDecreases(Ticks(t, ease, dt, m), ease, dt, n - m);
  }

  lemma {:induction false} ElapsedNeverDecreases(t: Tween, ease: Ease, dt: real, n: nat)
    requires t.elapsed >= 0.0 && dt >= 0.0
    ensures Ticks(t, ease, dt, n).elapsed >= t.elapsed
    decreases n
  {
    if n > 0 {
      ElapsedNeverDecreases(Tick(t, ease, dt), ease, dt, n - 1);
    }
  }

  /** Once expired, every further update is a no-op: the whole tween, and in
      particular its value, is frozen. */
  lemma {:induction false} ExpiredStaysFrozen(t: Tween, ease: Ease, dt: real, n: nat)
    requires t.elapsed >= 0.0 && dt >= 0.0 && Expired(t)
    ensures Ticks(t, ease, dt, n) == t
    decreases n
  {
    if n > 0 {
      ExpiredStaysFrozen(Tick(t, ease, dt), ease, dt, n - 1);
    }
  }

  /** With a positive delta, `n` updates finish the tween as soon as `n` deltas
      cover the remaining time. */
  lemma {:induction false} EventuallyExpired(t: Tween, ease: Ease, dt: real, n: nat)
    requires t.elapsed >= 0.0 && dt > 0.0
    requires t.elapsed + (n as real) * dt >= t.duration
    ensures Expired(Ticks(t, ease, dt, n))
    decreases n
  {
    if n > 0 {
      if Expired(t) {
        ExpiredStaysFrozen(t, ease, dt, n);
      } else {
        var next := Tick(t, ease, dt);
        assert next.elapsed == t.elapsed + dt;
        assert next.elapsed + ((n - 1) as real) * dt == t.elapsed + (n as real) * dt;
        EventuallyExpired(next, ease, dt, n - 1);
      }
    }
  }

  /** After enough updates the value stops changing for good. */
  lemma FinishedValueFrozen(t: Tween, ease: Ease, dt: real, m: nat, n: nat)
    requires t.elapsed >= 0.0 && dt > 0.0 && m <= n
    requires t.elapsed + (m as real) * dt >= t.duration
    ensures Ticks(t, ease, dt, n).value == Ticks(t, ease, dt, m).value
  {
    EventuallyExpired(t, ease, dt, m);
    TicksSplit(t, ease, dt, m, n - m);
    ExpiredStaysFrozen(Ticks(t, ease, dt, m), ease, dt, n - m);
  }

  /** The value lags one update behind the elapsed time: linear ease, 0 to 10
      over 1 time unit, delta 0.5 gives 0 after the first update, 5 after the
      second, and the third is a no-op. */
  lemma {:induction false} ValueLagsOneTick()
    ensures Ticks(Tween(0.0, 10.0, 0.0, 0.0, 1.0), x => x, 0.5, 1).value == 0.0
    ensures Ticks(Tween(0.0, 10.0, 0.0, 0.0, 1.0), x => x, 0.5, 2).value == 5.0
    ensures Ticks(Tween(0.0, 10.0, 0.0, 0.0, 1.0), x => x, 0.5, 3) == Ticks(Tween(0.0, 10.0, 0.0, 0.0, 1.0), x => x, 0.5, 2)
  {
    var lin: Ease := x => x;
    var t0 := Tween(0.0, 10.0, 0.0, 0.0, 1.0);
    var t1 := Tween(0.0, 10.0, 0.0, 0.5, 1.0);
    var t2 := Tween(0.0, 10.0, 5.0, 1.0, 1.0);
    assert Tick(t0, lin, 0.5) == t1;
    assert Tick(t1, lin, 0.5) == t2;
    assert Tick(t2, lin, 0.5) == t2;
    TicksSplit(t0, lin, 0.5, 1, 1);
    TicksSplit(t0, lin, 0.5, 2, 1);
  }

  /** After a reset with a positive duration the tween is live again, and the
      next update restarts the curve at progress 0. */
  lemma ResetRestartsCurve(t: Tween, ease: Ease, dt: real)
    requires t.duration > 0.0
    ensures Rewound(t).value == t.initial && !Expired(Rewound(t))
    ensures Tick(Rewound(t), ease, dt).value == t.initial + ease(0.0) * (t.target - t.initial)
    ensures Tick(Rewound(t), ease, dt).elapsed == dt
  {
  }

  class Tweener {
    var initial: real
    var target: real
    var value: real
    var elapsed: real
    var duration: real
    var ease: Ease
    var updateFunc: Option<CallbackId>
    /** Every call of the update callback: which callback, with what value. */
    ghost var updateCalls: seq<(CallbackId, real)>
    /** How many times finished() has been raised. */
    ghost var finishedSignals: nat

    function State(): Tween
      reads this
    {
      Tween(initial, target, value, elapsed, duration)
    }

    ghost function Snap(): Snapshot
      reads this
    {
      Snapshot(State(), ease, updateFunc, updateCalls, finishedSignals)
    }

    /** Tweener(): all five scalars zero and no callback. The easing function is
        the default-constructed one, which this model takes as a parameter. */
    constructor Default(ease: Ease)
      ensures State() == Tween(0.0, 0.0, 0.0, 0.0, 0.0)
      ensures this.ease == ease && updateFunc == None
      ensures updateCalls == [] && finishedSignals == 0
    {
      elapsed := 0.0;
      initial := 0.0;
      target := 0.0;
      duration := 0.0;
      value := 0.0;
      this.ease := ease;
      updateFunc := None;
      updateCalls := [];
      finishedSignals := 0;
    }

    /** Tweener(value, target, duration, easingFunc): starts at `value`. */
    constructor (value: real, target: real, duration: real, ease: Ease)
      ensures State() == Tween(value, target, value, 0.0, duration)
      ensures this.ease == ease && updateFunc == None
      ensures updateCalls == [] && finishedSignals == 0
    {
      elapsed := 0.0;
      initial := value;
      this.target := target;
      this.duration := duration;
      this.value := value;
      this.ease := ease;
      updateFunc := None;
      updateCalls := [];
      finishedSignals := 0;
    }

    /** Tweener(value, target, duration, easingFunc, updateFunc): unlike the
        four-argument form, the current value starts at 0, not at `value`. */
    constructor WithUpdateFunc(value: real, target: real, duration: real, ease: Ease, updateFunc: Option<CallbackId>)
      ensures State() == Tween(value, target, 0.0, 0.0, duration)
      ensures this.ease == ease && this.updateFunc == updateFunc
      ensures updateCalls == [] && finishedSignals == 0
    {
      elapsed := 0.0;
      initial := value;
      this.target := target;
      this.duration := duration;
      this.value := 0.0;
      this.ease := ease;
      this.updateFunc := updateFunc;
      updateCalls := [];
      finishedSignals := 0;
    }

    /** update(): one frame with delta `dt`; always returns `dt`. */
    method Update(dt: real) returns (r: real)
      requires TickDefined(State())
      modifies this
      ensures r == dt
      ensures TickedFrom(this, old(Snap()), dt)
    {
      r := dt;
      if elapsed >= duration {
        return;
      }
      value := CalculateValue(State(), ease);
      elapsed := elapsed + dt;
      if updateFunc.Some? {
        updateCalls := updateCalls + [(updateFunc.value, value)];
      }
    }

    /** isFinished(): reports expiry and raises finished() on every call that
        finds the tween expired. */
    method IsFinished() returns (b: bool)
      modifies this`finishedSignals
      ensures b == Expired(State())
      ensures finishedSignals == old(finishedSignals) + (if b then 1 else 0)
    {
      b := elapsed >= duration;
      if b {
        finishedSignals := finishedSignals + 1;
      }
    }

    method Reset()
      modifies this`elapsed, this`value
      ensures State() == Rewound(old(State()))
    {
      elapsed := 0.0;
      value := initial;
    }

    method SetInitial(v: real)
      modifies this`initial
      ensures initial == v
    {
      initial := v;
    }

    method SetTarget(v: real)
      modifies this`target
      ensures target == v
    {
      target := v;
    }

    method SetDuration(v: real)
      modifies this`duration
      ensures duration == v
    {
      duration := v;
    }

    method SetUpdateFunc(f: Option<CallbackId>)
      modifies this`updateFunc
      ensures updateFunc == f
    {
      updateFunc := f;
    }

    method SetEasingFunc(f: Ease)
      modifies this`ease
      ensures ease == f
    {
      ease := f;
    }

    // The getters of Tweener.cpp are plain field reads.
    function Value(): real reads this { value }
    function Initial(): real reads this { initial }
    function Target(): real reads this { target }
    function Elapsed(): real reads this { elapsed }
    function Duration(): real reads this { duration }
  }

  /** Everything a tweener object holds, as one value. */
  datatype Snapshot = Snapshot(
    tween: Tween, ease: Ease, updateFunc: Option<CallbackId>,
    updateCalls: seq<(CallbackId, real)>, finishedSignals: nat)

  /** One update() with delta `dt` on a snapshot: the scalars follow `Tick`,
      the callback log follows `CallLog`, and the easing function, the
      callback and the finished() count are kept. */
  function Stepped(s: Snapshot, dt: real): Snapshot
    requires TickDefined(s.tween)
  {
    var t := Tick(s.tween, s.ease, dt);
    s.(tween := t, updateCalls := CallLog(s.updateCalls, s.tween, s.updateFunc, t.value))
  }

  /** `t` now holds what one update() with delta `dt` makes of `before`. */
  ghost predicate TickedFrom(t: Tweener, before: Snapshot, dt: real)
    reads t
  {
    TickDefined(before.tween) && t.Snap() == Stepped(before, dt)
  }

  /** The callback log after one update from state `before` that produced
      `v`: one more entry exactly when the update was live and a callback is
      installed. */
  function CallLog(calls: seq<(CallbackId, real)>, before: Tween, f: Option<CallbackId>, v: real): (r: seq<(CallbackId, real)>)
    ensures |r| == |calls| + (if Expired(before) || f.None? then 0 else 1)
    ensures r[..|calls|] == calls
    ensures !Expired(before) && f.Some? ==> r[|calls|] == (f.value, v)
  {
    if Expired(before) || f.None? then calls else calls + [(f.value, v)]
  }

}
