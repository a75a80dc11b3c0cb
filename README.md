# Liquid engine tweener and particle, modelled in Dafny

This project models two classes of the Liquid 2D engine: the scalar `Tweener` and the `Particle` that owns six of them.

- **`Tweening`** (`tweener.dfy`) models `Tweener`. A tweener interpolates one value from `initial` to `target` over `duration`, and each `update()` advances it by one frame delta.
  - The class `Tweening.Tweener` keeps the source's fields: the five scalars, the easing curve and the optional update callback.
  - Its methods are proved against three pure functions over the datatype `Tween`:
    - `CalculateValue` is the eased interpolation;
    - `Tick` is one `update()`;
    - `Rewound` is one `reset()`.
  - The lemmas about repeated updates (`Ticks`) cover:
    - elapsed time never goes backwards;
    - an expired tween is frozen;
    - a positive delta eventually expires the tween;
    - the guard keeps the division safe;
    - the value lags one update behind the elapsed time.
- **`Particles`** (`particle.dfy`) models `Particle`.
  - It has a position, a velocity, an RGBA colour buffer (an `array<real>` of length 4), a life time and a life span.
  - It has two velocity tweeners and four colour tweeners.
  - The constructor, `update()`, `emit()`, `calculateTargets()` and the setters are methods. Their contracts state the whole new state of the particle and of every tweener it touches, in terms of `Tick`/`Stepped`, `Rewound` and the rolled targets.
  - The life clock is also modelled on values (`Aged`, `AgedBy`), with lemmas:
    - a dead particle stays dead, including a freshly constructed one;
    - a particle dies once enough frames have passed.

The model takes these as parameters:

- **Frame delta.** The engine's global frame delta (`utilities::DELTA`) is the `dt` parameter.
- **Random draws.** The random generator (`Random::instance().randomRange`) is replaced by a sequence of draws. Each draw lies in its channel's `[varianceMin, varianceMax]`, and the draws are consumed in the order the source makes them.
- **Easing curves.** An easing curve is an arbitrary `real -> real` function.
- **Callback and signal.** The update callback is an opaque identifier, and each call is recorded in a ghost log of (callback, value) pairs. The `finished()` signal is a ghost counter.

Where the source's behaviour is surprising, the model follows the code as written:

- A freshly constructed particle is **not** alive. `Particle.cpp:19` sets `lifeTime = lifeSpan`, so it only comes alive through `emit`. `Particles.DeadStaysDead` states that updates alone never revive it.
- `update()` computes the value from the elapsed time *before* incrementing it (`Tweener.cpp:51-52`). After two updates of 0.5 on a linear 0→10 tween of duration 1, the value is therefore 5, not 10, and a third update is a no-op. `Tweening.ValueLagsOneTick` states this.
- The five-argument `Tweener` constructor starts `value` at 0, not at the initial value (`Tweener.cpp:37`).
- The `Particle` constructor sets only each member tweener's initial value (`Particle.cpp:27-32`); their current values stay at the default 0 until `emit` rewinds them.
- `isFinished()` raises `finished()` on every call that finds the tween expired, not only on the first (`Tweener.cpp:62-71`).
- A tweener with a nonnegative elapsed time and a zero or negative duration counts as expired (`elapsed >= duration`), so `update()` never reaches the division; `Tweening.NonPositiveDurationNeverDivides` states this. With a negative elapsed time and a zero duration the guard does not hold and the source divides by zero; the model excludes that state (`TickDefined`). No special "return the target" policy exists in the code, and none is modelled.

## Model

| member | source | states |
|---|---|---|
| Tweening.CalculateValue | source/tweener/Tweener.cpp:104-109 | the eased interpolation gives the initial value when the eased progress is 0 and the target when it is 1. It is the initial value when initial equals target, and lies between initial and target whenever the eased progress is in [0, 1] |
| Tweening.GuardProtectsDivision | source/tweener/Tweener.cpp:48-51 | on a tween the guard lets through, with nonnegative elapsed time, the duration is positive and the progress ratio for the easing curve is in [0, 1) |
| Tweening.NonPositiveDurationNeverDivides | source/tweener/Tweener.cpp:48-49 | with a nonnegative elapsed time, a zero or negative duration means the tween is already expired, and an update leaves it entirely unchanged |
| Tweening.DivisionSafetyKept | source/tweener/Tweener.cpp:45-77 | an update with any delta keeps a tween clear of division by zero on its next update, and a reset always leaves it clear |
| Tweening.TicksSplit | source/tweener/Tweener.cpp:45-58 | running m + k updates equals running m and then k more, and elapsed time stays nonnegative along the way |
| Tweening.ElapsedNeverDecreases | source/tweener/Tweener.cpp:52 | with a nonnegative delta, any number of updates never lowers the elapsed time |
| Tweening.ElapsedMonotone | source/tweener/Tweener.cpp:48-52 | the elapsed time after m updates is at most the elapsed time after n updates whenever m <= n |
| Tweening.ExpiredStaysFrozen | source/tweener/Tweener.cpp:48-49 | once expired, any number of further updates leaves the whole tween, and so its value, unchanged |
| Tweening.EventuallyExpired | source/tweener/Tweener.cpp:48-52 | with a positive delta, the tween is expired after any number n of updates for which elapsed + n * delta reaches the duration |
| Tweening.FinishedValueFrozen | source/tweener/Tweener.cpp:48-52 | after enough updates to expire, the value no longer changes however many updates follow |
| Tweening.ValueLagsOneTick | source/tweener/Tweener.cpp:51-52 | on a linear 0→10 tween over 1 with delta 0.5, the value is 0 after one update and 5 after two, and the third update changes nothing |
| Tweening.ResetRestartsCurve | source/tweener/Tweener.cpp:73-77 | a reset tween with a positive duration is back at its initial value and not expired. Its next update evaluates the curve at progress 0 and moves elapsed to exactly the delta |
| Tweening.CallLog | source/tweener/Tweener.cpp:54-55 | the callback log gains exactly one entry, the installed callback with the new value, exactly when the update was live and a callback is installed; earlier entries are kept |
| Tweening.Tweener.Default | source/tweener/Tweener.cpp:7-16 | all five scalars are zero, there is no callback, and the logs are empty |
| Tweening.Tweener.constructor | source/tweener/Tweener.cpp:18-28 | initial and value are the given value; target and duration are as given; elapsed is 0; the given easing curve; no callback |
| Tweening.Tweener.WithUpdateFunc | source/tweener/Tweener.cpp:30-40 | as the four-argument form, except that value starts at 0 and the given callback is installed |
| Tweening.Tweener.Update | source/tweener/Tweener.cpp:45-58 | returns the delta. The object afterwards is exactly one `Tick` of its old scalars, with the callback log extended as `CallLog` says; easing curve, callback and finished() count are untouched |
| Tweening.Tweener.IsFinished | source/tweener/Tweener.cpp:62-71 | the answer is elapsed >= duration, and the finished() count rises by one exactly when the answer is true |
| Tweening.Tweener.Reset | source/tweener/Tweener.cpp:73-77 | elapsed becomes 0 and value becomes initial; only those two fields change |
| Tweening.Tweener.SetInitial | source/tweener/Tweener.cpp:79-82 | only initial changes, to the given value |
| Tweening.Tweener.SetTarget | source/tweener/Tweener.cpp:84-87 | only target changes, to the given value |
| Tweening.Tweener.SetDuration | source/tweener/Tweener.cpp:89-92 | only duration changes, to the given value |
| Tweening.Tweener.SetUpdateFunc | source/tweener/Tweener.cpp:94-97 | only the callback changes, to the given one |
| Tweening.Tweener.SetEasingFunc | source/tweener/Tweener.cpp:99-102 | only the easing curve changes, to the given one |
| Particles.Roll | source/common/Particle.cpp:13-17 | a base value plus a draw lies within base + varianceMin and base + varianceMax, and a zero-width variance range gives exactly base + varianceMin |
| Particles.Clamp | source/common/Particle.cpp:102-105 | each channel lands in [0, 255]: unchanged inside, 0 below and 255 above |
| Particles.DeadStaysDead | source/common/Particle.cpp:58-61 | a particle whose life time has reached its life span is never revived by updates, and its clock stands still |
| Particles.EventuallyDies | source/common/Particle.cpp:58-61 | with a positive delta, the particle is dead after any n updates for which lifeTime + n * delta reaches the life span |
| Particles.Particle.constructor | source/common/Particle.cpp:9-47 | the life span is the rolled life span and the life time equals it, so the particle starts dead. Velocity and colour take their channels' base values. Each of the six fresh, distinct tweeners has its channel's base value as initial value but a current value of 0 (a default tweener's value, which `setInitial` does not touch), heads for its rolled target and runs for the life span with elapsed 0 and the velocity or colour curve; none has a callback. The tweeners only hold their initial values after `emit` |
| Particles.Particle.VelocityMembers | source/common/Particle.cpp:27-40 | two fresh, distinct velocity tweeners whose initial values are the X and Y base velocities and whose current values are 0, running for the life span with the velocity curve |
| Particles.Particle.ColourMembers | source/common/Particle.cpp:29-46 | four fresh, distinct colour tweeners whose initial values are the R, G, B and A base values and whose current values are 0, running for the life span with the colour curve |
| Particles.Particle.InitialisedTweener | source/common/Particle.cpp:27-32 | a fresh default tweener whose initial value is the given one and whose other scalars are zero |
| Particles.Particle.SetTiming | source/common/Particle.cpp:34-40 | the tweener's duration becomes the life span and its easing curve the given one; nothing else changes |
| Particles.Particle.SetTimings | source/common/Particle.cpp:42-46 | every tweener of the group gets the life span as duration and the given easing curve; nothing else changes |
| Particles.Particle.Update | source/common/Particle.cpp:56-78 | the life clock advances as `Aged` says. A dead particle and all its tweeners are left unchanged. A live one advances its life time by the delta and ticks each of its six tweeners exactly once. It copies each colour tweener's value into its colour channel and the velocity tweeners' values into the velocity, and moves the position by velocity * delta |
| Particles.Particle.UpdateColours | source/common/Particle.cpp:63-67 | each colour tweener is ticked once and its value copied into the matching colour channel; the velocity tweeners are untouched |
| Particles.Particle.UpdateMotion | source/common/Particle.cpp:69-76 | each velocity tweener is ticked once, the velocity is read back from them, and the position advances by the new velocity times the delta; colour is untouched |
| Particles.Particle.Emit | source/common/Particle.cpp:80-93 | the life time becomes 0 and the position (x, y). Every tweener is rewound (elapsed 0, value back at initial) and heads for its freshly rolled target. The particle is then alive exactly when its life span is positive |
| Particles.Particle.ResetColours | source/common/Particle.cpp:89-90 | every colour tweener is rewound to the start of its curve |
| Particles.Particle.CalculateTargets | source/common/Particle.cpp:154-203 | each of the six targets becomes its channel's target value plus that channel's draw, in the order velocity X, velocity Y, R, G, B, A; only the targets change |
| Particles.Particle.IsAlive | source/common/Particle.cpp:114-117 | the particle is alive exactly when its life time is below its life span |
| Particles.Particle.SetLifeSpan | source/common/Particle.cpp:95-98 | only the life span changes; the tweeners keep their durations |
| Particles.Particle.SetColour | source/common/Particle.cpp:100-107 | the colour becomes the four clamped channels |
| Particles.Particle.SetColourArray | source/common/Particle.cpp:109-112 | the colour becomes the given four values, unclamped |

## Left out

- Floating point: values are mathematical reals. Single-precision rounding, infinities and NaN are not modelled, so the lemmas about exact values and monotonicity hold for the reals, not necessarily for `float`.
- The easing curves (`EasingFuncs`, `EasingFunction` and its in/out types) are not part of this model. An easing curve is an arbitrary `real -> real` function. The quadratic-out curve chosen for velocities and the linear curve for colours (`Particle.cpp:37-40`) are the constructor's `velocityEase` and `colourEase` parameters.
- The easing function held by a default-constructed `Tweener` depends on `EasingFunction`'s default constructor, which is not part of this model, so `Tweening.Tweener.Default` takes it as a parameter.
- The frame delta `utilities::DELTA` is a global clock, so it is the `dt` parameter.
- `Random::instance().randomRange` is a random generator, so it is a sequence of draws, each assumed to lie within its channel's variance range.
- The update callback's own behaviour is unseen code, so only its calls are recorded, in a ghost log. The `finished()` signal and whatever listens to it are likewise reduced to a ghost counter.
- Tweening.Tweener.Update: requires `TickDefined`, meaning a live tween has a nonzero duration. The only state this excludes has a negative elapsed time with a zero duration, where the source divides by zero.
- Particles.Particle.Update: requires `Valid`, which includes `TickDefined` for all six tweeners. It is the particle's object invariant: the constructor establishes it and every method keeps it, for any delta (`Tweening.DivisionSafetyKept`), so it excludes no reachable particle. The delta itself is unrestricted.
- Particles.Particle.constructor: `calculateTargets()` runs last rather than first (`Particle.cpp:12`). It writes only the six `target` fields, which nothing else in the constructor reads or writes, and its draws still come first in `draws`, so the resulting state is the same.
- Particles.Particle.VelocityMembers: the velocity tweeners' `setDuration` and `setEasingFunc` calls (`Particle.cpp:34-40`) are grouped per tweener. Each call writes a separate field, so the order does not change the result.
- The member arrays `mVelocityTweeners[2]` and `mColourTweeners[4]` are sequences of references to distinct tweener objects, because the source never reassigns their slots. The model does not express that the tweeners are embedded by value in the particle.
- The particle's position is not set by the `Particle` constructor, so the model leaves it unconstrained.
- The getters of both classes (`Tweener.cpp:111-134`, `Particle.cpp:119-152`) are plain field reads, so they are functions without contracts and have no row.
- `Particle::initialise()` is empty, and the destructors do nothing observable, so neither is modelled.
- Loading `ParticleData` from configuration is outside this core. The channel is a datatype of base value, target value and variance bounds.
- `Vector2`, the shapes and the rest of the engine are not part of this model.
