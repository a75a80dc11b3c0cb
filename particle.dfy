/** Model of one particle of the Liquid engine (source/common/Particle.cpp).

    A particle owns six tweeners, two for its velocity and four for its RGBA
    colour, and mirrors their values into its own fields every frame while it
    is alive. The frame delta and the random draws are parameters; a draw of
    a channel always lies within that channel's variance range.
 */
module Particles {
  import opened Tweening

  /** One configured channel: base value, target value, variance bounds. */
  datatype Channel = Channel(value: real, targetValue: real, varianceMin: real, varianceMax: real)

  /** The particle configuration: the life span and the six tweened channels. */
  datatype ParticleData = ParticleData(
    lifeSpan: Channel,
    velocityX: Channel, velocityY: Channel,
    colourR: Channel, colourG: Channel, colourB: Channel, colourA: Channel)
  {
    /** The channel of tweener `k`, in the order calculateTargets draws them:
        velocity X, velocity Y, then red, green, blue, alpha. */
    function Tweened(k: nat): Channel
      requires k < 6
    {
      match k
      case 0 => velocityX
      case 1 => velocityY
      case 2 => colourR
      case 3 => colourG
      case 4 => colourB
      case _ => colourA
    }
  }

  /** What randomRange(varianceMin, varianceMax) can return for `c`. */
  predicate DrawFits(c: Channel, draw: real)
  {
    c.varianceMin <= draw <= c.varianceMax
  }

  /** Six draws for calculateTargets, one per tweened channel, in order. */
  predicate TargetDrawsFit(data: ParticleData, draws: seq<real>)
  {
    |draws| == 6 && forall k :: 0 <= k < 6 ==> DrawFits(data.Tweened(k), draws[k])
  }

  /** A base value plus a draw from the channel's variance range. */
  function Roll(base: real, c: Channel, draw: real): (r: real)
    requires DrawFits(c, draw)
    ensures base + c.varianceMin <= r <= base + c.varianceMax
    ensures c.varianceMin == c.varianceMax ==> r == base + c.varianceMin
  {
    base + draw
  }

  /** The target calculateTargets gives tweener `k`. */
  function RolledTarget(data: ParticleData, draws: seq<real>, k: nat): real
    requires TargetDrawsFit(data, draws) && k < 6
  {
    Roll(data.Tweened(k).targetValue, data.Tweened(k), draws[k])
  }

  function Min(x: real, y: real): real { if x < y then x else y }

  function Max(x: real, y: real): real { if x > y then x else y }

  /** One channel of setColour(r, g, b, a): max(min(x, 255), 0). */
  function Clamp(x: real): (r: real)
    ensures 0.0 <= r <= 255.0
    ensures 0.0 <= x <= 255.0 ==> r == x
    ensures x < 0.0 ==> r == 0.0
    ensures x > 255.0 ==> r == 255.0
  {
    Max(Min(x, 255.0), 0.0)
  }

  /** A position after one frame at velocity `v`. */
  function Moved(p: real, v: real, dt: real): real
  {
    p + v * dt
  }

  /** isAlive(): the life time is still below the life span. */
  predicate Alive(lifeTime: real, lifeSpan: real)
  {
    lifeTime < lifeSpan
  }

  /** The life clock after one update(): it runs only while the particle is
      alive. */
  function Aged(lifeTime: real, lifeSpan: real, dt: real): real
  {
    if Alive(lifeTime, lifeSpan) then lifeTime + dt else lifeTime
  }

  /** The life clock after `n` updates with the same delta. */
  function AgedBy(lifeTime: real, lifeSpan: real, dt: real, n: nat): real
    decreases n
  {
    if n == 0 then lifeTime else AgedBy(Aged(lifeTime, lifeSpan, dt), lifeSpan, dt, n - 1)
  }

  /** A dead particle stays dead and its clock stands still; in particular a
      freshly constructed particle, whose life time equals its life span,
      never comes alive through updates alone. */
  lemma {:induction false} DeadStaysDead(lifeTime: real, lifeSpan: real, dt: real, n: nat)
    requires lifeTime >= lifeSpan
    ensures AgedBy(lifeTime, lifeSpan, dt, n) == lifeTime
    decreases n
  {
    if n > 0 {
      DeadStaysDead(Aged(lifeTime, lifeSpan, dt), lifeSpan, dt, n - 1);
    }
  }

  /** With a positive delta, a particle is dead once `n` deltas cover what is
      left of its life span. */
  lemma {:induction false} EventuallyDies(lifeTime: real, lifeSpan: real, dt: real, n: nat)
    requires dt > 0.0 && lifeTime + (n as real) * dt >= lifeSpan
    ensures AgedBy(lifeTime, lifeSpan, dt, n) >= lifeSpan
    decreases n
  {
    if n > 0 {
      if lifeTime >= lifeSpan {
        DeadStaysDead(lifeTime, lifeSpan, dt, n);
      } else {
        assert (lifeTime + dt) + ((n - 1) as real) * dt == lifeTime + (n as real) * dt;
        EventuallyDies(lifeTime + dt, lifeSpan, dt, n - 1);
      }
    }
  }

  /** No tweener occurs twice in `ts`. */
  ghost predicate Distinct(ts: seq<Tweener>)
  {
    forall j, k :: 0 <= j < k < |ts| ==> ts[j] != ts[k]
  }

  /** Four distinct tweeners make a distinct sequence. */
  lemma FourDistinct(a: Tweener, b: Tweener, c: Tweener, d: Tweener)
    requires a != b && a != c && a != d && b != c && b != d && c != d
    ensures Distinct([a, b, c, d])
  {
  }

  /** `t` is at the start of its curve: rewinding it changes nothing. */
  predicate AtStart(t: Tweener)
    reads t
  {
    Rewound(t.State()) == t.State()
  }

  /** `t` is at the start of its curve and heads for `target`. */
  predicate Respawned(t: Tweener, target: real)
    reads t
  {
    AtStart(t) && t.target == target
  }

  class Particle {
    const data: ParticleData
    var positionX: real
    var positionY: real
    var velocityX: real
    var velocityY: real
    var lifeTime: real
    var lifeSpan: real
    const colour: array<real>
    /** The member tweener arrays. Their slots are never reassigned, so they
        are sequences of references to the tweener objects; velocity tweener
        `i` is tweened channel `i` and colour tweener `i` is channel `i + 2`
        of `ParticleData.Tweened`. */
    const velocityTweeners: seq<Tweener>
    const colourTweeners: seq<Tweener>

    /** The fixed layout: the buffers have their sizes and the six tweeners
        are distinct objects. */
    ghost predicate Layout()
    {
      colour.Length == 4 && |velocityTweeners| == 2 && |colourTweeners| == 4 &&
      velocityTweeners[0] != velocityTweeners[1] && Distinct(colourTweeners) &&
      velocityTweeners[0] !in colourTweeners && velocityTweeners[1] !in colourTweeners
    }

    /** The object invariant: the layout, and no tweener can divide by zero
        on its next update. */
    ghost predicate Valid()
      reads velocityTweeners, colourTweeners
    {
      Layout() &&
      (forall i :: 0 <= i < 2 ==> TickDefined(velocityTweeners[i].State())) &&
      (forall i :: 0 <= i < 4 ==> TickDefined(colourTweeners[i].State()))
    }

    predicate IsAlive()
      reads this
      ensures IsAlive() <==> lifeTime < lifeSpan
    {
      Alive(lifeTime, lifeSpan)
    }

    // The getters of Particle.cpp are plain field reads.
    function PositionX(): real reads this { positionX }
    function PositionY(): real reads this { positionY }
    function VelocityX(): real reads this { velocityX }
    function VelocityY(): real reads this { velocityY }
    function LifeTime(): real reads this { lifeTime }
    function LifeSpan(): real reads this { lifeSpan }
    function Colour(): seq<real> reads colour { colour[..] }

    /** Particle(data): `draws` holds the six target draws of calculateTargets
        and then the life-span draw, in the order Particle.cpp draws them. The
        position is not set. */
    constructor (data: ParticleData, draws: seq<real>, velocityEase: Ease, colourEase: Ease)
      requires |draws| == 7 && TargetDrawsFit(data, draws[..6]) && DrawFits(data.lifeSpan, draws[6])
      ensures Valid() && fresh(colour)
      ensures this.data == data
      ensures lifeSpan == Roll(data.lifeSpan.value, data.lifeSpan, draws[6])
      ensures lifeTime == lifeSpan && !IsAlive()
      ensures velocityX == data.velocityX.value && velocityY == data.velocityY.value
      ensures colour[..] == [data.colourR.value, data.colourG.value, data.colourB.value, data.colourA.value]
      ensures forall i :: 0 <= i < 2 ==>
        fresh(velocityTweeners[i]) &&
        velocityTweeners[i].State() == Tween(data.Tweened(i).value, RolledTarget(data, draws[..6], i), 0.0, 0.0, lifeSpan) &&
        velocityTweeners[i].ease == velocityEase && velocityTweeners[i].updateFunc == None &&
        velocityTweeners[i].updateCalls == [] && velocityTweeners[i].finishedSignals == 0
      ensures forall i :: 0 <= i < 4 ==>
        fresh(colourTweeners[i]) &&
        colourTweeners[i].State() == Tween(data.Tweened(i + 2).value, RolledTarget(data, draws[..6], i + 2), 0.0, 0.0, lifeSpan) &&
        colourTweeners[i].ease == colourEase && colourTweeners[i].updateFunc == None &&
        colourTweeners[i].updateCalls == [] && colourTweeners[i].finishedSignals == 0
    {
      this.data := data;
      var span := Roll(data.lifeSpan.value, data.lifeSpan, draws[6]);
      lifeSpan := span;
      lifeTime := span;
      velocityX := data.velocityX.value;
      velocityY := data.velocityY.value;
      colour := new real[4] [data.colourR.value, data.colourG.value, data.colourB.value, data.colourA.value];
      var vs := VelocityMembers(data, span, velocityEase);
      var cs := ColourMembers(data, span, colourEase);
      velocityTweeners := vs;
      colourTweeners := cs;
      new;
      CalculateTargets(draws[..6]);
    }

    /** The velocity tweeners as the constructor configures them before
        calculateTargets: each starts at its channel's value, runs for `span`
        and eases with `ease`. */
    static method VelocityMembers(data: ParticleData, span: real, ease: Ease) returns (vs: seq<Tweener>)
      ensures |vs| == 2 && vs[0] != vs[1]
      ensures forall i :: 0 <= i < 2 ==>
        fresh(vs[i]) && vs[i].State() == Tween(data.Tweened(i).value, 0.0, 0.0, 0.0, span) &&
        vs[i].ease == ease && vs[i].updateFunc == None && vs[i].updateCalls == [] && vs[i].finishedSignals == 0
    {
      var v0 := InitialisedTweener(data.velocityX.value, ease);
      var v1 := InitialisedTweener(data.velocityY.value, ease);
      SetTiming(v0, span, ease);
      SetTiming(v1, span, ease);
      vs := [v0, v1];
    }

    /** The colour tweeners as the constructor configures them before
        calculateTargets, the duration and easing function set by its loop. */
    static method ColourMembers(data: ParticleData, span: real, ease: Ease) returns (cs: seq<Tweener>)
      ensures |cs| == 4 && Distinct(cs)
      ensures forall i :: 0 <= i < 4 ==>
        fresh(cs[i]) && cs[i].State() == Tween(data.Tweened(i + 2).value, 0.0, 0.0, 0.0, span) &&
        cs[i].ease == ease && cs[i].updateFunc == None && cs[i].updateCalls == [] && cs[i].finishedSignals == 0
    {
      var c0 := InitialisedTweener(data.colourR.value, ease);
      var c1 := InitialisedTweener(data.colourG.value, ease);
      var c2 := InitialisedTweener(data.colourB.value, ease);
      var c3 := InitialisedTweener(data.colourA.value, ease);
      FourDistinct(c0, c1, c2, c3);
      cs := [c0, c1, c2, c3];
      SetTimings(cs, span, ease);
    }

    /** A member tweener as default construction followed by setInitial
        leaves it. `ease` stands for the easing function a default
        EasingFunction holds. */
    static method InitialisedTweener(initial: real, ease: Ease) returns (t: Tweener)
      ensures fresh(t) && t.State() == Tween(initial, 0.0, 0.0, 0.0, 0.0)
      ensures t.ease == ease && t.updateFunc == None && t.updateCalls == [] && t.finishedSignals == 0
    {
      t := new Tweener.Default(ease);
      t.SetInitial(initial);
    }

    /** setDuration(span) then setEasingFunc(ease) on one member tweener. */
    static method SetTiming(t: Tweener, span: real, ease: Ease)
      modifies t
      ensures t.State() == old(t.State()).(duration := span) && t.ease == ease
      ensures t.updateFunc == old(t.updateFunc) && t.updateCalls == old(t.updateCalls)
      ensures t.finishedSignals == old(t.finishedSignals)
    {
      t.SetDuration(span);
      t.SetEasingFunc(ease);
    }

    /** The colour loop of the constructor: setDuration(span) and
        setEasingFunc(ease) on each tweener of `ts` in turn. */
    static method SetTimings(ts: seq<Tweener>, span: real, ease: Ease)
      requires Distinct(ts)
      modifies ts
      ensures forall k :: 0 <= k < |ts| ==>
        ts[k].State() == old(ts[k].State()).(duration := span) && ts[k].ease == ease &&
        ts[k].updateFunc == old(ts[k].updateFunc) && ts[k].updateCalls == old(ts[k].updateCalls) &&
        ts[k].finishedSignals == old(ts[k].finishedSignals)
    {
      for i := 0 to |ts|
        invariant forall k :: 0 <= k < i ==>
          ts[k].State() == old(ts[k].State()).(duration := span) && ts[k].ease == ease &&
          ts[k].updateFunc == old(ts[k].updateFunc) && ts[k].updateCalls == old(ts[k].updateCalls) &&
          ts[k].finishedSignals == old(ts[k].finishedSignals)
        invariant forall k :: i <= k < |ts| ==> unchanged(ts[k])
      {
        SetTiming(ts[i], span, ease);
      }
    }

    /** update(): while alive, one frame with delta `dt`. */
    method Update(dt: real)
      requires Valid()
      modifies this`lifeTime, this`positionX, this`positionY, this`velocityX, this`velocityY
      modifies colour, velocityTweeners, colourTweeners
      ensures Valid() && lifeTime == Aged(old(lifeTime), lifeSpan, dt)
      ensures !old(IsAlive()) ==>
        unchanged(this) && unchanged(colour) && unchanged(velocityTweeners) && unchanged(colourTweeners)
      ensures old(IsAlive()) ==>
        lifeTime == old(lifeTime) + dt &&
        (forall i :: 0 <= i < 2 ==> TickedFrom(velocityTweeners[i], old(velocityTweeners[i].Snap()), dt)) &&
        (forall i :: 0 <= i < 4 ==> TickedFrom(colourTweeners[i], old(colourTweeners[i].Snap()), dt) && colour[i] == colourTweeners[i].value) &&
        velocityX == velocityTweeners[0].value && velocityY == velocityTweeners[1].value &&
        positionX == Moved(old(positionX), velocityX, dt) && positionY == Moved(old(positionY), velocityY, dt)
    {
      if lifeTime < lifeSpan {
        lifeTime := lifeTime + dt;
        UpdateColours(dt);
        UpdateMotion(dt);
      }
    }

    /** The colour loop of update(): each colour tweener takes one update and
        its value is copied into the matching colour channel. */
    method UpdateColours(dt: real)
      requires Valid()
      modifies colour, colourTweeners
      ensures Valid()
      ensures forall i :: 0 <= i < 4 ==> TickedFrom(colourTweeners[i], old(colourTweeners[i].Snap()), dt) && colour[i] == colourTweeners[i].value
      ensures unchanged(velocityTweeners)
    {
      for i := 0 to 4
        invariant Valid()
        invariant forall j :: 0 <= j < i ==> TickedFrom(colourTweeners[j], old(colourTweeners[j].Snap()), dt) && colour[j] == colourTweeners[j].value
        invariant forall j :: i <= j < 4 ==> unchanged(colourTweeners[j])
      {
        var _ := colourTweeners[i].Update(dt);
        colour[i] := colourTweeners[i].value;
      }
    }

    /** The tail of update(): each velocity tweener takes one update, the
        velocity is read back from them and the position advances by one
        frame at that velocity. */
    method UpdateMotion(dt: real)
      requires Valid()
      modifies this`positionX, this`positionY, this`velocityX, this`velocityY, velocityTweeners
      ensures Valid()
      ensures forall i :: 0 <= i < 2 ==> TickedFrom(velocityTweeners[i], old(velocityTweeners[i].Snap()), dt)
      ensures unchanged(colourTweeners) && unchanged(colour)
      ensures velocityX == velocityTweeners[0].value && velocityY == velocityTweeners[1].value
      ensures positionX == Moved(old(positionX), velocityX, dt) && positionY == Moved(old(positionY), velocityY, dt)
    {
      for i := 0 to 2
        modifies velocityTweeners
        invariant Valid()
        invariant forall j :: 0 <= j < i ==> TickedFrom(velocityTweeners[j], old(velocityTweeners[j].Snap()), dt)
        invariant forall j :: i <= j < 2 ==> unchanged(velocityTweeners[j])
      {
        var _ := velocityTweeners[i].Update(dt);
      }
      velocityX := velocityTweeners[0].value;
      velocityY := velocityTweeners[1].value;
      positionX := Moved(positionX, velocityX, dt);
      positionY := Moved(positionY, velocityY, dt);
    }

    /** emit(x, y): respawn at (x, y) with rewound tweeners and fresh targets. */
    method Emit(x: real, y: real, draws: seq<real>)
      requires Valid() && TargetDrawsFit(data, draws)
      modifies this`lifeTime, this`positionX, this`positionY
      modifies (velocityTweeners[0] as Tweener)`elapsed, (velocityTweeners[0] as Tweener)`value, (velocityTweeners[0] as Tweener)`target
      modifies (velocityTweeners[1] as Tweener)`elapsed, (velocityTweeners[1] as Tweener)`value, (velocityTweeners[1] as Tweener)`target
      modifies (colourTweeners[0] as Tweener)`elapsed, (colourTweeners[0] as Tweener)`value, (colourTweeners[0] as Tweener)`target
      modifies (colourTweeners[1] as Tweener)`elapsed, (colourTweeners[1] as Tweener)`value, (colourTweeners[1] as Tweener)`target
      modifies (colourTweeners[2] as Tweener)`elapsed, (colourTweeners[2] as Tweener)`value, (colourTweeners[2] as Tweener)`target
      modifies (colourTweeners[3] as Tweener)`elapsed, (colourTweeners[3] as Tweener)`value, (colourTweeners[3] as Tweener)`target
      ensures Valid()
      ensures lifeTime == 0.0 && positionX == x && positionY == y
      ensures forall i :: 0 <= i < 2 ==> Respawned(velocityTweeners[i], RolledTarget(data, draws, i))
      ensures forall i :: 0 <= i < 4 ==> Respawned(colourTweeners[i], RolledTarget(data, draws, i + 2))
      ensures IsAlive() == (lifeSpan > 0.0)
    {
      lifeTime := 0.0;
      positionX := x;
      positionY := y;

      velocityTweeners[0].Reset();
      velocityTweeners[1].Reset();
      ResetColours();
      CalculateTargets(draws);
    }

    /** The colour loop of emit(): each colour tweener is reset. */
    method ResetColours()
      requires Valid()
      modifies (colourTweeners[0] as Tweener)`elapsed, (colourTweeners[0] as Tweener)`value
      modifies (colourTweeners[1] as Tweener)`elapsed, (colourTweeners[1] as Tweener)`value
      modifies (colourTweeners[2] as Tweener)`elapsed, (colourTweeners[2] as Tweener)`value
      modifies (colourTweeners[3] as Tweener)`elapsed, (colourTweeners[3] as Tweener)`value
      ensures Valid()
      ensures forall i :: 0 <= i < 4 ==> AtStart(colourTweeners[i])
    {
      for i := 0 to 4
        invariant Valid()
        invariant forall j :: 0 <= j < i ==> AtStart(colourTweeners[j])
      {
        colourTweeners[i].Reset();
      }
    }

    /** calculateTargets(): each of the six targets becomes its configured
        target value plus that channel's draw; nothing else changes. */
    method CalculateTargets(draws: seq<real>)
      requires Valid() && TargetDrawsFit(data, draws)
      modifies (velocityTweeners[0] as Tweener)`target, (velocityTweeners[1] as Tweener)`target
      modifies (colourTweeners[0] as Tweener)`target, (colourTweeners[1] as Tweener)`target, (colourTweeners[2] as Tweener)`target, (colourTweeners[3] as Tweener)`target
      ensures Valid()
      ensures forall i :: 0 <= i < 2 ==> velocityTweeners[i].target == RolledTarget(data, draws, i)
      ensures forall i :: 0 <= i < 4 ==> colourTweeners[i].target == RolledTarget(data, draws, i + 2)
    {
      velocityTweeners[0].SetTarget(RolledTarget(data, draws, 0));
      velocityTweeners[1].SetTarget(RolledTarget(data, draws, 1));
      colourTweeners[0].SetTarget(RolledTarget(data, draws, 2));
      colourTweeners[1].SetTarget(RolledTarget(data, draws, 3));
      colourTweeners[2].SetTarget(RolledTarget(data, draws, 4));
      colourTweeners[3].SetTarget(RolledTarget(data, draws, 5));
    }

    /** setLifeSpan(): changes the life span only; tweener durations keep the
        value they were given at construction. */
    method SetLifeSpan(s: real)
      requires Valid()
      modifies this`lifeSpan
      ensures Valid() && lifeSpan == s
    {
      lifeSpan := s;
    }

    /** setColour(r, g, b, a): each channel clamped to [0, 255]. */
    method SetColour(r: real, g: real, b: real, a: real)
      requires Valid()
      modifies colour
      ensures Valid()
      ensures colour[..] == [Clamp(r), Clamp(g), Clamp(b), Clamp(a)]
    {
      colour[0] := Clamp(r);
      colour[1] := Clamp(g);
      colour[2] := Clamp(b);
      colour[3] := Clamp(a);
    }

    /** setColour(std::array<float, 4>): stored as given, without clamping. */
    method SetColourArray(c: seq<real>)
      requires Valid() && |c| == 4
      modifies colour
      ensures Valid()
      ensures colour[..] == c
    {
      colour[0] := c[0];
      colour[1] := c[1];
      colour[2] := c[2];
      colour[3] := c[3];
    }
  }
}
