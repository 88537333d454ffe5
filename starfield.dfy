/** The canvas starfield: a fixed pool of 200 twinkling stars and 5 drifting nebulas made
    once at start-up, and a pool of shooting stars that a click or a rare random draw adds
    to, that fade by a fixed step each frame and that are dropped once faded. */
module Starfield {
  import opened JsPrims

  const StarCount: nat := 200
  const NebulaCount: nat := 5
  const StarColors: seq<string> := ["#ffffff", "#00ff88", "#ff00ff", "#00ffff", "#ffff00", "#ff6b6b"]
  const NebulaColors: seq<string> :=
    ["rgba(0, 255, 136, 0.03)", "rgba(255, 0, 255, 0.03)", "rgba(0, 255, 255, 0.03)"]

  /** `Math.random()` calls per star and per nebula, in the order the source makes them. */
  const DrawsPerStar: nat := 7
  const DrawsPerNebula: nat := 6

  /** Shooting-star opacity in hundredths: a new star is at 1, and each frame takes 0.02. */
  const FullOpacity: int := 100
  const FadeStep: int := 2

  /** A frame adds a random shooting star when its draw is below this. */
  const SpawnChance: real := 0.003

  /** The twinkle phase is kept as a fraction of a turn (the source's radians over 2 pi). */
  datatype Star = Star(x: real, y: real, radius: real, opacity: real,
                       twinkleSpeed: real, twinkleTurn: real, color: string)

  datatype Nebula = Nebula(x: real, y: real, radius: real, color: string,
                           driftX: real, driftY: real)

  /** The travel angle is kept as its offset from pi / 4; `trail` is never filled. */
  datatype ShootingStar = ShootingStar(x: real, y: real, length: real, speed: real,
                                       angleOffset: real, opacity: int, trail: seq<(real, real)>)

  /** One star of `createStars`, from its seven draws, on a `width` by `height` canvas. */
  function MakeStar(r: seq<real>, width: real, height: real): (s: Star)
    requires |r| == DrawsPerStar && AllUnit(r) && width >= 0.0 && height >= 0.0
    ensures 0.0 <= s.x <= width && (width > 0.0 ==> s.x < width)
    ensures 0.0 <= s.y <= height && (height > 0.0 ==> s.y < height)
    ensures 0.5 <= s.radius < 2.5 && 0.0 <= s.opacity < 1.0
    ensures 0.005 <= s.twinkleSpeed < 0.025 && 0.0 <= s.twinkleTurn < 1.0
    ensures s.color in StarColors
  {
    assert IsUnit(r[0]) && IsUnit(r[1]) && IsUnit(r[2]) && IsUnit(r[3]) && IsUnit(r[4]);
    ScaleUnit(r[0], width);
    ScaleUnit(r[1], height);
    Star(r[0] * width, r[1] * height, r[2] * 2.0 + 0.5, r[3], r[4] * 0.02 + 0.005, r[5],
         StarColors[RandomIndex(r[6], |StarColors|)])
  }

  /** One nebula of `createNebulas`, from its six draws. */
  function MakeNebula(r: seq<real>, width: real, height: real): (n: Nebula)
    requires |r| == DrawsPerNebula && AllUnit(r) && width >= 0.0 && height >= 0.0
    ensures 0.0 <= n.x <= width && 0.0 <= n.y <= height
    ensures 100.0 <= n.radius < 400.0 && n.color in NebulaColors
    ensures -0.1 <= n.driftX < 0.1 && -0.1 <= n.driftY < 0.1
  {
    assert IsUnit(r[0]) && IsUnit(r[1]) && IsUnit(r[2]) && IsUnit(r[4]) && IsUnit(r[5]);
    ScaleUnit(r[0], width);
    ScaleUnit(r[1], height);
    Nebula(r[0] * width, r[1] * height, r[2] * 300.0 + 100.0,
           NebulaColors[RandomIndex(r[3], |NebulaColors|)],
           (r[4] - 0.5) * 0.2, (r[5] - 0.5) * 0.2)
  }

  /** The `count` stars `createStars(count)` makes, the `i`-th from its own seven draws. */
  function StarsOf(draws: seq<seq<real>>, count: nat, width: real, height: real): (r: seq<Star>)
    requires Batches(draws, count, DrawsPerStar) && width >= 0.0 && height >= 0.0
    ensures |r| == count
    ensures forall i :: 0 <= i < count ==>
      r[i] == MakeStar(draws[i], width, height)
  {
    seq(count, i requires 0 <= i < count =>
      MakeStar(draws[i], width, height))
  }

  /** The `count` nebulas `createNebulas(count)` makes, the `i`-th from its own
      six draws. */
  function NebulasOf(draws: seq<seq<real>>, count: nat, width: real, height: real): (r: seq<Nebula>)
    requires Batches(draws, count, DrawsPerNebula) && width >= 0.0 && height >= 0.0
    ensures |r| == count
    ensures forall i :: 0 <= i < count ==>
      r[i] == MakeNebula(draws[i], width, height)
  {
    seq(count, i requires 0 <= i < count =>
      MakeNebula(draws[i], width, height))
  }

  lemma NebulasHaveExtent(draws: seq<seq<real>>, count: nat, width: real, height: real)
    requires Batches(draws, count, DrawsPerNebula) && width >= 0.0 && height >= 0.0
    ensures forall i :: 0 <= i < count ==> NebulasOf(draws, count, width, height)[i].radius > 0.0
  {
  }

  /** How many draws `createShootingStar(x, y)` makes: one more when `x` is falsy. */
  function ShootingStarDraws(x: Option<real>): nat {
    if Falsy(x) then 4 else 3
  }

  /** `createShootingStar(x, y)`: a falsy `x` is replaced by a random point across the
      canvas, a falsy `y` by the top edge; the star starts fully opaque with no trail. */
  function MakeShootingStar(x: Option<real>, y: Option<real>, r: seq<real>, width: real): (s: ShootingStar)
    requires |r| == ShootingStarDraws(x) && AllUnit(r) && width >= 0.0
    ensures s.opacity == FullOpacity && s.trail == []
    ensures !Falsy(x) ==> s.x == x.value
    ensures Falsy(x) ==> 0.0 <= s.x <= width && (width > 0.0 ==> s.x < width)
    ensures !Falsy(y) ==> s.y == y.value
    ensures Falsy(y) ==> s.y == 0.0
    ensures 50.0 <= s.length < 150.0 && 15.0 <= s.speed < 25.0
    ensures -0.25 <= s.angleOffset < 0.25
  {
    var k := if Falsy(x) then 1 else 0;
    assert IsUnit(r[0]) && IsUnit(r[k]) && IsUnit(r[k + 1]) && IsUnit(r[k + 2]);
    ScaleUnit(r[0], width);
    var sx := if Falsy(x) then r[0] * width else x.value;
    ShootingStar(sx, OrElse(y, 0.0), r[k] * 100.0 + 50.0, r[k + 1] * 10.0 + 15.0,
                 (r[k + 2] - 0.5) * 0.5, FullOpacity, [])
  }

  /** The wrap-around of one nebula coordinate on an axis of extent `size`: leaving by one
      edge (by more than the radius) puts it just outside the other. */
  function Wrap(v: real, size: real, radius: real): (w: real)
    ensures -radius <= v <= size + radius ==> w == v
    ensures v < -radius && -radius <= size + radius ==> w == size + radius
    ensures v > size + radius && -radius <= size + radius ==> w == -radius
    ensures radius >= 0.0 && size >= 0.0 ==> -radius <= w <= size + radius
  {
    var a := if v < -radius then size + radius else v;
    if a > size + radius then -radius else a
  }

  /** The movement part of `drawNebula`: the drift plus a pull of a thousandth of the
      mouse's offset from the canvas centre, then the wrap on each axis. */
  function DriftNebula(n: Nebula, mouseX: real, mouseY: real, width: real, height: real): (m: Nebula)
    ensures m.radius == n.radius && m.color == n.color
    ensures m.driftX == n.driftX && m.driftY == n.driftY
    ensures -n.radius <= n.x + n.driftX + (mouseX - width / 2.0) * 0.001 <= width + n.radius
      ==> m.x == n.x + n.driftX + (mouseX - width / 2.0) * 0.001
    ensures -n.radius <= n.y + n.driftY + (mouseY - height / 2.0) * 0.001 <= height + n.radius
      ==> m.y == n.y + n.driftY + (mouseY - height / 2.0) * 0.001
    ensures n.radius >= 0.0 && width >= 0.0 ==> -n.radius <= m.x <= width + n.radius
    ensures n.radius >= 0.0 && height >= 0.0 ==> -n.radius <= m.y <= height + n.radius
  {
    var dx := (mouseX - width / 2.0) * 0.01;
    var dy := (mouseY - height / 2.0) * 0.01;
    n.(x := Wrap(n.x + n.driftX + dx * 0.1, width, n.radius),
       y := Wrap(n.y + n.driftY + dy * 0.1, height, n.radius))
  }

  /** The nebula pass of a frame. */
  function DriftAll(nebulas: seq<Nebula>, mouseX: real, mouseY: real, width: real, height: real): (r: seq<Nebula>)
    ensures |r| == |nebulas|
    ensures forall i :: 0 <= i < |r| ==> r[i] == DriftNebula(nebulas[i], mouseX, mouseY, width, height)
  {
    seq(|nebulas|, i requires 0 <= i < |nebulas| => DriftNebula(nebulas[i], mouseX, mouseY, width, height))
  }

  /** After the nebula pass every nebula keeps its positive radius and lies within a
      radius of the canvas. */
  lemma DriftAllBounds(nebulas: seq<Nebula>, mouseX: real, mouseY: real, width: real, height: real)
    requires width >= 0.0 && height >= 0.0
    requires forall i :: 0 <= i < |nebulas| ==> nebulas[i].radius > 0.0
    ensures var r := DriftAll(nebulas, mouseX, mouseY, width, height);
      forall i :: 0 <= i < |r| ==>
        r[i].radius > 0.0
        && -r[i].radius <= r[i].x <= width + r[i].radius
        && -r[i].radius <= r[i].y <= height + r[i].radius
  {
  }

  /** The update part of `drawShootingStar`: a faded star is left alone; any other moves
      `speed` along its heading and loses one fade step. `direction` gives the cosine and
      sine of pi / 4 plus an offset. */
  function Tick(s: ShootingStar, direction: real -> (real, real)): (t: ShootingStar)
    ensures s.opacity <= 0 ==> t == s
    ensures s.opacity > 0 ==> t.opacity == s.opacity - FadeStep
    ensures s.opacity > 0 ==>
      t.x == s.x + direction(s.angleOffset).0 * s.speed
      && t.y == s.y + direction(s.angleOffset).1 * s.speed
    ensures t.length == s.length && t.speed == s.speed && t.angleOffset == s.angleOffset
    ensures t.trail == s.trail
  {
    if s.opacity <= 0 then s
    else
      var (cos, sin) := direction(s.angleOffset);
      s.(x := s.x + cos * s.speed, y := s.y + sin * s.speed, opacity := s.opacity - FadeStep)
  }

  /** `k` frames' worth of updates to one shooting star. */
  function Ticks(s: ShootingStar, direction: real -> (real, real), k: nat): ShootingStar
    decreases k
  {
    if k == 0 then s else Ticks(Tick(s, direction), direction, k - 1)
  }

  /** While a star has opacity to lose, each frame takes one step of opacity and moves it
      one `speed` along its fixed heading. */
  lemma {:induction false} TicksFade(s: ShootingStar, direction: real -> (real, real), k: nat)
    requires FadeStep * k <= s.opacity
    ensures var t := Ticks(s, direction, k);
      t.opacity == s.opacity - FadeStep * k
      && t.x == s.x + k as real * (direction(s.angleOffset).0 * s.speed)
      && t.y == s.y + k as real * (direction(s.angleOffset).1 * s.speed)
      && t.speed == s.speed && t.angleOffset == s.angleOffset
    decreases k
  {
    if k > 0 {
      TicksFade(Tick(s, direction), direction, k - 1);
    }
  }

  /** A faded star stays as it is. */
  lemma {:induction false} TicksFaded(s: ShootingStar, direction: real -> (real, real), k: nat)
    requires s.opacity <= 0
    ensures Ticks(s, direction, k) == s
    decreases k
  {
    if k > 0 {
      TicksFaded(Tick(s, direction), direction, k - 1);
    }
  }

  /** The shooting-star pass of a frame, before the cleanup filter. */
  function TickAll(pool: seq<ShootingStar>, direction: real -> (real, real)): (r: seq<ShootingStar>)
    ensures |r| == |pool|
    ensures forall i :: 0 <= i < |r| ==> r[i] == Tick(pool[i], direction)
  {
    seq(|pool|, i requires 0 <= i < |pool| => Tick(pool[i], direction))
  }

  /** Every star of the pool still has some opacity, and no more than a new one. */
  predicate Live(pool: seq<ShootingStar>) {
    forall i :: 0 <= i < |pool| ==> 0 < pool[i].opacity <= FullOpacity
  }

  /** A live pool is still live after a frame's update and filter. */
  lemma FrameKeepsPoolLive(pool: seq<ShootingStar>, direction: real -> (real, real))
    requires Live(pool)
    ensures Live(Prune(TickAll(pool, direction)))
  {
    var ticked := TickAll(pool, direction);
    var next := Prune(ticked);
    forall i | 0 <= i < |next|
      ensures 0 < next[i].opacity <= FullOpacity
    {
      PruneKeeps(ticked, next[i]);
    }
  }

  /** The cleanup filter of `animate`: the stars whose opacity is still positive. */
  function Prune(stars: seq<ShootingStar>): (r: seq<ShootingStar>)
    ensures |r| <= |stars|
    ensures forall i :: 0 <= i < |r| ==> r[i].opacity > 0
  {
    if stars == [] then []
    else (if stars[0].opacity > 0 then [stars[0]] else []) + Prune(stars[1..])
  }

  /** The filter keeps exactly the stars of the pool whose opacity is positive. */
  lemma {:induction false} PruneKeeps(stars: seq<ShootingStar>, x: ShootingStar)
    ensures x in Prune(stars) <==> x in stars && x.opacity > 0
  {
    if stars != [] {
      PruneKeeps(stars[1..], x);
      assert stars == [stars[0]] + stars[1..];
    }
  }

  /** Filtering keeps the pool's order: it works piece by piece. */
  lemma {:induction false} PruneAppend(a: seq<ShootingStar>, b: seq<ShootingStar>)
    ensures Prune(a + b) == Prune(a) + Prune(b)
  {
    if a != [] {
      var head := if a[0].opacity > 0 then [a[0]] else [];
      var ab := a + b;
      assert ab != [] && ab[0] == a[0] && ab[1..] == a[1..] + b;
      PruneAppend(a[1..], b);
      calc {
        Prune(a + b);
        head + Prune(a[1..] + b);
        head + (Prune(a[1..]) + Prune(b));
        (head + Prune(a[1..])) + Prune(b);
        Prune(a) + Prune(b);
      }
    } else {
      assert a + b == b;
    }
  }

  /** A fully opaque shooting star is drawn for exactly 50 frames: it is still in the pool
      after each of the first 49 updates, the 50th brings it to zero and the filter drops
      it, and it never changes again. */
  lemma ShootingStarLifetime(s: ShootingStar, direction: real -> (real, real), k: nat)
    requires s.opacity == FullOpacity
    ensures k < 50 ==> Prune([Ticks(s, direction, k)]) == [Ticks(s, direction, k)]
    ensures k >= 50 ==>
      Ticks(s, direction, k) == Ticks(s, direction, 50)
      && Ticks(s, direction, k).opacity == 0 && Prune([Ticks(s, direction, k)]) == []
  {
    if k < 50 {
      TicksFade(s, direction, k);
    } else {
      TicksFade(s, direction, 50);
      TicksAdd(s, direction, 50, k - 50);
      TicksFaded(Ticks(s, direction, 50), direction, k - 50);
    }
  }

  lemma {:induction false} TicksAdd(s: ShootingStar, direction: real -> (real, real), a: nat, b: nat)
    ensures Ticks(s, direction, a + b) == Ticks(Ticks(s, direction, a), direction, b)
    decreases a
  {
    if a > 0 {
      TicksAdd(Tick(s, direction), direction, a - 1, b);
    }
  }

  class StarfieldAnimation {
    /** The canvas size, which `resize` copies from the window. */
    var width: real
    var height: real
    var mouseX: real
    var mouseY: real
    var stars: seq<Star>
    var nebulas: seq<Nebula>
    var shootingStars: seq<ShootingStar>

    /** The two fixed pools have their start-up sizes, every nebula has a positive radius,
        and the shooting-star pool is live. */
    ghost predicate Valid()
      reads this
    {
      width >= 0.0 && height >= 0.0
      && |stars| == StarCount && |nebulas| == NebulaCount
      && (forall i :: 0 <= i < |nebulas| ==> nebulas[i].radius > 0.0)
      && Live(shootingStars)
    }

    /** `new StarfieldAnimation(canvasId)` on a `w` by `h` window: `init` (resize, 200
        stars, 5 nebulas) and then the first frame. */
    constructor (w: real, h: real, starDraws: seq<seq<real>>, nebulaDraws: seq<seq<real>>,
                 spawnDraw: real, spawnDraws: seq<real>, direction: real -> (real, real))
      requires w >= 0.0 && h >= 0.0
      requires Batches(starDraws, StarCount, DrawsPerStar)
      requires Batches(nebulaDraws, NebulaCount, DrawsPerNebula)
      requires IsUnit(spawnDraw) && |spawnDraws| == ShootingStarDraws(None) && AllUnit(spawnDraws)
      ensures Valid()
      ensures width == w && height == h && mouseX == 0.0 && mouseY == 0.0
      ensures stars == StarsOf(starDraws, StarCount, w, h)
      ensures nebulas == DriftAll(NebulasOf(nebulaDraws, NebulaCount, w, h), 0.0, 0.0, w, h)
      ensures shootingStars ==
        if spawnDraw < SpawnChance then [MakeShootingStar(None, None, spawnDraws, w)] else []
    {
      width, height := 0.0, 0.0;
      mouseX, mouseY := 0.0, 0.0;
      stars, nebulas, shootingStars := [], [], [];
      new;
      Init(w, h, starDraws, nebulaDraws);
      NebulasHaveExtent(nebulaDraws, NebulaCount, w, h);
      assert Valid();
      Animate(spawnDraw, spawnDraws, direction);
      assert Prune(TickAll([], direction)) == [];
    }

    /** `init`: resize the canvas to the window, then 200 stars and 5 nebulas join the
        ones already there. */
    method Init(w: real, h: real, starDraws: seq<seq<real>>, nebulaDraws: seq<seq<real>>)
      requires w >= 0.0 && h >= 0.0
      requires Batches(starDraws, StarCount, DrawsPerStar)
      requires Batches(nebulaDraws, NebulaCount, DrawsPerNebula)
      modifies this`width, this`height, this`stars, this`nebulas
      ensures width == w && height == h
      ensures stars == old(stars) + StarsOf(starDraws, StarCount, w, h)
      ensures nebulas == old(nebulas) + NebulasOf(nebulaDraws, NebulaCount, w, h)
    {
      Resize(w, h);
      CreateStars(StarCount, starDraws);
      CreateNebulas(NebulaCount, nebulaDraws);
    }

    /** `resize`: the canvas takes the window's inner size. */
    method Resize(w: real, h: real)
      requires w >= 0.0 && h >= 0.0
      modifies this`width, this`height
      ensures width == w && height == h
    {
      width := w;
      height := h;
    }

    /** The `mousemove` listener. */
    method OnMouseMove(clientX: real, clientY: real)
      modifies this`mouseX, this`mouseY
      ensures mouseX == clientX && mouseY == clientY
    {
      mouseX := clientX;
      mouseY := clientY;
    }

    /** `createStars(count)`: appends `count` stars, the `i`-th from its own seven draws. */
    method CreateStars(count: nat, draws: seq<seq<real>>)
      requires width >= 0.0 && height >= 0.0
      requires Batches(draws, count, DrawsPerStar)
      modifies this`stars
      ensures stars == old(stars) + StarsOf(draws, count, width, height)
    {
      var i := 0;
      while i < count
        invariant 0 <= i <= count
        invariant |stars| == |old(stars)| + i && stars[..|old(stars)|] == old(stars)
        invariant forall k :: 0 <= k < i ==>
          stars[|old(stars)| + k] == MakeStar(draws[k], width, height)
      {
        stars := stars + [MakeStar(draws[i], width, height)];
        i := i + 1;
      }
      assert stars == old(stars) + StarsOf(draws, count, width, height);
    }

    /** `createNebulas(count)`: appends `count` nebulas, the `i`-th from its own six
        draws. */
    method CreateNebulas(count: nat, draws: seq<seq<real>>)
      requires width >= 0.0 && height >= 0.0
      requires Batches(draws, count, DrawsPerNebula)
      modifies this`nebulas
      ensures nebulas == old(nebulas) + NebulasOf(draws, count, width, height)
    {
      var i := 0;
      while i < count
        invariant 0 <= i <= count
        invariant |nebulas| == |old(nebulas)| + i && nebulas[..|old(nebulas)|] == old(nebulas)
        invariant forall k :: 0 <= k < i ==>
          nebulas[|old(nebulas)| + k] == MakeNebula(draws[k], width, height)
      {
        nebulas := nebulas + [MakeNebula(draws[i], width, height)];
        i := i + 1;
      }
      assert nebulas == old(nebulas) + NebulasOf(draws, count, width, height);
    }

    /** `createShootingStar(x, y)`; the click listener passes the click's coordinates and
        a frame passes neither. Exactly one star joins the end of the pool. */
    method CreateShootingStar(x: Option<real>, y: Option<real>, draws: seq<real>)
      requires Valid() && |draws| == ShootingStarDraws(x) && AllUnit(draws)
      modifies this`shootingStars
      ensures Valid()
      ensures shootingStars == old(shootingStars) + [MakeShootingStar(x, y, draws, width)]
    {
      shootingStars := shootingStars + [MakeShootingStar(x, y, draws, width)];
    }

    /** One frame of `animate`: every nebula drifts and wraps, every shooting star moves and
        fades, the faded ones are dropped, and a draw below 0.003 adds a random one. The
        stars and the pool sizes are left as they are. */
    method Animate(spawnDraw: real, spawnDraws: seq<real>, direction: real -> (real, real))
      requires Valid()
      requires IsUnit(spawnDraw) && |spawnDraws| == ShootingStarDraws(None) && AllUnit(spawnDraws)
      modifies this`nebulas, this`shootingStars
      ensures Valid()
      ensures nebulas == DriftAll(old(nebulas), mouseX, mouseY, width, height)
      ensures shootingStars == Prune(TickAll(old(shootingStars), direction))
        + (if spawnDraw < SpawnChance then [MakeShootingStar(None, None, spawnDraws, width)] else [])
    {
      DriftAllBounds(nebulas, mouseX, mouseY, width, height);
      DrawNebulas();
      ShootingStarPass(spawnDraw, spawnDraws, direction);
    }

    /** The shooting-star part of a frame: move and fade, drop the faded, maybe spawn. */
    method ShootingStarPass(spawnDraw: real, spawnDraws: seq<real>, direction: real -> (real, real))
      requires Valid()
      requires IsUnit(spawnDraw) && |spawnDraws| == ShootingStarDraws(None) && AllUnit(spawnDraws)
      modifies this`shootingStars
      ensures Valid()
      ensures shootingStars == Prune(TickAll(old(shootingStars), direction))
        + (if spawnDraw < SpawnChance then [MakeShootingStar(None, None, spawnDraws, width)] else [])
    {
      FrameKeepsPoolLive(shootingStars, direction);
      DrawShootingStars(direction);
      shootingStars := Prune(shootingStars);
      if spawnDraw < SpawnChance {
        CreateShootingStar(None, None, spawnDraws);
      }
    }

    /** The nebula pass of a frame. */
    method DrawNebulas()
      modifies this`nebulas
      ensures nebulas == DriftAll(old(nebulas), mouseX, mouseY, width, height)
    {
      var i := 0;
      while i < |nebulas|
        invariant 0 <= i <= |nebulas| == |old(nebulas)|
        invariant forall k :: 0 <= k < i ==>
          nebulas[k] == DriftNebula(old(nebulas)[k], mouseX, mouseY, width, height)
        invariant forall k :: i <= k < |nebulas| ==> nebulas[k] == old(nebulas)[k]
      {
        nebulas := nebulas[i := DriftNebula(nebulas[i], mouseX, mouseY, width, height)];
        i := i + 1;
      }
      assert nebulas == DriftAll(old(nebulas), mouseX, mouseY, width, height);
    }

    /** The shooting-star pass of a frame: `drawShootingStar` on each star in turn. */
    method DrawShootingStars(direction: real -> (real, real))
      modifies this`shootingStars
      ensures shootingStars == TickAll(old(shootingStars), direction)
    {
      var i := 0;
      while i < |shootingStars|
        invariant 0 <= i <= |shootingStars| == |old(shootingStars)|
        invariant forall k :: 0 <= k < i ==> shootingStars[k] == Tick(old(shootingStars)[k], direction)
        invariant forall k :: i <= k < |shootingStars| ==> shootingStars[k] == old(shootingStars)[k]
      {
        shootingStars := shootingStars[i := Tick(shootingStars[i], direction)];
        i := i + 1;
      }
      assert shootingStars == TickAll(old(shootingStars), direction);
    }
  }
}
