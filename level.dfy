/** Level geometry and its corruption: background shade, platform drift and
    invisibility, exit evasion, and snapshot/reset (js/level.js). */
module LevelCorruption {
  import opened Basics

  const BaseBackground: Color := Hex("#111")
  const PlatformGrey: Color := Hex("#555")
  const ExitGreen: Color := Hex("#5d5")
  const ExitRed: Color := Hex("#d55")
  const White: Color := Hex("#fff")
  /** The exit evades a player closer than this distance. */
  const EvadeRadius: real := 150.0
  /** Margin the evading or teleporting exit keeps from the canvas edges. */
  const Margin: real := 50.0

  /** The platforms `createLevel` builds. */
  function InitialPlatforms(): seq<Platform>
  {
    [ Platform(0.0, 500.0, 300.0, 20.0, PlatformGrey),
      Platform(350.0, 500.0, 450.0, 20.0, PlatformGrey),
      Platform(150.0, 400.0, 100.0, 20.0, PlatformGrey),
      Platform(300.0, 350.0, 100.0, 20.0, PlatformGrey),
      Platform(500.0, 300.0, 100.0, 20.0, PlatformGrey),
      Platform(650.0, 250.0, 100.0, 20.0, PlatformGrey) ]
  }

  /** The exit `createLevel` builds. */
  function InitialExit(): Exit
  {
    Exit(700.0, 180.0, 40.0, 70.0, ExitGreen, 700.0, 180.0)
  }

  datatype BackgroundDraws = BackgroundDraws(trigger: Unit, red: Unit, green: Unit, blue: Unit, flash: Unit)
  datatype PlatformDraws = PlatformDraws(move: Unit, dx: Unit, dy: Unit, recolor: Unit,
                                         red: Unit, green: Unit, blue: Unit, vanish: Unit, delay: Unit)
  datatype ExitDraws = ExitDraws(flicker: Unit, flickerColor: Unit, teleport: Unit, tx: Unit, ty: Unit,
                                 vanish: Unit, delay: Unit)
  /** All draws of one `applyGlitchEffects` call; platform draws by array index. */
  datatype LevelDraws = LevelDraws(background: BackgroundDraws, platform: nat -> PlatformDraws, exit: ExitDraws)

  /** The callbacks `applyGlitchEffects` defers with setTimeout. A platform
      revert names the platform by its epoch (the generation of platform objects,
      renewed by every reset) and its index in the array. */
  datatype LevelTimer =
    | RestorePlatformColor(epoch: nat, index: nat, color: Color, delay: real)
    | RestoreExitColor(color: Color, delay: real)
    | FlashWhite(color: Color, delay: real)
    | RestoreBackground(color: Color, delay: real)

  /** A rectangle made transparent, with the colour to restore and when. */
  datatype Vanish = Vanish(saved: Color, delay: real)

  // ----------------------------------------------------------- background

  /** The shade of the quiet branch: channel value floor(17 + 30 * intensity). */
  function Shade(intensity: real): (c: Color)
    ensures c.Rgb? && c.r == (17.0 + 30.0 * intensity).Floor as real && c.g == c.r / 2.0 && c.b == c.r
    ensures 0.0 <= intensity <= 1.0 ==> 17.0 <= c.r <= 47.0
  {
    var v := (17.0 + 30.0 * intensity).Floor as real;
    Rgb(v, v / 2.0, v)
  }

  datatype BackgroundOutcome = BackgroundOutcome(color: Color, flash: bool)

  predicate BackgroundGlitches(intensity: real, d: BackgroundDraws)
  {
    intensity > 0.3 && d.trigger < intensity * 0.05
  }

  /** The background rule: a dark random colour with probability intensity/20
      above 0.3 (flashing white with probability 1/10 above 0.7), otherwise
      the quiet shade. */
  function BackgroundStep(intensity: real, d: BackgroundDraws): (r: BackgroundOutcome)
    ensures !BackgroundGlitches(intensity, d) ==> r == BackgroundOutcome(Shade(intensity), false)
    ensures BackgroundGlitches(intensity, d) ==>
              r.color.Rgb? && 0.0 <= r.color.r <= 49.0 && 0.0 <= r.color.g <= 29.0 && 0.0 <= r.color.b <= 49.0
    ensures r.flash <==> BackgroundGlitches(intensity, d) && intensity > 0.7 && d.flash < 0.1
  {
    if BackgroundGlitches(intensity, d) then
      var c := Rgb((d.red * 50.0).Floor as real, (d.green * 30.0).Floor as real, (d.blue * 50.0).Floor as real);
      BackgroundOutcome(c, intensity > 0.7 && d.flash < 0.1)
    else
      BackgroundOutcome(Shade(intensity), false)
  }

  /** A background flash turns white 50 ms after the glitch, and back 50 ms
      after that. */
  const FlashDelay: real := 50.0

  function FlashTimers(b: BackgroundOutcome): seq<LevelTimer>
  {
    if b.flash then [FlashWhite(b.color, FlashDelay)] else []
  }

  // ------------------------------------------------------------ platforms

  /** One platform's drift: with probability intensity/100 a nudge of at most
      2.5 * intensity horizontally and 1.5 * intensity vertically, and with a
      further probability intensity/10 a new `rgb` colour, each channel drawn
      on its own in [50, 99]. */
  function Drift(p: Platform, intensity: real, d: PlatformDraws): (q: Platform)
    requires intensity > 0.2
    ensures q.width == p.width && q.height == p.height
    ensures d.move >= intensity * 0.01 ==> q == p
    ensures -2.5 * intensity <= q.x - p.x < 2.5 * intensity
    ensures -1.5 * intensity <= q.y - p.y < 1.5 * intensity
    ensures q.color == p.color || (q.color.Rgb? && 50.0 <= q.color.r <= 99.0
                                   && 50.0 <= q.color.g <= 99.0 && 50.0 <= q.color.b <= 99.0)
  {
    if d.move < intensity * 0.01 then
      var color := if d.recolor < intensity * 0.1 then DriftColor(d) else p.color;
      p.(x := p.x + Nudge(d.dx, intensity, 5.0), y := p.y + Nudge(d.dy, intensity, 3.0), color := color)
    else p
  }

  /** `(Math.random() - 0.5) * intensity * k`: a nudge in [-k*i/2, k*i/2). */
  function Nudge(r: Unit, intensity: real, k: real): (n: real)
    requires intensity > 0.0 && k > 0.0
    ensures -0.5 * k * intensity <= n < 0.5 * k * intensity
  {
    CentredScaledDraw(r, intensity, k);
    (r - 0.5) * intensity * k
  }

  /** The new colour of a drift: each channel floor(50 + 50 * draw), drawn
      independently. */
  function DriftColor(d: PlatformDraws): (c: Color)
    ensures c.Rgb? && 50.0 <= c.r <= 99.0 && 50.0 <= c.g <= 99.0 && 50.0 <= c.b <= 99.0
  {
    FloorOfDraw(d.red, 50, 50);
    FloorOfDraw(d.green, 50, 50);
    FloorOfDraw(d.blue, 50, 50);
    Rgb((50.0 + d.red * 50.0).Floor as real, (50.0 + d.green * 50.0).Floor as real,
        (50.0 + d.blue * 50.0).Floor as real)
  }

  datatype PlatformOutcome = PlatformOutcome(platform: Platform, vanish: Option<Vanish>)

  /** One pass of the `forEach` body: drift, then (above 0.6, with probability
      intensity * deltaTime / 1000) turn transparent for 300 to 1000 ms,
      remembering the colour held just before. */
  function PlatformStep(p: Platform, intensity: real, deltaTime: real, d: PlatformDraws): (r: PlatformOutcome)
    requires intensity > 0.2
    ensures r.vanish.None? ==> r.platform == Drift(p, intensity, d)
    ensures r.vanish.Some? ==>
              && intensity > 0.6
              && r.platform == Drift(p, intensity, d).(color := Transparent)
              && r.vanish.value.saved == Drift(p, intensity, d).color
              && 300.0 <= r.vanish.value.delay < 1000.0
  {
    var q := Drift(p, intensity, d);
    if intensity > 0.6 && d.vanish < intensity * 0.001 * deltaTime then
      PlatformOutcome(q.(color := Transparent), Some(Vanish(q.color, 300.0 + d.delay * 700.0)))
    else
      PlatformOutcome(q, None)
  }

  /** The reverts scheduled by the first n platforms of one pass, in order. */
  function PlatformTimers(ps: seq<Platform>, n: nat, intensity: real, deltaTime: real,
                          draws: nat -> PlatformDraws, epoch: nat): seq<LevelTimer>
    requires n <= |ps| && intensity > 0.2
    decreases n
  {
    if n == 0 then []
    else
      PlatformTimers(ps, n - 1, intensity, deltaTime, draws, epoch) +
      match PlatformStep(ps[n - 1], intensity, deltaTime, draws(n - 1)).vanish
      case Some(v) => [RestorePlatformColor(epoch, n - 1, v.saved, v.delay)]
      case None => []
  }

  // ----------------------------------------------------------------- exit

  /** Distance below the evasion radius, compared on squares (exact). */
  predicate Near(e: Exit, playerX: real, playerY: real)
  {
    (playerX - e.x) * (playerX - e.x) + (playerY - e.y) * (playerY - e.y) < EvadeRadius * EvadeRadius
  }

  /** The length of the direction from the player to the exit, by the
      platform's square root. */
  function Distance(e: Exit, playerX: real, playerY: real, sqrt: real -> real): real
  {
    sqrt((e.x - playerX) * (e.x - playerX) + (e.y - playerY) * (e.y - playerY))
  }

  /** The box the evading exit is clamped to. */
  predicate InBox(x: real, y: real, canvasWidth: real, canvasHeight: real)
  {
    Margin <= x <= canvasWidth - Margin && Margin <= y <= canvasHeight - 100.0
  }

  /** One evasion step: move intensity/2 along the given direction, then clamp
      (max of 50 and min of the far edge, in the source's nesting). */
  function Evade(e: Exit, ux: real, uy: real, intensity: real, canvasWidth: real, canvasHeight: real): (r: Exit)
    ensures r == e.(x := r.x, y := r.y)
    ensures Margin <= r.x && Margin <= r.y
    ensures canvasWidth >= 2.0 * Margin ==> r.x <= canvasWidth - Margin
    ensures canvasHeight >= 150.0 ==> r.y <= canvasHeight - 100.0
  {
    var moveSpeed := intensity * 0.5;
    var nx := e.x + ux * moveSpeed;
    var ny := e.y + uy * moveSpeed;
    e.(x := Max(Margin, Min(nx, canvasWidth - Margin)), y := Max(Margin, Min(ny, canvasHeight - 100.0)))
  }

  /** The far branch's ease back: 1% of the remaining offset per tick. */
  function Return(e: Exit): (r: Exit)
    ensures r == e.(x := r.x, y := r.y)
    ensures r.x - e.originalX == 0.99 * (e.x - e.originalX)
    ensures r.y - e.originalY == 0.99 * (e.y - e.originalY)
  {
    e.(x := e.x + (e.originalX - e.x) * 0.01, y := e.y + (e.originalY - e.y) * 0.01)
  }

  function Teleport(e: Exit, d: ExitDraws, canvasWidth: real, canvasHeight: real): (r: Exit)
    ensures r == e.(x := r.x, y := r.y)
    ensures canvasWidth > 2.0 * Margin ==> Margin <= r.x < canvasWidth - Margin
    ensures canvasHeight > 150.0 ==> Margin <= r.y < canvasHeight - 100.0
  {
    assert canvasWidth > 2.0 * Margin ==> 0.0 <= d.tx * (canvasWidth - 100.0) < canvasWidth - 100.0 by {
      if canvasWidth > 2.0 * Margin { ShiftedDraw(d.tx, canvasWidth, 100.0); }
    }
    assert canvasHeight > 150.0 ==> 0.0 <= d.ty * (canvasHeight - 150.0) < canvasHeight - 150.0 by {
      if canvasHeight > 150.0 { ShiftedDraw(d.ty, canvasHeight, 150.0); }
    }
    e.(x := Margin + d.tx * (canvasWidth - 100.0), y := Margin + d.ty * (canvasHeight - 150.0))
  }

  datatype ExitOutcome = ExitOutcome(exit: Exit, teleported: bool, vanish: Option<Vanish>)

  /** The exit rule above intensity 0.4. Near the player: evade (when the
      direction has a positive length), maybe flicker green/red, and above 0.7
      maybe teleport. Far from the player: ease back, and above 0.6 maybe turn
      transparent for 300 to 800 ms. `sqrt` is the platform's square root; the
      model does not constrain it. */
  function ExitStep(e: Exit, intensity: real, playerX: real, playerY: real,
                    canvasWidth: real, canvasHeight: real, d: ExitDraws, sqrt: real -> real): (r: ExitOutcome)
    ensures r.exit.width == e.width && r.exit.height == e.height
    ensures r.exit.originalX == e.originalX && r.exit.originalY == e.originalY
    ensures r.teleported ==> Near(e, playerX, playerY) && intensity > 0.7 && r.vanish.None?
    ensures Near(e, playerX, playerY) ==>
              (r.vanish.None? && (r.exit.color == e.color || r.exit.color == ExitGreen || r.exit.color == ExitRed))
    ensures !Near(e, playerX, playerY) ==>
              !r.teleported && r.exit.x - e.originalX == 0.99 * (e.x - e.originalX)
              && r.exit.y - e.originalY == 0.99 * (e.y - e.originalY)
    ensures r.vanish.Some? ==> intensity > 0.6 && r.exit.color == Transparent && r.vanish.value.saved == e.color
                               && 300.0 <= r.vanish.value.delay < 800.0
    ensures r.vanish.None? && !Near(e, playerX, playerY) ==> r.exit.color == e.color
    ensures Near(e, playerX, playerY) && !r.teleported
            && Distance(e, playerX, playerY, sqrt) > 0.0 ==>
              && Margin <= r.exit.x && Margin <= r.exit.y
              && (canvasWidth >= 2.0 * Margin ==> r.exit.x <= canvasWidth - Margin)
              && (canvasHeight >= 150.0 ==> r.exit.y <= canvasHeight - 100.0)
    ensures r.teleported ==>
              && (canvasWidth > 2.0 * Margin ==> Margin <= r.exit.x < canvasWidth - Margin)
              && (canvasHeight > 150.0 ==> Margin <= r.exit.y < canvasHeight - 100.0)
  {
    if Near(e, playerX, playerY) then
      var dirX := e.x - playerX;
      var dirY := e.y - playerY;
      var length := Distance(e, playerX, playerY, sqrt);
      var e1 := if length > 0.0 then Evade(e, dirX / length, dirY / length, intensity, canvasWidth, canvasHeight)
                else e;
      var e2 := if d.flicker < intensity * 0.1 then e1.(color := if d.flickerColor < 0.5 then ExitGreen else ExitRed)
                else e1;
      if intensity > 0.7 && d.teleport < intensity * 0.01 then
        ExitOutcome(Teleport(e2, d, canvasWidth, canvasHeight), true, None)
      else
        ExitOutcome(e2, false, None)
    else
      var e1 := Return(e);
      if intensity > 0.6 && d.vanish < intensity * 0.001 then
        ExitOutcome(e1.(color := Transparent), false, Some(Vanish(e1.color, 300.0 + d.delay * 500.0)))
      else
        ExitOutcome(e1, false, None)
  }

  function ExitTimers(o: ExitOutcome): seq<LevelTimer>
  {
    match o.vanish
    case Some(v) => [RestoreExitColor(v.saved, v.delay)]
    case None => []
  }

  /** Exit evasion keeps the exit in the box: if the exit and its origin start
      inside, one step (evade, teleport or ease back) keeps it inside. */
  lemma ExitStepStaysInBox(e: Exit, intensity: real, playerX: real, playerY: real,
                           canvasWidth: real, canvasHeight: real, d: ExitDraws, sqrt: real -> real)
    requires canvasWidth >= 2.0 * Margin && canvasHeight >= 150.0
    requires InBox(e.x, e.y, canvasWidth, canvasHeight)
    requires InBox(e.originalX, e.originalY, canvasWidth, canvasHeight)
    ensures var r := ExitStep(e, intensity, playerX, playerY, canvasWidth, canvasHeight, d, sqrt).exit;
            InBox(r.x, r.y, canvasWidth, canvasHeight)
  {
  }

  /** The inputs of one tick of exit evasion. */
  datatype ExitTick = ExitTick(intensity: real, playerX: real, playerY: real, draws: ExitDraws)

  function RunExit(e: Exit, ticks: seq<ExitTick>, canvasWidth: real, canvasHeight: real,
                   sqrt: real -> real): Exit
    decreases |ticks|
  {
    if ticks == [] then e
    else
      var t := ticks[0];
      var e1 := if t.intensity > 0.4 then ExitStep(e, t.intensity, t.playerX, t.playerY, canvasWidth,
                                                     canvasHeight, t.draws, sqrt).exit
                else e;
      RunExit(e1, ticks[1..], canvasWidth, canvasHeight, sqrt)
  }

  /** Any number of ticks, with any player positions (including a player that
      always stays near), leave the exit inside the box. */
  lemma {:induction false} RunExitStaysInBox(e: Exit, ticks: seq<ExitTick>, canvasWidth: real,
                                            canvasHeight: real, sqrt: real -> real)
    requires canvasWidth >= 2.0 * Margin && canvasHeight >= 150.0
    requires InBox(e.x, e.y, canvasWidth, canvasHeight)
    requires InBox(e.originalX, e.originalY, canvasWidth, canvasHeight)
    ensures var r := RunExit(e, ticks, canvasWidth, canvasHeight, sqrt);
            InBox(r.x, r.y, canvasWidth, canvasHeight)
    decreases |ticks|
  {
    if ticks != [] {
      var t := ticks[0];
      if t.intensity > 0.4 {
        ExitStepStaysInBox(e, t.intensity, t.playerX, t.playerY, canvasWidth, canvasHeight, t.draws, sqrt);
      }
      var e1 := if t.intensity > 0.4 then ExitStep(e, t.intensity, t.playerX, t.playerY, canvasWidth,
                                                     canvasHeight, t.draws, sqrt).exit
                else e;
      RunExitStaysInBox(e1, ticks[1..], canvasWidth, canvasHeight, sqrt);
    }
  }

  function ReturnN(e: Exit, n: nat): Exit
    decreases n
  {
    if n == 0 then e else Return(ReturnN(e, n - 1))
  }

  /** n far ticks shrink each offset from the origin to exactly 0.99^n of
      itself: the exit never jumps and never overshoots the origin. */
  lemma {:induction false} ReturnIsGeometric(e: Exit, n: nat)
    ensures ReturnN(e, n).x - e.originalX == Pow(0.99, n) * (e.x - e.originalX)
    ensures ReturnN(e, n).y - e.originalY == Pow(0.99, n) * (e.y - e.originalY)
    ensures ReturnN(e, n).originalX == e.originalX && ReturnN(e, n).originalY == e.originalY
    ensures 0.0 < Pow(0.99, n) <= 1.0
  {
    if n > 0 {
      ReturnIsGeometric(e, n - 1);
      assert Pow(0.99, n) == 0.99 * Pow(0.99, n - 1);
    }
  }

  // ---------------------------------------------------------------- level

  /** The level, whose platforms, exit and background the source mutates. */
  class Level {
    const canvasWidth: real
    const canvasHeight: real
    /** The deep copies `createLevel` stores for `reset`. */
    const originalPlatforms: seq<Platform>
    const originalExit: Exit

    var platforms: seq<Platform>
    var exit: Exit
    var backgroundColor: Color
    /** Generation of platform objects: `reset` replaces them with fresh copies,
        so a revert scheduled before a reset no longer reaches the array. */
    var epoch: nat

    ghost predicate Valid()
      reads this
    {
      && |platforms| == |originalPlatforms|
      && exit.width == originalExit.width && exit.height == originalExit.height
      && exit.originalX == originalExit.originalX && exit.originalY == originalExit.originalY
    }

    /** The constructor runs `createLevel` and takes the snapshot. */
    constructor (canvasWidth: real, canvasHeight: real)
      ensures Valid()
      ensures this.canvasWidth == canvasWidth && this.canvasHeight == canvasHeight
      ensures platforms == originalPlatforms == InitialPlatforms()
      ensures exit == originalExit == InitialExit()
      ensures backgroundColor == BaseBackground && epoch == 0
    {
      this.canvasWidth, this.canvasHeight := canvasWidth, canvasHeight;
      platforms := InitialPlatforms();
      exit := InitialExit();
      originalPlatforms := InitialPlatforms();
      originalExit := InitialExit();
      backgroundColor := BaseBackground;
      epoch := 0;
    }

    /** `applyGlitchEffects`: background, then every platform (only above 0.2),
        then the exit (only above 0.4). Returns the reverts it schedules and
        whether the exit teleported (which plays the glitch sound). */
    method ApplyGlitchEffects(deltaTime: real, intensity: real, playerX: real, playerY: real,
                              d: LevelDraws, sqrt: real -> real)
      returns (timers: seq<LevelTimer>, teleported: bool)
      requires Valid()
      modifies this
      ensures Valid() && epoch == old(epoch)
      ensures backgroundColor == BackgroundStep(intensity, d.background).color
      ensures intensity <= 0.2 ==> platforms == old(platforms)
      ensures intensity > 0.2 ==>
                |platforms| == |old(platforms)| &&
                forall i :: 0 <= i < |platforms| ==>
                  platforms[i] == PlatformStep(old(platforms)[i], intensity, deltaTime, d.platform(i)).platform
      ensures intensity <= 0.4 ==> exit == old(exit) && !teleported
      ensures var o := ExitStep(old(exit), intensity, playerX, playerY, canvasWidth, canvasHeight, d.exit, sqrt);
              intensity > 0.4 ==> exit == o.exit && teleported == o.teleported
      ensures timers ==
                FlashTimers(BackgroundStep(intensity, d.background))
                + (if intensity > 0.2
                   then PlatformTimers(old(platforms), |old(platforms)|, intensity, deltaTime, d.platform, epoch)
                   else [])
                + (if intensity > 0.4
                   then ExitTimers(ExitStep(old(exit), intensity, playerX, playerY, canvasWidth, canvasHeight,
                                            d.exit, sqrt))
                   else [])
    {
      var bg := BackgroundStep(intensity, d.background);
      backgroundColor := bg.color;
      timers := FlashTimers(bg);

      if intensity > 0.2 {
        var more := CorruptPlatforms(deltaTime, intensity, d.platform);
        timers := timers + more;
      }

      teleported := false;
      if intensity > 0.4 {
        var o := ExitStep(exit, intensity, playerX, playerY, canvasWidth, canvasHeight, d.exit, sqrt);
        exit := o.exit;
        teleported := o.teleported;
        timers := timers + ExitTimers(o);
      }
    }

    /** The `forEach` over the platforms: each platform in turn, in place. */
    method CorruptPlatforms(deltaTime: real, intensity: real, draws: nat -> PlatformDraws)
      returns (timers: seq<LevelTimer>)
      requires Valid() && intensity > 0.2
      modifies this
      ensures Valid() && epoch == old(epoch) && exit == old(exit) && backgroundColor == old(backgroundColor)
      ensures |platforms| == |old(platforms)|
      ensures forall i :: 0 <= i < |platforms| ==>
                platforms[i] == PlatformStep(old(platforms)[i], intensity, deltaTime, draws(i)).platform
      ensures timers == PlatformTimers(old(platforms), |old(platforms)|, intensity, deltaTime, draws, epoch)
    {
      timers := [];
      var i := 0;
      while i < |platforms|
        invariant 0 <= i <= |platforms| == |old(platforms)|
        invariant forall j :: 0 <= j < i ==>
                    platforms[j] == PlatformStep(old(platforms)[j], intensity, deltaTime, draws(j)).platform
        invariant forall j :: i <= j < |platforms| ==> platforms[j] == old(platforms)[j]
        invariant timers == PlatformTimers(old(platforms), i, intensity, deltaTime, draws, epoch)
        invariant exit == old(exit) && epoch == old(epoch) && backgroundColor == old(backgroundColor)
      {
        var o := PlatformStep(platforms[i], intensity, deltaTime, draws(i));
        platforms := platforms[i := o.platform];
        if o.vanish.Some? {
          timers := timers + [RestorePlatformColor(epoch, i, o.vanish.value.saved, o.vanish.value.delay)];
        }
        i := i + 1;
      }
    }

    /** Runs one deferred revert; a flash schedules its own second half. */
    method FireTimer(t: LevelTimer) returns (next: seq<LevelTimer>)
      requires Valid()
      modifies this
      ensures Valid() && epoch == old(epoch)
      ensures t.RestorePlatformColor? ==>
                && exit == old(exit) && backgroundColor == old(backgroundColor) && next == []
                && (if t.epoch == epoch && t.index < |old(platforms)|
                    then platforms == old(platforms)[t.index := old(platforms)[t.index].(color := t.color)]
                    else platforms == old(platforms))
      ensures t.RestoreExitColor? ==>
                exit == old(exit).(color := t.color) && platforms == old(platforms)
                && backgroundColor == old(backgroundColor) && next == []
      ensures t.FlashWhite? ==>
                backgroundColor == White && next == [RestoreBackground(t.color, FlashDelay)]
                && platforms == old(platforms) && exit == old(exit)
      ensures t.RestoreBackground? ==>
                backgroundColor == t.color && next == [] && platforms == old(platforms) && exit == old(exit)
    {
      next := [];
      match t
      case RestorePlatformColor(ep, i, c, _) =>
        if ep == epoch && i < |platforms| {
          platforms := platforms[i := platforms[i].(color := c)];
        }
      case RestoreExitColor(c, _) =>
        exit := exit.(color := c);
      case FlashWhite(c, _) =>
        backgroundColor := White;
        next := [RestoreBackground(c, FlashDelay)];
      case RestoreBackground(c, _) =>
        backgroundColor := c;
    }

    /** `reset`: fresh copies of the snapshot platforms, exit position and
        colour from the snapshot (its size untouched), the base background. */
    method Reset()
      requires Valid()
      modifies this
      ensures Valid()
      ensures platforms == originalPlatforms
      ensures exit == old(exit).(x := originalExit.x, y := originalExit.y, color := originalExit.color)
      ensures backgroundColor == BaseBackground
      ensures epoch == old(epoch) + 1
    {
      platforms := originalPlatforms;
      exit := exit.(x := originalExit.x, y := originalExit.y, color := originalExit.color);
      backgroundColor := BaseBackground;
      epoch := epoch + 1;
    }

    /** `getPlatforms`. */
    function GetPlatforms(): seq<Platform>
      reads this
    {
      platforms
    }
  }

  /** A platform revert restores exactly the colour saved when the platform
      went transparent, and touches nothing else of that platform. */
  lemma RevertRestoresSavedColor(ps: seq<Platform>, i: nat, intensity: real, deltaTime: real, d: PlatformDraws)
    requires i < |ps| && intensity > 0.2
    requires PlatformStep(ps[i], intensity, deltaTime, d).vanish.Some?
    ensures var o := PlatformStep(ps[i], intensity, deltaTime, d);
            o.platform.(color := o.vanish.value.saved) == Drift(ps[i], intensity, d)
  {
  }

  /** Reset and the drift rule: reset is idempotent on the level's state, and
      it brings every drifted platform back to its snapshot. */
  method ResetTwice(level: Level)
    requires level.Valid()
    modifies level
    ensures level.platforms == level.originalPlatforms
    ensures level.exit == old(level.exit).(x := level.originalExit.x, y := level.originalExit.y,
                                          color := level.originalExit.color)
    ensures level.backgroundColor == BaseBackground
    ensures level.epoch == old(level.epoch) + 2
  {
    level.Reset();
    ghost var once := (level.platforms, level.exit, level.backgroundColor);
    level.Reset();
    assert (level.platforms, level.exit, level.backgroundColor) == once;
  }
}
