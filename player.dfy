/** Player kinematics, boundary clamp and AABB collision resolution
    (js/player.js). */
module PlayerPhysics {
  import opened Basics

  const Width: real := 30.0
  const Height: real := 50.0
  const Speed: real := 0.3
  const JumpForce: real := -10.0
  const Gravity: real := 0.5
  const Friction: real := 0.8
  const StartX: real := 50.0
  const StartY: real := 300.0
  const StartColor: Color := Hex("#3af")

  /** The part of the player one tick moves: position, velocity, grounded flag. */
  datatype Body = Body(x: real, y: real, vx: real, vy: real, onGround: bool)

  /** The random draws `applyGlitchEffects` makes in one call. */
  datatype PlayerDraws = PlayerDraws(recolor: Unit, red: Unit, green: Unit, blue: Unit,
                                     shove: Unit, shoveX: Unit, shoveY: Unit)

  function Abs(r: real): real { if r < 0.0 then -r else r }

  predicate LeftHeld(keys: set<string>) { "ArrowLeft" in keys || "a" in keys }
  predicate RightHeld(keys: set<string>) { "ArrowRight" in keys || "d" in keys }
  predicate JumpHeld(keys: set<string>) { "ArrowUp" in keys || "w" in keys || " " in keys }

  // ---------------------------------------------------------------- input

  /** `handleInput`: held arrows accelerate by speed * deltaTime; a held jump key
      while grounded sets (not adds) the vertical velocity and leaves the ground. */
  function Steer(b: Body, keys: set<string>, deltaTime: real): (r: Body)
    ensures r.x == b.x && r.y == b.y
    ensures r.vx == b.vx - (if LeftHeld(keys) then Speed * deltaTime else 0.0)
                         + (if RightHeld(keys) then Speed * deltaTime else 0.0)
    ensures r.vy != b.vy || r.onGround != b.onGround ==> b.onGround && JumpHeld(keys)
    ensures b.onGround && JumpHeld(keys) ==> r.vy == JumpForce && !r.onGround
  {
    var vx1 := if LeftHeld(keys) then b.vx - Speed * deltaTime else b.vx;
    var vx2 := if RightHeld(keys) then vx1 + Speed * deltaTime else vx1;
    if JumpHeld(keys) && b.onGround then b.(vx := vx2, vy := JumpForce, onGround := false)
    else b.(vx := vx2)
  }

  // -------------------------------------------------------------- physics

  /** `applyPhysics`: gravity, friction, integrate, and clear the grounded flag. */
  function Physics(b: Body): Body
  {
    var vy := b.vy + Gravity;
    var vx := b.vx * Friction;
    Body(b.x + vx, b.y + vy, vx, vy, false)
  }

  /** Friction on its own: the horizontal speed shrinks by exactly the friction
      factor and never changes sign; gravity adds exactly 0.5 downwards; the
      grounded flag is always cleared. */
  lemma PhysicsDamps(b: Body)
    ensures Physics(b).vx == 0.8 * b.vx
    ensures Abs(Physics(b).vx) <= Abs(b.vx)
    ensures b.vx != 0.0 ==> Abs(Physics(b).vx) < Abs(b.vx)
    ensures (b.vx > 0.0 ==> Physics(b).vx > 0.0) && (b.vx < 0.0 ==> Physics(b).vx < 0.0)
    ensures Physics(b).vy == b.vy + 0.5 && !Physics(b).onGround
  {
  }

  function Coast(b: Body, n: nat): Body
    decreases n
  {
    if n == 0 then b else Physics(Coast(b, n - 1))
  }

  /** With no input, n physics steps scale the horizontal velocity by exactly
      0.8^n, so its sign never flips and it decays towards 0. */
  lemma {:induction false} CoastDecays(b: Body, n: nat)
    ensures Coast(b, n).vx == Pow(Friction, n) * b.vx
    ensures 0.0 < Pow(Friction, n) <= 1.0
    ensures n > 0 && b.vx != 0.0 ==> Abs(Coast(b, n).vx) < Abs(b.vx)
  {
    if n > 0 {
      CoastDecays(b, n - 1);
      PhysicsDamps(Coast(b, n - 1));
      assert Pow(Friction, n) == 0.8 * Pow(Friction, n - 1);
    }
  }

  // ---------------------------------------------------------- boundaries

  /** `checkBoundaries`, horizontal part: clamp into the canvas, zeroing the
      horizontal velocity when a clamp fires. */
  function Clamp(b: Body, canvasWidth: real): (r: Body)
    ensures canvasWidth >= Width ==> 0.0 <= r.x <= canvasWidth - Width
    ensures 0.0 <= b.x && b.x + Width <= canvasWidth ==> r == b
    ensures b.x < 0.0 || b.x + Width > canvasWidth ==> r.vx == 0.0
    ensures r.y == b.y && r.vy == b.vy && r.onGround == b.onGround
  {
    var b1 := if b.x < 0.0 then b.(x := 0.0, vx := 0.0) else b;
    if b1.x + Width > canvasWidth then b1.(x := canvasWidth - Width, vx := 0.0) else b1
  }

  // ----------------------------------------------------------- collision

  predicate Overlaps(b: Body, p: Platform)
  {
    StrictOverlap(b.x, b.y, Width, Height, p.x, p.y, p.width, p.height)
  }

  /** The four penetration depths of `checkPlatformCollisions`. */
  function OverlapLeft(b: Body, p: Platform): real { (b.x + Width) - p.x }
  function OverlapRight(b: Body, p: Platform): real { (p.x + p.width) - b.x }
  function OverlapTop(b: Body, p: Platform): real { (b.y + Height) - p.y }
  function OverlapBottom(b: Body, p: Platform): real { (p.y + p.height) - b.y }

  function MinOverlap(b: Body, p: Platform): real
  {
    Min(Min(Min(OverlapLeft(b, p), OverlapRight(b, p)), OverlapTop(b, p)), OverlapBottom(b, p))
  }

  /** The four resolution branches, tried in the source's order; each needs the
      minimum overlap on its side AND a velocity towards that side. */
  predicate LandsOnTop(b: Body, p: Platform) { MinOverlap(b, p) == OverlapTop(b, p) && b.vy > 0.0 }
  predicate HitsBottom(b: Body, p: Platform) { MinOverlap(b, p) == OverlapBottom(b, p) && b.vy < 0.0 }
  predicate HitsLeft(b: Body, p: Platform) { MinOverlap(b, p) == OverlapLeft(b, p) && b.vx > 0.0 }
  predicate HitsRight(b: Body, p: Platform) { MinOverlap(b, p) == OverlapRight(b, p) && b.vx < 0.0 }

  /** Resolution of the player against one platform. */
  function Resolve(b: Body, p: Platform): (r: Body)
    // a platform that does not strictly overlap the player changes nothing
    ensures !Overlaps(b, p) ==> r == b
    // at most one axis is corrected
    ensures (r.x == b.x && r.vx == b.vx) || (r.y == b.y && r.vy == b.vy && r.onGround == b.onGround)
    // whenever a correction is made the player is pushed out of the platform
    ensures r != b ==> !Overlaps(r, p)
    // only a landing sets the grounded flag, and resolution never clears it
    ensures r.onGround == (b.onGround || (Overlaps(b, p) && LandsOnTop(b, p)))
  {
    if !Overlaps(b, p) then b
    else if LandsOnTop(b, p) then b.(y := p.y - Height, vy := 0.0, onGround := true)
    else if HitsBottom(b, p) then b.(y := p.y + p.height, vy := 0.0)
    else if HitsLeft(b, p) then b.(x := p.x - Width, vx := 0.0)
    else if HitsRight(b, p) then b.(x := p.x + p.width, vx := 0.0)
    else b
  }

  /** The side of strictly smallest overlap decides alone, whatever the order
      of the branches: the player snaps to that side's edge (zeroing that
      velocity component) when it moves into it, and nothing changes when
      it does not. */
  lemma ResolveCases(b: Body, p: Platform)
    requires Overlaps(b, p)
    ensures OverlapTop(b, p) < Min(Min(OverlapLeft(b, p), OverlapRight(b, p)), OverlapBottom(b, p)) ==>
              Resolve(b, p) == (if b.vy > 0.0 then b.(y := p.y - Height, vy := 0.0, onGround := true) else b)
    ensures OverlapBottom(b, p) < Min(Min(OverlapLeft(b, p), OverlapRight(b, p)), OverlapTop(b, p)) ==>
              Resolve(b, p) == (if b.vy < 0.0 then b.(y := p.y + p.height, vy := 0.0) else b)
    ensures OverlapLeft(b, p) < Min(Min(OverlapRight(b, p), OverlapTop(b, p)), OverlapBottom(b, p)) ==>
              Resolve(b, p) == (if b.vx > 0.0 then b.(x := p.x - Width, vx := 0.0) else b)
    ensures OverlapRight(b, p) < Min(Min(OverlapLeft(b, p), OverlapTop(b, p)), OverlapBottom(b, p)) ==>
              Resolve(b, p) == (if b.vx < 0.0 then b.(x := p.x + p.width, vx := 0.0) else b)
  {
  }

  /** A second pass against the same, unchanged platform changes nothing. */
  lemma ResolveIdempotent(b: Body, p: Platform)
    ensures Resolve(Resolve(b, p), p) == Resolve(b, p)
  {
  }

  /** The player (10,490) falling at 5 onto the ground platform (0,500,300,20):
      the smallest overlap is the bottom one (30 < 40), and the bottom branch
      needs an upward velocity, so the code leaves the overlap unresolved. */
  lemma FallingOntoGroundIsNotResolved()
    ensures var b := Body(10.0, 490.0, 0.0, 5.0, false);
            var p := Platform(0.0, 500.0, 300.0, 20.0, Hex("#555"));
            Overlaps(b, p) && MinOverlap(b, p) == OverlapBottom(b, p) < OverlapTop(b, p)
            && Resolve(b, p) == b
  {
  }

  /** `checkPlatformCollisions`: resolve against every platform in array order. */
  function ResolveAll(b: Body, ps: seq<Platform>): Body
    decreases |ps|
  {
    if ps == [] then b else Resolve(ResolveAll(b, ps[..|ps| - 1]), ps[|ps| - 1])
  }

  /** When no platform overlaps the player, the whole pass changes nothing. */
  lemma {:induction false} ResolveAllClear(b: Body, ps: seq<Platform>)
    requires forall i :: 0 <= i < |ps| ==> !Overlaps(b, ps[i])
    ensures ResolveAll(b, ps) == b
  {
    if ps != [] {
      ResolveAllClear(b, ps[..|ps| - 1]);
    }
  }

  /** After the pass the player is grounded exactly when it was grounded
      before or some platform caught it falling onto its top. */
  lemma {:induction false} ResolveAllGrounds(b: Body, ps: seq<Platform>)
    ensures ResolveAll(b, ps).onGround
            <==> b.onGround || exists i :: 0 <= i < |ps| && Overlaps(ResolveAll(b, ps[..i]), ps[i])
                                                       && LandsOnTop(ResolveAll(b, ps[..i]), ps[i])
  {
    if ps != [] {
      var n := |ps| - 1;
      ResolveAllGrounds(b, ps[..n]);
      forall i | 0 <= i < n ensures ps[..n][..i] == ps[..i] && ps[..n][i] == ps[i] { }
    }
  }

  // --------------------------------------------------------- glitch hooks

  /** `applyGlitchEffects`, colour part: above intensity 0.3 either a random
      `rgb` colour (with probability intensity/100) or back to the original. */
  function GlitchColor(old_color: Color, intensity: real, d: PlayerDraws): (c: Color)
    ensures intensity <= 0.3 ==> c == old_color
    ensures intensity > 0.3 && d.recolor >= intensity * 0.01 ==> c == StartColor
    ensures intensity > 0.3 && d.recolor < intensity * 0.01 ==>
              c.Rgb? && 0.0 <= c.r <= 254.0 && 0.0 <= c.g <= 254.0 && 0.0 <= c.b <= 254.0
  {
    if intensity > 0.3 then
      if d.recolor < intensity * 0.01 then
        Rgb((d.red * 255.0).Floor as real, (d.green * 255.0).Floor as real, (d.blue * 255.0).Floor as real)
      else StartColor
    else old_color
  }

  /** `(Math.random() - 0.5) * 10 * intensity`: an impulse in [-5i, 5i). */
  function Impulse(r: Unit, intensity: real): (n: real)
    requires intensity > 0.0
    ensures -5.0 * intensity <= n < 5.0 * intensity
  {
    CentredDraw(r, 10.0 * intensity);
    (r - 0.5) * 10.0 * intensity
  }

  /** `applyGlitchEffects`, force part: above intensity 0.6, with probability
      intensity/200, a random impulse of at most 5 * intensity on each axis. */
  function Shove(b: Body, intensity: real, d: PlayerDraws): (r: Body)
    ensures r.x == b.x && r.y == b.y && r.onGround == b.onGround
    ensures !(intensity > 0.6 && d.shove < intensity * 0.005) ==> r == b
    ensures -5.0 * intensity <= r.vx - b.vx < 5.0 * intensity || r.vx == b.vx
    ensures -5.0 * intensity <= r.vy - b.vy < 5.0 * intensity || r.vy == b.vy
  {
    if intensity > 0.6 && d.shove < intensity * 0.005 then
      b.(vx := b.vx + Impulse(d.shoveX, intensity), vy := b.vy + Impulse(d.shoveY, intensity))
    else b
  }

  /** The player, whose fields the source updates in place every tick. */
  class Player {
    var x: real
    var y: real
    var velocityX: real
    var velocityY: real
    var onGround: bool
    var color: Color

    function State(): Body
      reads this
    {
      Body(x, y, velocityX, velocityY, onGround)
    }

    constructor ()
      ensures State() == Body(StartX, StartY, 0.0, 0.0, false) && color == StartColor
    {
      x, y := StartX, StartY;
      velocityX, velocityY := 0.0, 0.0;
      onGround := false;
      color := StartColor;
    }

    /** `handleInput`; `jumped` says the jump sound is due. */
    method HandleInput(deltaTime: real, keys: set<string>) returns (jumped: bool)
      modifies this
      ensures State() == Steer(old(State()), keys, deltaTime) && color == old(color)
      ensures jumped == (JumpHeld(keys) && old(onGround))
    {
      if LeftHeld(keys) {
        velocityX := velocityX - Speed * deltaTime;
      }
      if RightHeld(keys) {
        velocityX := velocityX + Speed * deltaTime;
      }
      jumped := JumpHeld(keys) && onGround;
      if jumped {
        velocityY := JumpForce;
        onGround := false;
      }
    }

    /** `applyPhysics`. */
    method ApplyPhysics()
      modifies this
      ensures State() == Physics(old(State())) && color == old(color)
    {
      velocityY := velocityY + Gravity;
      velocityX := velocityX * Friction;
      x := x + velocityX;
      y := y + velocityY;
      onGround := false;
    }

    /** `checkBoundaries`; `died` is the fall-off signal the engine handles. */
    method CheckBoundaries(canvasWidth: real, canvasHeight: real) returns (died: bool)
      modifies this
      ensures State() == Clamp(old(State()), canvasWidth) && color == old(color)
      ensures died == (y > canvasHeight)
    {
      if x < 0.0 {
        x := 0.0;
        velocityX := 0.0;
      }
      if x + Width > canvasWidth {
        x := canvasWidth - Width;
        velocityX := 0.0;
      }
      died := y > canvasHeight;
    }

    /** `checkPlatformCollisions`: one resolution step per platform, in order. */
    method CheckPlatformCollisions(platforms: seq<Platform>)
      modifies this
      ensures State() == ResolveAll(old(State()), platforms) && color == old(color)
    {
      var i := 0;
      while i < |platforms|
        invariant 0 <= i <= |platforms|
        invariant State() == ResolveAll(old(State()), platforms[..i]) && color == old(color)
      {
        assert platforms[..i + 1][..i] == platforms[..i];
        ResolveWith(platforms[i]);
        i := i + 1;
      }
      assert platforms[..|platforms|] == platforms;
    }

    /** The body of the platform loop: push the player out of one platform. */
    method ResolveWith(p: Platform)
      modifies this
      ensures State() == Resolve(old(State()), p) && color == old(color)
    {
      if x + Width > p.x && x < p.x + p.width && y + Height > p.y && y < p.y + p.height {
        var overlapLeft := (x + Width) - p.x;
        var overlapRight := (p.x + p.width) - x;
        var overlapTop := (y + Height) - p.y;
        var overlapBottom := (p.y + p.height) - y;
        var minOverlap := Min(Min(Min(overlapLeft, overlapRight), overlapTop), overlapBottom);
        if minOverlap == overlapTop && velocityY > 0.0 {
          y := p.y - Height;
          velocityY := 0.0;
          onGround := true;
        } else if minOverlap == overlapBottom && velocityY < 0.0 {
          y := p.y + p.height;
          velocityY := 0.0;
        } else if minOverlap == overlapLeft && velocityX > 0.0 {
          x := p.x - Width;
          velocityX := 0.0;
        } else if minOverlap == overlapRight && velocityX < 0.0 {
          x := p.x + p.width;
          velocityX := 0.0;
        }
      }
    }

    /** `checkExitCollision`: strict overlap of the player with the exit. */
    predicate CheckExitCollision(e: Exit)
      reads this
    {
      StrictOverlap(x, y, Width, Height, e.x, e.y, e.width, e.height)
    }

    /** `applyGlitchEffects`. */
    method ApplyGlitchEffects(intensity: real, d: PlayerDraws)
      modifies this
      ensures color == GlitchColor(old(color), intensity, d)
      ensures State() == (if intensity > 0.3 then Shove(old(State()), intensity, d) else old(State()))
    {
      if intensity > 0.3 {
        if d.recolor < intensity * 0.01 {
          color := Rgb((d.red * 255.0).Floor as real, (d.green * 255.0).Floor as real,
                       (d.blue * 255.0).Floor as real);
        } else {
          color := StartColor;
        }
        if intensity > 0.6 && d.shove < intensity * 0.005 {
          velocityX := velocityX + (d.shoveX - 0.5) * 10.0 * intensity;
          velocityY := velocityY + (d.shoveY - 0.5) * 10.0 * intensity;
        }
      }
    }

    /** `update`: glitch hooks, input, physics, boundaries, in that order. */
    method Update(deltaTime: real, keys: set<string>, intensity: real, d: PlayerDraws,
                  canvasWidth: real, canvasHeight: real) returns (jumped: bool, died: bool)
      modifies this
      ensures var shoved := if intensity > 0.3 then Shove(old(State()), intensity, d) else old(State());
              State() == Clamp(Physics(Steer(shoved, keys, deltaTime)), canvasWidth)
              && jumped == (JumpHeld(keys) && shoved.onGround)
      ensures color == GlitchColor(old(color), intensity, d)
      ensures died == (y > canvasHeight)
    {
      ApplyGlitchEffects(intensity, d);
      jumped := HandleInput(deltaTime, keys);
      ApplyPhysics();
      died := CheckBoundaries(canvasWidth, canvasHeight);
    }

    /** `reset`: original position and colour, no velocity, not grounded. */
    method Reset()
      modifies this
      ensures State() == Body(StartX, StartY, 0.0, 0.0, false) && color == StartColor
    {
      x, y := StartX, StartY;
      velocityX, velocityY := 0.0, 0.0;
      onGround := false;
      color := StartColor;
    }
  }

  /** The exit test is symmetric strict overlap: touching edges do not count. */
  lemma ExitOverlapSymmetric(x1: real, y1: real, w1: real, h1: real,
                             x2: real, y2: real, w2: real, h2: real)
    ensures StrictOverlap(x1, y1, w1, h1, x2, y2, w2, h2) == StrictOverlap(x2, y2, w2, h2, x1, y1, w1, h1)
    ensures x1 + w1 == x2 ==> !StrictOverlap(x1, y1, w1, h1, x2, y2, w2, h2)
  {
  }
}
