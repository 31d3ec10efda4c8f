/** The engine: corruption intensity, the fixed-timestep loop, the order of
    one update, deaths and the fake crash. The engine owns one of each
    component and dispatches the signals they return. */
module GameEngine {
  import opened Basics
  import P = PlayerPhysics
  import L = LevelCorruption
  import N = Narrative
  import G = GlitchEffects
  import A = AudioDegradation

  /** The fixed physics step: 1000/60 ms. */
  const Timestep: real := 1000.0 / 60.0

  /** How long the fake error screen stays before the recovery, in ms. */
  const CrashDelay: real := 3000.0

  /** A deferred callback the engine runs when it is due. */
  datatype Timer =
    | LevelRevert(t: L.LevelTimer)
    | HideMessage(m: N.MetaTimer)
    | CrashRecovery(delay: real)

  /** The random draws of each call site that plays a sound in one update. */
  datatype SoundSites = SoundSites(jump: A.SoundDraws, death: A.SoundDraws, teleport: A.SoundDraws,
                                   glitchFirst: A.SoundDraws, glitchSecond: A.SoundDraws)

  /** Everything one update reads from outside: the held keys, `Date.now()`,
      and the random draws of every component. */
  datatype TickInput = TickInput(keys: set<string>, now: int, player: P.PlayerDraws, level: L.LevelDraws,
                                 glitch: G.GlitchDraws, meta: N.MetaDraws, deathPick: Unit, exitPick: Unit,
                                 sounds: SoundSites)

  // ------------------------------------------------------------ intensity

  /** `updateGlitchIntensity`: half from play time, capped at 60 s, and half
      from deaths, capped from 3 deaths. */
  function GlitchIntensity(gameTime: real, deathCount: nat): (i: real)
    ensures gameTime >= 0.0 ==> 0.0 <= i <= 1.0
    ensures gameTime >= 60.0 ==> i >= 0.5
    ensures deathCount >= 3 ==> i >= 0.5 || gameTime < 0.0
  {
    Min(gameTime / 120.0, 0.5) + Min(deathCount as real / 5.0, 0.5)
  }

  /** The intensity never decreases as time passes or deaths accumulate. */
  lemma IntensityMonotone(t1: real, t2: real, d1: nat, d2: nat)
    requires t1 <= t2 && d1 <= d2
    ensures GlitchIntensity(t1, d1) <= GlitchIntensity(t2, d2)
  {
  }

  /** Full corruption from 60 s and 3 deaths on. */
  lemma IntensitySaturates(t: real, d: nat)
    requires t >= 60.0 && d >= 3
    ensures GlitchIntensity(t, d) == 1.0
  {
  }

  /** Five minutes and ten deaths give full corruption; one minute without
      dying gives half. */
  lemma IntensityExamples()
    ensures GlitchIntensity(300.0, 10) == 1.0
    ensures GlitchIntensity(60.0, 0) == 0.5
    ensures GlitchIntensity(30.0, 1) == 0.45
  {
  }

  /** `floor(a / step)` for an accumulator between n and n + 1 steps. */
  lemma StepsAreFloor(a: real, n: nat)
    requires n as real * Timestep <= a < (n as real + 1.0) * Timestep
    ensures (a / Timestep).Floor == n
  {
  }

  /** Level timers as engine timers. */
  function LevelTimers(ts: seq<L.LevelTimer>): (r: seq<Timer>)
    ensures |r| == |ts| && forall k :: 0 <= k < |ts| ==> r[k] == LevelRevert(ts[k])
  {
    seq(|ts|, k requires 0 <= k < |ts| => LevelRevert(ts[k]))
  }

  /** Message timers as engine timers. */
  function MetaTimers(ts: seq<N.MetaTimer>): (r: seq<Timer>)
    ensures |r| == |ts| && forall k :: 0 <= k < |ts| ==> r[k] == HideMessage(ts[k])
  {
    seq(|ts|, k requires 0 <= k < |ts| => HideMessage(ts[k]))
  }

  /** The player's state after its own step of one update: the glitch
      shove (above intensity 0.3), input, physics and the horizontal clamp. */
  function Moved(b: P.Body, intensity: real, input: TickInput, deltaTime: real, canvasWidth: real): P.Body
  {
    var shoved := if intensity > 0.3 then P.Shove(b, intensity, input.player) else b;
    P.Clamp(P.Physics(P.Steer(shoved, input.keys, deltaTime)), canvasWidth)
  }

  /** Whether an update's major-glitch roll hits and the cooldown since
      `last` has passed. */
  predicate GlitchAccepted(intensity: real, deltaTime: real, last: int, input: TickInput)
  {
    intensity > 0.3 && input.glitch.attempt < intensity * 0.001 * deltaTime && input.now - last >= G.MajorCooldown
  }

  /** The major glitch an accepted trigger of an update dispatches. */
  function Requested(intensity: real, soundEnabled: bool, input: TickInput): G.MajorGlitch
  {
    G.Dispatch(PickIndex(5, input.glitch.kind), intensity, soundEnabled, input.glitch.extraSound)
  }

  class Engine {
    const canvasWidth: real
    const canvasHeight: real
    const soundEnabled: bool

    var lastTime: real
    var accumulator: real
    var running: bool
    /** Time played, in seconds. */
    var gameTime: real
    var deathCount: nat
    var glitchIntensity: real

    const player: P.Player
    const level: L.Level
    const glitchManager: G.GlitchManager
    const metaManager: N.MetaManager
    const audioManager: A.AudioManager

    ghost predicate Valid()
      reads this, level, metaManager, audioManager
    {
      && level.Valid() && metaManager.Valid() && audioManager.Valid()
      && level.canvasWidth == canvasWidth && level.canvasHeight == canvasHeight
    }

    /** `new Engine(canvas)` followed by `init`: create the components, start
        the ambient sound (at intensity 0) and mark the game running. */
    constructor (canvasWidth: real, canvasHeight: real, hasDialogBox: bool, loadFailed: set<string>,
                 ambient: A.SoundDraws)
      ensures Valid() && running && soundEnabled
      ensures lastTime == 0.0 && accumulator == 0.0 && gameTime == 0.0
      ensures deathCount == 0 && glitchIntensity == 0.0
      ensures player.State() == P.Body(P.StartX, P.StartY, 0.0, 0.0, false)
      ensures level.platforms == L.InitialPlatforms() && level.exit == L.InitialExit()
      ensures metaManager.messageQueue == [] && !metaManager.currentlyShowingMessage
      ensures glitchManager.lastGlitchTime == 0
      ensures fresh(player) && fresh(level) && fresh(glitchManager) && fresh(metaManager) && fresh(audioManager)
      ensures "ambient" in audioManager.sounds && audioManager.sounds["ambient"].loop
      ensures !audioManager.sounds["ambient"].paused && audioManager.sounds["ambient"].currentTime == 0.0
    {
      this.canvasWidth, this.canvasHeight := canvasWidth, canvasHeight;
      soundEnabled := true;
      lastTime, accumulator := 0.0, 0.0;
      gameTime := 0.0;
      deathCount := 0;
      glitchIntensity := 0.0;
      running := false;
      player := new P.Player();
      level := new L.Level(canvasWidth, canvasHeight);
      glitchManager := new G.GlitchManager();
      metaManager := new N.MetaManager(hasDialogBox);
      var audio := new A.AudioManager(loadFailed);
      audioManager := audio;
      new;
      var _ := audioManager.PlaySound("ambient", glitchIntensity, ambient);
      running := true;
    }

    /** `updateGlitchIntensity`. */
    method UpdateGlitchIntensity()
      modifies this
      ensures glitchIntensity == GlitchIntensity(gameTime, deathCount)
      ensures lastTime == old(lastTime) && accumulator == old(accumulator) && gameTime == old(gameTime)
      ensures running == old(running) && deathCount == old(deathCount)
    {
      glitchIntensity := Min(gameTime / 120.0, 0.5) + Min(deathCount as real / 5.0, 0.5);
    }

    /** `gameLoop` for one animation frame at `timestamp`: nothing while
        stopped; otherwise advance the clock (a zero delta on the first frame
        after `lastTime` was cleared), recompute the intensity, and run one
        update per whole step in the accumulator. `inputs(k)` is what the
        k-th update of the frame reads. */
    method GameLoop(timestamp: real, inputs: nat -> TickInput, sqrt: real -> real)
      returns (steps: nat, timers: seq<Timer>)
      requires Valid()
      modifies this, player, level, glitchManager, metaManager, audioManager
      ensures Valid()
      ensures !old(running) ==>
                steps == 0 && timers == []
                && unchanged(this, player, level, glitchManager, metaManager, audioManager)
      ensures old(running) ==>
                var delta := if old(lastTime) == 0.0 then 0.0 else timestamp - old(lastTime);
                var total := old(accumulator) + delta;
                && lastTime == timestamp
                && gameTime == old(gameTime) + delta / 1000.0
                && glitchIntensity == GlitchIntensity(gameTime, old(deathCount))
                && accumulator == total - steps as real * Timestep
                && (total >= 0.0 ==> steps == (total / Timestep).Floor && 0.0 <= accumulator < Timestep)
                && (total < 0.0 ==> steps == 0)
                && old(deathCount) <= deathCount <= old(deathCount) + steps
      ensures metaManager.restartCount == old(metaManager.restartCount)
    {
      steps, timers := 0, [];
      if !running {
        return;
      }
      if lastTime == 0.0 {
        lastTime := timestamp;
      }
      var deltaTime := timestamp - lastTime;
      lastTime := timestamp;
      gameTime := gameTime + deltaTime / 1000.0;
      UpdateGlitchIntensity();
      ghost var total := accumulator + deltaTime;
      ghost var deaths0 := deathCount;
      accumulator := accumulator + deltaTime;
      while accumulator >= Timestep
        invariant Valid()
        invariant accumulator == total - steps as real * Timestep
        invariant total >= 0.0 ==> accumulator >= 0.0
        invariant steps > 0 ==> total >= Timestep
        invariant lastTime == timestamp && gameTime == old(gameTime) + deltaTime / 1000.0
        invariant glitchIntensity == GlitchIntensity(gameTime, deaths0)
        invariant deaths0 <= deathCount <= deaths0 + steps
        invariant metaManager.restartCount == old(metaManager.restartCount)
        decreases accumulator.Floor
      {
        var _, _, more, _ := Update(Timestep, inputs(steps), sqrt);
        timers := timers + more;
        accumulator := accumulator - Timestep;
        steps := steps + 1;
      }
      if total >= 0.0 {
        StepsAreFloor(total, steps);
      }
    }

    /** `update`: the player, then the level (which sees the player's new
        position), then collisions, then the glitch scheduler and the
        narrative. A fall below the canvas runs `playerDied` at the end of the
        player's step; signals of the components are dispatched in the order
        the source makes its calls. `beforeCollisions` is the player's state
        when collisions are checked. */
    method Update(deltaTime: real, input: TickInput, sqrt: real -> real)
      returns (died: bool, reachedExit: bool, timers: seq<Timer>, ghost beforeCollisions: P.Body)
      requires Valid()
      modifies this, player, level, glitchManager, metaManager, audioManager
      ensures Valid()
      ensures lastTime == old(lastTime) && accumulator == old(accumulator) && gameTime == old(gameTime)
      ensures glitchIntensity == old(glitchIntensity)
      ensures deathCount == old(deathCount) + (if died then 1 else 0)
      ensures metaManager.deathCount == old(metaManager.deathCount) + (if died then 1 else 0)
      ensures metaManager.restartCount == old(metaManager.restartCount)
      ensures var moved := Moved(old(player.State()), old(glitchIntensity), input, deltaTime, canvasWidth);
              && died == (moved.y > canvasHeight)
              && beforeCollisions == (if died then P.Body(P.StartX, P.StartY, 0.0, 0.0, false) else moved)
      ensures player.State() == P.ResolveAll(beforeCollisions, level.platforms)
      ensures reachedExit == player.CheckExitCollision(level.exit)
      ensures metaManager.exitReachedCount == old(metaManager.exitReachedCount) + (if reachedExit then 1 else 0)
      ensures var e0 := if died then old(level.exit).(x := level.originalExit.x, y := level.originalExit.y,
                                                      color := level.originalExit.color)
                        else old(level.exit);
              level.exit == (if glitchIntensity > 0.4
                             then L.ExitStep(e0, glitchIntensity, beforeCollisions.x, beforeCollisions.y, canvasWidth,
                                             canvasHeight, input.level.exit, sqrt).exit
                             else e0)
      ensures var p0 := if died then level.originalPlatforms else old(level.platforms);
              && (glitchIntensity <= 0.2 ==> level.platforms == p0)
              && (glitchIntensity > 0.2 ==>
                    |level.platforms| == |p0| &&
                    forall i :: 0 <= i < |p0| ==>
                      level.platforms[i] == L.PlatformStep(p0[i], glitchIntensity, deltaTime,
                                                           input.level.platform(i)).platform)
      ensures level.backgroundColor == L.BackgroundStep(glitchIntensity, input.level.background).color
      ensures glitchManager.screenShakeIntensity == 5.0 * glitchIntensity
      ensures glitchManager.colorShiftAmount == (glitchIntensity * 10.0).Floor
      ensures glitchManager.staticNoise == 0.2 * glitchIntensity
      ensures glitchIntensity > 0.3 && input.glitch.attempt < glitchIntensity * 0.001 * deltaTime ==>
                glitchManager.lastGlitchTime == G.NextGlitchTime(old(glitchManager.lastGlitchTime), input.now)
      ensures !(glitchIntensity > 0.3 && input.glitch.attempt < glitchIntensity * 0.001 * deltaTime) ==>
                glitchManager.lastGlitchTime == old(glitchManager.lastGlitchTime)
      ensures running == (old(running) && !(GlitchAccepted(glitchIntensity, deltaTime, old(glitchManager.lastGlitchTime), input)
                                            && Requested(glitchIntensity, soundEnabled, input).fakeCrash))
      ensures old(metaManager.currentlyShowingMessage) ==> metaManager.dequeued == old(metaManager.dequeued)
      ensures |old(metaManager.dequeued)| <= |metaManager.dequeued| <= |old(metaManager.dequeued)| + 1
      ensures metaManager.dequeued[..|old(metaManager.dequeued)|] == old(metaManager.dequeued)
      ensures running ==> old(running)
      ensures old(running) && !running ==> CrashRecovery(CrashDelay) in timers
    {
      died := PlayerStep(deltaTime, input);
      timers := LevelStep(deltaTime, input, sqrt);
      beforeCollisions := player.State();
      reachedExit := CheckCollisions(input.exitPick);
      var more := GlitchStep(deltaTime, input);
      timers := timers + more;
    }

    /** The player's part of `update`, with the jump sound it plays and the
        death it reports. */
    method PlayerStep(deltaTime: real, input: TickInput) returns (died: bool)
      requires Valid()
      modifies this, player, level, metaManager, audioManager
      ensures Valid()
      ensures lastTime == old(lastTime) && accumulator == old(accumulator) && gameTime == old(gameTime)
      ensures glitchIntensity == old(glitchIntensity) && running == old(running)
      ensures deathCount == old(deathCount) + (if died then 1 else 0)
      ensures metaManager.deathCount == old(metaManager.deathCount) + (if died then 1 else 0)
      ensures metaManager.restartCount == old(metaManager.restartCount)
      ensures metaManager.exitReachedCount == old(metaManager.exitReachedCount)
      ensures var moved := Moved(old(player.State()), glitchIntensity, input, deltaTime, canvasWidth);
              && died == (moved.y > canvasHeight)
              && player.State() == (if died then P.Body(P.StartX, P.StartY, 0.0, 0.0, false) else moved)
      ensures died ==> level.platforms == level.originalPlatforms && level.backgroundColor == L.BaseBackground
                       && level.exit == old(level.exit).(x := level.originalExit.x, y := level.originalExit.y,
                                                         color := level.originalExit.color)
                       && level.epoch == old(level.epoch) + 1
      ensures !died ==> level.platforms == old(level.platforms) && level.backgroundColor == old(level.backgroundColor)
                        && level.exit == old(level.exit) && level.epoch == old(level.epoch)
      ensures metaManager.messageQueue == old(metaManager.messageQueue) +
                (if died && metaManager.deathCount % 2 == 0 then [N.PickFrom(N.DeathMessages, input.deathPick)] else [])
      ensures metaManager.currentlyShowingMessage == old(metaManager.currentlyShowingMessage)
      ensures metaManager.dequeued == old(metaManager.dequeued)
    {
      var jumped, fell := player.Update(deltaTime, input.keys, glitchIntensity, input.player,
                                        canvasWidth, canvasHeight);
      if jumped && soundEnabled {
        var _ := audioManager.PlaySound("jump", glitchIntensity, input.sounds.jump);
      }
      died := fell;
      if died {
        PlayerDied(input.deathPick, input.sounds.death);
      }
    }

    /** The level's part of `update`: its glitch effects around the player's
        current position, and the glitch sound of a teleport. */
    method LevelStep(deltaTime: real, input: TickInput, sqrt: real -> real) returns (timers: seq<Timer>)
      requires Valid()
      modifies level, audioManager
      ensures Valid()
      ensures var o := L.ExitStep(old(level.exit), glitchIntensity, player.x, player.y, canvasWidth,
                                  canvasHeight, input.level.exit, sqrt);
              level.exit == (if glitchIntensity > 0.4 then o.exit else old(level.exit))
      ensures glitchIntensity > 0.2 ==>
                |level.platforms| == |old(level.platforms)| &&
                forall i :: 0 <= i < |level.platforms| ==>
                  level.platforms[i] == L.PlatformStep(old(level.platforms)[i], glitchIntensity, deltaTime,
                                                       input.level.platform(i)).platform
      ensures glitchIntensity <= 0.2 ==> level.platforms == old(level.platforms)
      ensures level.backgroundColor == L.BackgroundStep(glitchIntensity, input.level.background).color
      ensures level.epoch == old(level.epoch)
    {
      var levelTimers, teleported := level.ApplyGlitchEffects(deltaTime, glitchIntensity, player.x, player.y,
                                                              input.level, sqrt);
      timers := LevelTimers(levelTimers);
      if teleported && soundEnabled {
        var _ := audioManager.PlaySound("glitch", glitchIntensity, input.sounds.teleport);
      }
    }

    /** The glitch scheduler's and the narrative's part of `update`. */
    method GlitchStep(deltaTime: real, input: TickInput) returns (timers: seq<Timer>)
      requires Valid()
      modifies this, glitchManager, metaManager, audioManager
      ensures Valid()
      ensures lastTime == old(lastTime) && accumulator == old(accumulator) && gameTime == old(gameTime)
      ensures glitchIntensity == old(glitchIntensity) && deathCount == old(deathCount)
      ensures metaManager.deathCount == old(metaManager.deathCount)
      ensures metaManager.restartCount == old(metaManager.restartCount)
      ensures metaManager.exitReachedCount == old(metaManager.exitReachedCount)
      ensures glitchManager.screenShakeIntensity == 5.0 * glitchIntensity
      ensures glitchManager.colorShiftAmount == (glitchIntensity * 10.0).Floor
      ensures glitchManager.staticNoise == 0.2 * glitchIntensity
      ensures glitchIntensity > 0.3 && input.glitch.attempt < glitchIntensity * 0.001 * deltaTime ==>
                glitchManager.lastGlitchTime == G.NextGlitchTime(old(glitchManager.lastGlitchTime), input.now)
      ensures !(glitchIntensity > 0.3 && input.glitch.attempt < glitchIntensity * 0.001 * deltaTime) ==>
                glitchManager.lastGlitchTime == old(glitchManager.lastGlitchTime)
      ensures var accepted := GlitchAccepted(glitchIntensity, deltaTime, old(glitchManager.lastGlitchTime), input);
              var g := Requested(glitchIntensity, soundEnabled, input);
              running == (old(running) && !(accepted && g.fakeCrash))
      ensures var accepted := GlitchAccepted(glitchIntensity, deltaTime, old(glitchManager.lastGlitchTime), input);
              var g := Requested(glitchIntensity, soundEnabled, input);
              var mid := old(metaManager.messageQueue) +
                         (if accepted && g.randomMessage then [N.RandomMessage(glitchIntensity, input.glitch.messagePick)]
                          else []);
              var taken := !old(metaManager.currentlyShowingMessage) && |mid| > 0;
              metaManager.dequeued == old(metaManager.dequeued) + (if taken then [mid[0]] else [])
      ensures var accepted := GlitchAccepted(glitchIntensity, deltaTime, old(glitchManager.lastGlitchTime), input);
              var g := Requested(glitchIntensity, soundEnabled, input);
              var mid := old(metaManager.messageQueue) +
                         (if accepted && g.randomMessage then [N.RandomMessage(glitchIntensity, input.glitch.messagePick)]
                          else []);
              var taken := !old(metaManager.currentlyShowingMessage) && |mid| > 0;
              var ambient := glitchIntensity > 0.3 && input.meta.ambient < glitchIntensity * 0.0001 * deltaTime;
              metaManager.messageQueue == (if taken then mid[1..] else mid) +
                                          (if ambient then [N.RandomMessage(glitchIntensity, input.meta.pick)] else [])
      ensures var accepted := GlitchAccepted(glitchIntensity, deltaTime, old(glitchManager.lastGlitchTime), input);
              var g := Requested(glitchIntensity, soundEnabled, input);
              var mid := old(metaManager.messageQueue) +
                         (if accepted && g.randomMessage then [N.RandomMessage(glitchIntensity, input.glitch.messagePick)]
                          else []);
              var taken := !old(metaManager.currentlyShowingMessage) && |mid| > 0;
              timers == (if accepted && g.fakeCrash then [CrashRecovery(CrashDelay)] else []) +
                        (if taken && metaManager.hasDialogBox then [HideMessage(N.HideDialog(N.MessageDisplayTime))]
                         else [])
      ensures running ==> old(running)
      ensures old(running) && !running ==> CrashRecovery(CrashDelay) in timers
    {
      timers := MajorGlitchStep(deltaTime, input);
      ghost var mid := metaManager.messageQueue;
      var crashTimers := timers;
      var metaTimers := metaManager.Update(deltaTime, glitchIntensity, input.meta);
      timers := crashTimers + MetaTimers(metaTimers);
    }

    /** The glitch scheduler's tick and the major glitch it may fire. */
    method MajorGlitchStep(deltaTime: real, input: TickInput) returns (timers: seq<Timer>)
      requires Valid()
      modifies this, glitchManager, metaManager, audioManager
      ensures Valid()
      ensures lastTime == old(lastTime) && accumulator == old(accumulator) && gameTime == old(gameTime)
      ensures glitchIntensity == old(glitchIntensity) && deathCount == old(deathCount)
      ensures metaManager.deathCount == old(metaManager.deathCount)
      ensures metaManager.restartCount == old(metaManager.restartCount)
      ensures metaManager.exitReachedCount == old(metaManager.exitReachedCount)
      ensures metaManager.currentlyShowingMessage == old(metaManager.currentlyShowingMessage)
      ensures metaManager.dequeued == old(metaManager.dequeued)
      ensures glitchManager.screenShakeIntensity == 5.0 * glitchIntensity
      ensures glitchManager.colorShiftAmount == (glitchIntensity * 10.0).Floor
      ensures glitchManager.staticNoise == 0.2 * glitchIntensity
      ensures glitchIntensity > 0.3 && input.glitch.attempt < glitchIntensity * 0.001 * deltaTime ==>
                glitchManager.lastGlitchTime == G.NextGlitchTime(old(glitchManager.lastGlitchTime), input.now)
      ensures !(glitchIntensity > 0.3 && input.glitch.attempt < glitchIntensity * 0.001 * deltaTime) ==>
                glitchManager.lastGlitchTime == old(glitchManager.lastGlitchTime)
      ensures var accepted := GlitchAccepted(glitchIntensity, deltaTime, old(glitchManager.lastGlitchTime), input);
              var g := Requested(glitchIntensity, soundEnabled, input);
              && running == (old(running) && !(accepted && g.fakeCrash))
              && timers == (if accepted && g.fakeCrash then [CrashRecovery(CrashDelay)] else [])
              && metaManager.messageQueue == old(metaManager.messageQueue) +
                   (if accepted && g.randomMessage then [N.RandomMessage(glitchIntensity, input.glitch.messagePick)]
                    else [])
    {
      timers := [];
      var major := glitchManager.Update(deltaTime, glitchIntensity, input.now, soundEnabled, input.glitch);
      if major.Some? {
        timers := ApplyMajorGlitch(major.value, input);
      }
    }

    /** `checkCollisions`: resolve against the level's platforms, then report
        the exit when the player overlaps it. */
    method CheckCollisions(exitPick: Unit) returns (reachedExit: bool)
      requires Valid()
      modifies player, metaManager
      ensures Valid()
      ensures player.State() == P.ResolveAll(old(player.State()), level.platforms)
      ensures player.color == old(player.color)
      ensures reachedExit == player.CheckExitCollision(level.exit)
      ensures reachedExit == StrictOverlap(player.x, player.y, P.Width, P.Height,
                                           level.exit.x, level.exit.y, level.exit.width, level.exit.height)
      ensures metaManager.exitReachedCount == old(metaManager.exitReachedCount) + (if reachedExit then 1 else 0)
      ensures metaManager.deathCount == old(metaManager.deathCount)
      ensures metaManager.restartCount == old(metaManager.restartCount)
      ensures metaManager.messageQueue ==
                old(metaManager.messageQueue) + (if reachedExit then [N.PickFrom(N.ExitMessages, exitPick)] else [])
      ensures metaManager.currentlyShowingMessage == old(metaManager.currentlyShowingMessage)
      ensures metaManager.dequeued == old(metaManager.dequeued)
    {
      player.CheckPlatformCollisions(level.GetPlatforms());
      reachedExit := player.CheckExitCollision(level.exit);
      if reachedExit {
        metaManager.TriggerEvent(N.ReachedExit, exitPick);
      }
    }

    /** `playerDied`: count the death, tell the narrative, play the death
        sound, then reset the player and the level. */
    method PlayerDied(pick: Unit, sound: A.SoundDraws)
      requires Valid()
      modifies this, player, level, metaManager, audioManager
      ensures Valid()
      ensures deathCount == old(deathCount) + 1
      ensures metaManager.deathCount == old(metaManager.deathCount) + 1
      ensures metaManager.messageQueue == old(metaManager.messageQueue) +
                (if metaManager.deathCount % 2 == 0 then [N.PickFrom(N.DeathMessages, pick)] else [])
      ensures player.State() == P.Body(P.StartX, P.StartY, 0.0, 0.0, false) && player.color == P.StartColor
      ensures level.platforms == level.originalPlatforms && level.backgroundColor == L.BaseBackground
      ensures level.exit == old(level.exit).(x := level.originalExit.x, y := level.originalExit.y,
                                            color := level.originalExit.color)
      ensures running == old(running) && lastTime == old(lastTime) && accumulator == old(accumulator)
      ensures gameTime == old(gameTime) && glitchIntensity == old(glitchIntensity)
      ensures metaManager.exitReachedCount == old(metaManager.exitReachedCount)
      ensures metaManager.restartCount == old(metaManager.restartCount)
      ensures metaManager.currentlyShowingMessage == old(metaManager.currentlyShowingMessage)
      ensures metaManager.dequeued == old(metaManager.dequeued)
      ensures level.epoch == old(level.epoch) + 1
    {
      deathCount := deathCount + 1;
      metaManager.TriggerEvent(N.PlayerDeath, pick);
      if soundEnabled {
        var _ := audioManager.PlaySound("death", glitchIntensity, sound);
      }
      player.Reset();
      level.Reset();
    }

    /** The engine's side of an accepted major glitch: the fake crash, the
        creepy message, and the glitch sounds. */
    method ApplyMajorGlitch(g: G.MajorGlitch, input: TickInput) returns (timers: seq<Timer>)
      requires Valid()
      modifies this, metaManager, audioManager
      ensures Valid()
      ensures timers == (if g.fakeCrash then [CrashRecovery(CrashDelay)] else [])
      ensures running == (old(running) && !g.fakeCrash)
      ensures metaManager.messageQueue == old(metaManager.messageQueue) +
                (if g.randomMessage then [N.RandomMessage(glitchIntensity, input.glitch.messagePick)] else [])
      ensures lastTime == old(lastTime) && accumulator == old(accumulator) && gameTime == old(gameTime)
      ensures deathCount == old(deathCount) && glitchIntensity == old(glitchIntensity)
      ensures metaManager.deathCount == old(metaManager.deathCount)
      ensures metaManager.exitReachedCount == old(metaManager.exitReachedCount)
      ensures metaManager.restartCount == old(metaManager.restartCount)
      ensures metaManager.currentlyShowingMessage == old(metaManager.currentlyShowingMessage)
      ensures metaManager.dequeued == old(metaManager.dequeued)
    {
      timers := [];
      if g.fakeCrash {
        var t := FakeCrash();
        timers := [t];
      }
      if g.randomMessage {
        metaManager.ShowRandomMessage(glitchIntensity, input.glitch.messagePick);
      }
      if g.glitchSounds >= 1 {
        var _ := audioManager.PlaySound("glitch", glitchIntensity, input.sounds.glitchFirst);
      }
      if g.glitchSounds >= 2 {
        var _ := audioManager.PlaySound("glitch", glitchIntensity, input.sounds.glitchSecond);
      }
    }

    /** `fakeCrash`: stop the loop and schedule the recovery. */
    method FakeCrash() returns (t: Timer)
      requires Valid()
      modifies this
      ensures Valid()
      ensures !running && t == CrashRecovery(CrashDelay)
      ensures lastTime == old(lastTime) && accumulator == old(accumulator) && gameTime == old(gameTime)
      ensures deathCount == old(deathCount) && glitchIntensity == old(glitchIntensity)
    {
      running := false;
      t := CrashRecovery(CrashDelay);
    }

    /** The recovery callback of `fakeCrash`: run again from a cleared clock
        and report one restart. */
    method RecoverFromCrash(pick: Unit)
      requires Valid()
      modifies this, metaManager
      ensures Valid()
      ensures running && lastTime == 0.0
      ensures accumulator == old(accumulator) && gameTime == old(gameTime) && deathCount == old(deathCount)
      ensures glitchIntensity == old(glitchIntensity)
      ensures metaManager.restartCount == old(metaManager.restartCount) + 1
      ensures metaManager.deathCount == old(metaManager.deathCount)
      ensures metaManager.exitReachedCount == old(metaManager.exitReachedCount)
      ensures metaManager.messageQueue == old(metaManager.messageQueue) + [N.PickFrom(N.RestartMessages, pick)]
      ensures metaManager.currentlyShowingMessage == old(metaManager.currentlyShowingMessage)
      ensures metaManager.dequeued == old(metaManager.dequeued)
    {
      running := true;
      lastTime := 0.0;
      metaManager.TriggerEvent(N.GameRestart, pick);
    }

    /** Runs a due timer; a background flash schedules its second half. */
    method FireTimer(t: Timer, pick: Unit) returns (next: seq<Timer>)
      requires Valid()
      modifies this, level, metaManager
      ensures Valid()
      ensures t.CrashRecovery? ==> running && lastTime == 0.0 && next == []
                                   && metaManager.restartCount == old(metaManager.restartCount) + 1
      ensures !t.CrashRecovery? ==> running == old(running) && lastTime == old(lastTime)
                                    && metaManager.restartCount == old(metaManager.restartCount)
      ensures t.HideMessage? ==> !metaManager.currentlyShowingMessage && next == []
      ensures t.LevelRevert? ==> |next| <= 1
      ensures !t.LevelRevert? ==> level.platforms == old(level.platforms) && level.exit == old(level.exit)
                                  && level.backgroundColor == old(level.backgroundColor) && level.epoch == old(level.epoch)
      ensures t.HideMessage? ==> metaManager.messageQueue == old(metaManager.messageQueue)
                                 && metaManager.dequeued == old(metaManager.dequeued)
      ensures t.CrashRecovery? ==> metaManager.messageQueue == old(metaManager.messageQueue) +
                                     [N.PickFrom(N.RestartMessages, pick)]
                                   && metaManager.currentlyShowingMessage == old(metaManager.currentlyShowingMessage)
                                   && metaManager.dequeued == old(metaManager.dequeued)
      ensures gameTime == old(gameTime) && accumulator == old(accumulator) && deathCount == old(deathCount)
      ensures glitchIntensity == old(glitchIntensity)
    {
      match t
      case LevelRevert(lt) =>
        var more := level.FireTimer(lt);
        next := LevelTimers(more);
      case HideMessage(_) =>
        metaManager.HideDialogBox();
        next := [];
      case CrashRecovery(_) =>
        RecoverFromCrash(pick);
        next := [];
    }
  }

  /** A fake crash stops the loop: the next frames change nothing until the
      recovery runs, and the first frame after it has a zero delta. */
  method CrashThenRecover(e: Engine, later: real, afterwards: real, inputs: nat -> TickInput,
                          sqrt: real -> real, pick: Unit)
    requires e.Valid()
    modifies e, e.player, e.level, e.glitchManager, e.metaManager, e.audioManager
    ensures e.Valid()
    ensures e.gameTime == old(e.gameTime) && e.lastTime == afterwards
    ensures e.metaManager.restartCount == old(e.metaManager.restartCount) + 1
  {
    var t := e.FakeCrash();
    var steps, _ := e.GameLoop(later, inputs, sqrt);
    assert steps == 0;
    var _ := e.FireTimer(t, pick);
    var _, _ := e.GameLoop(afterwards, inputs, sqrt);
  }
}
