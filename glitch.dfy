/** The glitch scheduler: effect magnitudes that follow the intensity, and
    major glitch events behind a ten-second cooldown. */
module GlitchEffects {
  import opened Basics

  /** The least spacing of two accepted major glitches, in milliseconds. */
  const MajorCooldown: int := 10000

  /** The five major glitch effects, by the index `Math.floor(Math.random() * 5)`. */
  datatype Effect = ScreenTear | FakeCrash | CreepyMessage | InvertColors | Pixelate

  function EffectOf(kind: nat): Effect
    requires kind < 5
  {
    if kind == 0 then ScreenTear
    else if kind == 1 then FakeCrash
    else if kind == 2 then CreepyMessage
    else if kind == 3 then InvertColors
    else Pixelate
  }

  /** What an accepted major glitch asks of the engine: a fake crash, a
      random creepy message, and how many times to play the glitch sound.
      The effect itself is drawn on the canvas. */
  datatype MajorGlitch = MajorGlitch(effect: Effect, fakeCrash: bool, randomMessage: bool, glitchSounds: nat)

  /** The draws of one `update`: the attempt roll, the effect index, the roll
      for the trailing glitch sound, and the pick of a creepy message. */
  datatype GlitchDraws = GlitchDraws(attempt: Unit, kind: Unit, extraSound: Unit, messagePick: Unit)

  /** The `switch` of `triggerMajorGlitch` and the trailing sound roll. */
  function Dispatch(kind: nat, intensity: real, soundEnabled: bool, extraSound: Unit): (g: MajorGlitch)
    requires kind < 5
    ensures g.effect == EffectOf(kind)
    ensures g.fakeCrash <==> kind == 1 && intensity > 0.6
    ensures g.randomMessage <==> kind == 2
    ensures g.glitchSounds <= 2 && (kind != 4 ==> g.glitchSounds <= 1)
    ensures !soundEnabled ==> g.glitchSounds == 0
    ensures soundEnabled && kind == 4 ==> g.glitchSounds >= 1
    ensures soundEnabled && extraSound < 0.5 ==> g.glitchSounds >= 1
    ensures g.glitchSounds == 2 <==> soundEnabled && kind == 4 && extraSound < 0.5
    ensures g.glitchSounds == 0 <==> !soundEnabled || (kind != 4 && extraSound >= 0.5)
  {
    var switchSound := if kind == 4 && soundEnabled then 1 else 0;
    var extra := if soundEnabled && extraSound < 0.5 then 1 else 0;
    MajorGlitch(EffectOf(kind), kind == 1 && intensity > 0.6, kind == 2, switchSound + extra)
  }

  /** The cooldown rule: the time of the last accepted major glitch after a
      trigger at `now`. */
  function NextGlitchTime(last: int, now: int): int
  {
    if now - last < MajorCooldown then last else now
  }

  /** The triggers among `nows` that pass the cooldown, starting from `last`:
      those at which `NextGlitchTime` moves. */
  function AcceptedTriggers(last: int, nows: seq<int>): seq<int>
    decreases |nows|
  {
    if nows == [] then []
    else
      var next := NextGlitchTime(last, nows[0]);
      (if next != last then [next] else []) + AcceptedTriggers(next, nows[1..])
  }

  /** Any two consecutive accepted major glitches are at least 10000 ms apart,
      and the first is at least 10000 ms after the last one before. */
  lemma {:induction false} AcceptedTriggersSpaced(last: int, nows: seq<int>)
    ensures var a := AcceptedTriggers(last, nows);
            && (|a| > 0 ==> a[0] - last >= MajorCooldown)
            && forall k :: 0 <= k < |a| - 1 ==> a[k + 1] - a[k] >= MajorCooldown
    decreases |nows|
  {
    if nows != [] {
      var next := NextGlitchTime(last, nows[0]);
      AcceptedTriggersSpaced(next, nows[1..]);
      if next != last {
        var rest := AcceptedTriggers(next, nows[1..]);
        var a := [next] + rest;
        assert forall k :: 1 <= k < |a| ==> a[k] == rest[k - 1];
      }
    }
  }

  /** `applyStaticNoise`: the number of streaks drawn, at most 100. */
  function NoiseCount(intensity: real): (n: int)
    ensures n <= 100
    ensures intensity >= 0.0 ==> n >= 0
    ensures intensity >= 0.1 ==> n == 100
    ensures intensity < 0.1 ==> n == (intensity * 1000.0).Floor
  {
    var raw := (intensity * 1000.0).Floor;
    if raw < 100 then raw else 100
  }

  /** `pixelateEffect`: the pixel size, never below 5. */
  function PixelSize(intensity: real): (p: int)
    ensures p >= 5 && p >= (10.0 * intensity).Floor
    ensures p == 5 || p == (10.0 * intensity).Floor
    ensures intensity < 0.6 ==> p == 5
    ensures intensity <= 1.0 ==> p <= 10
  {
    var raw := (10.0 * intensity).Floor;
    if raw > 5 then raw else 5
  }

  /** `applyScanlines`: the rows 0, 4, 8, ... strictly below the canvas
      height, one line each; that is ceil(height / 4) rows. */
  method ScanlineRows(canvasHeight: nat) returns (rows: seq<nat>)
    ensures |rows| == (canvasHeight + 3) / 4
    ensures forall k :: 0 <= k < |rows| ==> rows[k] == 4 * k && rows[k] < canvasHeight
  {
    rows := [];
    var y := 0;
    while y < canvasHeight
      invariant y == 4 * |rows|
      invariant |rows| > 0 ==> y < canvasHeight + 4
      invariant forall k :: 0 <= k < |rows| ==> rows[k] == 4 * k && rows[k] < canvasHeight
    {
      rows := rows + [y];
      y := y + 4;
    }
  }

  class GlitchManager {
    var screenShakeIntensity: real
    var colorShiftAmount: int
    var staticNoise: real
    /** `Date.now()` of the last accepted major glitch, in milliseconds. */
    var lastGlitchTime: int

    constructor ()
      ensures screenShakeIntensity == 0.0 && colorShiftAmount == 0 && staticNoise == 0.0
      ensures lastGlitchTime == 0
    {
      screenShakeIntensity, colorShiftAmount, staticNoise := 0.0, 0, 0.0;
      lastGlitchTime := 0;
    }

    /** `update`: magnitudes from the intensity, then above 0.3 a roll for a
        major glitch. */
    method Update(deltaTime: real, intensity: real, now: int, soundEnabled: bool, d: GlitchDraws)
      returns (g: Option<MajorGlitch>)
      modifies this
      ensures screenShakeIntensity == 5.0 * intensity
      ensures colorShiftAmount == (intensity * 10.0).Floor
      ensures staticNoise == 0.2 * intensity
      ensures 0.0 <= intensity <= 1.0 ==> 0 <= colorShiftAmount <= 10
      ensures !(intensity > 0.3 && d.attempt < intensity * 0.001 * deltaTime) ==>
                g.None? && lastGlitchTime == old(lastGlitchTime)
      ensures intensity > 0.3 && d.attempt < intensity * 0.001 * deltaTime ==>
                lastGlitchTime == NextGlitchTime(old(lastGlitchTime), now)
                && (g.Some? <==> now - old(lastGlitchTime) >= MajorCooldown)
                && (g.Some? ==> g.value == Dispatch(PickIndex(5, d.kind), intensity, soundEnabled, d.extraSound))
    {
      screenShakeIntensity := intensity * 5.0;
      colorShiftAmount := (intensity * 10.0).Floor;
      staticNoise := intensity * 0.2;
      g := None;
      if intensity > 0.3 && d.attempt < intensity * 0.001 * deltaTime {
        g := TriggerMajorGlitch(now, intensity, soundEnabled, d);
      }
    }

    /** `triggerMajorGlitch`: inside the cooldown nothing changes; otherwise
        record the time, draw the effect and dispatch it. */
    method TriggerMajorGlitch(now: int, intensity: real, soundEnabled: bool, d: GlitchDraws)
      returns (g: Option<MajorGlitch>)
      modifies this
      ensures now - old(lastGlitchTime) < MajorCooldown ==> g.None? && lastGlitchTime == old(lastGlitchTime)
      ensures now - old(lastGlitchTime) >= MajorCooldown ==>
                lastGlitchTime == now
                && g == Some(Dispatch(PickIndex(5, d.kind), intensity, soundEnabled, d.extraSound))
      ensures lastGlitchTime == NextGlitchTime(old(lastGlitchTime), now)
      ensures screenShakeIntensity == old(screenShakeIntensity) && colorShiftAmount == old(colorShiftAmount)
      ensures staticNoise == old(staticNoise)
    {
      if now - lastGlitchTime < MajorCooldown {
        return None;
      }
      lastGlitchTime := now;
      var kind := PickIndex(5, d.kind);
      g := Some(Dispatch(kind, intensity, soundEnabled, d.extraSound));
    }
  }

  /** A run of major-glitch triggers at the times `nows`: the glitches that
      fire are exactly `AcceptedTriggers` of the times, so they keep the
      cooldown spacing. */
  method TriggerAll(gm: GlitchManager, nows: seq<int>, intensity: real, soundEnabled: bool,
                    d: nat -> GlitchDraws)
    returns (fired: seq<int>)
    modifies gm
    ensures fired == AcceptedTriggers(old(gm.lastGlitchTime), nows)
  {
    fired := [];
    var i := 0;
    while i < |nows|
      invariant 0 <= i <= |nows|
      invariant fired + AcceptedTriggers(gm.lastGlitchTime, nows[i..]) == AcceptedTriggers(old(gm.lastGlitchTime), nows)
    {
      assert nows[i..][1..] == nows[i + 1..];
      var last := gm.lastGlitchTime;
      var g := gm.TriggerMajorGlitch(nows[i], intensity, soundEnabled, d(i));
      if g.Some? {
        fired := fired + [nows[i]];
      }
      assert (if gm.lastGlitchTime != last then [gm.lastGlitchTime] else []) == (if g.Some? then [nows[i]] else []);
      i := i + 1;
    }
  }
}
