# A game you can't win — a model of its game-state rules

This project models the deterministic rules of a browser platformer whose world "corrupts" as the player plays. A single corruption scalar, the glitch intensity, grows with play time and deaths. It drives the following:

- random nudges and vanishing of platforms;
- an exit that runs away from the player, teleports and flickers;
- creepy messages queued behind a one-at-a-time dialog box;
- major glitches behind a ten-second cooldown, one of which is a fake crash;
- jitter in the volume, playback rate and pitch of the sounds.

There is one Dafny module per source file, plus a module of shared values:

| module | file | form |
|---|---|---|
| `Basics` | — | the draw type `Unit` (a real in [0, 1)), colours, platform and exit records, strict AABB overlap |
| `PlayerPhysics` | `player.dfy` | class `Player` over its position, velocity and grounded flag; pure `Steer`, `Physics`, `Clamp` and `Resolve` specify its methods |
| `LevelCorruption` | `level.dfy` | class `Level` over platforms, exit, background and snapshot; pure per-tick rules for the background, platforms and exit |
| `Narrative` | `meta.dfy` | class `MetaManager`: the message queue (FIFO, kept with ghost histories), the display lock and the event counters |
| `GlitchEffects` | `glitch.dfy` | class `GlitchManager`: magnitudes and the cooldown; pure effect dispatch, noise count and pixel size; the scanline loop |
| `AudioDegradation` | `audio.dfy` | class `AudioManager` over a `map` of sounds; pure jitter rules with their bounds |
| `GameEngine` | `engine.dfy` | class `Engine`: intensity, the fixed-timestep loop, the order of one update, deaths, the fake crash, deferred callbacks |

How the browser's inputs appear in the model:

- **Random draws.** Every `Math.random()` is a parameter of type `Unit`. The draws of one call are grouped in a record, such as `PlayerDraws` or `LevelDraws`.
- **Clock and keys.** `Date.now()` is the `now` field of the engine's per-update input, and the held keys are a set of key names.
- **Square root.** `Math.sqrt` is a parameter `sqrt: real -> real`, with nothing assumed about it. The near/far decision of the exit compares squared distances, which is exact.
- **Timers.** Each `setTimeout` callback is a value the operation returns: a `LevelTimer`, a `MetaTimer` or an engine `Timer`. Running it later is a method, `FireTimer`.
- **Platform reverts after a reset.** An invisibility revert holds the platform object it captured, and `reset` replaces every platform object with a fresh copy. A revert that fires after a reset therefore changes nothing on screen. The model expresses this with a level `epoch`, bumped by `Reset` and recorded in every platform revert.
- **Numbers.** Positions and velocities are `real`; colours are opaque values.

Components hold no back-reference to the engine. Each one takes the intensity, the canvas size or the player's position as parameters, and returns what the source would have asked of the engine: a death, a jump, a teleport, a major glitch or a timer. `GameEngine.Engine` performs those requests in the order the source makes them.

Where the code and its comments disagree, the model follows the code:

- **Time cap.** The time term is `min(gameTime / 120, 0.5)`, which saturates at 60 s, not at the commented "2 minutes".
- **Death cap.** The death term `min(deaths / 5, 0.5)` saturates from 3 deaths, not at the commented "5 deaths". So one minute without dying gives intensity 0.5 (`GameEngine.IntensityExamples`).
- **Collision resolution.** Resolution picks the side of minimum overlap, but acts only when the velocity points into that side. A player at (10, 490) falling at 5 onto the ground platform (0, 500, 300, 20) has its minimum overlap on the bottom side, and it is left unresolved (`PlayerPhysics.FallingOntoGroundIsNotResolved`).
- **Jitter interval ends.** A zero draw reaches the lower end of several jitters: the playback rate 1 − i/2, the frequency factor 1 − i/4, and the platform nudges −2.5i and −1.5i. Those intervals are therefore closed below and open above.

## Model

| member | source | states |
|---|---|---|
| Basics.PickIndex | js/meta.js:128-138 | `Math.floor(Math.random() * n)` is a valid index below n, for every draw in [0, 1) |
| PlayerPhysics.Steer | js/player.js:46-67 | each held arrow changes the horizontal velocity by exactly speed·dt; the vertical velocity and grounded flag change only for a held jump key while grounded, which sets (not adds) the jump force and clears the flag |
| PlayerPhysics.PhysicsDamps | js/player.js:69-82 | one physics step multiplies the horizontal velocity by 0.8 (strictly shrinking its magnitude, never flipping its sign), adds gravity 0.5 to the vertical velocity and clears the grounded flag |
| PlayerPhysics.CoastDecays | js/player.js:69-82 | with no input, n physics steps scale the horizontal velocity by exactly 0.8^n, a factor in (0, 1] |
| PlayerPhysics.Clamp | js/player.js:84-93 | after the boundary check 0 ≤ x ≤ width − 30 (for a canvas at least 30 wide); a player inside is unchanged; the horizontal velocity is zero whenever a clamp fired; nothing vertical changes |
| PlayerPhysics.Resolve | js/player.js:101-137 | a platform that does not strictly overlap changes nothing; at most one axis is corrected; any correction leaves the player outside the platform; the grounded flag is set only by a landing and never cleared |
| PlayerPhysics.ResolveCases | js/player.js:116-136 | the side with strictly the smallest overlap decides alone, whatever the order of the tests: the player snaps to that edge and loses that velocity component when moving into it, and nothing changes otherwise |
| PlayerPhysics.ResolveIdempotent | js/player.js:104-136 | a second pass against the same unchanged platform changes nothing |
| PlayerPhysics.FallingOntoGroundIsNotResolved | js/player.js:116-136 | the player (10, 490) falling at 5 onto (0, 500, 300, 20): the bottom overlap is the minimum and the overlap is left as it is |
| PlayerPhysics.ResolveAllClear | js/player.js:102-107 | when no platform overlaps the player, the whole collision pass changes nothing |
| PlayerPhysics.ResolveAllGrounds | js/player.js:102-138 | after the pass the player is grounded exactly when it was grounded before or some platform, met in order, caught it landing on its top |
| PlayerPhysics.GlitchColor | js/player.js:153-163 | at intensity ≤ 0.3 the colour is kept; above it, a hit of the intensity/100 roll gives an `rgb` colour with channels in [0, 254], a miss restores the original colour |
| PlayerPhysics.Impulse | js/player.js:167-168 | `(Math.random() - 0.5) * 10 * intensity` lies in [−5i, 5i) |
| PlayerPhysics.Shove | js/player.js:165-169 | the random force changes only the velocities, by less than 5·intensity per axis, and only above intensity 0.6 when the intensity/200 roll hits |
| PlayerPhysics.Player.constructor | js/player.js:7-30 | the player starts at (50, 300), at rest, not grounded, coloured `#3af` |
| PlayerPhysics.Player.HandleInput | js/player.js:46-67 | the new state is `Steer` of the old; the jump sound is due exactly when a jump key is held while grounded |
| PlayerPhysics.Player.ApplyPhysics | js/player.js:69-82 | the new state is `Physics` of the old; the colour is kept |
| PlayerPhysics.Player.CheckBoundaries | js/player.js:84-99 | the new state is `Clamp` of the old; the death signal is raised exactly when y > canvas height |
| PlayerPhysics.Player.CheckPlatformCollisions | js/player.js:101-139 | the loop resolves the player against each platform in array order: the new state is `ResolveAll` of the old |
| PlayerPhysics.Player.ResolveWith | js/player.js:104-137 | one turn of the platform loop: the new state is `Resolve` of the old against that platform; the colour is kept |
| PlayerPhysics.ExitOverlapSymmetric | js/player.js:141-147 | the exit test is strict AABB overlap: symmetric, and touching edges do not count |
| PlayerPhysics.Player.ApplyGlitchEffects | js/player.js:149-171 | colour by `GlitchColor`; above intensity 0.3 the state is shoved by `Shove`, otherwise unchanged |
| PlayerPhysics.Player.Update | js/player.js:32-44 | glitch hooks, input, physics and boundaries in that order: the new state is `Clamp(Physics(Steer(shoved)))`, with the jump and death signals |
| PlayerPhysics.Player.Reset | js/player.js:203-215 | the start position and colour, both velocities zero, not grounded |
| LevelCorruption.Shade | js/level.js:76-81 | the quiet background has channel value floor(17 + 30·intensity), in [17, 47] for intensity in [0, 1], green at half of it |
| LevelCorruption.BackgroundStep | js/level.js:60-81 | above 0.3 with the intensity/20 roll, a random dark colour (channels below 50, 30, 50); else the quiet shade; a white flash is scheduled exactly when that glitch fires above 0.7 and the 1/10 roll hits |
| LevelCorruption.Nudge | js/level.js:89-90 | `(Math.random() - 0.5) * intensity * k` lies in [−k·i/2, k·i/2) |
| LevelCorruption.Drift | js/level.js:87-99 | a platform moves only when the intensity/100 roll hits, by less than 2.5·intensity in x and 1.5·intensity in y; width and height never change; a new colour is an `rgb` colour with each channel in [50, 99], drawn independently |
| LevelCorruption.DriftColor | js/level.js:93-98 | each channel floor(50 + 50·draw) lies in [50, 99] |
| LevelCorruption.PlatformStep | js/level.js:85-110 | a platform goes transparent only above 0.6, for 300 to 1000 ms, saving exactly the colour it had after the drift |
| LevelCorruption.RevertRestoresSavedColor | js/level.js:102-110 | the invisibility revert gives back the drifted platform exactly |
| LevelCorruption.Evade | js/level.js:128-138 | the evading exit ends in [50, W − 50] × [50, H − 100] (for a canvas at least 100 × 150); only its position changes |
| LevelCorruption.Teleport | js/level.js:146-148 | a teleport lands in [50, W − 50) × [50, H − 100) (for a canvas larger than 100 × 150); only the position changes |
| LevelCorruption.Return | js/level.js:155-158 | in the far branch each offset from the origin becomes exactly 0.99 of itself |
| LevelCorruption.ReturnIsGeometric | js/level.js:155-158 | n far ticks leave exactly 0.99^n of each offset, a factor in (0, 1]: no jump, no overshoot |
| LevelCorruption.ExitStep | js/level.js:114-169 | near the player: evasion into the box when the direction is non-zero, colour kept or flickered green/red, teleport only above 0.7, never a vanish; far: the 0.99 ease back, colour kept unless it vanishes (only above 0.6, for 300 to 800 ms, saving its colour); size and origin never change |
| LevelCorruption.ExitStepStaysInBox | js/level.js:122-169 | an exit and origin inside the box stay inside after any step |
| LevelCorruption.RunExitStaysInBox | js/level.js:114-169 | any sequence of ticks, with any player positions and intensities, keeps the exit inside the box |
| LevelCorruption.Level.constructor | js/level.js:7-50 | `createLevel`: the six platforms and the exit, with their snapshot equal to them, and the `#111` background |
| LevelCorruption.Level.ApplyGlitchEffects | js/level.js:52-171 | background by `BackgroundStep`; at intensity ≤ 0.2 the platforms are unchanged, above it each is replaced by its `PlatformStep` and their number is kept; at intensity ≤ 0.4 the exit is unchanged, above it it follows `ExitStep`; every deferred revert is returned in the source's order |
| LevelCorruption.Level.CorruptPlatforms | js/level.js:84-111 | the `forEach` loop applies `PlatformStep` to each platform in place, in index order, and collects the reverts |
| LevelCorruption.Level.FireTimer | js/level.js:102-110 | a platform revert restores the saved colour of its platform unless a reset replaced the platforms since; the exit revert restores the exit's colour; the flash turns the background white and schedules the restore of the drawn colour 50 ms later |
| LevelCorruption.Level.Reset | js/level.js:195-208 | every platform equal to the snapshot, the exit's position and colour from the snapshot with its size untouched, the `#111` background |
| LevelCorruption.ResetTwice | js/level.js:195-208 | reset is idempotent: after two resets the platforms are the snapshot, the exit has its snapshot position and colour with its size kept, and the background is `#111`, the same state one reset gives; only the epoch counts both |
| Narrative.PickFrom | js/meta.js:128-138 | a random pick from a pool is a member of the pool |
| Narrative.RandomMessageIndex | js/meta.js:111-126 | the message index lies in [0, 4) below 0.3, in [4, 9) below 0.6 and in [9, 23) otherwise |
| Narrative.EventPool | js/meta.js:52-74 | each event has its own pool of five messages |
| Narrative.AmbientSkipsEarlyMessages | js/meta.js:84-86 | the ambient roll asks only above 0.3, so the early messages 0..3 are never drawn |
| Narrative.MetaManager.constructor | js/meta.js:7-18 | empty queue, no lock, zero counters |
| Narrative.MetaManager.QueueMessage | js/meta.js:140-142 | append at the tail, no deduplication; the FIFO invariant is kept |
| Narrative.MetaManager.ShowMessage | js/meta.js:144-170 | without a dialog box nothing changes; otherwise the lock is taken, the message shown, and its release scheduled after 5000 ms |
| Narrative.MetaManager.HideDialogBox | js/meta.js:166-169 | the timed release hides the box and frees the lock, and changes nothing else |
| Narrative.MetaManager.Update | js/meta.js:77-88 | at most one message is taken off the head, only while no message shows; without a dialog box it is dropped; above 0.3 and within the roll, one random message is appended |
| Narrative.MetaManager.TriggerEvent | js/meta.js:90-109 | each event bumps its own counter by one; a death queues a death message exactly when the new count is even; the other events always queue one from their own pool |
| Narrative.MetaManager.ShowRandomMessage | js/meta.js:111-126 | appends the intensity band's message |
| Narrative.DeathMessagesEverySecond | js/meta.js:92-97 | the every-second-death rule queues exactly floor(n/2) messages over n deaths counted from zero |
| Narrative.ReportDeaths | js/meta.js:92-97 | n calls of `triggerEvent('playerDeath')` raise the death count by n and append floor((d + n)/2) − floor(d/2) messages behind the old queue (floor(n/2) from zero) |
| Narrative.ThreeQueuedOneUpdate | js/meta.js:77-81 | three queued messages and one update leave the first shown, the other two queued, and the lock held |
| Narrative.LockedUpdate | js/meta.js:79-81 | while the lock is held an update shows nothing new: the text stays and nothing is dequeued |
| GlitchEffects.Dispatch | js/glitch.js:140-174 | the effect is the drawn index's; a fake crash is requested exactly for index 1 above 0.6; a creepy message exactly for index 2; with sound on, two glitch sounds exactly for index 4 with the trailing roll below 0.5, none exactly when neither index 4 nor the roll asks for one, one otherwise; none without sound |
| GlitchEffects.TriggerAll | js/glitch.js:130-136 | calling `triggerMajorGlitch` at each of a sequence of times fires exactly at the times `AcceptedTriggers` accepts, each decided by the same cooldown rule as one call |
| GlitchEffects.AcceptedTriggersSpaced | js/glitch.js:130-136 | under the cooldown any two consecutive accepted major glitches are at least 10000 ms apart, and the first one is 10000 ms after the last before |
| GlitchEffects.NoiseCount | js/glitch.js:75 | the streak count is at most 100, is 100 from intensity 0.1, and is floor(1000·i) below it |
| GlitchEffects.PixelSize | js/glitch.js:253 | the pixel size is at least 5, is 5 below intensity 0.6, and at most 10 for intensity ≤ 1 |
| GlitchEffects.ScanlineRows | js/glitch.js:120-128 | the loop visits rows 0, 4, 8, … strictly below the height: ceil(H/4) rows |
| GlitchEffects.GlitchManager.constructor | js/glitch.js:7-20 | zero magnitudes and last glitch time |
| GlitchEffects.GlitchManager.Update | js/glitch.js:22-34 | shake 5·i, colour shift floor(10·i) (0..10 for i in [0, 1]), noise 0.2·i; no major glitch is attempted at intensity ≤ 0.3; an attempt succeeds exactly when the cooldown has passed |
| GlitchEffects.GlitchManager.TriggerMajorGlitch | js/glitch.js:130-175 | inside the cooldown nothing changes; otherwise the time is recorded and the drawn effect dispatched |
| AudioDegradation.Clamp01 | js/audio.js:185 | the clamp lies in [0, 1], is the identity inside, and 0 / 1 outside |
| AudioDegradation.Turndown | js/audio.js:144 | `1 - Math.random() * intensity * 0.5` lies in (1 − i/2, 1] |
| AudioDegradation.Wobble | js/audio.js:153 | `1.0 + (Math.random() - 0.5) * intensity` lies in [1 − i/2, 1 + i/2) |
| AudioDegradation.Detune | js/audio.js:116 | `1 + (Math.random() - 0.5) * intensity * 0.5` lies in [1 − i/4, 1 + i/4) |
| AudioDegradation.VolumeFactor | js/audio.js:143-147 | the volume factor lies in (1 − i/2, 1] and is 1 when the roll misses |
| AudioDegradation.PlaybackRate | js/audio.js:150-157 | the rate is 1.0 unless intensity > 0.4 and the roll hits, and within half the intensity of 1 above 0.4 |
| AudioDegradation.FrequencyFactor | js/audio.js:114-117 | the factor is 1 at intensity ≤ 0.3 and within a quarter of the intensity of 1 above it |
| AudioDegradation.GlitchSound | js/audio.js:136-158 | below intensity 0.2 the sound is untouched; otherwise only its volume and rate change |
| AudioDegradation.JitteredVolumeBounds | js/audio.js:142-147 | the jittered volume lies in (v·(1 − i/2), v] and equals v when the roll misses |
| AudioDegradation.AudioManager.constructor | js/audio.js:7-55 | the five sounds at volume 0.5, only the ambient one looping, and a fallback tone exactly for the sounds whose source failed |
| AudioDegradation.AudioManager.PlaySound | js/audio.js:81-102 | nothing when muted or for an unknown name; otherwise the table is `Played` and the returned tone is `PlayedTone` |
| AudioDegradation.Played | js/audio.js:88-101 | only the played sound changes; it takes the jittered volume and the jittered playback rate; it is rewound and started when it has a source, and keeps its time and pause flag otherwise; its other fields are kept |
| AudioDegradation.PlayedTone | js/audio.js:90-101 | a sound with a source never falls back to its tone |
| AudioDegradation.OscillatorTone | js/audio.js:104-117 | there is a tone exactly when the sound has an oscillator, at its base frequency times the frequency factor |
| AudioDegradation.ToneBounds | js/audio.js:113-117 | the tone is the base frequency at intensity ≤ 0.3, and within a quarter of the intensity of it above |
| AudioDegradation.AudioManager.SetMuted | js/audio.js:174-182 | the flag takes the argument; muting stops every sound, unmuting plays the ambient sound |
| AudioDegradation.AudioManager.StopAllSounds | js/audio.js:164-172 | the loop pauses and rewinds every sound of the table |
| AudioDegradation.Stopped | js/audio.js:164-172 | the same names, every sound paused and at time 0 |
| AudioDegradation.AudioManager.SetVolume | js/audio.js:184-191 | the clamped volume is stored and the loop writes that same value to every sound |
| AudioDegradation.WithVolume | js/audio.js:188-190 | the same names, every sound at the given volume and otherwise unchanged |
| GameEngine.GlitchIntensity | js/engine.js:120-127 | for non-negative time the intensity lies in [0, 1]; it is at least 0.5 from 60 s, and from 3 deaths |
| GameEngine.IntensityMonotone | js/engine.js:123-126 | the intensity never decreases as time or deaths grow |
| GameEngine.IntensitySaturates | js/engine.js:123-126 | the intensity is exactly 1 from 60 s and 3 deaths on |
| GameEngine.IntensityExamples | js/engine.js:123-126 | 300 s and 10 deaths give 1; 60 s and no death give 0.5; 30 s and one death give 0.45 |
| GameEngine.StepsAreFloor | js/engine.js:63-67 | an accumulator between n and n + 1 steps holds floor(acc/step) = n steps |
| GameEngine.LevelTimers | js/level.js:102-110 | a conversion, not a rule of the source: each level timer becomes an engine timer wrapping it, one for one and in order |
| GameEngine.MetaTimers | js/meta.js:166-169 | a conversion, not a rule of the source: each dialog release becomes an engine timer wrapping it, one for one and in order |
| GameEngine.Engine.constructor | js/engine.js:7-46 | every component freshly allocated, the clock at zero, intensity 0, the start player and level, an empty queue, the looping ambient sound playing from time 0, sound enabled and the game running |
| GameEngine.Engine.UpdateGlitchIntensity | js/engine.js:120-127 | the stored intensity is `GlitchIntensity` of the play time and deaths |
| GameEngine.Engine.GameLoop | js/engine.js:48-74 | nothing changes while stopped; otherwise the first frame after a cleared clock has delta 0, play time grows by delta/1000, and for a non-negative total exactly floor((acc + delta)/step) updates run, leaving the accumulator in [0, step) |
| GameEngine.Engine.Update | js/engine.js:76-87 | player, level, collisions, glitches and messages in that order: death exactly when the moved player falls below the canvas, after which the level is reset; the platforms by `PlatformStep` above 0.2 and the exit by `ExitStep` above 0.4, around the player before collisions; the background by `BackgroundStep`; collisions against the new platforms; the exit reported exactly on strict overlap; the glitch magnitudes and the cooldown time; the game stops exactly when an accepted major glitch is a fake crash, which schedules its recovery; at most one message is shown, none while one already shows |
| GameEngine.Engine.PlayerStep | js/engine.js:78 | the player moves by its own rules; a fall counts one death, queues a death message exactly on an even count, and resets the player and the level (snapshot platforms, `#111` background, exit at its origin); without a fall the level is unchanged |
| GameEngine.Engine.LevelStep | js/engine.js:79 | the background follows `BackgroundStep`; above 0.2 each platform follows `PlatformStep`, else they are unchanged; above 0.4 the exit follows `ExitStep` around the player's new position |
| GameEngine.Engine.GlitchStep | js/engine.js:85-86 | the glitch magnitudes and cooldown time as one scheduler tick; the game stops exactly on an accepted fake crash; the message queue gains the glitch's creepy message, then loses its head to the display when no message shows, then gains the ambient one; the timers are the crash recovery and the dialog release, exactly when due |
| GameEngine.Engine.MajorGlitchStep | js/engine.js:85 | the scheduler tick: shake 5·i, colour shift floor(10·i), noise 0.2·i, the cooldown time by `NextGlitchTime`; an accepted glitch stops the game exactly for a fake crash, with its recovery timer, and queues its creepy message |
| GameEngine.Engine.CheckCollisions | js/engine.js:109-118 | the player is resolved against the current platforms, and `reachedExit` fires (with one exit message) exactly when the player strictly overlaps the exit |
| GameEngine.Engine.PlayerDied | js/engine.js:129-140 | the death count grows by exactly one, the narrative hears one death, then the player and the level are reset |
| GameEngine.Engine.ApplyMajorGlitch | js/glitch.js:147-174 | a requested fake crash stops the game and schedules its recovery; a requested creepy message is queued |
| GameEngine.Engine.FakeCrash | js/engine.js:155-165 | the game stops and the recovery is due after 3000 ms; nothing else changes |
| GameEngine.Engine.RecoverFromCrash | js/engine.js:166-174 | the game runs again with a cleared clock, and exactly one restart is reported, appending one restart message to the queue; the display lock and the shown-message history are kept |
| GameEngine.Engine.FireTimer | js/engine.js:166-174 | only a crash recovery restarts the game and reports a restart, appending its restart message while keeping the lock and history; a dialog release frees the lock and keeps the queue and history; neither touches the level; the clock, accumulated time and deaths never change |
| GameEngine.CrashThenRecover | js/engine.js:155-174 | a crash, a frame while stopped, the recovery and a frame after it: the play time is unchanged (the first frame has delta 0) and exactly one restart was reported |

## Left out

- Canvas drawing is not part of the model: `render`, `preRender`/`postRender`, screen shake, colour shift, static noise, scanline strokes, screen tear, colour inversion and pixelation. Only the counts and sizes computed before drawing are modelled (`NoiseCount`, `ScanlineRows`, `PixelSize`).
- Effect durations and restore timers are not modelled: the split position of the screen tear, and the invert/pixelate timers. They only affect pixels.
- DOM work is not modelled: the dialog box's inline style and its random offset, and the fake error overlay with its random position. `showMessage` is modelled as its lock, its text and its visibility.
- `requestAnimationFrame` is not modelled. `GameLoop` is one frame, called by whoever owns the frame clock.
- `toggleDebug` and `renderDebugInfo` are not modelled; they are display only.
- js/game.js and js/input.js are not part of this model. They hold the window listeners, the `localStorage` save and restore, and the delayed welcome-back message. Held keys are a set of key names passed in.
- `Audio` and WebAudio objects are not modelled: element creation, `play()`, oscillator start and stop, and the stop/replay timers of looped oscillators. A sound is a record of its volume, rate, loop flag, source flag, pause flag and time.
- The fallback from a rejected `play()` promise is not modelled. It is asynchronous and depends on the browser. Every sound has a source, so in the model the oscillator tone is reached only through `OscillatorTone`. It is proved bounded on its own (`ToneBounds`); the engine discards the returned tones.
- Which sounds get a fallback tone is a constructor parameter (`loadFailed`), and it over-approximates the code. As written, js/audio.js:37 sets every `src` before js/audio.js:59 tests `!src || error`, synchronously, so no sound gets a fallback tone. The model allows any subset of failed sounds, the empty one included.
- Floating point is not modelled: positions, velocities and times are exact reals. `Math.sqrt` is an unconstrained parameter, so only the clamp box of the evasion step is verified, not its direction.
- GameEngine.Engine.GameLoop: the components' state after the frame is not stated. It states the clock, the step count, the accumulator and the intensity, and it bounds the deaths by the steps. What one step does to the components is stated by `Update`, apart from what the next line lists.
- GameEngine.Engine.Update: it does not state the sound table, the exact contents of the message queue (only that at most one message is shown, and none while one shows), or the timers other than the crash recovery. `PlayerStep` and `GlitchStep` state the exact queue and the narrative's and crash timers. The level's revert and flash timers are stated by `LevelCorruption.Level.ApplyGlitchEffects`. No engine step states the sound table.
- GameEngine.Engine.LevelStep: the timers it returns and the teleport sound's effect on the sound table are not stated. The level's timers are stated by `LevelCorruption.Level.ApplyGlitchEffects`.
- GameEngine.Engine.ApplyMajorGlitch: the effect of the glitch sounds on the sound table is not stated.
- GameEngine.Engine.FireTimer: for a level timer it states only that at most one follow-up timer is scheduled. The revert itself is stated by `LevelCorruption.Level.FireTimer`.
- LevelCorruption.ExitStep: the box bounds of the near branch hold only when the computed distance is positive; with `length == 0` the source skips the evasion.
