/** Audio degradation: the sound table, the master volume and mute flag, and
    the random jitter the game applies to every sound it plays. */
module AudioDegradation {
  import opened Basics

  /** The oscillator stand-in of a sound without a usable source: its base
      frequency in Hz and its duration in seconds. */
  datatype Oscillator = Oscillator(frequency: real, duration: real)

  /** The state of one audio element the game keeps in its table. */
  datatype Sound = Sound(volume: real, playbackRate: real, loop: bool, hasSrc: bool,
                         paused: bool, currentTime: real, oscillator: Option<Oscillator>)

  /** The draws of one `playSound`: the volume roll and amount, the rate roll
      and amount, and the frequency jitter of the oscillator fallback. */
  datatype SoundDraws = SoundDraws(volumeRoll: Unit, volumeAmount: Unit, rateRoll: Unit,
                                   rateAmount: Unit, frequency: Unit)

  /** The sounds `initSounds` creates, with the fallback tones of
      `createPlaceholderAudio`. */
  const SoundNames: set<string> := {"jump", "death", "glitch", "exit", "ambient"}

  function ToneOf(name: string): Oscillator
  {
    if name == "jump" then Oscillator(200.0, 0.1)
    else if name == "death" then Oscillator(100.0, 0.3)
    else if name == "glitch" then Oscillator(50.0, 0.2)
    else if name == "exit" then Oscillator(300.0, 0.2)
    else Oscillator(80.0, 1.0)
  }

  /** `Math.max(0, Math.min(1, volume))`. */
  function Clamp01(v: real): (c: real)
    ensures 0.0 <= c <= 1.0
    ensures 0.0 <= v <= 1.0 ==> c == v
    ensures v < 0.0 ==> c == 0.0
    ensures v > 1.0 ==> c == 1.0
  {
    Max(0.0, Min(1.0, v))
  }

  /** `1 - Math.random() * intensity * 0.5`: a turn-down by less than half
      the intensity. */
  function Turndown(r: Unit, intensity: real): (k: real)
    requires intensity > 0.0
    ensures 1.0 - 0.5 * intensity < k <= 1.0
  {
    ScaledDraw(r, intensity);
    1.0 - r * intensity * 0.5
  }

  /** `1.0 + (Math.random() - 0.5) * intensity`: within half the intensity
      of 1 (the lower end is reached at a zero draw). */
  function Wobble(r: Unit, intensity: real): (rate: real)
    requires intensity > 0.0
    ensures 1.0 - 0.5 * intensity <= rate < 1.0 + 0.5 * intensity
  {
    ScaledDraw(r, intensity);
    1.0 + (r - 0.5) * intensity
  }

  /** `1 + (Math.random() - 0.5) * intensity * 0.5`: within a quarter of the
      intensity of 1. */
  function Detune(r: Unit, intensity: real): (k: real)
    requires intensity > 0.0
    ensures 1.0 - 0.25 * intensity <= k < 1.0 + 0.25 * intensity
  {
    ScaledDraw(r, intensity);
    1.0 + (r - 0.5) * intensity * 0.5
  }

  /** The volume factor of `applyGlitchToSound`: below the roll's threshold
      intensity/5 the sound is turned down by up to half the intensity. */
  function VolumeFactor(intensity: real, d: SoundDraws): (k: real)
    requires intensity > 0.0
    ensures 1.0 - 0.5 * intensity < k <= 1.0
    ensures d.volumeRoll >= intensity * 0.2 ==> k == 1.0
  {
    if d.volumeRoll < intensity * 0.2 then Turndown(d.volumeAmount, intensity) else 1.0
  }

  /** The playback rate of `applyGlitchToSound`: 1.0 unless the intensity is
      above 0.4 and the roll hits, then within half the intensity of 1.0. */
  function PlaybackRate(intensity: real, d: SoundDraws): (rate: real)
    ensures !(intensity > 0.4 && d.rateRoll < intensity * 0.3) ==> rate == 1.0
    ensures intensity > 0.4 ==> 1.0 - 0.5 * intensity <= rate < 1.0 + 0.5 * intensity
  {
    if intensity > 0.4 && d.rateRoll < intensity * 0.3 then Wobble(d.rateAmount, intensity) else 1.0
  }

  /** The frequency factor of `playOscillatorSound`: above intensity 0.3,
      within a quarter of the intensity of 1. */
  function FrequencyFactor(intensity: real, r: Unit): (k: real)
    ensures intensity <= 0.3 ==> k == 1.0
    ensures intensity > 0.3 ==> 1.0 - 0.25 * intensity <= k < 1.0 + 0.25 * intensity
  {
    if intensity > 0.3 then Detune(r, intensity) else 1.0
  }

  /** `applyGlitchToSound` on one sound, for the manager's volume `volume`. */
  function GlitchSound(s: Sound, volume: real, intensity: real, d: SoundDraws): (t: Sound)
    ensures intensity < 0.2 ==> t == s
    ensures intensity >= 0.2 ==>
              && t == s.(volume := t.volume, playbackRate := t.playbackRate)
              && t.volume == volume * VolumeFactor(intensity, d)
              && t.playbackRate == PlaybackRate(intensity, d)
  {
    if intensity < 0.2 then s
    else s.(volume := volume * VolumeFactor(intensity, d), playbackRate := PlaybackRate(intensity, d))
  }

  /** The jittered volume lies in (volume * (1 - intensity/2), volume], and
      equals the volume when the roll misses. */
  lemma JitteredVolumeBounds(s: Sound, volume: real, intensity: real, d: SoundDraws)
    requires volume > 0.0 && intensity >= 0.2
    ensures var t := GlitchSound(s, volume, intensity, d);
            && volume * (1.0 - 0.5 * intensity) < t.volume <= volume
            && (d.volumeRoll >= intensity * 0.2 ==> t.volume == volume)
  {
    var k := VolumeFactor(intensity, d);
    var lo := 1.0 - 0.5 * intensity;
    assert volume * lo < volume * k by {
      assert volume * k - volume * lo == volume * (k - lo);
      assert k - lo > 0.0;
    }
    assert volume * k <= volume * 1.0 by {
      assert volume * 1.0 - volume * k == volume * (1.0 - k);
      assert 1.0 - k >= 0.0;
    }
  }

  class AudioManager {
    var sounds: map<string, Sound>
    var muted: bool
    var volume: real

    /** The master volume stays in [0, 1] and the table keeps its names. */
    ghost predicate Valid()
      reads this
    {
      0.0 <= volume <= 1.0 && sounds.Keys == SoundNames
    }

    /** `initSounds`: every sound gets the default volume and its source;
        a sound whose source reports an error at creation (`loadFailed`)
        also gets its oscillator tone. Only the ambient sound loops. */
    constructor (loadFailed: set<string>)
      ensures Valid() && !muted && volume == 0.5
      ensures forall n :: n in sounds ==>
                sounds[n] == Sound(0.5, 1.0, n == "ambient", true, true, 0.0,
                                   if n in loadFailed then Some(ToneOf(n)) else None)
    {
      muted := false;
      volume := 0.5;
      sounds := map n | n in SoundNames ::
                  Sound(0.5, 1.0, n == "ambient", true, true, 0.0,
                        if n in loadFailed then Some(ToneOf(n)) else None);
    }

    /** `playSound`: nothing when muted or when the name is unknown; else
        jitter the sound, then rewind and play it, or fall back to its
        oscillator tone, whose jittered frequency is returned. */
    method PlaySound(name: string, intensity: real, d: SoundDraws) returns (tone: Option<real>)
      requires Valid()
      modifies this
      ensures Valid() && muted == old(muted) && volume == old(volume)
      ensures old(muted) || name !in old(sounds) ==> sounds == old(sounds) && tone.None?
      ensures !old(muted) && name in old(sounds) ==>
                sounds == Played(old(sounds), name, volume, intensity, d)
                && tone == PlayedTone(old(sounds)[name], volume, intensity, d)
    {
      tone := None;
      if muted {
        return;
      }
      if name !in sounds {
        return;
      }
      var t := GlitchSound(sounds[name], volume, intensity, d);
      if t.hasSrc {
        sounds := sounds[name := t.(currentTime := 0.0, paused := false)];
      } else {
        sounds := sounds[name := t];
        tone := OscillatorTone(t, intensity, d.frequency);
      }
    }

    /** `setMuted`: muting stops and rewinds everything; unmuting restarts
        the ambient sound. */
    method SetMuted(m: bool, intensity: real, d: SoundDraws) returns (tone: Option<real>)
      requires Valid()
      modifies this
      ensures Valid() && muted == m && volume == old(volume)
      ensures m ==> sounds == Stopped(old(sounds)) && tone.None?
      ensures !m ==> sounds == Played(old(sounds), "ambient", volume, intensity, d)
                     && tone == PlayedTone(old(sounds)["ambient"], volume, intensity, d)
    {
      muted := m;
      tone := None;
      if m {
        StopAllSounds();
      } else {
        tone := PlaySound("ambient", intensity, d);
      }
    }

    /** `stopAllSounds`: pause and rewind every sound of the table. */
    method StopAllSounds()
      requires Valid()
      modifies this
      ensures Valid() && muted == old(muted) && volume == old(volume)
      ensures sounds == Stopped(old(sounds))
    {
      var pending := sounds.Keys;
      while pending != {}
        invariant pending <= sounds.Keys && sounds.Keys == old(sounds).Keys
        invariant Valid() && muted == old(muted) && volume == old(volume)
        invariant forall n :: n in sounds && n in pending ==> sounds[n] == old(sounds)[n]
        invariant forall n :: n in sounds && n !in pending ==>
                    sounds[n] == old(sounds)[n].(paused := true, currentTime := 0.0)
        decreases pending
      {
        var n :| n in pending;
        sounds := sounds[n := sounds[n].(paused := true, currentTime := 0.0)];
        pending := pending - {n};
      }
    }

    /** `setVolume`: store the clamped volume and write it to every sound. */
    method SetVolume(v: real)
      requires Valid()
      modifies this
      ensures Valid() && muted == old(muted)
      ensures volume == Clamp01(v)
      ensures sounds == WithVolume(old(sounds), Clamp01(v))
    {
      volume := Clamp01(v);
      var pending := sounds.Keys;
      while pending != {}
        invariant pending <= sounds.Keys && sounds.Keys == old(sounds).Keys
        invariant Valid() && muted == old(muted) && volume == Clamp01(v)
        invariant forall n :: n in sounds && n in pending ==> sounds[n] == old(sounds)[n]
        invariant forall n :: n in sounds && n !in pending ==> sounds[n] == old(sounds)[n].(volume := volume)
        decreases pending
      {
        var n :| n in pending;
        sounds := sounds[n := sounds[n].(volume := volume)];
        pending := pending - {n};
      }
    }
  }

  /** The table after a sound is played: jittered, then rewound and started
      when it has a source, or left for its oscillator otherwise. */
  function Played(m: map<string, Sound>, name: string, volume: real, intensity: real, d: SoundDraws)
    : (r: map<string, Sound>)
    requires name in m
    ensures r.Keys == m.Keys
    ensures forall n :: n in m && n != name ==> r[n] == m[n]
    ensures r[name].volume == GlitchSound(m[name], volume, intensity, d).volume
    ensures r[name].playbackRate == GlitchSound(m[name], volume, intensity, d).playbackRate
    ensures r[name] == m[name].(volume := r[name].volume, playbackRate := r[name].playbackRate,
                                currentTime := r[name].currentTime, paused := r[name].paused)
    ensures r[name].hasSrc ==> r[name].currentTime == 0.0 && !r[name].paused
    ensures !r[name].hasSrc ==> r[name].currentTime == m[name].currentTime && r[name].paused == m[name].paused
  {
    var t := GlitchSound(m[name], volume, intensity, d);
    m[name := if t.hasSrc then t.(currentTime := 0.0, paused := false) else t]
  }

  /** The oscillator tone a played sound falls back to, if any. */
  function PlayedTone(s: Sound, volume: real, intensity: real, d: SoundDraws): (tone: Option<real>)
    ensures s.hasSrc ==> tone.None?
  {
    var t := GlitchSound(s, volume, intensity, d);
    if t.hasSrc then None else OscillatorTone(t, intensity, d.frequency)
  }

  /** `playOscillatorSound`: no tone without an oscillator; otherwise the
      base frequency with the intensity's jitter. */
  function OscillatorTone(s: Sound, intensity: real, r: Unit): (tone: Option<real>)
    ensures s.oscillator.None? <==> tone.None?
    ensures tone.Some? ==> tone.value == s.oscillator.value.frequency * FrequencyFactor(intensity, r)
  {
    match s.oscillator
    case None => None
    case Some(o) => Some(o.frequency * FrequencyFactor(intensity, r))
  }

  /** The tone stays within a quarter of the intensity of its base frequency
      above intensity 0.3, and is the base frequency otherwise. */
  lemma ToneBounds(s: Sound, intensity: real, r: Unit)
    requires s.oscillator.Some? && s.oscillator.value.frequency > 0.0
    ensures var f := s.oscillator.value.frequency;
            var t := OscillatorTone(s, intensity, r).value;
            && (intensity <= 0.3 ==> t == f)
            && (intensity > 0.3 ==> f * (1.0 - 0.25 * intensity) <= t < f * (1.0 + 0.25 * intensity))
  {
    var f := s.oscillator.value.frequency;
    var k := FrequencyFactor(intensity, r);
    if intensity > 0.3 {
      var lo := 1.0 - 0.25 * intensity;
      var hi := 1.0 + 0.25 * intensity;
      assert f * lo <= f * k by {
        assert f * k - f * lo == f * (k - lo);
        assert k - lo >= 0.0;
      }
      assert f * k < f * hi by {
        assert f * hi - f * k == f * (hi - k);
        assert hi - k > 0.0;
      }
    }
  }

  /** Every sound paused and rewound. */
  function Stopped(m: map<string, Sound>): (r: map<string, Sound>)
    ensures r.Keys == m.Keys
    ensures forall n :: n in r ==> r[n].paused && r[n].currentTime == 0.0
  {
    map n | n in m :: m[n].(paused := true, currentTime := 0.0)
  }

  /** Every sound at volume v. */
  function WithVolume(m: map<string, Sound>, v: real): (r: map<string, Sound>)
    ensures r.Keys == m.Keys
    ensures forall n :: n in r ==> r[n].volume == v && r[n] == m[n].(volume := v)
  {
    map n | n in m :: m[n].(volume := v)
  }
}
