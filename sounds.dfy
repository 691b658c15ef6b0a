/**
 * The sample player (`SoundManager`) of both sound modules of the app: preloaded
 * `Audio` elements keyed by name, one current loop, and a stepwise fade-out.
 * The two modules run the same code over different tables of sounds.
 */
module Sounds {
  import opened Wrappers

  /**
   * What the model keeps of one `Audio` element: its source, volume, loop flag,
   * playback position in seconds, and whether `play()` was requested since
   * the last `pause()`.
   */
  datatype Audio = Audio(src: string, volume: real, loop: bool, time: real, playing: bool)

  /**
   * A running `fadeOutLoop` interval: the sound it captured, the volume that
   * sound had when the fade began, the ticks done so far, and the tick period
   * in milliseconds.
   */
  datatype Fade = Fade(sound: string, startVolume: real, step: nat, stepTime: real)

  /** Number of ticks of a fade-out. */
  const FadeSteps: nat := 20

  /** The volume every `Audio` element is created with, and the manager's initial baseline. */
  const InitialVolume: real := 0.5

  function Max0(x: real): real {
    if x < 0.0 then 0.0 else x
  }

  /** Volume after tick `k` of a fade that began at `start`: `max(0, start - k * start / 20)`. */
  function FadeLevel(start: real, k: nat): real {
    Max0(start - (start / FadeSteps as real) * k as real)
  }

  /** The fade never leaves the range between silence and its start volume, and ends silent. */
  lemma FadeLevelBounds(start: real, k: nat)
    requires 0.0 <= start
    ensures 0.0 <= FadeLevel(start, k) <= start
    ensures k >= FadeSteps ==> FadeLevel(start, k) == 0.0
    ensures k < FadeSteps ==> FadeLevel(start, k) == start * (FadeSteps - k) as real / FadeSteps as real
  {
    var step := start / FadeSteps as real;
    assert step >= 0.0;
    assert step * k as real >= 0.0;
    if k >= FadeSteps {
      assert step * k as real >= step * FadeSteps as real;
    }
  }

  /** Each tick lowers the volume or keeps it at zero: the fade is non-increasing. */
  lemma FadeLevelNonIncreasing(start: real, j: nat, k: nat)
    requires 0.0 <= start && j <= k
    ensures FadeLevel(start, k) <= FadeLevel(start, j)
  {
    var step := start / FadeSteps as real;
    assert step >= 0.0;
    assert step * k as real >= step * j as real by {
      assert step * k as real - step * j as real == step * (k - j) as real;
    }
  }

  class SoundManager {
    var sounds: map<string, Audio>
    var currentLoop: Option<string>
    var enabled: bool
    var volume: real
    var fades: seq<Fade>

    ghost predicate Valid()
      reads this
    {
      && 0.0 <= volume <= 1.0
      && (forall k :: k in sounds ==> 0.0 <= sounds[k].volume <= 1.0)
      && (currentLoop.Some? ==> currentLoop.value in sounds)
      && (forall i :: 0 <= i < |fades| ==>
            fades[i].sound in sounds && fades[i].step < FadeSteps && 0.0 <= fades[i].startVolume <= 1.0)
    }

    /** The constructor with `preload`: one `Audio` per table entry, at the initial volume. */
    constructor (table: seq<(string, string)>)
      ensures Valid()
      ensures enabled && volume == InitialVolume && currentLoop == None && fades == []
      ensures sounds.Keys == Names(table)
      ensures forall k :: k in sounds ==> sounds[k] == Audio(UrlOf(table, k), InitialVolume, false, 0.0, false)
    {
      sounds := map[];
      currentLoop := None;
      enabled := true;
      volume := InitialVolume;
      fades := [];
      new;
      var n := 0;
      while n < |table|
        invariant 0 <= n <= |table|
        invariant Valid() && enabled && volume == InitialVolume && currentLoop == None && fades == []
        invariant sounds.Keys == set i | 0 <= i < n :: table[i].0
        invariant forall k :: k in sounds ==> sounds[k] == Audio(UrlOf(table[..n], k), InitialVolume, false, 0.0, false)
      {
        assert table[..n + 1][..n] == table[..n];
        sounds := sounds[table[n].0 := Audio(table[n].1, volume, false, 0.0, false)];
        n := n + 1;
      }
      assert table[..n] == table;
    }

    /** `setEnabled`: disabling also stops the current loop. */
    method SetEnabled(on: bool)
      requires Valid()
      modifies this
      ensures Valid() && enabled == on && volume == old(volume) && fades == old(fades)
      ensures !on && old(currentLoop).Some? ==>
                currentLoop == None && sounds == old(sounds)[old(currentLoop).value := Stopped(old(sounds)[old(currentLoop).value])]
      ensures on || old(currentLoop).None? ==> currentLoop == old(currentLoop) && sounds == old(sounds)
    {
      enabled := on;
      if !on && currentLoop.Some? {
        StopLoop();
      }
    }

    /** `setVolume`: the new baseline, applied to every preloaded sound. */
    method SetVolume(v: real)
      requires Valid() && 0.0 <= v <= 1.0
      modifies this
      ensures Valid() && volume == v
      ensures sounds.Keys == old(sounds.Keys)
      ensures forall k :: k in sounds ==> sounds[k] == old(sounds[k]).(volume := v)
      ensures currentLoop == old(currentLoop) && enabled == old(enabled) && fades == old(fades)
    {
      volume := v;
      var todo := sounds.Keys;
      while todo != {}
        invariant todo <= sounds.Keys && sounds.Keys == old(sounds.Keys)
        invariant forall k :: k in sounds && k !in todo ==> sounds[k] == old(sounds[k]).(volume := v)
        invariant forall k :: k in todo ==> sounds[k] == old(sounds[k])
        invariant Valid() && volume == v
        invariant currentLoop == old(currentLoop) && enabled == old(enabled) && fades == old(fades)
        decreases todo
      {
        var k :| k in todo;
        sounds := sounds[k := sounds[k].(volume := v)];
        todo := todo - {k};
      }
    }

    /** `play`: rewinds and starts a known sound; disabled or unknown names change nothing. */
    method Play(name: string)
      requires Valid()
      modifies this
      ensures Valid() && currentLoop == old(currentLoop) && enabled == old(enabled)
      ensures volume == old(volume) && fades == old(fades)
      ensures enabled && name in old(sounds) ==>
                sounds == old(sounds)[name := old(sounds)[name].(time := 0.0, playing := true)]
      ensures !enabled || name !in old(sounds) ==> sounds == old(sounds)
    {
      if !enabled {
        return;
      }
      if name in sounds {
        sounds := sounds[name := sounds[name].(time := 0.0, playing := true)];
      }
    }

    /**
     * `playLoop`: stops the current loop first, then loops the named sound from
     * the start and makes it the current loop. An unknown name leaves no loop.
     */
    method PlayLoop(name: string)
      requires Valid()
      modifies this
      ensures Valid() && enabled == old(enabled) && volume == old(volume) && fades == old(fades)
      ensures !enabled ==> currentLoop == old(currentLoop) && sounds == old(sounds)
      ensures enabled ==> currentLoop == (if name in old(sounds) then Some(name) else None)
      ensures enabled && name in old(sounds) ==>
                sounds[name] == AfterStop(old(sounds), old(currentLoop))[name].(loop := true, time := 0.0, playing := true)
      ensures sounds.Keys == old(sounds).Keys
      ensures enabled ==> forall k :: k in old(sounds) && k != name ==> sounds[k] == AfterStop(old(sounds), old(currentLoop))[k]
    {
      if !enabled {
        return;
      }
      StopLoop();
      if name in sounds {
        sounds := sounds[name := sounds[name].(loop := true, time := 0.0, playing := true)];
        currentLoop := Some(name);
      }
    }

    /** `stopLoop`: pauses, rewinds and un-loops the current loop, and forgets it; without one it does nothing. */
    method StopLoop()
      requires Valid()
      modifies this
      ensures Valid() && currentLoop == None
      ensures sounds == AfterStop(old(sounds), old(currentLoop))
      ensures enabled == old(enabled) && volume == old(volume) && fades == old(fades)
    {
      if currentLoop.Some? {
        var name := currentLoop.value;
        sounds := sounds[name := Stopped(sounds[name])];
        currentLoop := None;
      }
    }

    /**
     * `fadeOutLoop(duration)`: without a current loop it returns at once;
     * otherwise it starts an interval of 20 ticks, `duration / 20` ms apart,
     * on the current loop's sound.
     */
    method FadeOutLoop(duration: real)
      requires Valid()
      modifies this
      ensures Valid() && sounds == old(sounds) && currentLoop == old(currentLoop)
      ensures enabled == old(enabled) && volume == old(volume)
      ensures old(currentLoop).None? ==> fades == old(fades)
      ensures old(currentLoop).Some? ==>
                fades == old(fades) + [Fade(old(currentLoop).value, old(sounds)[old(currentLoop).value].volume, 0, duration / FadeSteps as real)]
    {
      if currentLoop.None? {
        return;
      }
      var name := currentLoop.value;
      fades := fades + [Fade(name, sounds[name].volume, 0, duration / FadeSteps as real)];
    }

    /**
     * One tick of the fade interval `i`: the captured sound's volume drops to
     * the next level. On the 20th tick the interval ends, `stopLoop` stops
     * whatever loop is current at that moment, and the faded sound gets the
     * baseline volume back.
     */
    method FadeStep(i: nat)
      requires Valid() && i < |fades|
      modifies this
      ensures Valid() && enabled == old(enabled) && volume == old(volume)
      ensures sounds.Keys == old(sounds).Keys
      ensures var f := old(fades)[i];
        if f.step + 1 < FadeSteps then
          && fades == old(fades)[i := f.(step := f.step + 1)]
          && currentLoop == old(currentLoop)
          && sounds == old(sounds)[f.sound := old(sounds)[f.sound].(volume := FadeLevel(f.startVolume, f.step + 1))]
        else
          && fades == old(fades)[..i] + old(fades)[i + 1..]
          && currentLoop == None
          && sounds[f.sound] == AfterStop(old(sounds), old(currentLoop))[f.sound].(volume := volume)
          && forall k :: k in sounds && k != f.sound ==> sounds[k] == AfterStop(old(sounds), old(currentLoop))[k]
    {
      var f := fades[i];
      var step := f.step + 1;
      FadeLevelBounds(f.startVolume, step);
      sounds := sounds[f.sound := sounds[f.sound].(volume := FadeLevel(f.startVolume, step))];
      if step >= FadeSteps {
        fades := fades[..i] + fades[i + 1..];
        StopLoop();
        sounds := sounds[f.sound := sounds[f.sound].(volume := volume)];
      } else {
        fades := fades[i := f.(step := step)];
      }
    }
  }

  /** An element after `pause()`, `currentTime = 0` and `loop = false`. */
  function Stopped(a: Audio): (r: Audio)
    ensures !r.playing && !r.loop && r.time == 0.0 && r.volume == a.volume && r.src == a.src
  {
    a.(playing := false, time := 0.0, loop := false)
  }

  /** The sounds after `stopLoop` with the given current loop. */
  function AfterStop(sounds: map<string, Audio>, current: Option<string>): (r: map<string, Audio>)
    requires current.Some? ==> current.value in sounds
    ensures r.Keys == sounds.Keys
    ensures forall k :: k in r && (current.None? || k != current.value) ==> r[k] == sounds[k]
    ensures current.Some? ==> r[current.value] == Stopped(sounds[current.value])
  {
    if current.Some? then sounds[current.value := Stopped(sounds[current.value])] else sounds
  }

  /**
   * A loop faded out over its twenty ticks ends paused, rewound and no longer
   * looping, with no current loop, no fade left and the baseline volume back.
   */
  method FadeEndsLoop(m: SoundManager, name: string, duration: real)
    requires m.Valid() && m.enabled && name in m.sounds && m.fades == []
    modifies m
    ensures m.Valid() && m.currentLoop == None && m.fades == []
    ensures name in m.sounds && !m.sounds[name].playing && !m.sounds[name].loop && m.sounds[name].time == 0.0
    ensures m.sounds[name].volume == m.volume == old(m.volume)
  {
    m.PlayLoop(name);
    m.FadeOutLoop(duration);
    var k := 0;
    while k < FadeSteps - 1
      invariant 0 <= k <= FadeSteps - 1
      invariant m.Valid() && m.currentLoop == Some(name) && m.volume == old(m.volume)
      invariant |m.fades| == 1 && m.fades[0].sound == name && m.fades[0].step == k
    {
      m.FadeStep(0);
      k := k + 1;
    }
    m.FadeStep(0);
  }

  /** `SOUNDS` of the main app's sound module: nature loops, chakra tones and interface chimes. */
  const AppSounds: seq<(string, string)> := [
    ("gentlerain", "/sounds/gentlerain.mp3"),
    ("forestbirds", "/sounds/forestbirds.mp3"),
    ("gentlewind", "/sounds/gentlewind.mp3"),
    ("oceanwaves", "/sounds/oceanwaves.mp3"),
    ("nightcrickets", "/sounds/nightcrickets.mp3"),
    ("fireplace", "/sounds/fireplace.mp3"),
    ("crown", "/sounds/7th-Crown-963Hz.mp3"),
    ("thirdeye", "/sounds/6th-ThirdEye-852Hz.mp3"),
    ("throat", "/sounds/5th-Throat-741Hz.mp3"),
    ("heart", "/sounds/4th-Heart-639Hz.mp3"),
    ("solar", "/sounds/3rd-Solar-528Hz.mp3"),
    ("sacral", "/sounds/2nd-Sacral-417Hz.mp3"),
    ("root", "/sounds/1st-Crown-396Hz.mp3"),
    ("welcome", "/sounds/7th-Crown-963Hz.mp3"),
    ("success", "/sounds/6th-ThirdEye-852Hz.mp3")
  ]

  /** `SOUND_NAMES` of the main app's sound module. */
  const AppSoundNames: seq<string> := [
    "gentlerain", "forestbirds", "gentlewind", "oceanwaves", "nightcrickets", "fireplace",
    "crown", "thirdeye", "throat", "heart", "solar", "sacral", "root", "welcome", "success"
  ]

  /** `SOUNDS` of the breathing app's sound module: one loop per breathing exercise, plus chimes. */
  const PazSounds: seq<(string, string)> := [
    ("welcome", "https://assets.mixkit.co/active_storage/sfx/2515/2515-preview.mp3"),
    ("relaxing", "https://assets.mixkit.co/active_storage/sfx/1252/1252-preview.mp3"),
    ("energizing", "https://assets.mixkit.co/active_storage/sfx/2827/2827-preview.mp3"),
    ("box", "https://assets.mixkit.co/active_storage/sfx/189/189-preview.mp3"),
    ("sleep", "https://assets.mixkit.co/active_storage/sfx/1251/1251-preview.mp3"),
    ("success", "https://assets.mixkit.co/active_storage/sfx/2190/2190-preview.mp3")
  ]

  /** `SOUND_NAMES` of the breathing app's sound module. */
  const PazSoundNames: seq<string> := ["welcome", "relaxing", "energizing", "box", "sleep", "success"]

  /**
   * The source of the element preloaded under `name`: the last table entry
   * with that name, as a later key of an object literal replaces an earlier one.
   */
  function UrlOf(table: seq<(string, string)>, name: string): string {
    if table == [] then ""
    else if table[|table| - 1].0 == name then table[|table| - 1].1
    else UrlOf(table[..|table| - 1], name)
  }

  /** The names a table preloads. */
  function Names(table: seq<(string, string)>): set<string> {
    set i | 0 <= i < |table| :: table[i].0
  }

  /** Every exported name of the main app's module is a preloaded sound, so `play` of it resolves. */
  lemma AppSoundNamesResolve()
    ensures forall n :: n in AppSoundNames ==> n in Names(AppSounds)
  {
    forall n | n in AppSoundNames ensures n in Names(AppSounds) {
      var i :| 0 <= i < |AppSoundNames| && AppSoundNames[i] == n;
      assert AppSounds[i].0 == n;
    }
  }

  /** Every exported name of the breathing app's module is a preloaded sound. */
  lemma PazSoundNamesResolve()
    ensures forall n :: n in PazSoundNames ==> n in Names(PazSounds)
  {
    forall n | n in PazSoundNames ensures n in Names(PazSounds) {
      var i :| 0 <= i < |PazSoundNames| && PazSoundNames[i] == n;
      assert PazSounds[i].0 == n;
    }
  }
}
