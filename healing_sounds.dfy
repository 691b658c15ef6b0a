/**
 * The healing-sounds page: one sound active at a time, chosen from the
 * healing-sounds table; tones go to the shared tone generator, nature
 * sounds to a looping audio element the page owns.
 */
module HealingSoundsPage {
  import opened Wrappers
  import opened HzGenerator
  import Sounds

  /** What a tap on an entry of a section starts. */
  datatype Action = Beat(baseHz: real, beatHz: real) | Tone(hz: real) | Loop(url: string) | Nothing

  /** The generator call (or audio element) the section of an entry decides on. */
  function DispatchOf(c: Category, s: HealingSound): (r: Action)
    ensures c == Binaural && s.hz.Some? && s.baseHz.Some? ==> r == Beat(s.baseHz.value as real, s.hz.value as real)
    ensures (c == Hertz || c == Chakra) && s.hz.Some? ==> r == Tone(s.hz.value as real)
    ensures c == Nature && s.url.Some? ==> r == Loop(s.url.value)
  {
    match c
    case Binaural => if s.hz.Some? && s.baseHz.Some? then Beat(s.baseHz.value as real, s.hz.value as real) else Nothing
    case Hertz => if s.hz.Some? then Tone(s.hz.value as real) else Nothing
    case Chakra => if s.hz.Some? then Tone(s.hz.value as real) else Nothing
    case Nature => if s.url.Some? then Loop(s.url.value) else Nothing
  }

  /**
   * Every entry of the table dispatches to a real player call: binaural
   * beats over a 200 Hz carrier with a positive beat, positive tones, or a
   * nature url.
   */
  lemma TableDispatches(c: Category, i: nat)
    requires i < |SoundsOf(c)|
    ensures var r := DispatchOf(c, SoundsOf(c)[i]);
      match c
      case Binaural => r.Beat? && r.baseHz == 200.0 && r.beatHz > 0.0
      case Hertz => r.Tone? && r.hz > 0.0
      case Chakra => r.Tone? && r.hz > 0.0
      case Nature => r.Loop?
  {
    HealingSoundsPlayable(c, i);
  }

  /** A slider position 0..100 as a gain 0..1. */
  function SliderGain(v: int): (r: real)
    requires 0 <= v <= 100
    ensures 0.0 <= r <= 1.0
    ensures r * 100.0 == v as real
  {
    v as real / 100.0
  }

  /** The nature element after `pause()` and `currentTime = 0`. */
  function Rewound(a: Sounds.Audio): (r: Sounds.Audio)
    ensures !r.playing && r.time == 0.0 && r.src == a.src && r.volume == a.volume && r.loop == a.loop
  {
    a.(playing := false, time := 0.0)
  }

  class HealingSoundsPage {
    /** The shared tone generator. */
    const gen: ToneGenerator
    var activeSound: Option<string>
    var activeCategory: Option<Category>
    /** The slider position, 0..100. */
    var volume: int
    /** The looping nature element, while one is referenced. */
    var natureAudio: Option<Sounds.Audio>
    /** The nature elements the page let go of, in their final state. */
    var released: seq<Sounds.Audio>

    ghost predicate Valid()
      reads this, gen
    {
      && gen.Valid()
      && 0 <= volume <= 100
      && (activeSound.Some? <==> activeCategory.Some?)
      && (natureAudio.Some? ==> activeCategory == Some(Nature))
      && (activeCategory == Some(Binaural) || activeCategory == Some(Hertz) || activeCategory == Some(Chakra) ==> gen.isPlaying)
    }

    /** Mounting the page: nothing active, slider at 30, which the volume effect applies to the generator. */
    constructor (g: ToneGenerator)
      requires g.Valid()
      modifies g
      ensures Valid() && gen == g
      ensures activeSound == None && activeCategory == None && natureAudio == None && released == []
      ensures volume == 30 && g.volume == SliderGain(30)
      ensures g.oscillators == old(g.oscillators) && g.isPlaying == old(g.isPlaying) && g.teardowns == old(g.teardowns)
      ensures g.nextId == old(g.nextId) && g.hasGain == old(g.hasGain)
    {
      gen := g;
      activeSound := None;
      activeCategory := None;
      volume := 30;
      natureAudio := None;
      released := [];
      new;
      g.SetVolume(SliderGain(30));
    }

    /**
     * `stopAll`: stop the generator, pause and rewind the nature element and
     * let it go, and clear the active sound and category.
     */
    method StopAll()
      requires Valid()
      modifies this, gen
      ensures Valid() && activeSound == None && activeCategory == None && natureAudio == None
      ensures released == old(released) + (if old(natureAudio).Some? then [Rewound(old(natureAudio).value)] else [])
      ensures !gen.isPlaying && gen.oscillators == old(gen.oscillators) && gen.nextId == old(gen.nextId)
      ensures gen.volume == old(gen.volume) && gen.hasGain == old(gen.hasGain) && gen.gain == old(gen.gain)
      ensures old(gen.hasGain && gen.isPlaying) ==> gen.teardowns == old(gen.teardowns) + [Teardown(Ids(old(gen.oscillators)))]
      ensures !old(gen.hasGain && gen.isPlaying) ==> gen.teardowns == old(gen.teardowns)
      ensures volume == old(volume)
    {
      gen.Stop();
      if natureAudio.Some? {
        released := released + [Rewound(natureAudio.value)];
        natureAudio := None;
      }
      activeSound := None;
      activeCategory := None;
    }

    /**
     * `handlePlay` for entry `s` of section `c`: a tap on the active sound
     * stops everything; any other tap stops everything and, with sound
     * enabled, makes the entry active and starts what its section dispatches.
     */
    method HandlePlay(c: Category, s: HealingSound, soundEnabled: bool)
      requires Valid() && Playable(c, s)
      modifies this, gen
      ensures Valid() && volume == old(volume) && gen.volume == old(gen.volume)
      ensures old(activeSound) == Some(s.id) || !soundEnabled ==>
                activeSound == None && activeCategory == None && natureAudio == None && !gen.isPlaying
                && gen.oscillators == old(gen.oscillators)
      ensures old(activeSound) != Some(s.id) && soundEnabled ==>
                activeSound == Some(s.id) && activeCategory == Some(c)
      ensures old(activeSound) != Some(s.id) && soundEnabled ==>
                match DispatchOf(c, s)
                case Beat(baseHz, beatHz) =>
                  gen.isPlaying && natureAudio == None &&
                  gen.oscillators == old(gen.oscillators) + [Oscillator(old(gen.nextId), baseHz, Panned(-1)),
                                                             Oscillator(old(gen.nextId) + 1, baseHz + beatHz, Panned(1))]
                case Tone(hz) =>
                  gen.isPlaying && natureAudio == None &&
                  gen.oscillators == old(gen.oscillators) + [Oscillator(old(gen.nextId), hz, Direct)]
                case Loop(url) =>
                  !gen.isPlaying && gen.oscillators == old(gen.oscillators) &&
                  natureAudio == Some(Sounds.Audio(url, SliderGain(volume), true, 0.0, true))
                case Nothing => true
      ensures gen.teardowns == old(gen.teardowns) +
                (if old(gen.hasGain && gen.isPlaying) then [Teardown(Ids(old(gen.oscillators)))] else [])
      ensures gen.nextId == old(gen.nextId) + |gen.oscillators| - |old(gen.oscillators)|
      ensures old(activeSound) != Some(s.id) && soundEnabled && (DispatchOf(c, s).Beat? || DispatchOf(c, s).Tone?) ==>
                gen.hasGain && gen.gain == (if old(gen.hasGain) then old(gen.gain) else gen.volume)
      ensures old(activeSound) == Some(s.id) || !soundEnabled || DispatchOf(c, s).Loop? ==>
                gen.hasGain == old(gen.hasGain) && gen.gain == old(gen.gain)
      ensures released == old(released) + (if old(natureAudio).Some? then [Rewound(old(natureAudio).value)] else [])
    {
      if activeSound == Some(s.id) {
        StopAll();
        return;
      }
      StopAll();
      if !soundEnabled {
        return;
      }
      StartSound(c, s);
    }

    /** The second half of `handlePlay`, once everything is stopped: the entry becomes active and its section's player starts. */
    method StartSound(c: Category, sound: HealingSound)
      requires Valid() && Playable(c, sound) && natureAudio == None && !gen.isPlaying
      modifies this, gen
      ensures Valid() && volume == old(volume) && gen.volume == old(gen.volume) && released == old(released)
      ensures gen.teardowns == old(gen.teardowns)
      ensures gen.nextId == old(gen.nextId) + |gen.oscillators| - |old(gen.oscillators)|
      ensures DispatchOf(c, sound).Beat? || DispatchOf(c, sound).Tone? ==>
        gen.hasGain && gen.gain == (if old(gen.hasGain) then old(gen.gain) else gen.volume)
      ensures DispatchOf(c, sound).Loop? ==> gen.hasGain == old(gen.hasGain) && gen.gain == old(gen.gain)
      ensures activeSound == Some(sound.id) && activeCategory == Some(c)
      ensures match DispatchOf(c, sound)
        case Beat(baseHz, beatHz) =>
          gen.isPlaying && natureAudio == None &&
          gen.oscillators == old(gen.oscillators) + [Oscillator(old(gen.nextId), baseHz, Panned(-1)),
                                                     Oscillator(old(gen.nextId) + 1, baseHz + beatHz, Panned(1))]
        case Tone(hz) =>
          gen.isPlaying && natureAudio == None &&
          gen.oscillators == old(gen.oscillators) + [Oscillator(old(gen.nextId), hz, Direct)]
        case Loop(url) =>
          gen.isPlaying == old(gen.isPlaying) && gen.oscillators == old(gen.oscillators) &&
          natureAudio == Some(Sounds.Audio(url, SliderGain(volume), true, 0.0, true))
        case Nothing => true
    {
      activeSound := Some(sound.id);
      activeCategory := Some(c);
      match c
      case Binaural =>
        gen.PlayBinauralBeat(sound.baseHz.value as real, sound.hz.value as real);
      case Hertz =>
        gen.PlayFrequency(sound.hz.value as real);
      case Chakra =>
        gen.PlayFrequency(sound.hz.value as real);
      case Nature =>
        natureAudio := Some(Sounds.Audio(sound.url.value, SliderGain(volume), true, 0.0, true));
    }

    /** The slider moves to `v`: the volume effect applies `v / 100` to the generator and to the nature element. */
    method SetSliderVolume(v: int)
      requires Valid() && 0 <= v <= 100
      modifies this, gen
      ensures Valid() && volume == v && gen.volume == SliderGain(v)
      ensures natureAudio == (if old(natureAudio).Some? then Some(old(natureAudio).value.(volume := SliderGain(v))) else None)
      ensures activeSound == old(activeSound) && activeCategory == old(activeCategory) && released == old(released)
      ensures gen.oscillators == old(gen.oscillators) && gen.isPlaying == old(gen.isPlaying) && gen.teardowns == old(gen.teardowns)
    {
      volume := v;
      gen.SetVolume(SliderGain(v));
      if natureAudio.Some? {
        natureAudio := Some(natureAudio.value.(volume := SliderGain(v)));
      }
    }

    /** The unmount cleanup: stop the generator, pause the nature element (no rewind) and let it go. */
    method Unmount()
      requires Valid()
      modifies this, gen
      ensures natureAudio == None && !gen.isPlaying && gen.oscillators == old(gen.oscillators)
      ensures gen.teardowns == old(gen.teardowns) +
                (if old(gen.hasGain && gen.isPlaying) then [Teardown(Ids(old(gen.oscillators)))] else [])
      ensures gen.hasGain == old(gen.hasGain) && gen.gain == old(gen.gain) && gen.volume == old(gen.volume)
      ensures released == old(released) + (if old(natureAudio).Some? then [old(natureAudio).value.(playing := false)] else [])
      ensures activeSound == old(activeSound) && activeCategory == old(activeCategory) && volume == old(volume)
    {
      gen.Stop();
      if natureAudio.Some? {
        released := released + [natureAudio.value.(playing := false)];
        natureAudio := None;
      }
    }
  }

  /**
   * As written, on the page: tap one tone, then another. The second tap's
   * `stopAll` schedules a teardown of the first tone, and when it fires it
   * stops the second tone too, while the page still shows that tone active.
   */
  method SwitchTapsThenTeardown() returns (active: Option<string>, sounding: seq<Oscillator>)
    ensures active == Some("winddown") && sounding == []
  {
    var g := new ToneGenerator();
    var page := new HealingSoundsPage(g);
    var first, second := SoundsOf(Hertz)[0], SoundsOf(Hertz)[1];
    HealingSoundsPlayable(Hertz, 0);
    HealingSoundsPlayable(Hertz, 1);
    page.HandlePlay(Hertz, first, true);
    page.HandlePlay(Hertz, second, true);
    g.FireTeardown(0);
    active, sounding := page.activeSound, g.oscillators;
  }

  /** The same taps with the corrected teardown: the second tone keeps sounding. */
  method SwitchTapsThenOwnTeardown() returns (active: Option<string>, sounding: seq<Oscillator>)
    ensures active == Some("winddown") && sounding == [Oscillator(1, 132.0, Direct)]
  {
    var g := new ToneGenerator();
    var page := new HealingSoundsPage(g);
    var first, second := SoundsOf(Hertz)[0], SoundsOf(Hertz)[1];
    HealingSoundsPlayable(Hertz, 0);
    HealingSoundsPlayable(Hertz, 1);
    page.HandlePlay(Hertz, first, true);
    assert g.oscillators == [Oscillator(0, 74.0, Direct)];
    assert Ids(g.oscillators) == {0};
    page.HandlePlay(Hertz, second, true);
    var both := [Oscillator(0, 74.0, Direct), Oscillator(1, 132.0, Direct)];
    assert g.oscillators == both && g.teardowns == [Teardown({0})];
    assert Without(both, {0}) == [Oscillator(1, 132.0, Direct)] by {
      assert both[1..] == [Oscillator(1, 132.0, Direct)];
      assert both[1..][1..] == [];
    }
    g.FireOwnTeardown(0);
    active, sounding := page.activeSound, g.oscillators;
  }
}
