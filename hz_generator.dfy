/**
 * The tone generator behind the healing sounds: sine oscillators routed
 * through one shared gain stage, a single tone or a binaural pair at a time,
 * and a stop that ramps the gain down and tears the oscillators down 500 ms
 * later.
 */
module HzGenerator {
  import opened Wrappers

  /** How an oscillator reaches the gain stage: straight, or through a stereo panner. */
  datatype Routing = Direct | Panned(pan: int)

  /** A started sine oscillator; `id` tells apart two oscillators at the same frequency. */
  datatype Oscillator = Oscillator(id: nat, hz: real, routing: Routing)

  /** A pending 500 ms teardown callback, with the ids of the oscillators listed when `stop()` scheduled it. */
  datatype Teardown = Teardown(listed: set<nat>)

  /** The baseline volume a new generator starts with. */
  const InitialVolume: real := 0.3

  /** The ids of a list of oscillators. */
  function Ids(oscs: seq<Oscillator>): (r: set<nat>)
    ensures forall o :: o in oscs ==> o.id in r
    ensures forall id :: id in r ==> exists o :: o in oscs && o.id == id
  {
    set o | o in oscs :: o.id
  }

  /** The oscillators of `oscs` whose id is not in `ids`, in their order. */
  function Without(oscs: seq<Oscillator>, ids: set<nat>): (r: seq<Oscillator>)
    ensures forall o :: o in r <==> o in oscs && o.id !in ids
    ensures |r| <= |oscs|
  {
    if oscs == [] then []
    else (if oscs[0].id in ids then [] else [oscs[0]]) + Without(oscs[1..], ids)
  }

  class ToneGenerator {
    /** Whether `init` has created the audio context and the shared gain stage. */
    var hasGain: bool
    /** The gain stage's value as last assigned directly (the ramps are kept apart, in `ramps`). */
    var gain: real
    /** The baseline volume the gain returns to after a teardown. */
    var volume: real
    var oscillators: seq<Oscillator>
    var isPlaying: bool
    /** Teardown callbacks scheduled by `stop()` that have not fired yet. */
    var teardowns: seq<Teardown>
    /** How many fade-out ramps `stop()` has scheduled on the gain stage. */
    var ramps: nat
    /** The oscillators stopped and disconnected so far, in the order it happened. */
    var silenced: seq<Oscillator>
    /** The id the next oscillator gets. */
    var nextId: nat

    ghost predicate Valid()
      reads this
    {
      && (!hasGain ==> oscillators == [] && !isPlaying && teardowns == [])
      && (forall o :: o in oscillators ==> o.id < nextId)
    }

    constructor ()
      ensures Valid() && !hasGain && volume == InitialVolume && !isPlaying
      ensures oscillators == [] && teardowns == [] && silenced == [] && ramps == 0 && nextId == 0
    {
      hasGain := false;
      gain := 0.0;
      volume := InitialVolume;
      oscillators := [];
      isPlaying := false;
      teardowns := [];
      ramps := 0;
      silenced := [];
      nextId := 0;
    }

    /** `init`: the gain stage is created once, at the baseline volume; later calls keep it. */
    method Init()
      requires Valid()
      modifies this
      ensures Valid() && hasGain
      ensures old(hasGain) ==> gain == old(gain)
      ensures !old(hasGain) ==> gain == volume
      ensures volume == old(volume) && oscillators == old(oscillators) && isPlaying == old(isPlaying)
      ensures teardowns == old(teardowns) && ramps == old(ramps) && silenced == old(silenced) && nextId == old(nextId)
    {
      if !hasGain {
        hasGain := true;
        gain := volume;
      }
    }

    /** `setVolume`: a new baseline, applied to the gain stage at once when it exists. */
    method SetVolume(v: real)
      requires Valid()
      modifies this
      ensures Valid() && volume == v
      ensures gain == (if hasGain then v else old(gain))
      ensures hasGain == old(hasGain) && oscillators == old(oscillators) && isPlaying == old(isPlaying)
      ensures teardowns == old(teardowns) && ramps == old(ramps) && silenced == old(silenced) && nextId == old(nextId)
    {
      volume := v;
      if hasGain {
        gain := v;
      }
    }

    /**
     * `stop()`: always leaves `isPlaying` false. Only when a gain stage exists
     * and a tone is playing does it ramp the gain down and schedule a teardown;
     * the oscillators themselves stay listed until that teardown fires.
     */
    method Stop()
      requires Valid()
      modifies this
      ensures Valid() && !isPlaying
      ensures old(hasGain && isPlaying) ==>
                teardowns == old(teardowns) + [Teardown(Ids(old(oscillators)))] && ramps == old(ramps) + 1
      ensures !old(hasGain && isPlaying) ==> teardowns == old(teardowns) && ramps == old(ramps)
      ensures hasGain == old(hasGain) && gain == old(gain) && volume == old(volume)
      ensures oscillators == old(oscillators) && silenced == old(silenced) && nextId == old(nextId)
    {
      if hasGain && isPlaying {
        ramps := ramps + 1;
        teardowns := teardowns + [Teardown(Ids(oscillators))];
      }
      isPlaying := false;
    }

    /**
     * `playFrequency(hz)`: stop, init, then one more sine oscillator at `hz`,
     * connected straight to the gain stage. The frequency is not checked.
     */
    method PlayFrequency(hz: real)
      requires Valid()
      modifies this
      ensures Valid() && hasGain && isPlaying && volume == old(volume)
      ensures oscillators == old(oscillators) + [Oscillator(old(nextId), hz, Direct)] && nextId == old(nextId) + 1
      ensures old(hasGain && isPlaying) ==> teardowns == old(teardowns) + [Teardown(Ids(old(oscillators)))]
      ensures !old(hasGain && isPlaying) ==> teardowns == old(teardowns)
      ensures gain == (if old(hasGain) then old(gain) else volume)
      ensures silenced == old(silenced)
    {
      Stop();
      Init();
      oscillators := oscillators + [Oscillator(nextId, hz, Direct)];
      nextId := nextId + 1;
      isPlaying := true;
    }

    /**
     * `playBinauralBeat(baseHz, beatHz)`: stop, init, then two more sine
     * oscillators: `baseHz` panned hard left and `baseHz + beatHz` panned hard right.
     */
    method PlayBinauralBeat(baseHz: real, beatHz: real)
      requires Valid()
      modifies this
      ensures Valid() && hasGain && isPlaying && volume == old(volume)
      ensures oscillators == old(oscillators) +
                [Oscillator(old(nextId), baseHz, Panned(-1)), Oscillator(old(nextId) + 1, baseHz + beatHz, Panned(1))]
      ensures nextId == old(nextId) + 2
      ensures old(hasGain && isPlaying) ==> teardowns == old(teardowns) + [Teardown(Ids(old(oscillators)))]
      ensures !old(hasGain && isPlaying) ==> teardowns == old(teardowns)
      ensures gain == (if old(hasGain) then old(gain) else volume)
      ensures silenced == old(silenced)
    {
      Stop();
      Init();
      var left := Oscillator(nextId, baseHz, Panned(-1));
      var right := Oscillator(nextId + 1, baseHz + beatHz, Panned(1));
      oscillators := oscillators + [left, right];
      nextId := nextId + 2;
      isPlaying := true;
    }

    /**
     * The teardown callback `i` fires, as written: it reads the oscillator list
     * at firing time, so it also stops any oscillator started after the `stop()`
     * that scheduled it. The list ends empty and the gain is back at the
     * baseline; `isPlaying` is left as it is.
     */
    method FireTeardown(i: nat)
      requires Valid() && i < |teardowns|
      modifies this
      ensures Valid() && oscillators == []
      ensures silenced == old(silenced) + old(oscillators)
      ensures teardowns == old(teardowns)[..i] + old(teardowns)[i + 1..]
      ensures gain == (if hasGain then volume else old(gain))
      ensures isPlaying == old(isPlaying) && hasGain == old(hasGain) && volume == old(volume) && nextId == old(nextId)
    {
      var out := silenced;
      var k := 0;
      while k < |oscillators|
        invariant 0 <= k <= |oscillators|
        invariant out == silenced + oscillators[..k]
      {
        out := out + [oscillators[k]];
        k := k + 1;
      }
      assert oscillators[..k] == oscillators;
      silenced := out;
      oscillators := [];
      if hasGain {
        gain := volume;
      }
      teardowns := teardowns[..i] + teardowns[i + 1..];
    }

    /**
     * The teardown callback `i` as evidently intended: it stops only the
     * oscillators that were listed when `stop()` scheduled it, so a tone
     * started inside the 500 ms window keeps sounding.
     */
    method FireOwnTeardown(i: nat)
      requires Valid() && i < |teardowns|
      modifies this
      ensures Valid()
      ensures oscillators == Without(old(oscillators), old(teardowns)[i].listed)
      ensures silenced == old(silenced) + Only(old(oscillators), old(teardowns)[i].listed)
      ensures teardowns == old(teardowns)[..i] + old(teardowns)[i + 1..]
      ensures gain == (if hasGain then volume else old(gain))
      ensures isPlaying == old(isPlaying) && hasGain == old(hasGain) && volume == old(volume) && nextId == old(nextId)
    {
      var kept, out := Partition(oscillators, teardowns[i].listed);
      silenced := silenced + out;
      oscillators := kept;
      if hasGain {
        gain := volume;
      }
      teardowns := teardowns[..i] + teardowns[i + 1..];
    }
  }

  /**
   * The teardown's `forEach` as evidently intended: one pass over the list
   * that sets aside the oscillators it was scheduled for and keeps the rest.
   */
  method Partition(oscs: seq<Oscillator>, ids: set<nat>) returns (kept: seq<Oscillator>, out: seq<Oscillator>)
    ensures kept == Without(oscs, ids) && out == Only(oscs, ids)
  {
    kept, out := [], [];
    var k := 0;
    while k < |oscs|
      invariant 0 <= k <= |oscs|
      invariant kept == Without(oscs[..k], ids)
      invariant out == Only(oscs[..k], ids)
    {
      WithoutAppend(oscs[..k], oscs[k], ids);
      OnlyAppend(oscs[..k], oscs[k], ids);
      assert oscs[..k + 1] == oscs[..k] + [oscs[k]];
      if oscs[k].id in ids {
        out := out + [oscs[k]];
      } else {
        kept := kept + [oscs[k]];
      }
      k := k + 1;
    }
    assert oscs[..k] == oscs;
  }

  /** The oscillators of `oscs` whose id is in `ids`, in their order. */
  function Only(oscs: seq<Oscillator>, ids: set<nat>): (r: seq<Oscillator>)
    ensures forall o :: o in r <==> o in oscs && o.id in ids
  {
    if oscs == [] then []
    else (if oscs[0].id in ids then [oscs[0]] else []) + Only(oscs[1..], ids)
  }

  lemma {:induction false} WithoutAppend(oscs: seq<Oscillator>, o: Oscillator, ids: set<nat>)
    ensures Without(oscs + [o], ids) == Without(oscs, ids) + (if o.id in ids then [] else [o])
  {
    if oscs != [] {
      assert (oscs + [o])[0] == oscs[0];
      assert (oscs + [o])[1..] == oscs[1..] + [o];
      WithoutAppend(oscs[1..], o, ids);
    }
  }

  lemma {:induction false} OnlyAppend(oscs: seq<Oscillator>, o: Oscillator, ids: set<nat>)
    ensures Only(oscs + [o], ids) == Only(oscs, ids) + (if o.id in ids then [o] else [])
  {
    if oscs != [] {
      assert (oscs + [o])[0] == oscs[0];
      assert (oscs + [o])[1..] == oscs[1..] + [o];
      OnlyAppend(oscs[1..], o, ids);
    }
  }

  /**
   * Switching tones as written: play 440 Hz, then 528 Hz; when the teardown
   * scheduled by the second call's `stop()` fires, the 528 Hz tone is stopped
   * too, and the generator still claims to be playing with no oscillator left.
   */
  method SwitchToneThenTeardown() returns (playing: bool, sounding: seq<Oscillator>, silenced: seq<Oscillator>)
    ensures playing && sounding == []
    ensures silenced == [Oscillator(0, 440.0, Direct), Oscillator(1, 528.0, Direct)]
  {
    var g := new ToneGenerator();
    g.PlayFrequency(440.0);
    g.PlayFrequency(528.0);
    assert g.oscillators == [Oscillator(0, 440.0, Direct), Oscillator(1, 528.0, Direct)];
    g.FireTeardown(0);
    playing, sounding, silenced := g.isPlaying, g.oscillators, g.silenced;
  }

  /**
   * The same switch with the corrected teardown: only the 440 Hz tone is
   * stopped, and the 528 Hz tone keeps sounding.
   */
  method SwitchToneThenOwnTeardown() returns (playing: bool, sounding: seq<Oscillator>, silenced: seq<Oscillator>)
    ensures playing && sounding == [Oscillator(1, 528.0, Direct)]
    ensures silenced == [Oscillator(0, 440.0, Direct)]
  {
    var g := new ToneGenerator();
    g.PlayFrequency(440.0);
    assert Ids(g.oscillators) == {0};
    g.PlayFrequency(528.0);
    assert g.teardowns == [Teardown({0})];
    var both := [Oscillator(0, 440.0, Direct), Oscillator(1, 528.0, Direct)];
    assert g.oscillators == both;
    assert Without(both, {0}) == [Oscillator(1, 528.0, Direct)] by {
      assert both[1..] == [Oscillator(1, 528.0, Direct)];
      assert both[1..][1..] == [];
    }
    assert Only(both, {0}) == [Oscillator(0, 440.0, Direct)] by {
      assert both[1..] == [Oscillator(1, 528.0, Direct)];
      assert both[1..][1..] == [];
    }
    g.FireOwnTeardown(0);
    playing, sounding, silenced := g.isPlaying, g.oscillators, g.silenced;
  }

  /** The four sections of the healing-sounds table. */
  datatype Category = Binaural | Hertz | Chakra | Nature

  /** An entry of `HEALING_SOUNDS`: tones carry `hz` (and `baseHz` for binaural beats), nature sounds a `url`. */
  datatype HealingSound = HealingSound(id: string, hz: Option<int>, baseHz: Option<int>, url: Option<string>)

  /** The `sounds` list of a section of `HEALING_SOUNDS`. */
  function SoundsOf(c: Category): seq<HealingSound> {
    match c
    case Binaural => [
      HealingSound("delta", Some(5), Some(200), None),
      HealingSound("theta", Some(9), Some(200), None),
      HealingSound("alpha", Some(11), Some(200), None)]
    case Hertz => [
      HealingSound("restoration", Some(74), None, None),
      HealingSound("winddown", Some(132), None, None),
      HealingSound("harmony", Some(144), None, None),
      HealingSound("grounding", Some(432), None, None)]
    case Chakra => [
      HealingSound("root", Some(396), None, None),
      HealingSound("sacral", Some(417), None, None),
      HealingSound("solar", Some(528), None, None),
      HealingSound("heart", Some(639), None, None),
      HealingSound("throat", Some(741), None, None),
      HealingSound("third_eye", Some(852), None, None),
      HealingSound("crown", Some(963), None, None)]
    case Nature => [
      HealingSound("rain", None, None, Some("https://assets.mixkit.co/active_storage/sfx/1252/1252-preview.mp3")),
      HealingSound("waves", None, None, Some("https://assets.mixkit.co/active_storage/sfx/189/189-preview.mp3")),
      HealingSound("fireplace", None, None, Some("https://assets.mixkit.co/active_storage/sfx/2827/2827-preview.mp3")),
      HealingSound("crickets", None, None, Some("https://assets.mixkit.co/active_storage/sfx/1251/1251-preview.mp3")),
      HealingSound("forest", None, None, Some("https://assets.mixkit.co/active_storage/sfx/526/526-preview.mp3")),
      HealingSound("wind", None, None, Some("https://assets.mixkit.co/active_storage/sfx/2432/2432-preview.mp3"))]
  }

  /** What an entry needs for its section's player: a positive beat over 200 Hz, a positive tone, or a url. */
  predicate Playable(c: Category, s: HealingSound) {
    match c
    case Binaural => s.baseHz == Some(200) && s.hz.Some? && s.hz.value > 0
    case Hertz => s.hz.Some? && s.hz.value > 0
    case Chakra => s.hz.Some? && s.hz.value > 0
    case Nature => s.url.Some?
  }

  /** Every entry of the table carries what its section's player reads. */
  lemma HealingSoundsPlayable(c: Category, i: nat)
    requires i < |SoundsOf(c)|
    ensures Playable(c, SoundsOf(c)[i])
  {
  }

  /** Any entry of a section's table carries what that section's player reads. */
  lemma EntryPlayable(c: Category, s: HealingSound)
    requires s in SoundsOf(c)
    ensures Playable(c, s)
  {
    var j :| 0 <= j < |SoundsOf(c)| && SoundsOf(c)[j] == s;
    HealingSoundsPlayable(c, j);
  }
}
