/**
 * The breathing page: an exercise table, a chain of phase timers that walks
 * the exercise's phase order cycle by cycle, and the start / reset handlers
 * with the effect that starts a chain and cleans up after it.
 */
module Breathe {
  import opened Wrappers
  import Sounds

  datatype Phase = Inhale | Hold | Exhale | HoldEmpty

  datatype ExerciseId = Relaxing | Energizing | Square | Sleep

  /** The phase durations in ms (`holdEmpty` only where the exercise defines it) and the cycle count. */
  datatype Exercise = Exercise(inhale: nat, hold: nat, exhale: nat, holdEmpty: Option<nat>, cycles: nat)

  /** The key of an exercise in `EXERCISES`, which is also the name of its loop in the sound module. */
  function Key(id: ExerciseId): string {
    match id
    case Relaxing => "relaxing"
    case Energizing => "energizing"
    case Square => "box"
    case Sleep => "sleep"
  }

  /** `EXERCISES`. */
  function ExerciseOf(id: ExerciseId): Exercise {
    match id
    case Relaxing => Exercise(4000, 4000, 6000, None, 4)
    case Energizing => Exercise(4000, 2000, 4000, None, 6)
    case Square => Exercise(4000, 4000, 4000, Some(4000), 4)
    case Sleep => Exercise(4000, 7000, 8000, None, 3)
  }

  /** Whether `exercise.phases.holdEmpty` is truthy: present and not 0. */
  predicate DefinesHoldEmpty(ex: Exercise) {
    ex.holdEmpty.Some? && ex.holdEmpty.value != 0
  }

  /** The order of phases in one cycle, fixed when a chain starts. */
  function PhaseOrder(ex: Exercise): (r: seq<Phase>)
    ensures r == [Inhale, Hold, Exhale, HoldEmpty] <==> DefinesHoldEmpty(ex)
    ensures r == [Inhale, Hold, Exhale] <==> !DefinesHoldEmpty(ex)
  {
    if DefinesHoldEmpty(ex) then [Inhale, Hold, Exhale, HoldEmpty] else [Inhale, Hold, Exhale]
  }

  /** `exercise.phases[phase]`: the delay before a phase advances (a missing entry reads as no delay). */
  function Duration(ex: Exercise, p: Phase): nat {
    match p
    case Inhale => ex.inhale
    case Hold => ex.hold
    case Exhale => ex.exhale
    case HoldEmpty => ex.holdEmpty.GetOr(0)
  }

  /** Every exercise waits a positive time in each of its phases, runs at least one cycle, and has a loop to play. */
  lemma ExerciseFacts(id: ExerciseId)
    ensures var ex := ExerciseOf(id); ex.cycles >= 1 && forall p :: p in PhaseOrder(ex) ==> Duration(ex, p) > 0
    ensures Key(id) in Sounds.Names(Sounds.PazSounds)
  {
    match id
    case Relaxing => assert Sounds.PazSounds[1].0 == Key(id);
    case Energizing => assert Sounds.PazSounds[2].0 == Key(id);
    case Square => assert Sounds.PazSounds[3].0 == Key(id);
    case Sleep => assert Sounds.PazSounds[4].0 == Key(id);
  }

  /**
   * One timer callback's update of the chain's `(currentPhaseIndex,
   * currentCycle)`: the next phase of the cycle, or the first phase of the
   * next cycle after the last one.
   */
  function NextPosition(len: nat, pos: (nat, nat)): (r: (nat, nat))
    requires 0 < len && pos.0 < len
    ensures r.0 < len
    ensures pos.0 + 1 < len ==> r == (pos.0 + 1, pos.1)
    ensures pos.0 + 1 == len ==> r == (0, pos.1 + 1)
  {
    if pos.0 + 1 >= len then (0, pos.1 + 1) else (pos.0 + 1, pos.1)
  }

  /** The position after `n` timer callbacks of a chain, from `(0, 0)`. */
  function Positions(len: nat, n: nat): (r: (nat, nat))
    requires 0 < len
    ensures r.0 < len
  {
    if n == 0 then (0, 0) else NextPosition(len, Positions(len, n - 1))
  }

  /** After `n` callbacks a chain is at phase `i` of cycle `c` with `n == c * len + i`. */
  lemma {:induction false} PositionsCount(len: nat, n: nat)
    requires 0 < len
    ensures Positions(len, n).1 * len + Positions(len, n).0 == n
  {
    if n > 0 {
      PositionsCount(len, n - 1);
      var prev := Positions(len, n - 1);
      if prev.0 + 1 == len {
        assert (prev.1 + 1) * len == prev.1 * len + len;
      }
    }
  }

  lemma MulMonotone(a: nat, b: nat, len: nat)
    requires a <= b
    ensures a * len <= b * len
  {
    assert b * len - a * len == (b - a) * len;
  }

  /**
   * A chain enters its `(n + 1)`-th phase exactly when `n < cycles * len`:
   * it runs `cycles * len` phases and completes on the callback after the last.
   */
  lemma CompletionPoint(len: nat, cycles: nat, n: nat)
    requires 0 < len
    ensures Positions(len, n).1 < cycles <==> n < cycles * len
  {
    PositionsCount(len, n);
    var pos := Positions(len, n);
    if pos.1 < cycles {
      MulMonotone(pos.1 + 1, cycles, len);
      assert (pos.1 + 1) * len == pos.1 * len + len;
    } else {
      MulMonotone(cycles, pos.1, len);
    }
  }

  /**
   * A pending phase timer: the chain it belongs to (the id of the chain's
   * first timer), the chain's position, how many callbacks the chain has run,
   * and the delay it was scheduled with.
   */
  datatype Timer = Timer(id: nat, run: nat, ex: ExerciseId, index: nat, cycle: nat, entered: nat, delay: nat)

  /** The phase order of a timer's exercise. */
  function OrderOf(t: Timer): seq<Phase> {
    PhaseOrder(ExerciseOf(t.ex))
  }

  /** The pending timers without the one with id `id` (`clearTimeout`). */
  function Cancel(timers: seq<Timer>, id: nat): (r: seq<Timer>)
    ensures forall t :: t in r <==> t in timers && t.id != id
  {
    if timers == [] then []
    else (if timers[0].id == id then [] else [timers[0]]) + Cancel(timers[1..], id)
  }

  /** The pending timers without those of chain `run`. */
  function CancelRun(timers: seq<Timer>, run: nat): (r: seq<Timer>)
    ensures forall t :: t in r <==> t in timers && t.run != run
  {
    if timers == [] then []
    else (if timers[0].run == run then [] else [timers[0]]) + CancelRun(timers[1..], run)
  }

  /** The effect cleanup: `clearTimeout` of the handle the effect kept, if any. */
  function Cleanup(timers: seq<Timer>, handle: Option<nat>): (r: seq<Timer>)
    ensures handle.None? ==> r == timers
    ensures handle.Some? ==> forall t :: t in r <==> t in timers && t.id != handle.value
  {
    if handle.Some? then Cancel(timers, handle.value) else timers
  }

  /** The first timer of a chain for `id`, with id `next`: the first phase, waiting its own duration. */
  function FirstTimer(next: nat, id: ExerciseId): Timer {
    Timer(next, next, id, 0, 0, 0, Duration(ExerciseOf(id), PhaseOrder(ExerciseOf(id))[0]))
  }

  /** A pending timer agrees with the chain that scheduled it. */
  ghost predicate WellFormed(t: Timer) {
    var ex := ExerciseOf(t.ex);
    var order := PhaseOrder(ex);
    && t.index < |order|
    && (t.index, t.cycle) == Positions(|order|, t.entered)
    && t.cycle < ex.cycles
    && t.delay == Duration(ex, order[t.index])
    && t.run <= t.id
  }

  /**
   * A pending timer belongs to a chain that has entered fewer than
   * `cycles * |order|` phases: no chain runs past its exercise's length.
   */
  lemma PendingTimerBound(t: Timer)
    requires WellFormed(t)
    ensures t.entered < ExerciseOf(t.ex).cycles * |OrderOf(t)|
  {
    CompletionPoint(|OrderOf(t)|, ExerciseOf(t.ex).cycles, t.entered);
  }

  /** Firing the timer of a chain's `(n + 1)`-th phase completes the session exactly when `n + 1 == cycles * len`. */
  lemma FiringCompletes(t: Timer)
    requires WellFormed(t)
    ensures NextPosition(|OrderOf(t)|, (t.index, t.cycle)).1 >= ExerciseOf(t.ex).cycles
            <==> t.entered + 1 == ExerciseOf(t.ex).cycles * |OrderOf(t)|
  {
    PendingTimerBound(t);
    CompletionPoint(|OrderOf(t)|, ExerciseOf(t.ex).cycles, t.entered + 1);
  }

  class BreathingSession {
    var selected: Option<ExerciseId>
    var isActive: bool
    var isComplete: bool
    var phase: Phase
    var cycle: nat
    /** The phase timers not yet fired or cleared. */
    var timers: seq<Timer>
    /** The handle the effect returned to its cleanup: the first timer of the chain it started. */
    var effectTimer: Option<nat>
    var nextId: nat
    /** The breathing app's sound module. */
    const player: Sounds.SoundManager

    ghost predicate Valid()
      reads this, player
    {
      && player.Valid()
      && Sounds.Names(Sounds.PazSounds) <= player.sounds.Keys
      && (forall t :: t in timers ==> WellFormed(t) && t.id < nextId)
      && (effectTimer.Some? ==> effectTimer.value < nextId)
    }

    /** Whether the effect's dependencies (`isActive`, `isComplete`, the exercise) differ from the given ones. */
    predicate DepsChanged(wasActive: bool, wasComplete: bool, wasSelected: Option<ExerciseId>)
      reads this
    {
      isActive != wasActive || isComplete != wasComplete || selected != wasSelected
    }

    constructor (p: Sounds.SoundManager)
      requires p.Valid() && Sounds.Names(Sounds.PazSounds) <= p.sounds.Keys
      ensures Valid() && player == p
      ensures selected == None && !isActive && !isComplete && phase == Inhale && cycle == 0
      ensures timers == [] && effectTimer == None && nextId == 0
    {
      player := p;
      selected := None;
      isActive := false;
      isComplete := false;
      phase := Inhale;
      cycle := 0;
      timers := [];
      effectTimer := None;
      nextId := 0;
    }

    /**
     * The effect after a render: when a dependency changed, the previous
     * cleanup clears the one handle it kept, and, if the session is active,
     * not complete and has an exercise, a new chain enters its first phase
     * and its first timer becomes the kept handle.
     */
    method SyncEffect(wasActive: bool, wasComplete: bool, wasSelected: Option<ExerciseId>)
      requires Valid()
      modifies this
      ensures Valid()
      ensures selected == old(selected) && isActive == old(isActive) && isComplete == old(isComplete) && cycle == old(cycle)
      ensures !old(DepsChanged(wasActive, wasComplete, wasSelected)) ==>
                timers == old(timers) && effectTimer == old(effectTimer) && phase == old(phase) && nextId == old(nextId)
      ensures old(DepsChanged(wasActive, wasComplete, wasSelected)) && !(isActive && !isComplete && selected.Some?) ==>
                timers == Cleanup(old(timers), old(effectTimer)) && effectTimer == None && phase == old(phase) && nextId == old(nextId)
      ensures old(DepsChanged(wasActive, wasComplete, wasSelected)) && isActive && !isComplete && selected.Some? ==>
                && timers == Cleanup(old(timers), old(effectTimer)) + [FirstTimer(old(nextId), selected.value)]
                && effectTimer == Some(old(nextId)) && phase == Inhale && nextId == old(nextId) + 1
    {
      if !DepsChanged(wasActive, wasComplete, wasSelected) {
        return;
      }
      timers := Cleanup(timers, effectTimer);
      effectTimer := None;
      if isActive && !isComplete && selected.Some? {
        var ex := ExerciseOf(selected.value);
        var first := PhaseOrder(ex)[0];
        phase := first;
        timers := timers + [FirstTimer(nextId, selected.value)];
        effectTimer := Some(nextId);
        nextId := nextId + 1;
      }
    }

    /** Choosing an exercise on the selection screen. */
    method Select(id: ExerciseId)
      requires Valid()
      modifies this
      ensures Valid() && selected == Some(id)
      ensures isActive == old(isActive) && isComplete == old(isComplete) && cycle == old(cycle)
      ensures old(selected) == Some(id) ==>
                timers == old(timers) && effectTimer == old(effectTimer) && nextId == old(nextId) && phase == old(phase)
      ensures old(selected) != Some(id) && !(isActive && !isComplete) ==>
                timers == Cleanup(old(timers), old(effectTimer)) && effectTimer == None && nextId == old(nextId) && phase == old(phase)
      ensures old(selected) != Some(id) && isActive && !isComplete ==>
                && timers == Cleanup(old(timers), old(effectTimer)) + [FirstTimer(old(nextId), id)]
                && effectTimer == Some(old(nextId)) && nextId == old(nextId) + 1 && phase == Inhale
    {
      var a, c, s := isActive, isComplete, selected;
      selected := Some(id);
      SyncEffect(a, c, s);
    }

    /**
     * `handleStart`: active, not complete, cycle 0, phase inhale; the
     * exercise's loop starts when sound is not disabled and an exercise is
     * selected. A chain for the exercise starts when the effect runs.
     */
    method Start(soundEnabled: bool)
      requires Valid()
      modifies this, player
      ensures Valid() && isActive && !isComplete && cycle == 0 && phase == Inhale && selected == old(selected)
      ensures player.enabled == old(player.enabled) && player.volume == old(player.volume) && player.fades == old(player.fades)
      ensures player.sounds.Keys == old(player.sounds).Keys
      ensures soundEnabled && selected.Some? && old(player.enabled) ==>
                var name := Key(selected.value);
                && player.currentLoop == Some(name)
                && player.sounds[name] == Sounds.AfterStop(old(player.sounds), old(player.currentLoop))[name].(loop := true, time := 0.0, playing := true)
                && forall k :: k in old(player.sounds) && k != name ==> player.sounds[k] == Sounds.AfterStop(old(player.sounds), old(player.currentLoop))[k]
      ensures !(soundEnabled && selected.Some? && old(player.enabled)) ==>
                player.currentLoop == old(player.currentLoop) && player.sounds == old(player.sounds)
      ensures old(isActive) && !old(isComplete) ==>
                timers == old(timers) && effectTimer == old(effectTimer) && nextId == old(nextId)
      ensures (!old(isActive) || old(isComplete)) && selected.Some? ==>
                && timers == Cleanup(old(timers), old(effectTimer)) + [FirstTimer(old(nextId), selected.value)]
                && effectTimer == Some(old(nextId)) && nextId == old(nextId) + 1
      ensures (!old(isActive) || old(isComplete)) && selected.None? ==>
                timers == Cleanup(old(timers), old(effectTimer)) && effectTimer == None && nextId == old(nextId)
    {
      var a, c, s := isActive, isComplete, selected;
      isActive := true;
      isComplete := false;
      cycle := 0;
      phase := Inhale;
      PlaySelected(soundEnabled);
      SyncEffect(a, c, s);
    }

    /** The sound half of `handleStart`: loop the selected exercise's sound when sound is on. */
    method PlaySelected(soundEnabled: bool)
      requires Valid()
      modifies player
      ensures Valid()
      ensures player.enabled == old(player.enabled) && player.volume == old(player.volume) && player.fades == old(player.fades)
      ensures player.sounds.Keys == old(player.sounds).Keys
      ensures soundEnabled && selected.Some? && old(player.enabled) ==>
                var name := Key(selected.value);
                && player.currentLoop == Some(name)
                && player.sounds[name] == Sounds.AfterStop(old(player.sounds), old(player.currentLoop))[name].(loop := true, time := 0.0, playing := true)
                && forall k :: k in old(player.sounds) && k != name ==> player.sounds[k] == Sounds.AfterStop(old(player.sounds), old(player.currentLoop))[k]
      ensures !(soundEnabled && selected.Some? && old(player.enabled)) ==>
                player.currentLoop == old(player.currentLoop) && player.sounds == old(player.sounds)
    {
      if soundEnabled && selected.Some? {
        ExerciseFacts(selected.value);
        player.PlayLoop(Key(selected.value));
      }
    }

    /**
     * `handleReset`: inactive, not complete, cycle 0, phase inhale, no
     * exercise, and a 500 ms fade of the loop. The effect's cleanup clears
     * only the chain's first timer: a chain past its first phase keeps running.
     */
    method Reset()
      requires Valid()
      modifies this, player
      ensures Valid() && !isActive && !isComplete && cycle == 0 && phase == Inhale && selected == None
      ensures player.sounds == old(player.sounds) && player.currentLoop == old(player.currentLoop)
      ensures player.enabled == old(player.enabled) && player.volume == old(player.volume)
      ensures old(player.currentLoop).None? ==> player.fades == old(player.fades)
      ensures old(player.currentLoop).Some? ==>
                player.fades == old(player.fades) + [Sounds.Fade(old(player.currentLoop).value,
                  old(player.sounds)[old(player.currentLoop).value].volume, 0, 500.0 / Sounds.FadeSteps as real)]
      ensures old(isActive) || old(isComplete) || old(selected).Some? ==>
                timers == Cleanup(old(timers), old(effectTimer)) && effectTimer == None
      ensures !(old(isActive) || old(isComplete) || old(selected).Some?) ==>
                timers == old(timers) && effectTimer == old(effectTimer)
      ensures nextId == old(nextId)
    {
      var a, c, s := isActive, isComplete, selected;
      isActive := false;
      isComplete := false;
      cycle := 0;
      phase := Inhale;
      selected := None;
      player.FadeOutLoop(500.0);
      SyncEffect(a, c, s);
    }

    /**
     * The reset as evidently intended: besides the as-written reset, every
     * pending timer of the chain the effect started is cleared.
     */
    method ResetStoppingChain()
      requires Valid()
      modifies this, player
      ensures Valid() && !isActive && !isComplete && cycle == 0 && phase == Inhale && selected == None
      ensures player.sounds == old(player.sounds) && player.currentLoop == old(player.currentLoop)
      ensures player.enabled == old(player.enabled) && player.volume == old(player.volume)
      ensures old(player.currentLoop).None? ==> player.fades == old(player.fades)
      ensures old(player.currentLoop).Some? ==>
                player.fades == old(player.fades) + [Sounds.Fade(old(player.currentLoop).value,
                  old(player.sounds)[old(player.currentLoop).value].volume, 0, 500.0 / Sounds.FadeSteps as real)]
      ensures effectTimer == (if old(isActive) || old(isComplete) || old(selected).Some? then None else old(effectTimer))
      ensures nextId == old(nextId)
      ensures old(effectTimer).Some? ==> forall t :: t in timers ==> t.run != old(effectTimer).value
      ensures forall t :: t in timers ==> t in old(timers)
      ensures var afterReset := if old(isActive) || old(isComplete) || old(selected).Some?
                                then Cleanup(old(timers), old(effectTimer)) else old(timers);
              timers == if old(effectTimer).Some? then CancelRun(afterReset, old(effectTimer).value) else afterReset
    {
      var handle := effectTimer;
      Reset();
      if handle.Some? {
        timers := CancelRun(timers, handle.value);
      }
    }

    /**
     * Timer `k` fires: its chain moves one phase on (wrapping into the next
     * cycle, which is then shown), and `runPhase` either completes the
     * session (complete, inactive, 1000 ms fade, no further timer) or enters
     * the new phase and schedules its timer with that phase's duration.
     */
    method FireTimer(k: nat)
      requires Valid() && k < |timers|
      modifies this, player
      ensures Valid() && selected == old(selected)
      ensures player.enabled == old(player.enabled) && player.volume == old(player.volume)
      ensures var t := old(timers)[k];
        var pos := NextPosition(|OrderOf(t)|, (t.index, t.cycle));
        && cycle == (if pos.0 == 0 then pos.1 else old(cycle))
        && (pos.1 >= ExerciseOf(t.ex).cycles ==>
              && isComplete && !isActive && phase == old(phase)
              && player.sounds == old(player.sounds) && player.currentLoop == old(player.currentLoop)
              && (old(player.currentLoop).None? ==> player.fades == old(player.fades))
              && (old(player.currentLoop).Some? ==>
                    player.fades == old(player.fades) + [CompletionFade(old(player.currentLoop).value, old(player.sounds))])
              && timers == (if old(isActive) || !old(isComplete)
                            then Cleanup(RemoveAt(old(timers), k), old(effectTimer))
                            else RemoveAt(old(timers), k))
              && effectTimer == (if old(isActive) || !old(isComplete) then None else old(effectTimer))
              && nextId == old(nextId))
        && (pos.1 < ExerciseOf(t.ex).cycles ==>
              && isComplete == old(isComplete) && isActive == old(isActive) && phase == OrderOf(t)[pos.0]
              && player.sounds == old(player.sounds) && player.currentLoop == old(player.currentLoop)
              && player.fades == old(player.fades)
              && timers == RemoveAt(old(timers), k) + [Rescheduled(t, old(nextId))]
              && effectTimer == old(effectTimer) && nextId == old(nextId) + 1)
    {
      var t := timers[k];
      if NextPosition(|OrderOf(t)|, (t.index, t.cycle)).1 >= ExerciseOf(t.ex).cycles {
        FinishChain(k);
      } else {
        ContinueChain(k);
      }
    }

    /** The firing of the last phase of the last cycle: `runPhase` completes the session, and the effect reruns. */
    method FinishChain(k: nat)
      requires Valid() && k < |timers|
      requires var t := timers[k]; NextPosition(|OrderOf(t)|, (t.index, t.cycle)).1 >= ExerciseOf(t.ex).cycles
      modifies this, player
      ensures Valid() && selected == old(selected)
      ensures var t := old(timers)[k];
        var pos := NextPosition(|OrderOf(t)|, (t.index, t.cycle));
        cycle == (if pos.0 == 0 then pos.1 else old(cycle))
      ensures isComplete && !isActive && phase == old(phase)
      ensures player.sounds == old(player.sounds) && player.currentLoop == old(player.currentLoop)
      ensures player.enabled == old(player.enabled) && player.volume == old(player.volume)
      ensures old(player.currentLoop).None? ==> player.fades == old(player.fades)
      ensures old(player.currentLoop).Some? ==>
        player.fades == old(player.fades) + [CompletionFade(old(player.currentLoop).value, old(player.sounds))]
      ensures timers == (if old(isActive) || !old(isComplete)
                         then Cleanup(RemoveAt(old(timers), k), old(effectTimer))
                         else RemoveAt(old(timers), k))
      ensures effectTimer == (if old(isActive) || !old(isComplete) then None else old(effectTimer))
      ensures nextId == old(nextId)
    {
      var t := timers[k];
      var pos := NextPosition(|OrderOf(t)|, (t.index, t.cycle));
      var a, c, s := isActive, isComplete, selected;
      RemoveAtKeeps(timers, k);
      timers := RemoveAt(timers, k);
      if pos.0 == 0 {
        cycle := pos.1;
      }
      isComplete := true;
      isActive := false;
      player.FadeOutLoop(1000.0);
      SyncEffect(a, c, s);
    }

    /** Any other firing: `runPhase` enters the next phase and schedules its timer; the effect's dependencies are untouched. */
    method ContinueChain(k: nat)
      requires Valid() && k < |timers|
      requires var t := timers[k]; NextPosition(|OrderOf(t)|, (t.index, t.cycle)).1 < ExerciseOf(t.ex).cycles
      modifies this
      ensures Valid()
      ensures selected == old(selected) && isComplete == old(isComplete) && isActive == old(isActive)
      ensures var t := old(timers)[k];
        var pos := NextPosition(|OrderOf(t)|, (t.index, t.cycle));
        && cycle == (if pos.0 == 0 then pos.1 else old(cycle))
        && phase == OrderOf(t)[pos.0]
        && timers == RemoveAt(old(timers), k) + [Rescheduled(t, old(nextId))]
      ensures effectTimer == old(effectTimer) && nextId == old(nextId) + 1
    {
      var t := timers[k];
      var pos := NextPosition(|OrderOf(t)|, (t.index, t.cycle));
      RemoveAtKeeps(timers, k);
      RescheduledWellFormed(t, nextId);
      timers := RemoveAt(timers, k) + [Rescheduled(t, nextId)];
      nextId := nextId + 1;
      if pos.0 == 0 {
        cycle := pos.1;
      }
      phase := OrderOf(t)[pos.0];
    }
  }

  /** The 1000 ms fade `runPhase` starts on completion, on the current loop. */
  function CompletionFade(name: string, sounds: map<string, Sounds.Audio>): Sounds.Fade
    requires name in sounds
  {
    Sounds.Fade(name, sounds[name].volume, 0, 1000.0 / Sounds.FadeSteps as real)
  }

  /** The pending timers without the `k`-th, which has fired. */
  function RemoveAt(timers: seq<Timer>, k: nat): (r: seq<Timer>)
    requires k < |timers|
    ensures |r| == |timers| - 1
  {
    timers[..k] + timers[k + 1..]
  }

  lemma RemoveAtKeeps(timers: seq<Timer>, k: nat)
    requires k < |timers|
    ensures forall t :: t in RemoveAt(timers, k) ==> t in timers
  {
    forall t | t in RemoveAt(timers, k) ensures t in timers {
      var j :| 0 <= j < |RemoveAt(timers, k)| && RemoveAt(timers, k)[j] == t;
      if j < k {
        assert timers[j] == t;
      } else {
        assert timers[j + 1] == t;
      }
    }
  }

  /** The timer the next `runPhase` of `t`'s chain schedules, with id `id`. */
  function Rescheduled(t: Timer, id: nat): Timer
    requires t.index < |OrderOf(t)|
  {
    var pos := NextPosition(|OrderOf(t)|, (t.index, t.cycle));
    Timer(id, t.run, t.ex, pos.0, pos.1, t.entered + 1, Duration(ExerciseOf(t.ex), OrderOf(t)[pos.0]))
  }

  /** A rescheduled timer still agrees with its chain, as long as the chain has not completed. */
  lemma RescheduledWellFormed(t: Timer, id: nat)
    requires WellFormed(t) && t.id < id
    requires NextPosition(|OrderOf(t)|, (t.index, t.cycle)).1 < ExerciseOf(t.ex).cycles
    ensures WellFormed(Rescheduled(t, id))
  {
  }

  /** A fresh page where relaxing breath has been started with sound off and its first phase is over. */
  method RelaxingInSecondPhase() returns (session: BreathingSession)
    ensures fresh(session) && fresh(session.player) && session.Valid()
    ensures session.selected == Some(Relaxing) && session.isActive && !session.isComplete
    ensures session.timers == [Timer(1, 0, Relaxing, 1, 0, 1, 4000)] && session.effectTimer == Some(0)
  {
    var player := new Sounds.SoundManager(Sounds.PazSounds);
    session := new BreathingSession(player);
    session.Select(Relaxing);
    session.Start(false);
    assert session.timers == [FirstTimer(0, Relaxing)];
    session.FireTimer(0);
  }

  /**
   * Reset as written, once the first phase is over: the chain's next timer
   * stays pending, and when it fires the page moves on to exhale although
   * nothing is selected and the session is inactive.
   */
  method ResetAfterFirstPhase() returns (pending: nat, shown: Phase, active: bool, chosen: Option<ExerciseId>)
    ensures pending == 1 && shown == Exhale && !active && chosen == None
  {
    var session := RelaxingInSecondPhase();
    var next := Timer(1, 0, Relaxing, 1, 0, 1, 4000);
    assert Cancel([next], 0) == [next] by {
      assert [next][1..] == [];
    }
    session.Reset();
    pending := |session.timers|;
    session.FireTimer(0);
    shown, active, chosen := session.phase, session.isActive, session.selected;
  }

  /** The same sequence with the corrected reset leaves no timer of the chain pending. */
  method ResetStoppingChainAfterFirstPhase() returns (pending: nat)
    ensures pending == 0
  {
    var session := RelaxingInSecondPhase();
    session.ResetStoppingChain();
    pending := |session.timers|;
  }

  /**
   * `getPhaseAnimation` while active, as (scale, opacity): the circle is
   * large exactly while the lungs are full, and dimmed exactly while exhaling.
   */
  function PhaseAnimation(p: Phase): (r: (real, real))
    ensures r.0 == 1.4 <==> p == Inhale || p == Hold
    ensures r.0 == 1.0 <==> p == Exhale || p == HoldEmpty
    ensures r.1 == 0.6 <==> p == Exhale
    ensures r.1 == 1.0 <==> p != Exhale
  {
    match p
    case Inhale => (1.4, 1.0)
    case Hold => (if p == Hold then 1.4 else 1.0, 1.0)
    case HoldEmpty => (if p == Hold then 1.4 else 1.0, 1.0)
    case Exhale => (1.0, 0.6)
  }

  /**
   * `getPhaseLabel`: English labels exactly for "en", Spanish for any other
   * language; both holds read the same.
   */
  function PhaseLabel(language: string, p: Phase): (r: string)
    ensures language == "en" <==> r in ["Inhale", "Hold", "Exhale"]
    ensures language != "en" <==> r in ["Inhala", "Sostén", "Exhala"]
    ensures p == Inhale ==> r == (if language == "en" then "Inhale" else "Inhala")
    ensures p == Exhale ==> r == (if language == "en" then "Exhale" else "Exhala")
    ensures p == Hold || p == HoldEmpty ==> r == (if language == "en" then "Hold" else "Sostén")
  {
    match p
    case Inhale => if language == "en" then "Inhale" else "Inhala"
    case Hold => if language == "en" then "Hold" else "Sostén"
    case Exhale => if language == "en" then "Exhale" else "Exhala"
    case HoldEmpty => if language == "en" then "Hold" else "Sostén"
  }

  /**
   * The label tells the phases apart in either language, except that the two
   * holds share one label: the label determines whether the user breathes in,
   * holds or breathes out.
   */
  lemma PhaseLabelDistinguishes(language: string, p: Phase, q: Phase)
    ensures PhaseLabel(language, p) == PhaseLabel(language, q)
        <==> p == q || (p in {Hold, HoldEmpty} && q in {Hold, HoldEmpty})
  {
  }
}
