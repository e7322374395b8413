/** The song-progression sequencer of public/src/songs/songGuide.js: a step
    cursor over a song's chord steps that advances only when the expected
    chord is played, wraps or stops at the end, and reports how far through
    the current step the clock is. `performance.now()` is the `now`
    parameter; the `onStepChange` callback is recorded as notifications. */
module SongGuide {
  import opened Wrappers
  import opened Songs
  import MusicTheory
  import JsMath

  /** The length of a step in milliseconds: `60000 / bpm * beats`. */
  function StepDuration(bpm: real, beats: real): (d: real)
    requires bpm > 0.0 && beats > 0.0
    ensures d > 0.0
  {
    60000.0 / bpm * beats
  }

  /** `getProgress`'s ratio for `elapsed` milliseconds into a step:
      elapsed over the step's duration, clamped to [0, 1]. */
  function Progress(elapsed: real, bpm: real, beats: real): (p: real)
    requires bpm > 0.0 && beats > 0.0
    ensures 0.0 <= p <= 1.0
    ensures elapsed <= 0.0 ==> p == 0.0
    ensures elapsed >= StepDuration(bpm, beats) ==> p == 1.0
  {
    var duration := StepDuration(bpm, beats);
    var ratio := elapsed / duration;
    assert elapsed >= duration ==> ratio >= 1.0 by {
      if elapsed >= duration {
        assert ratio * duration == elapsed;
      }
    }
    assert elapsed <= 0.0 ==> ratio <= 0.0 by {
      if elapsed <= 0.0 {
        assert ratio * duration == elapsed;
      }
    }
    JsMath.Clamp(ratio, 0.0, 1.0)
  }

  /** For a fixed step, progress never falls as time passes. */
  lemma ProgressMonotone(e1: real, e2: real, bpm: real, beats: real)
    requires bpm > 0.0 && beats > 0.0
    requires e1 <= e2
    ensures Progress(e1, bpm, beats) <= Progress(e2, bpm, beats)
  {
    var d := StepDuration(bpm, beats);
    assert e1 / d <= e2 / d by {
      assert (e2 / d - e1 / d) * d == e2 - e1;
    }
    JsMath.ClampMonotone(e1 / d, e2 / d, 0.0, 1.0);
  }

  /** Before the step's duration is up, progress is the exact elapsed share. */
  lemma ProgressProportional(elapsed: real, bpm: real, beats: real)
    requires bpm > 0.0 && beats > 0.0
    requires 0.0 <= elapsed <= StepDuration(bpm, beats)
    ensures Progress(elapsed, bpm, beats) * StepDuration(bpm, beats) == elapsed
  {
    var d := StepDuration(bpm, beats);
    assert (elapsed / d) * d == elapsed;
  }

  /** The worked example of a 120 bpm two-beat step: one second long, 0 at
      its start, one half after 500 ms, complete after 1000 ms. */
  lemma ProgressExample()
    ensures StepDuration(120.0, 2.0) == 1000.0
    ensures Progress(0.0, 120.0, 2.0) == 0.0
    ensures Progress(500.0, 120.0, 2.0) == 0.5
    ensures Progress(1000.0, 120.0, 2.0) == 1.0
  {
    ProgressProportional(500.0, 120.0, 2.0);
  }

  /** One invocation of `onStepChange(currentStep(), stepIndex)`. */
  datatype Notification = Notification(step: Option<Step>, index: nat)

  class Guide {
    const song: Song
    /** Whether an `onStepChange` callback was passed. */
    const hasCallback: bool
    var stepIndex: nat
    var stepStartedAt: real
    var notifications: seq<Notification>

    /** The cursor is a valid step index (it stays 0 for a song without steps). */
    ghost predicate Valid()
      reads this
    {
      stepIndex == 0 || stepIndex < |song.steps|
    }

    /** `createSongGuide(song, onStepChange)` at time `now`. */
    constructor (song: Song, hasCallback: bool, now: real)
      ensures Valid()
      ensures this.song == song && this.hasCallback == hasCallback
      ensures stepIndex == 0 && stepStartedAt == now && notifications == []
    {
      this.song := song;
      this.hasCallback := hasCallback;
      stepIndex := 0;
      stepStartedAt := now;
      notifications := [];
    }

    /** `currentStep()`: the step under the cursor, `None` (undefined) when
        the song has no steps. */
    function CurrentStep(): (s: Option<Step>)
      reads this
      requires Valid()
      ensures s.Some? <==> |song.steps| > 0
      ensures s.Some? ==> s.value == song.steps[stepIndex]
    {
      if stepIndex < |song.steps| then Some(song.steps[stepIndex]) else None
    }

    /** `getProgress(now)`: how far through the current step `now` is. Reading
        it changes nothing. */
    function GetProgress(now: real): (p: real)
      reads this
      requires Valid() && |song.steps| > 0
      requires song.bpm > 0.0 && song.steps[stepIndex].beats > 0.0
      ensures 0.0 <= p <= 1.0
      ensures now <= stepStartedAt ==> p == 0.0
      ensures now - stepStartedAt >= StepDuration(song.bpm, song.steps[stepIndex].beats) ==> p == 1.0
    {
      Progress(now - stepStartedAt, song.bpm, song.steps[stepIndex].beats)
    }

    /** `advance()`: below the last step the cursor moves on by one; at the
        last step it wraps to 0 if the song loops, and otherwise nothing
        changes and the result is false. On every move the step restarts at
        `now` and the callback, if any, is told once. */
    method Advance(now: real) returns (moved: bool)
      requires Valid()
      modifies this`stepIndex, this`stepStartedAt, this`notifications
      ensures Valid()
      ensures old(stepIndex) + 1 < |song.steps| ==> moved && stepIndex == old(stepIndex) + 1
      ensures old(stepIndex) + 1 >= |song.steps| && song.loop ==> moved && stepIndex == 0
      ensures old(stepIndex) + 1 >= |song.steps| && !song.loop ==> !moved
      ensures !moved ==>
        stepIndex == old(stepIndex) && stepStartedAt == old(stepStartedAt) && notifications == old(notifications)
      ensures moved ==> stepStartedAt == now
      ensures moved ==>
        notifications == old(notifications) + (if hasCallback then [Notification(CurrentStep(), stepIndex)] else [])
    {
      if stepIndex + 1 < |song.steps| {
        stepIndex := stepIndex + 1;
      } else if song.loop {
        stepIndex := 0;
      } else {
        return false;
      }
      stepStartedAt := now;
      if hasCallback {
        notifications := notifications + [Notification(CurrentStep(), stepIndex)];
      }
      return true;
    }

    /** `advanceIfMatches(chordKey)`: advances exactly when the current step's
        chord and `chordKey` normalise to the same key; on a mismatch the
        result is false and nothing changes. A song without steps makes the
        lookup of the current chord fail (`TypeError`). */
    method AdvanceIfMatches(chordKey: string, now: real) returns (r: Result<bool, string>)
      requires Valid()
      modifies this`stepIndex, this`stepStartedAt, this`notifications
      ensures Valid()
      ensures |song.steps| == 0 ==> r.Failure? && stepIndex == old(stepIndex)
      ensures (|song.steps| > 0 &&
        MusicTheory.NormalizeChordKey(song.steps[old(stepIndex)].chord) != MusicTheory.NormalizeChordKey(chordKey)) ==>
          r == Success(false) && stepIndex == old(stepIndex) && stepStartedAt == old(stepStartedAt)
          && notifications == old(notifications)
      ensures (|song.steps| > 0 &&
        MusicTheory.NormalizeChordKey(song.steps[old(stepIndex)].chord) == MusicTheory.NormalizeChordKey(chordKey)) ==>
          && r.Success?
          && (old(stepIndex) + 1 < |song.steps| ==> r.value && stepIndex == old(stepIndex) + 1)
          && (old(stepIndex) + 1 >= |song.steps| ==> r.value == song.loop && stepIndex == (if song.loop then 0 else old(stepIndex)))
          && (r.value ==> stepStartedAt == now)
      ensures r.Failure? || !r.value ==>
        stepIndex == old(stepIndex) && stepStartedAt == old(stepStartedAt) && notifications == old(notifications)
      ensures r.Success? && r.value ==>
        notifications == old(notifications) + (if hasCallback then [Notification(CurrentStep(), stepIndex)] else [])
    {
      if stepIndex >= |song.steps| {
        return Failure("TypeError: cannot read 'chord' of undefined");
      }
      var expected := MusicTheory.NormalizeChordKey(song.steps[stepIndex].chord);
      var incoming := MusicTheory.NormalizeChordKey(chordKey);
      if expected == incoming {
        var moved := Advance(now);
        return Success(moved);
      }
      return Success(false);
    }
  }
}
