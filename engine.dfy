/** The synthesis engine of public/src/audio/audioEngine.js: the held chord
    group, the harp pluck pitch mapping, the rhythm clock's step counter and
    the volume and tempo settings. Audio output is the event trace of
    module Voices; the audio context is a flag set by `Enable`. */
module Engine {
  import opened Wrappers
  import opened MusicTheory
  import opened Voices
  import JsMath

  /** `activeChord`: the root and quality as the caller passed them. */
  datatype ActiveChord = ActiveChord(root: string, quality: string)

  /** The harp lays the chord out over this many octaves. */
  const HarpOctaves: nat := 4

  /** `Math.max(Math.max(totalStrings, 1) - 1, 1)`: the string index that maps
      to the top of the note range. */
  function MaxIndex(totalStrings: int): (m: nat)
    ensures m >= 1
    ensures totalStrings >= 2 ==> m == totalStrings - 1
    ensures totalStrings <= 2 ==> m == 1
  {
    var safeStrings := if totalStrings > 1 then totalStrings else 1;
    if safeStrings - 1 > 1 then safeStrings - 1 else 1
  }

  /** `Math.round(stringIndex / maxIndex * (totalNotes - 1))`, computed
      exactly: the note whose position in the range is nearest the string's. */
  function HarpNoteIndex(stringIndex: nat, totalStrings: int, totalNotes: nat): (k: nat)
    requires totalNotes >= 1
    ensures stringIndex <= MaxIndex(totalStrings) ==> k <= totalNotes - 1
    ensures stringIndex == 0 ==> k == 0
    ensures stringIndex == MaxIndex(totalStrings) ==> k == totalNotes - 1
  {
    var m := MaxIndex(totalStrings);
    JsMath.RoundDivScaled(stringIndex, totalNotes - 1, m);
    JsMath.RoundDiv(stringIndex * (totalNotes - 1), m)
  }

  /** `ROOT_TO_MIDI[normalizeRoot(root)] ?? 60`. */
  function HarpRootMidi(root: string): (m: int)
    ensures 60 <= m <= 71
    ensures NormalizeRoot(root) !in RootMidi ==> m == 60
  {
    RootToMidi(NormalizeRoot(root)).GetOr(60)
  }

  /** The pitch `playHarpFromChord` plucks for a string: the chord's
      intervals laid over four octaves starting two octaves below the root,
      the string position mapped linearly onto that ladder. */
  function HarpMidi(chord: ActiveChord, stringIndex: nat, totalStrings: int): int
  {
    var iv := Intervals(chord.quality);
    LadderNote(HarpRootMidi(chord.root) - 24, iv, HarpNoteIndex(stringIndex, totalStrings, |iv| * HarpOctaves))
  }

  /** For a string on the plate, the note index lies in the ladder, the octave
      offset in 0..3, and the pitch is base + interval + 12 * octave, so every
      pluck is within MIDI 36..93. */
  lemma HarpMappingBounds(chord: ActiveChord, stringIndex: nat, totalStrings: int)
    requires stringIndex <= MaxIndex(totalStrings)
    ensures var iv := Intervals(chord.quality);
      var n := |iv|;
      var k := HarpNoteIndex(stringIndex, totalStrings, n * HarpOctaves);
      && k <= 4 * n - 1
      && 0 <= k / n <= 3
      && HarpMidi(chord, stringIndex, totalStrings) == HarpRootMidi(chord.root) - 24 + iv[k % n] + 12 * (k / n)
      && 36 <= HarpMidi(chord, stringIndex, totalStrings) <= 93
  {
    var iv := Intervals(chord.quality);
    var n := |iv|;
    var k := HarpNoteIndex(stringIndex, totalStrings, n * HarpOctaves);
    JsMath.DivMonotone(k, 3 * n + (n - 1), n);
    JsMath.DivPlusSmall(3, n, n - 1);
  }

  /** The pitch never falls as the string index rises. */
  lemma HarpMidiMonotone(chord: ActiveChord, s: nat, s': nat, totalStrings: int)
    requires s <= s'
    ensures HarpMidi(chord, s, totalStrings) <= HarpMidi(chord, s', totalStrings)
  {
    var iv := Intervals(chord.quality);
    var notes := |iv| * HarpOctaves;
    var m := MaxIndex(totalStrings);
    assert s * (notes - 1) <= s' * (notes - 1) by { JsMath.MulMonotone(notes - 1, s, s'); }
    JsMath.RoundDivMonotone(s * (notes - 1), s' * (notes - 1), m);
    LadderMonotone(HarpRootMidi(chord.root) - 24, iv,
      HarpNoteIndex(s, totalStrings, notes), HarpNoteIndex(s', totalStrings, notes));
  }

  /** The first string plucks two octaves below the chord root and the last
      string the chord's top interval one octave above the root. */
  lemma HarpMidiEnds(chord: ActiveChord, totalStrings: int)
    ensures HarpMidi(chord, 0, totalStrings) == HarpRootMidi(chord.root) - 24
    ensures var iv := Intervals(chord.quality);
      HarpMidi(chord, MaxIndex(totalStrings), totalStrings) == HarpRootMidi(chord.root) + 12 + iv[|iv| - 1]
  {
    var iv := Intervals(chord.quality);
    var n := |iv|;
    var top := n * HarpOctaves - 1;
    assert top == n * 3 + (n - 1);
    assert top % n == n - 1 && top / n == 3;
  }

  class AudioEngine {
    /** `ctx != null`: the audio context exists (created by `Enable`). */
    var hasContext: bool
    var masterVolume: real
    var chordVolume: real
    var harpMainVolume: real
    var harpSubVolume: real
    var rhythmVolume: real
    var rhythmEnabled: bool
    /** `rhythmTimer != null`: the periodic tick is scheduled. */
    var rhythmTimerRunning: bool
    var rhythmStep: nat
    var harpReleaseSeconds: real
    var tempoMultiplier: real
    var activeChord: Option<ActiveChord>
    var chordOscillators: seq<Voice>
    /** Identity of the next oscillator created. */
    var nextVoiceId: nat
    /** Everything the engine has sounded or silenced so far. */
    var events: seq<AudioEvent>

    /** At most one chord group: the voices left sounding by the trace are
        exactly the held oscillators, which sound the active chord's notes. */
    ghost predicate Valid()
      reads this
    {
      && (activeChord.None? <==> chordOscillators == [])
      && (activeChord.Some? ==> hasContext)
      && (activeChord.Some? ==>
            Pitches(chordOscillators) == ChordNotes(activeChord.value.root, activeChord.value.quality))
      && Sounding(events) == Ids(chordOscillators)
      && (activeChord.Some? ==> NormalizeRoot(activeChord.value.root) in RootMidi)
      && (forall i :: 0 <= i < |chordOscillators| ==> chordOscillators[i].id < nextVoiceId)
      && (rhythmTimerRunning ==> hasContext)
    }

    /** The clock only runs while rhythm is enabled; every public setter keeps this. */
    ghost predicate RhythmConsistent()
      reads this
    {
      rhythmTimerRunning ==> rhythmEnabled
    }

    constructor ()
      ensures Valid() && RhythmConsistent()
      ensures !hasContext && activeChord == None && chordOscillators == [] && events == []
      ensures masterVolume == 0.85 && chordVolume == 0.7 && harpMainVolume == 0.65
      ensures harpSubVolume == 0.2 && rhythmVolume == 0.0
      ensures !rhythmEnabled && !rhythmTimerRunning && rhythmStep == 0
      ensures harpReleaseSeconds == 0.3 && tempoMultiplier == 1.0
    {
      hasContext := false;
      masterVolume, chordVolume, harpMainVolume, harpSubVolume, rhythmVolume := 0.85, 0.7, 0.65, 0.2, 0.0;
      rhythmEnabled, rhythmTimerRunning, rhythmStep := false, false, 0;
      harpReleaseSeconds, tempoMultiplier := 0.3, 1.0;
      activeChord, chordOscillators, nextVoiceId, events := None, [], 0, [];
    }

    /** `enable()`: creates the context once and starts the clock if rhythm
        was enabled before. */
    method Enable()
      requires Valid() && RhythmConsistent()
      modifies this`hasContext, this`rhythmTimerRunning, this`rhythmStep
      ensures Valid() && RhythmConsistent()
      ensures hasContext
      ensures old(hasContext) ==> rhythmTimerRunning == old(rhythmTimerRunning) && rhythmStep == old(rhythmStep)
      ensures !old(hasContext) && rhythmEnabled ==> rhythmTimerRunning && rhythmStep == 0
      ensures !old(hasContext) && !rhythmEnabled ==> rhythmTimerRunning == old(rhythmTimerRunning) && rhythmStep == old(rhythmStep)
    {
      if !hasContext {
        hasContext := true;
        if rhythmEnabled {
          StartRhythm();
        }
      }
    }

    /** `stopChord()`: stops every held oscillator, in order, even when none
        is held; afterwards no chord voice sounds. */
    method StopChord()
      requires Valid()
      modifies this`chordOscillators, this`activeChord, this`events
      ensures Valid()
      ensures chordOscillators == [] && activeChord == None
      ensures events == old(events) + StopEvents(old(chordOscillators))
      ensures Sounding(events) == {}
    {
      var stops := StopChordVoices(chordOscillators);
      SoundingAfterStops(events, chordOscillators);
      events := events + stops;
      chordOscillators := [];
      activeChord := None;
    }

    /** `playChord(root, quality)`: without a context nothing happens;
        otherwise the previous group is stopped first, then one oscillator is
        started per interval of the quality, sounding the chord's notes. A
        root with no MIDI number gives a NaN frequency, which the oscillator
        refuses with a `TypeError`: the call fails after the stop, with no
        chord held. */
    method PlayChord(root: string, quality: string) returns (r: Result<(), string>)
      requires Valid()
      modifies this`chordOscillators, this`activeChord, this`events, this`nextVoiceId
      ensures Valid()
      ensures !old(hasContext) ==>
        r.Success? && events == old(events) && activeChord == old(activeChord) && chordOscillators == old(chordOscillators)
      ensures old(hasContext) && NormalizeRoot(root) !in RootMidi ==>
        && r.Failure?
        && activeChord == None && chordOscillators == []
        && events == old(events) + StopEvents(old(chordOscillators))
        && Sounding(events) == {}
      ensures old(hasContext) && NormalizeRoot(root) in RootMidi ==>
        && r.Success?
        && activeChord == Some(ActiveChord(root, quality))
        && |chordOscillators| == |Intervals(quality)|
        && Pitches(chordOscillators) == ChordNotes(root, quality)
        && events == old(events) + StopEvents(old(chordOscillators)) + StartEvents(chordOscillators)
        && Sounding(events) == Ids(chordOscillators)
    {
      if !hasContext {
        return Success(());
      }
      StopChord();
      if NormalizeRoot(root) !in RootMidi {
        return Failure("TypeError: the oscillator frequency is not a finite number");
      }
      ghost var stopped := events;
      var notes := ChordNotes(root, quality);
      var voices, started := StartChordVoices(notes, nextVoiceId);
      SoundingAfterStarts(stopped, voices);
      events := events + started;
      nextVoiceId := nextVoiceId + |voices|;
      chordOscillators := voices;
      activeChord := Some(ActiveChord(root, quality));
      return Success(());
    }

    /** `playHarpFromChord(stringIndex, totalStrings)`: without a context or
        an active chord nothing happens; otherwise a primary pluck at the
        mapped pitch and a sub-octave pluck (half the frequency) are
        triggered. The held chord is untouched, and its root always has a
        MIDI number, so the fallback to 60 is never taken. */
    method PlayHarpFromChord(stringIndex: nat, totalStrings: int)
      requires Valid()
      modifies this`events
      ensures Valid()
      ensures !hasContext || activeChord.None? ==> events == old(events)
      ensures hasContext && activeChord.Some? ==>
        var midi := HarpMidi(activeChord.value, stringIndex, totalStrings);
        events == old(events) + [HarpPluck(HarpMainBus, Some(midi)), HarpPluck(HarpSubBus, Some(midi - 12))]
      ensures hasContext && activeChord.Some? ==>
        HarpRootMidi(activeChord.value.root) == RootMidi[NormalizeRoot(activeChord.value.root)]
    {
      if !hasContext || activeChord.None? {
        return;
      }
      var midi := HarpMidi(activeChord.value, stringIndex, totalStrings);
      SoundingSnoc(events, HarpPluck(HarpMainBus, Some(midi)));
      events := events + [HarpPluck(HarpMainBus, Some(midi))];
      SoundingSnoc(events, HarpPluck(HarpSubBus, Some(midi - 12)));
      events := events + [HarpPluck(HarpSubBus, Some(midi - 12))];
    }

    /** `playRhythmTick()`: with a context, one click, accented exactly when
        the step before the tick is a multiple of four, and the step counter
        advances by one. */
    method PlayRhythmTick()
      requires Valid()
      modifies this`events, this`rhythmStep
      ensures Valid()
      ensures !hasContext ==> events == old(events) && rhythmStep == old(rhythmStep)
      ensures hasContext ==>
        && rhythmStep == old(rhythmStep) + 1
        && events == old(events) + [RhythmClick(old(rhythmStep) % 4 == 0)]
    {
      if !hasContext {
        return;
      }
      var accent := rhythmStep % 4 == 0;
      SoundingSnoc(events, RhythmClick(accent));
      events := events + [RhythmClick(accent)];
      rhythmStep := rhythmStep + 1;
    }

    /** `startRhythm()`: with a context, (re)starts the clock from step 0.
        It does not look at `rhythmEnabled`, so a direct call while rhythm is
        off leaves the clock running against the setting. */
    method StartRhythm()
      requires Valid()
      modifies this`rhythmTimerRunning, this`rhythmStep
      ensures Valid()
      ensures !hasContext ==> rhythmTimerRunning == old(rhythmTimerRunning) && rhythmStep == old(rhythmStep)
      ensures hasContext ==> rhythmTimerRunning && rhythmStep == 0
      ensures old(RhythmConsistent()) && (rhythmEnabled || !hasContext) ==> RhythmConsistent()
      ensures hasContext && !rhythmEnabled ==> !RhythmConsistent()
    {
      if !hasContext {
        return;
      }
      StopRhythm();
      rhythmStep := 0;
      rhythmTimerRunning := true;
    }

    /** `stopRhythm()`: clears the timer if one is scheduled. */
    method StopRhythm()
      requires Valid()
      modifies this`rhythmTimerRunning
      ensures Valid()
      ensures !rhythmTimerRunning
    {
      if rhythmTimerRunning {
        rhythmTimerRunning := false;
      }
    }

    method SetMasterVolume(value: real)
      modifies this`masterVolume
      ensures masterVolume == value
    {
      masterVolume := value;
    }

    method SetChordVolume(value: real)
      modifies this`chordVolume
      ensures chordVolume == value
    {
      chordVolume := value;
    }

    method SetHarpVolume(value: real)
      modifies this`harpMainVolume
      ensures harpMainVolume == value
    {
      harpMainVolume := value;
    }

    method SetHarpSubVolume(value: real)
      modifies this`harpSubVolume
      ensures harpSubVolume == value
    {
      harpSubVolume := value;
    }

    method SetRhythmVolume(value: real)
      modifies this`rhythmVolume
      ensures rhythmVolume == value
    {
      rhythmVolume := value;
    }

    method SetHarpReleaseSeconds(value: real)
      modifies this`harpReleaseSeconds
      ensures harpReleaseSeconds == value
    {
      harpReleaseSeconds := value;
    }

    /** `setTempoMultiplier(value)`: a running-enabled clock is restarted,
        which resets its accent phase; otherwise the clock is left alone. */
    method SetTempoMultiplier(value: real)
      requires Valid() && RhythmConsistent()
      modifies this`tempoMultiplier, this`rhythmTimerRunning, this`rhythmStep
      ensures Valid() && RhythmConsistent()
      ensures tempoMultiplier == value
      ensures rhythmEnabled && hasContext ==> rhythmTimerRunning && rhythmStep == 0
      ensures !(rhythmEnabled && hasContext) ==>
        rhythmTimerRunning == old(rhythmTimerRunning) && rhythmStep == old(rhythmStep)
    {
      tempoMultiplier := value;
      if rhythmEnabled {
        StartRhythm();
      }
    }

    /** `setRhythmEnabled(enabled)`: disabling clears the timer; enabling
        with a context starts the clock from step 0. */
    method SetRhythmEnabled(enabled: bool)
      requires Valid() && RhythmConsistent()
      modifies this`rhythmEnabled, this`rhythmTimerRunning, this`rhythmStep
      ensures Valid() && RhythmConsistent()
      ensures rhythmEnabled == enabled
      ensures !enabled ==> !rhythmTimerRunning && rhythmStep == old(rhythmStep)
      ensures enabled && hasContext ==> rhythmTimerRunning && rhythmStep == 0
      ensures enabled && !hasContext ==>
        rhythmTimerRunning == old(rhythmTimerRunning) && rhythmStep == old(rhythmStep)
    {
      rhythmEnabled := enabled;
      if !enabled {
        StopRhythm();
        return;
      }
      if hasContext {
        StartRhythm();
      }
    }

    /** `stopAll()`: has exactly the effect of `stopChord()`. */
    method StopAll()
      requires Valid()
      modifies this`chordOscillators, this`activeChord, this`events
      ensures Valid()
      ensures chordOscillators == [] && activeChord == None
      ensures events == old(events) + StopEvents(old(chordOscillators))
      ensures Sounding(events) == {}
    {
      StopChord();
    }
  }
}
