/** The older synthesis engine of src/audio/audioEngine.js: the same music
    theory and held chord group as module Engine, but a harp that walks the
    chord's own notes upwards octave by octave, one sine pluck per string,
    and no rhythm clock or volume settings. */
module LegacyEngine {
  import opened Wrappers
  import opened MusicTheory
  import opened Voices

  datatype ActiveChord = ActiveChord(root: string, quality: string)

  /** The pitch of string `i`: chord note `i mod n` raised by `floor(i / n)`
      octaves (the frequency doubled once per octave); no pitch for an
      unknown root. */
  function LegacyHarpMidi(chord: ActiveChord, stringIndex: nat): (p: Option<int>)
    ensures p.Some? <==> NormalizeRoot(chord.root) in RootMidi
    ensures p.Some? ==> var iv := Intervals(chord.quality);
      p.value == RootMidi[NormalizeRoot(chord.root)] + iv[stringIndex % |iv|] + 12 * (stringIndex / |iv|)
  {
    match RootToMidi(NormalizeRoot(chord.root))
    case Some(m) => Some(LadderNote(m, Intervals(chord.quality), stringIndex))
    case None => None
  }

  /** Every further string sounds strictly higher. */
  lemma LegacyHarpStrictlyIncreasing(chord: ActiveChord, i: nat, j: nat)
    requires NormalizeRoot(chord.root) in RootMidi
    requires i < j
    ensures LegacyHarpMidi(chord, i).value < LegacyHarpMidi(chord, j).value
  {
    LadderStrictlyIncreasing(RootMidi[NormalizeRoot(chord.root)], Intervals(chord.quality), i, j);
  }

  /** The first `n` strings are the chord's own notes, as `getChordFrequencies` gives them. */
  lemma LegacyHarpFirstOctaveIsChord(chord: ActiveChord, i: nat)
    requires i < |Intervals(chord.quality)|
    ensures LegacyHarpMidi(chord, i) == ChordNotes(chord.root, chord.quality)[i]
  {
  }

  class AudioEngine {
    var hasContext: bool
    var activeChord: Option<ActiveChord>
    var chordOscillators: seq<Voice>
    var nextVoiceId: nat
    var events: seq<AudioEvent>

    /** At most one chord group, sounding the active chord's notes. */
    ghost predicate Valid()
      reads this
    {
      && (activeChord.None? <==> chordOscillators == [])
      && (activeChord.Some? ==> hasContext)
      && (activeChord.Some? ==>
            Pitches(chordOscillators) == ChordNotes(activeChord.value.root, activeChord.value.quality))
      && Sounding(events) == Ids(chordOscillators)
      && (activeChord.Some? ==> NormalizeRoot(activeChord.value.root) in RootMidi)
      && (forall i :: 0 <= i < |chordOscillators| ==> chordOscillators[i].id < nextVoiceId)
    }

    constructor ()
      ensures Valid()
      ensures !hasContext && activeChord == None && chordOscillators == [] && events == []
    {
      hasContext := false;
      activeChord, chordOscillators, nextVoiceId, events := None, [], 0, [];
    }

    /** `enable()`: creates the context (resuming it is not modelled). */
    method Enable()
      requires Valid()
      modifies this`hasContext
      ensures Valid() && hasContext
    {
      if !hasContext {
        hasContext := true;
      }
    }

    /** `stopChord()`: stops every held oscillator; nothing is left sounding. */
    method StopChord()
      requires Valid()
      modifies this`chordOscillators, this`activeChord, this`events
      ensures Valid()
      ensures chordOscillators == [] && activeChord == None
      ensures events == old(events) + StopEvents(old(chordOscillators))
      ensures Sounding(events) == {}
    {
      var stops := StopChordVoices(chordOscillators);
      SoundingAfterStops(events, chordOscillators);
      events := events + stops;
      chordOscillators := [];
      activeChord := None;
    }

    /** `playChord(root, quality)`: without a context nothing happens;
        otherwise the old group is stopped, then one oscillator per interval
        is started and the chord becomes active. A root with no MIDI number
        gives a NaN frequency, which the oscillator refuses with a
        `TypeError`: the call fails after the stop, with no chord held. */
    method PlayChord(root: string, quality: string) returns (r: Result<(), string>)
      requires Valid()
      modifies this`chordOscillators, this`activeChord, this`events, this`nextVoiceId
      ensures Valid()
      ensures !old(hasContext) ==>
        r.Success? && events == old(events) && activeChord == old(activeChord) && chordOscillators == old(chordOscillators)
      ensures old(hasContext) && NormalizeRoot(root) !in RootMidi ==>
        && r.Failure?
        && activeChord == None && chordOscillators == []
        && events == old(events) + StopEvents(old(chordOscillators))
        && Sounding(events) == {}
      ensures old(hasContext) && NormalizeRoot(root) in RootMidi ==>
        && r.Success?
        && activeChord == Some(ActiveChord(root, quality))
        && |chordOscillators| == |Intervals(quality)|
        && Pitches(chordOscillators) == ChordNotes(root, quality)
        && events == old(events) + StopEvents(old(chordOscillators)) + StartEvents(chordOscillators)
        && Sounding(events) == Ids(chordOscillators)
    {
      if !hasContext {
        return Success(());
      }
      StopChord();
      if NormalizeRoot(root) !in RootMidi {
        return Failure("TypeError: the oscillator frequency is not a finite number");
      }
      ghost var stopped := events;
      var notes := ChordNotes(root, quality);
      var voices, started := StartChordVoices(notes, nextVoiceId);
      SoundingAfterStarts(stopped, voices);
      events := events + started;
      nextVoiceId := nextVoiceId + |voices|;
      chordOscillators := voices;
      activeChord := Some(ActiveChord(root, quality));
      return Success(());
    }

    /** `playHarpFromChord(stringIndex)`: without a context or an active
        chord nothing happens; otherwise one pluck on the harp bus, always
        at a real pitch, since only a known root becomes active. */
    method PlayHarpFromChord(stringIndex: nat)
      requires Valid()
      modifies this`events
      ensures Valid()
      ensures !hasContext || activeChord.None? ==> events == old(events)
      ensures hasContext && activeChord.Some? ==>
        events == old(events) + [HarpPluck(HarpBus, LegacyHarpMidi(activeChord.value, stringIndex))]
      ensures hasContext && activeChord.Some? ==> LegacyHarpMidi(activeChord.value, stringIndex).Some?
    {
      if !hasContext || activeChord.None? {
        return;
      }
      var pitch := LegacyHarpMidi(activeChord.value, stringIndex);
      SoundingSnoc(events, HarpPluck(HarpBus, pitch));
      events := events + [HarpPluck(HarpBus, pitch)];
    }

    /** `stopAll()`: exactly `stopChord()`. */
    method StopAll()
      requires Valid()
      modifies this`chordOscillators, this`activeChord, this`events
      ensures Valid()
      ensures chordOscillators == [] && activeChord == None
      ensures events == old(events) + StopEvents(old(chordOscillators))
      ensures Sounding(events) == {}
    {
      StopChord();
    }
  }
}
