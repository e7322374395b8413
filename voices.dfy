/** The engine's audio output as an abstract trace: Web Audio node
    construction is replaced by events saying which voice started or
    stopped. Only chord voices are held; harp plucks and rhythm clicks stop
    themselves after their release time, so they never stay sounding. */
module Voices {
  import opened Wrappers

  /** The bus a harp pluck is routed to. */
  datatype Bus = HarpMainBus | HarpSubBus | HarpBus

  /** One chord oscillator: its identity and its MIDI pitch (`None` would be
      the NaN frequency of an unknown root, which `playChord` refuses). */
  datatype Voice = Voice(id: nat, pitch: Option<int>)

  datatype AudioEvent =
    | ChordVoiceStarted(voice: Voice)
    | ChordVoiceStopped(id: nat)
    | HarpPluck(bus: Bus, pitch: Option<int>)
    | RhythmClick(accent: bool)

  /** The effect of one event on the set of sounding chord voices. */
  function Step(sounding: set<nat>, e: AudioEvent): set<nat> {
    match e
    case ChordVoiceStarted(v) => sounding + {v.id}
    case ChordVoiceStopped(id) => sounding - {id}
    case _ => sounding
  }

  /** The chord voices a trace leaves sounding: started and not stopped since. */
  function Sounding(trace: seq<AudioEvent>): set<nat>
  {
    if trace == [] then {} else Step(Sounding(trace[..|trace| - 1]), trace[|trace| - 1])
  }

  /** Appending one event changes the sounding set by that event alone. */
  lemma SoundingSnoc(trace: seq<AudioEvent>, e: AudioEvent)
    ensures Sounding(trace + [e]) == Step(Sounding(trace), e)
  {
    assert (trace + [e])[..|trace|] == trace;
  }

  function Ids(vs: seq<Voice>): set<nat> {
    set i | 0 <= i < |vs| :: vs[i].id
  }

  function Pitches(vs: seq<Voice>): (ps: seq<Option<int>>)
    ensures |ps| == |vs|
    ensures forall i :: 0 <= i < |vs| ==> ps[i] == vs[i].pitch
  {
    seq(|vs|, i requires 0 <= i < |vs| => vs[i].pitch)
  }

  function StopEvents(vs: seq<Voice>): (es: seq<AudioEvent>)
    ensures |es| == |vs|
    ensures forall i :: 0 <= i < |vs| ==> es[i] == ChordVoiceStopped(vs[i].id)
  {
    seq(|vs|, i requires 0 <= i < |vs| => ChordVoiceStopped(vs[i].id))
  }

  function StartEvents(vs: seq<Voice>): (es: seq<AudioEvent>)
    ensures |es| == |vs|
    ensures forall i :: 0 <= i < |vs| ==> es[i] == ChordVoiceStarted(vs[i])
  {
    seq(|vs|, i requires 0 <= i < |vs| => ChordVoiceStarted(vs[i]))
  }

  /** Stopping a group of voices removes exactly their ids from the sounding set. */
  lemma {:induction false} SoundingAfterStops(trace: seq<AudioEvent>, vs: seq<Voice>)
    ensures Sounding(trace + StopEvents(vs)) == Sounding(trace) - Ids(vs)
    decreases |vs|
  {
    if vs == [] {
      assert trace + StopEvents(vs) == trace;
    } else {
      var init := vs[..|vs| - 1];
      SoundingAfterStops(trace, init);
      assert StopEvents(vs) == StopEvents(init) + [ChordVoiceStopped(vs[|vs| - 1].id)];
      assert trace + StopEvents(vs) == (trace + StopEvents(init)) + [ChordVoiceStopped(vs[|vs| - 1].id)];
      SoundingSnoc(trace + StopEvents(init), ChordVoiceStopped(vs[|vs| - 1].id));
      assert Ids(vs) == Ids(init) + {vs[|vs| - 1].id} by {
        forall x | x in Ids(vs) ensures x in Ids(init) + {vs[|vs| - 1].id} {
          var i :| 0 <= i < |vs| && vs[i].id == x;
          if i < |vs| - 1 { assert init[i] == vs[i]; }
        }
        forall x | x in Ids(init) ensures x in Ids(vs) {
          var i :| 0 <= i < |init| && init[i].id == x;
          assert vs[i] == init[i];
        }
      }
    }
  }

  /** Starting a group of voices adds exactly their ids to the sounding set. */
  lemma {:induction false} SoundingAfterStarts(trace: seq<AudioEvent>, vs: seq<Voice>)
    ensures Sounding(trace + StartEvents(vs)) == Sounding(trace) + Ids(vs)
    decreases |vs|
  {
    if vs == [] {
      assert trace + StartEvents(vs) == trace;
    } else {
      var init := vs[..|vs| - 1];
      SoundingAfterStarts(trace, init);
      assert StartEvents(vs) == StartEvents(init) + [ChordVoiceStarted(vs[|vs| - 1])];
      assert trace + StartEvents(vs) == (trace + StartEvents(init)) + [ChordVoiceStarted(vs[|vs| - 1])];
      SoundingSnoc(trace + StartEvents(init), ChordVoiceStarted(vs[|vs| - 1]));
      assert Ids(vs) == Ids(init) + {vs[|vs| - 1].id} by {
        forall x | x in Ids(vs) ensures x in Ids(init) + {vs[|vs| - 1].id} {
          var i :| 0 <= i < |vs| && vs[i].id == x;
          if i < |vs| - 1 { assert init[i] == vs[i]; }
        }
        forall x | x in Ids(init) ensures x in Ids(vs) {
          var i :| 0 <= i < |init| && init[i].id == x;
          assert vs[i] == init[i];
        }
      }
    }
  }

  /** The oscillator loop of `playChord`: one voice per note, numbered on
      from `firstId`, each started as it is created. */
  method StartChordVoices(notes: seq<Option<int>>, firstId: nat)
    returns (voices: seq<Voice>, started: seq<AudioEvent>)
    ensures |voices| == |notes| && Pitches(voices) == notes
    ensures forall j :: 0 <= j < |voices| ==> voices[j].id == firstId + j
    ensures started == StartEvents(voices)
  {
    voices, started := [], [];
    var i := 0;
    while i < |notes|
      invariant 0 <= i <= |notes|
      invariant |voices| == i
      invariant forall j :: 0 <= j < i ==> voices[j] == Voice(firstId + j, notes[j])
      invariant started == StartEvents(voices)
    {
      var v := Voice(firstId + i, notes[i]);
      assert StartEvents(voices + [v]) == StartEvents(voices) + [ChordVoiceStarted(v)];
      started := started + [ChordVoiceStarted(v)];
      voices := voices + [v];
      i := i + 1;
    }
  }

  /** The stopping loop of `stopChord`: every held oscillator is stopped,
      in order. */
  method StopChordVoices(oscs: seq<Voice>) returns (stopped: seq<AudioEvent>)
    ensures stopped == StopEvents(oscs)
  {
    stopped := [];
    var i := 0;
    while i < |oscs|
      invariant 0 <= i <= |oscs|
      invariant stopped == StopEvents(oscs[..i])
    {
      assert StopEvents(oscs[..i + 1]) == StopEvents(oscs[..i]) + [ChordVoiceStopped(oscs[i].id)];
      stopped := stopped + [ChordVoiceStopped(oscs[i].id)];
      i := i + 1;
    }
    assert oscs[..i] == oscs;
  }
}
