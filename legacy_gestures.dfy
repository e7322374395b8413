/** The older instrument page's gesture handling: one active chord released
    by any pointer, and a single strum state shared by every pointer, with a
    longer retrigger window. Engine and guide calls are recorded in order. */
module LegacyGestures {
  import opened Wrappers
  import opened MusicTheory
  import Gestures

  /** STRUM_RETRIGGER_MS of the older page. */
  const LegacyStrumRetriggerMs: real := 14.0

  /** A call made on the older engine (whose harp takes only the string
      index) or on the song guide. */
  datatype LegacyCall =
    | PlayChord(root: string, quality: string)
    | StopChord
    | PlayHarp(index: int)
    | StopAll
    | AdvanceGuide(chordKey: string)

  /** `state` of the older page, with the calls made so far. */
  class LegacyInstrument {
    var activeChordId: Option<string>
    var lastStrumString: Option<int>
    var lastStrumTime: real
    var strumStrings: int
    /** Whether a song guide is loaded (`state.guide` is set). */
    var guideLoaded: bool
    var calls: seq<LegacyCall>

    /** The page as loaded: no chord, no strum yet, 27 strings. */
    constructor (guideLoaded: bool)
      ensures activeChordId.None? && lastStrumString.None? && lastStrumTime == 0.0
      ensures strumStrings == Gestures.DefaultStrumStrings
      ensures this.guideLoaded == guideLoaded && calls == []
    {
      activeChordId := None;
      lastStrumString := None;
      lastStrumTime := 0.0;
      strumStrings := Gestures.DefaultStrumStrings;
      this.guideLoaded := guideLoaded;
      calls := [];
    }

    /** `stopChordIfNeeded`: with memory mode off, releasing the sounding
        chord's button stops it; anything else changes nothing. */
    method StopChordIfNeeded(controlId: string, memory: bool)
      modifies this`activeChordId, this`calls
      ensures !memory && old(activeChordId) == Some(controlId) ==>
        activeChordId.None? && calls == old(calls) + [StopChord]
      ensures memory || old(activeChordId) != Some(controlId) ==>
        activeChordId == old(activeChordId) && calls == old(calls)
    {
      if memory {
        return;
      }
      if activeChordId == Some(controlId) {
        calls := calls + [StopChord];
        activeChordId := None;
      }
    }

    /** `handleChordDown`: the pressed chord becomes the active one and is
        played; a loaded guide is then offered its key. */
    method HandleChordDown(control: Gestures.ChordControl)
      modifies this`activeChordId, this`calls
      ensures activeChordId == Some(control.id)
      ensures guideLoaded ==>
        calls == old(calls) + [PlayChord(control.root, control.quality), AdvanceGuide(Gestures.ChordKeyOf(control))]
      ensures !guideLoaded ==> calls == old(calls) + [PlayChord(control.root, control.quality)]
    {
      activeChordId := Some(control.id);
      calls := calls + [PlayChord(control.root, control.quality)];
      if guideLoaded {
        calls := calls + [AdvanceGuide(Gestures.ChordKeyOf(control))];
      }
    }

    /** `handleChordUp`: any release of the sounding chord's button stops it
        when memory mode is off; there is no pointer check. */
    method HandleChordUp(control: Gestures.ChordControl, memory: bool)
      modifies this`activeChordId, this`calls
      ensures !memory && old(activeChordId) == Some(control.id) ==>
        activeChordId.None? && calls == old(calls) + [StopChord]
      ensures memory || old(activeChordId) != Some(control.id) ==>
        activeChordId == old(activeChordId) && calls == old(calls)
    {
      StopChordIfNeeded(control.id, memory);
    }

    /** `handleStrumEvent`. Lifting or cancelling forgets the last string but
        keeps its time. Otherwise, within 14 ms of the last trigger nothing
        happens; outside it, the height is quantised to a string and, unless
        it is the last string sounded, that string alone is played and string
        and time are remembered. */
    method HandleStrumEvent(phase: Gestures.Phase, y: real, metaStrings: Option<int>, now: real)
      modifies this`lastStrumString, this`lastStrumTime, this`calls
      ensures phase == Gestures.Up || phase == Gestures.Cancel ==>
        lastStrumString.None? && lastStrumTime == old(lastStrumTime) && calls == old(calls)
      ensures phase != Gestures.Up && phase != Gestures.Cancel ==>
        var idx := Gestures.StringIndex(y, metaStrings.GetOr(strumStrings));
        if now - old(lastStrumTime) < LegacyStrumRetriggerMs || old(lastStrumString) == Some(idx) then
          lastStrumString == old(lastStrumString) && lastStrumTime == old(lastStrumTime) && calls == old(calls)
        else
          lastStrumString == Some(idx) && lastStrumTime == now && calls == old(calls) + [PlayHarp(idx)]
    {
      if phase == Gestures.Up || phase == Gestures.Cancel {
        lastStrumString := None;
        return;
      }
      if now - lastStrumTime < LegacyStrumRetriggerMs {
        return;
      }
      var strings := metaStrings.GetOr(strumStrings);
      var stringIndex := Gestures.StringIndex(y, strings);
      if Some(stringIndex) == lastStrumString {
        return;
      }
      lastStrumString := Some(stringIndex);
      lastStrumTime := now;
      calls := calls + [PlayHarp(stringIndex)];
    }

    /** `stopAll`: the engine stops everything once; the active chord and
        the last strum string are forgotten, the strum time is kept. */
    method StopEverything()
      modifies this`activeChordId, this`lastStrumString, this`calls
      ensures calls == old(calls) + [StopAll]
      ensures activeChordId.None? && lastStrumString.None?
    {
      calls := calls + [StopAll];
      activeChordId := None;
      lastStrumString := None;
    }
  }

  /** Two strum moves on the same string, far enough apart, sound it only
      once: the second is the last string sounded. */
  method RepeatedStringSoundsOnce(y: real, t: real)
    returns (played: seq<LegacyCall>)
    ensures played == [PlayHarp(Gestures.StringIndex(y, Gestures.DefaultStrumStrings))]
  {
    var inst := new LegacyInstrument(false);
    inst.lastStrumTime := t - 100.0;
    inst.HandleStrumEvent(Gestures.Move, y, None, t);
    inst.HandleStrumEvent(Gestures.Move, y, None, t + 100.0);
    played := inst.calls;
  }

  /** Lifting the pointer lets the same string sound again, once the window
      has passed since the last trigger. */
  method LiftThenRestrike(y: real, t: real)
    returns (played: seq<LegacyCall>)
    ensures played == [PlayHarp(Gestures.StringIndex(y, Gestures.DefaultStrumStrings)),
                       PlayHarp(Gestures.StringIndex(y, Gestures.DefaultStrumStrings))]
  {
    var inst := new LegacyInstrument(false);
    inst.lastStrumTime := t - 100.0;
    inst.HandleStrumEvent(Gestures.Move, y, None, t);
    inst.HandleStrumEvent(Gestures.Up, y, None, t + 1.0);
    inst.HandleStrumEvent(Gestures.Move, y, None, t + 20.0);
    played := inst.calls;
  }
}
