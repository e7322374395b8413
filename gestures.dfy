/** The instrument page's gesture handling: chord buttons held by a pointer,
    the strum plate with one retrigger state per pointer, toggles, buttons and
    knobs dragged by pointers, and the stop-all button. The audio engine and
    the song guide are seen only through the calls made on them, recorded in
    order. */
module Gestures {
  import opened Wrappers
  import opened JsMath
  import opened MusicTheory
  import opened Text

  /** STRUM_RETRIGGER_MS: a pointer's strum is ignored this soon after its
      last trigger. */
  const StrumRetriggerMs: real := 10.0
  /** STRUM_NEIGHBOR_RANGE: how many strings either side of the touched one
      also sound. */
  const StrumNeighborRange: int := 0
  /** The strum plate's string count before the overlay map says otherwise. */
  const DefaultStrumStrings: int := 27
  /** Pixels of vertical drag for a knob's full unit of travel. */
  const KnobDragPixels: real := 220.0

  /** A call made on the audio engine or on the song guide. Curves computed
      with `Math.pow` carry their argument rather than their value. */
  datatype Call =
    | PlayChord(root: string, quality: string)
    | StopChord
    | PlayHarp(index: int, strings: int)
    | StopAll
    | SetMasterVolume(gain: real)
    | SetChordVolume(gain: real)
    | SetHarpVolume(gain: real)
    | SetHarpSubVolume(gain: real)
    | SetHarpReleaseForKnob(t: real)
    | SetRhythmVolume(gain: real)
    | SetTempoForKnob(t: real)
    | SetRhythmEnabled(enabled: bool)
    | AdvanceGuide(chordKey: string)

  /** A chord button of the overlay. */
  datatype ChordControl = ChordControl(id: string, root: string, quality: string)

  datatype ControlKind = Toggle | Button | Knob | OtherControl

  /** A control of the overlay with its optional range and default. */
  datatype Control = Control(id: string, kind: ControlKind, default: Option<real>,
                             min: Option<real>, max: Option<real>)

  /** The phase of a strum-plate pointer event. */
  datatype Phase = Down | Move | Up | Cancel

  /** One pointer's strum state: the string it last sounded and when. */
  datatype StrumState = StrumState(lastString: Option<int>, lastTime: real)

  /** A pointer dragging a knob: which knob, where the drag began, the value
      then, and the knob's range. */
  datatype KnobDrag = KnobDrag(id: string, startY: real, startValue: real, min: real, max: real)

  /** `gainCurve01`: the square of the value clamped to [0, 1]; silent at
      or below 0, full at or above 1, and never above the knob position. */
  function GainCurve01(value: real): (g: real)
    ensures 0.0 <= g <= 1.0
    ensures value <= 0.0 ==> g == 0.0
    ensures value >= 1.0 ==> g == 1.0
    ensures 0.0 <= value <= 1.0 ==> g <= value
  {
    var v := Clamp(value, 0.0, 1.0);
    SquareOfUnit(v);
    v * v
  }

  /** Multiplying by a non-negative factor keeps order. */
  lemma MulLeq(c: real, a: real, b: real)
    requires 0.0 <= c && a <= b
    ensures c * a <= c * b
  {
    assert c * b - c * a == c * (b - a);
  }

  /** Squaring keeps [0, 1] inside itself and never raises a value there. */
  lemma SquareOfUnit(v: real)
    requires 0.0 <= v <= 1.0
    ensures 0.0 <= v * v <= v
  {
    MulLeq(v, v, 1.0);
    assert v * 1.0 == v;
    MulLeq(v, 0.0, v);
    assert v * 0.0 == 0.0;
  }

  /** Squaring is monotone on non-negative numbers. */
  lemma SquareMonotone(x: real, y: real)
    requires 0.0 <= x <= y
    ensures x * x <= y * y
  {
    MulLeq(x, x, y);
    MulLeq(y, x, y);
    assert y * x == x * y;
  }

  /** A louder knob setting never gives a quieter gain. */
  lemma GainCurveMonotone(a: real, b: real)
    requires a <= b
    ensures GainCurve01(a) <= GainCurve01(b)
  {
    ClampMonotone(a, b, 0.0, 1.0);
    SquareMonotone(Clamp(a, 0.0, 1.0), Clamp(b, 0.0, 1.0));
  }

  /** `Math.round` of a non-negative number: halves round up. */
  function RoundHalfUp(x: real): (n: int)
    ensures n as real - 0.5 <= x < n as real + 0.5
  {
    (x + 0.5).Floor
  }

  /** Over a positive denominator, a numerator of at least the denominator
      gives at least one, and a numerator of at most zero at most zero. */
  lemma QuotientBounds(a: real, b: real)
    requires b > 0.0
    ensures a >= b ==> a / b >= 1.0
    ensures a <= 0.0 ==> a / b <= 0.0
  {
    assert a / b * b == a;
  }

  /** The tenths shown on a knob: the value's position in its range (a range
      of width zero counting as one), clamped to [0, 1] and rounded to tenths. */
  function KnobTenths(value: real, min: real, max: real): (k: int)
    ensures 0 <= k <= 10
    ensures max > min && value <= min ==> k == 0
    ensures max > min && value >= max ==> k == 10
  {
    var range := if max - min == 0.0 then 1.0 else max - min;
    var normalized := (value - min) / range;
    assert max > min ==> (value >= max ==> normalized >= 1.0) && (value <= min ==> normalized <= 0.0) by {
      if max > min {
        QuotientBounds(value - min, range);
      }
    }
    RoundHalfUp(Clamp(normalized, 0.0, 1.0) * 10.0)
  }

  /** Over a proper range, turning the knob up never lowers its tenths. */
  lemma KnobTenthsMonotone(a: real, b: real, min: real, max: real)
    requires min < max && a <= b
    ensures KnobTenths(a, min, max) <= KnobTenths(b, min, max)
  {
    var range := max - min;
    assert (a - min) / range <= (b - min) / range;
    ClampMonotone((a - min) / range, (b - min) / range, 0.0, 1.0);
  }

  /** The knob's middle value reads 5/10. */
  lemma KnobTenthsExample()
    ensures KnobTenths(0.5, 0.0, 1.0) == 5
    ensures KnobTenths(0.04, 0.0, 1.0) == 0 && KnobTenths(0.05, 0.0, 1.0) == 1
  {
    assert Clamp(0.5, 0.0, 1.0) * 10.0 == 5.0;
    assert Clamp(0.04, 0.0, 1.0) * 10.0 == 0.4;
    assert Clamp(0.05, 0.0, 1.0) * 10.0 == 0.5;
  }

  /** `formatKnobRatio`: the knob's tenths as text, "<k>/10". */
  function FormatKnobRatio(value: real, min: real, max: real): (s: string)
    ensures |s| >= 4 && s[|s| - 3..] == "/10"
    ensures AllDigits(s[..|s| - 3]) && DigitsValue(s[..|s| - 3]) == KnobTenths(value, min, max)
  {
    var k := KnobTenths(value, min, max);
    var digits := NatToString(k);
    DigitsValueOfNatToString(k);
    assert (digits + "/10")[..|digits|] == digits;
    digits + "/10"
  }

  /** `overlayRootFromChord`: C#, D#, G# and A# are drawn with their flat
      names on the overlay; every other root keeps its spelling. */
  function OverlayRootFromChord(root: string): (r: string)
    ensures root !in {"C#", "D#", "G#", "A#"} ==> r == root
    ensures root in {"C#", "D#", "G#", "A#"} ==> r in FlatToSharp && FlatToSharp[r] == root
  {
    FlatTable();
    match root
    case "C#" => "Db"
    case "D#" => "Eb"
    case "G#" => "Ab"
    case "A#" => "Bb"
    case _ => root
  }

  /** Respelling a root for the overlay keeps its pitch: normalising either
      spelling gives the same root, and so the same MIDI number. */
  lemma OverlayRootKeepsPitch(root: string)
    ensures NormalizeRoot(OverlayRootFromChord(root)) == NormalizeRoot(root)
    ensures RootToMidi(NormalizeRoot(OverlayRootFromChord(root))) == RootToMidi(NormalizeRoot(root))
  {
  }

  /** Whether a setter call carries a level in [0, 1]: every gain is a
      squared knob position and every curve argument a clamped one. */
  predicate LevelInUnit(c: Call) {
    match c
    case SetMasterVolume(g) => 0.0 <= g <= 1.0
    case SetChordVolume(g) => 0.0 <= g <= 1.0
    case SetHarpVolume(g) => 0.0 <= g <= 1.0
    case SetHarpSubVolume(g) => 0.0 <= g <= 1.0
    case SetHarpReleaseForKnob(t) => 0.0 <= t <= 1.0
    case SetRhythmVolume(g) => 0.0 <= g <= 1.0
    case SetTempoForKnob(t) => 0.0 <= t <= 1.0
    case _ => false
  }

  /** The engine calls `applyControlValue` makes for a control: one setter,
      with its level in [0, 1], for each of the seven known knob ids, and
      nothing for any other id. */
  function ControlCalls(controlId: string, value: real): (cs: seq<Call>)
    ensures |cs| <= 1
    ensures cs != [] <==> controlId in KnownKnobs
    ensures forall c :: c in cs ==> LevelInUnit(c)
  {
    if controlId == "knob_master_volume" then [SetMasterVolume(GainCurve01(value))]
    else if controlId == "knob_chord_volume" then [SetChordVolume(GainCurve01(value))]
    else if controlId == "knob_strum_main" then [SetHarpVolume(GainCurve01(value))]
    else if controlId == "knob_strum_sub" then [SetHarpSubVolume(GainCurve01(value))]
    else if controlId == "knob_strum_sustain" then [SetHarpReleaseForKnob(Clamp(value, 0.0, 1.0))]
    else if controlId == "knob_rhythm_volume" then [SetRhythmVolume(GainCurve01(value))]
    else if controlId == "knob_rhythm_tempo" then [SetTempoForKnob(Clamp(value, 0.0, 1.0))]
    else []
  }

  /** A higher knob position never sends a lower volume. */
  lemma ControlCallsMonotone(controlId: string, a: real, b: real)
    requires a <= b && controlId in KnownKnobs
    ensures Level(ControlCalls(controlId, a)[0]) <= Level(ControlCalls(controlId, b)[0])
  {
    GainCurveMonotone(a, b);
    ClampMonotone(a, b, 0.0, 1.0);
  }

  /** The level a setter call carries. */
  function Level(c: Call): real {
    match c
    case SetMasterVolume(g) => g
    case SetChordVolume(g) => g
    case SetHarpVolume(g) => g
    case SetHarpSubVolume(g) => g
    case SetHarpReleaseForKnob(t) => t
    case SetRhythmVolume(g) => g
    case SetTempoForKnob(t) => t
    case _ => 0.0
  }

  /** The knob ids `applyControlValue` knows. */
  const KnownKnobs: set<string> :=
    {"knob_master_volume", "knob_chord_volume", "knob_strum_main", "knob_strum_sub",
     "knob_strum_sustain", "knob_rhythm_volume", "knob_rhythm_tempo"}

  /** Quantising a strum height: `clamp(floor(y * strings), 0, strings - 1)`
      (the lower bound wins when there are no strings). */
  function StringIndex(y: real, strings: int): (i: int)
    ensures strings >= 1 ==> 0 <= i <= strings - 1
    ensures strings < 1 ==> i == 0
    ensures 0.0 <= y && 0 <= strings && (y * strings as real).Floor < strings ==> i == (y * strings as real).Floor
  {
    assert 0.0 <= y && 0 <= strings ==> 0.0 <= y * strings as real;
    var raw := (y * strings as real).Floor;
    var upper := if strings - 1 < raw then strings - 1 else raw;
    if upper < 0 then 0 else upper
  }

  /** Higher on the plate never gives a lower string. */
  lemma StringIndexMonotone(y: real, y': real, strings: int)
    requires y <= y' && strings >= 0
    ensures StringIndex(y, strings) <= StringIndex(y', strings)
  {
    var s := strings as real;
    MulLeq(s, y, y');
    assert s * y == y * s && s * y' == y' * s;
    FloorMonotone(y * s, y' * s);
  }

  lemma FloorMonotone(a: real, b: real)
    requires a <= b
    ensures a.Floor <= b.Floor
  {
  }

  /** The harp calls of one strum cluster, for offsets `from` up to the
      neighbour range: one per offset whose string lies on the plate. */
  function Cluster(center: int, strings: int, from: int): (cs: seq<Call>)
    decreases StrumNeighborRange - from + 1
    ensures |cs| <= if from <= StrumNeighborRange then StrumNeighborRange - from + 1 else 0
    ensures forall c :: c in cs ==> c.PlayHarp? && 0 <= c.index < strings && c.strings == strings
  {
    if from > StrumNeighborRange then []
    else
      var idx := center + from;
      (if 0 <= idx < strings then [PlayHarp(idx, strings)] else []) + Cluster(center, strings, from + 1)
  }

  /** With no neighbours, a cluster on the plate is exactly the touched
      string, and a cluster off the plate is silent. */
  lemma ClusterIsOneString(center: int, strings: int)
    ensures 0 <= center < strings ==> Cluster(center, strings, -StrumNeighborRange) == [PlayHarp(center, strings)]
    ensures !(0 <= center < strings) ==> Cluster(center, strings, -StrumNeighborRange) == []
  {
    assert Cluster(center, strings, 1) == [];
  }

  /** The values stored by the overlay's knob set-up, knob after knob. */
  function KnobDefaults(values: map<string, real>, controls: seq<Control>): map<string, real>
    decreases |controls|
  {
    if controls == [] then values
    else KnobDefaults(KnobDefaultValue(values, controls[0]), controls[1..])
  }

  /** The stored values after one control's set-up: a knob gets its clamped
      default, anything else leaves them as they were. */
  function KnobDefaultValue(values: map<string, real>, c: Control): map<string, real> {
    if c.kind == Knob
    then values[c.id := Clamp(c.default.GetOr(0.5), c.min.GetOr(0.0), c.max.GetOr(1.0))]
    else values
  }

  /** The engine calls of one control's set-up. */
  function KnobDefaultCall(c: Control): seq<Call> {
    if c.kind == Knob then ControlCalls(c.id, c.default.GetOr(0.5)) else []
  }

  /** The engine calls made by the overlay's knob set-up, knob after knob. */
  function KnobDefaultCalls(controls: seq<Control>): seq<Call> {
    if controls == [] then []
    else KnobDefaultCall(controls[0]) + KnobDefaultCalls(controls[1..])
  }

  /** Unfolding the set-up by one control, in the middle of the list. */
  lemma KnobDefaultsStep(values: map<string, real>, controls: seq<Control>, i: nat)
    requires i < |controls|
    ensures KnobDefaults(values, controls[i..]) == KnobDefaults(KnobDefaultValue(values, controls[i]), controls[i + 1..])
    ensures KnobDefaultCalls(controls[i..]) == KnobDefaultCall(controls[i]) + KnobDefaultCalls(controls[i + 1..])
  {
    var tail := controls[i..];
    assert tail[0] == controls[i] && tail[1..] == controls[i + 1..];
  }

  /** After the set-up, exactly the knobs of the overlay have been given a
      value, besides the controls that had one. */
  lemma {:induction false} KnobDefaultsKeys(values: map<string, real>, controls: seq<Control>)
    ensures forall id :: id in KnobDefaults(values, controls) <==>
      id in values || exists k :: 0 <= k < |controls| && controls[k].kind == Knob && controls[k].id == id
    decreases |controls|
  {
    if controls != [] {
      var next := KnobDefaultValue(values, controls[0]);
      KnobDefaultsKeys(next, controls[1..]);
      forall id ensures id in KnobDefaults(values, controls) <==>
        id in values || exists k :: 0 <= k < |controls| && controls[k].kind == Knob && controls[k].id == id
      {
        if exists k :: 0 <= k < |controls[1..]| && controls[1..][k].kind == Knob && controls[1..][k].id == id {
          var k :| 0 <= k < |controls[1..]| && controls[1..][k].kind == Knob && controls[1..][k].id == id;
          assert controls[k + 1] == controls[1..][k];
        }
        if exists k :: 0 <= k < |controls| && controls[k].kind == Knob && controls[k].id == id {
          var k :| 0 <= k < |controls| && controls[k].kind == Knob && controls[k].id == id;
          if k > 0 {
            assert controls[1..][k - 1] == controls[k];
          }
        }
      }
    }
  }

  /** The set-up makes at most one engine call per control, and none for
      controls that are not knobs. */
  lemma {:induction false} KnobDefaultCallsBound(controls: seq<Control>)
    ensures |KnobDefaultCalls(controls)| <= |controls|
    ensures (forall k :: 0 <= k < |controls| ==> controls[k].kind != Knob) ==> KnobDefaultCalls(controls) == []
  {
    if controls != [] {
      KnobDefaultCallsBound(controls[1..]);
      if forall k :: 0 <= k < |controls| ==> controls[k].kind != Knob {
        assert forall k :: 0 <= k < |controls[1..]| ==> controls[1..][k] == controls[k + 1];
      }
    }
  }

  /** A chord button's key as the song guide spells it, "root:quality". */
  function ChordKeyOf(control: ChordControl): string {
    KeyText(control.root, control.quality)
  }

  /** `state` of the page and `rhythmEnabled`, with the calls made so far on
      the engine and the guide. */
  class Instrument {
    var activeChordId: Option<string>
    var activeChordPointerId: Option<int>
    var strumPointers: map<int, StrumState>
    var strumStrings: int
    var controlValues: map<string, real>
    var pointerControls: map<int, KnobDrag>
    /** Whether a song guide is loaded (`state.guide` is set). */
    var guideLoaded: bool
    var rhythmEnabled: bool
    var calls: seq<Call>

    /** A pointer holds a chord only while a chord is active, and every
        pointer dragging a knob drags one that has a stored value. */
    ghost predicate Valid()
      reads this
    {
      && (activeChordPointerId.Some? ==> activeChordId.Some?)
      && (forall p :: p in pointerControls ==> pointerControls[p].id in controlValues)
    }

    /** The page as loaded: nothing held, nothing sounding, rhythm off. */
    constructor (guideLoaded: bool)
      ensures Valid()
      ensures activeChordId.None? && activeChordPointerId.None?
      ensures strumPointers == map[] && pointerControls == map[] && controlValues == map[]
      ensures strumStrings == DefaultStrumStrings
      ensures this.guideLoaded == guideLoaded && !rhythmEnabled && calls == []
    {
      activeChordId := None;
      activeChordPointerId := None;
      strumPointers := map[];
      strumStrings := DefaultStrumStrings;
      controlValues := map[];
      pointerControls := map[];
      this.guideLoaded := guideLoaded;
      rhythmEnabled := false;
      calls := [];
    }

    /** `stopChordIfNeeded`: with memory mode off, releasing the sounding
        chord's button stops it; anything else changes nothing. */
    method StopChordIfNeeded(controlId: string, memory: bool)
      modifies this`activeChordId, this`calls
      ensures !memory && old(activeChordId) == Some(controlId) ==>
        activeChordId.None? && calls == old(calls) + [StopChord]
      ensures memory || old(activeChordId) != Some(controlId) ==>
        activeChordId == old(activeChordId) && calls == old(calls)
    {
      if memory {
        return;
      }
      if activeChordId == Some(controlId) {
        calls := calls + [StopChord];
        activeChordId := None;
      }
    }

    /** `handleChordDown`: the pressed chord becomes the active one, held by
        this pointer, and is played; a loaded guide is then offered its key. */
    method HandleChordDown(control: ChordControl, pointerId: int)
      requires Valid()
      modifies this`activeChordId, this`activeChordPointerId, this`calls
      ensures Valid()
      ensures activeChordId == Some(control.id) && activeChordPointerId == Some(pointerId)
      ensures guideLoaded ==> calls == old(calls) + [PlayChord(control.root, control.quality), AdvanceGuide(ChordKeyOf(control))]
      ensures !guideLoaded ==> calls == old(calls) + [PlayChord(control.root, control.quality)]
    {
      activeChordId := Some(control.id);
      activeChordPointerId := Some(pointerId);
      calls := calls + [PlayChord(control.root, control.quality)];
      if guideLoaded {
        calls := calls + [AdvanceGuide(ChordKeyOf(control))];
      }
    }

    /** `handleChordUp`: only the pointer holding the chord can release it;
        that release stops the chord if needed and frees the pointer. */
    method HandleChordUp(control: ChordControl, pointerId: int, memory: bool)
      requires Valid()
      modifies this`activeChordId, this`activeChordPointerId, this`calls
      ensures Valid()
      ensures old(activeChordPointerId) != Some(pointerId) ==>
        activeChordId == old(activeChordId) && activeChordPointerId == old(activeChordPointerId) &&
        calls == old(calls)
      ensures old(activeChordPointerId) == Some(pointerId) ==>
        activeChordPointerId.None? &&
        (!memory && old(activeChordId) == Some(control.id) ==> activeChordId.None? && calls == old(calls) + [StopChord]) &&
        (memory || old(activeChordId) != Some(control.id) ==> activeChordId == old(activeChordId) && calls == old(calls))
    {
      if activeChordPointerId != Some(pointerId) {
        return;
      }
      StopChordIfNeeded(control.id, memory);
      activeChordPointerId := None;
    }

    /** The overlay's set-up in `init`: the strum plate's string count, when
        it gives a non-zero one, and then every knob, in order, set to its
        default (0.5 when it has none) clamped to its range, with the
        unclamped default applied to the engine. */
    method LoadControls(controls: seq<Control>, plateStrings: Option<int>)
      requires Valid()
      modifies this`strumStrings, this`controlValues, this`calls
      ensures Valid()
      ensures plateStrings.Some? && plateStrings.value != 0 ==> strumStrings == plateStrings.value
      ensures plateStrings.None? || plateStrings.value == 0 ==> strumStrings == old(strumStrings)
      ensures controlValues == KnobDefaults(old(controlValues), controls)
      ensures calls == old(calls) + KnobDefaultCalls(controls)
    {
      if plateStrings.Some? && plateStrings.value != 0 {
        strumStrings := plateStrings.value;
      }
      for i := 0 to |controls|
        modifies this`controlValues, this`calls
        invariant Valid()
        invariant KnobDefaults(controlValues, controls[i..]) == KnobDefaults(old(controlValues), controls)
        invariant calls + KnobDefaultCalls(controls[i..]) == old(calls) + KnobDefaultCalls(controls)
      {
        KnobDefaultsStep(controlValues, controls, i);
        LoadKnob(controls[i]);
      }
    }

    /** One step of the set-up loop: a knob is given its clamped default and
        its unclamped default is applied; other controls are skipped. */
    method LoadKnob(control: Control)
      requires Valid()
      modifies this`controlValues, this`calls
      ensures Valid()
      ensures controlValues == KnobDefaultValue(old(controlValues), control)
      ensures calls == old(calls) + KnobDefaultCall(control)
    {
      if control.kind == Knob {
        var value := control.default.GetOr(0.5);
        var _ := SetControlValue(control.id, value, control.min.GetOr(0.0), control.max.GetOr(1.0));
        ApplyControlValue(control.id, value);
      }
    }

    /** `triggerStrumCluster`: plays the centre string and its neighbours
        that lie on the plate, lowest offset first. */
    method TriggerStrumCluster(center: int, strings: int)
      modifies this`calls
      ensures calls == old(calls) + Cluster(center, strings, -StrumNeighborRange)
    {
      var offset := -StrumNeighborRange;
      while offset <= StrumNeighborRange
        invariant offset <= StrumNeighborRange + 1
        invariant calls + Cluster(center, strings, offset) ==
          old(calls) + Cluster(center, strings, -StrumNeighborRange)
        decreases StrumNeighborRange - offset
      {
        var idx := center + offset;
        if 0 <= idx < strings {
          calls := calls + [PlayHarp(idx, strings)];
        }
        offset := offset + 1;
      }
    }

    /** `handleStrumEvent`. Lifting or cancelling a pointer forgets its strum
        state and plays nothing. Otherwise, within the retrigger window of the
        pointer's last trigger nothing happens; outside it, the height is
        quantised to a string and, if the pointer has not sounded that string
        last, the cluster is played and the pointer remembers string and time.
        Other pointers' state is never touched. */
    method HandleStrumEvent(phase: Phase, y: real, metaStrings: Option<int>, pointerId: int, now: real)
      modifies this`strumPointers, this`calls
      ensures phase == Up || phase == Cancel ==>
        strumPointers == old(strumPointers) - {pointerId} && calls == old(calls)
      ensures forall p :: p != pointerId ==>
        (p in strumPointers <==> p in old(strumPointers)) &&
        (p in strumPointers ==> strumPointers[p] == old(strumPointers)[p])
      ensures phase != Up && phase != Cancel ==>
        var last := if pointerId in old(strumPointers) then old(strumPointers)[pointerId] else StrumState(None, 0.0);
        var strings := metaStrings.GetOr(strumStrings);
        var idx := StringIndex(y, strings);
        if now - last.lastTime < StrumRetriggerMs || last.lastString == Some(idx) then
          strumPointers == old(strumPointers) && calls == old(calls)
        else
          strumPointers == old(strumPointers)[pointerId := StrumState(Some(idx), now)] &&
          calls == old(calls) + Cluster(idx, strings, -StrumNeighborRange)
    {
      if phase == Up || phase == Cancel {
        strumPointers := strumPointers - {pointerId};
        return;
      }
      var last := if pointerId in strumPointers then strumPointers[pointerId] else StrumState(None, 0.0);
      if now - last.lastTime < StrumRetriggerMs {
        return;
      }
      var strings := metaStrings.GetOr(strumStrings);
      var next := StringIndex(y, strings);
      if last.lastString.None? || next != last.lastString.value {
        strumPointers := strumPointers[pointerId := StrumState(Some(next), now)];
        TriggerStrumCluster(next, strings);
      }
    }

    /** `getControlValue`: the stored value, or `fallback`, which is stored
        first when the control has none. */
    method GetControlValue(controlId: string, fallback: real) returns (v: real)
      modifies this`controlValues
      ensures controlId in old(controlValues) ==> v == old(controlValues)[controlId]
      ensures controlId !in old(controlValues) ==> v == fallback
      ensures controlValues == old(controlValues)[controlId := v]
    {
      if controlId !in controlValues {
        controlValues := controlValues[controlId := fallback];
      }
      v := controlValues[controlId];
    }

    /** `setControlValue`: stores and returns the value clamped to the range. */
    method SetControlValue(controlId: string, value: real, min: real, max: real) returns (clamped: real)
      modifies this`controlValues
      ensures clamped == Clamp(value, min, max)
      ensures min <= max ==> min <= clamped <= max
      ensures controlValues == old(controlValues)[controlId := clamped]
    {
      clamped := Clamp(value, min, max);
      controlValues := controlValues[controlId := clamped];
    }

    /** `applyControlValue`. */
    method ApplyControlValue(controlId: string, value: real)
      modifies this`calls
      ensures calls == old(calls) + ControlCalls(controlId, value)
    {
      if controlId == "knob_master_volume" {
        calls := calls + [SetMasterVolume(GainCurve01(value))];
      }
      if controlId == "knob_chord_volume" {
        calls := calls + [SetChordVolume(GainCurve01(value))];
      }
      if controlId == "knob_strum_main" {
        calls := calls + [SetHarpVolume(GainCurve01(value))];
      }
      if controlId == "knob_strum_sub" {
        calls := calls + [SetHarpSubVolume(GainCurve01(value))];
      }
      if controlId == "knob_strum_sustain" {
        calls := calls + [SetHarpReleaseForKnob(Clamp(value, 0.0, 1.0))];
      }
      if controlId == "knob_rhythm_volume" {
        calls := calls + [SetRhythmVolume(GainCurve01(value))];
      }
      if controlId == "knob_rhythm_tempo" {
        calls := calls + [SetTempoForKnob(Clamp(value, 0.0, 1.0))];
      }
    }

    /** `handleControlDown`. A toggle flips between 0 and 1 (anything above
        0 counts as on; a toggle never set counts as 0), without applying the
        value. A knob binds the pointer to itself with the current value and
        its range. A button or other control changes no state. */
    method HandleControlDown(control: Control, pointerId: int, clientY: real)
      requires Valid()
      modifies this`controlValues, this`pointerControls
      ensures Valid()
      ensures control.kind == Toggle ==>
        var current := if control.id in old(controlValues) then old(controlValues)[control.id] else 0.0;
        controlValues == old(controlValues)[control.id := if current > 0.0 then 0.0 else 1.0] &&
        pointerControls == old(pointerControls)
      ensures control.kind == Knob ==>
        var current := if control.id in old(controlValues) then old(controlValues)[control.id]
                       else control.default.GetOr(0.5);
        controlValues == old(controlValues)[control.id := current] &&
        pointerControls == old(pointerControls)[pointerId :=
          KnobDrag(control.id, clientY, current, control.min.GetOr(0.0), control.max.GetOr(1.0))]
      ensures control.kind == Button || control.kind == OtherControl ==>
        controlValues == old(controlValues) && pointerControls == old(pointerControls)
    {
      if control.kind == Toggle {
        var current := GetControlValue(control.id, 0.0);
        var next := if current > 0.0 then 0.0 else 1.0;
        var _ := SetControlValue(control.id, next, 0.0, 1.0);
      } else if control.kind == Knob {
        var current := GetControlValue(control.id, control.default.GetOr(0.5));
        var drag := KnobDrag(control.id, clientY, current, control.min.GetOr(0.0), control.max.GetOr(1.0));
        pointerControls := pointerControls[pointerId := drag];
      }
    }

    /** `handleControlMove`: a knob dragged by the pointer bound to it takes
        the start value plus the upward drag over 220 pixels, clamped to its
        range, and the value is applied; any other move changes nothing. */
    method HandleControlMove(control: Control, pointerId: int, clientY: real)
      requires Valid()
      modifies this`controlValues, this`calls
      ensures Valid()
      ensures control.kind != Knob || pointerId !in pointerControls || pointerControls[pointerId].id != control.id ==>
        controlValues == old(controlValues) && calls == old(calls)
      ensures controlValues.Keys == old(controlValues).Keys
      ensures control.kind == Knob && pointerId in pointerControls && pointerControls[pointerId].id == control.id ==>
        var drag := pointerControls[pointerId];
        var next := Clamp(drag.startValue + (drag.startY - clientY) / KnobDragPixels, drag.min, drag.max);
        controlValues == old(controlValues)[control.id := next] &&
        calls == old(calls) + ControlCalls(control.id, next) &&
        (drag.min <= drag.max ==> drag.min <= next <= drag.max)
    {
      if control.kind != Knob {
        return;
      }
      if pointerId !in pointerControls || pointerControls[pointerId].id != control.id {
        return;
      }
      var drag := pointerControls[pointerId];
      var delta := (drag.startY - clientY) / KnobDragPixels;
      var next := SetControlValue(control.id, drag.startValue + delta, drag.min, drag.max);
      ApplyControlValue(control.id, next);
    }

    /** `handleControlUp`: releasing a knob unbinds the pointer; other
        controls change no state. */
    method HandleControlUp(control: Control, pointerId: int)
      requires Valid()
      modifies this`pointerControls
      ensures Valid()
      ensures control.kind == Knob ==> pointerControls == old(pointerControls) - {pointerId}
      ensures control.kind != Knob ==> pointerControls == old(pointerControls)
    {
      if control.kind == Knob {
        pointerControls := pointerControls - {pointerId};
      }
    }

    /** `stopAll`: the engine stops everything once, and no chord, strum or
        knob stays held. Stored control values are kept. */
    method StopEverything()
      requires Valid()
      modifies this`activeChordId, this`activeChordPointerId, this`strumPointers, this`pointerControls, this`calls
      ensures Valid()
      ensures calls == old(calls) + [StopAll]
      ensures activeChordId.None? && activeChordPointerId.None?
      ensures strumPointers == map[] && pointerControls == map[]
    {
      calls := calls + [StopAll];
      activeChordId := None;
      activeChordPointerId := None;
      strumPointers := map[];
      pointerControls := map[];
    }

    /** The rhythm button: flips the flag and tells the engine. */
    method ToggleRhythm()
      modifies this`rhythmEnabled, this`calls
      ensures rhythmEnabled == !old(rhythmEnabled)
      ensures calls == old(calls) + [SetRhythmEnabled(rhythmEnabled)]
    {
      rhythmEnabled := !rhythmEnabled;
      calls := calls + [SetRhythmEnabled(rhythmEnabled)];
    }
  }

  /** Two pointers on the same string at the same moment both sound it:
      each pointer has its own retrigger state. */
  method TwoPointersStrumIndependently(y: real, t: real) returns (played: seq<Call>)
    requires t >= StrumRetriggerMs
    ensures var i := StringIndex(y, DefaultStrumStrings);
      played == [PlayHarp(i, DefaultStrumStrings), PlayHarp(i, DefaultStrumStrings)]
  {
    var inst := new Instrument(false);
    ClusterIsOneString(StringIndex(y, DefaultStrumStrings), DefaultStrumStrings);
    inst.HandleStrumEvent(Down, y, None, 1, t);
    inst.HandleStrumEvent(Down, y, None, 2, t);
    played := inst.calls;
  }

  /** Lifting a pointer forgets its strum state entirely, so striking the
      same string again right away sounds it again. */
  method LiftAllowsImmediateRestrike(y: real, t: real) returns (played: seq<Call>)
    requires t >= StrumRetriggerMs
    ensures var i := StringIndex(y, DefaultStrumStrings);
      played == [PlayHarp(i, DefaultStrumStrings), PlayHarp(i, DefaultStrumStrings)]
  {
    var inst := new Instrument(false);
    ClusterIsOneString(StringIndex(y, DefaultStrumStrings), DefaultStrumStrings);
    inst.HandleStrumEvent(Down, y, None, 1, t);
    inst.HandleStrumEvent(Up, y, None, 1, t + 1.0);
    inst.HandleStrumEvent(Down, y, None, 1, t + 1.0);
    played := inst.calls;
  }

  /** A chord is released only by the pointer that pressed it: another
      pointer's release leaves it sounding. */
  method OtherPointerCannotRelease(control: ChordControl) returns (active: Option<string>, played: seq<Call>)
    ensures active == Some(control.id)
    ensures played == [PlayChord(control.root, control.quality)]
  {
    var inst := new Instrument(false);
    inst.HandleChordDown(control, 1);
    inst.HandleChordUp(control, 2, false);
    active := inst.activeChordId;
    played := inst.calls;
  }
}
