# OmniChord control layer in Dafny

A model of the control layer of the browser OmniChord: the audio engine's own bookkeeping, the song guide that follows a chord progression, the pointer-gesture handlers of the instrument page, and the song-entry logic of the songs page. There are two generations of the page and the engine, the current one under `public/src` and an older one under `src`. Both are modelled, each with its own constants.

Pitches are integer MIDI numbers rather than frequencies. The Web Audio graph is replaced by a trace of abstract audio events: a chord voice started, a chord voice stopped, a harp pluck, a rhythm click (module `Voices`). From that trace, `Voices.Sounding` computes which chord voices are still sounding.

The page handlers do not call the engine directly. Their calls on the engine and on the song guide are recorded, in order, in a `calls` field. Time (`performance.now()`, `Date.now()`) and the state of the memory toggle are parameters.

Modules, one per file:

- `Wrappers`: `Option` and `Result`.
- `JsMath`: JavaScript's `clamp` and `Math.round` on non-negative rationals.
- `Text`: string helpers as JavaScript defines them.
  - `trim` with JavaScript's white-space set.
  - ASCII `toLowerCase`.
  - `split` on a set of separator characters.
  - Decimal printing of naturals.
  - The subset of `Number()` the forms use.
- `MusicTheory`: the pure part of both engines.
  - Root normalisation and the `ROOT_TO_MIDI` table.
  - Chord intervals and chord notes.
  - `normalizeChordKey`.
  - The "note ladder" that both harp mappings climb.
- `Voices`: the audio-event trace, and the two loops that start and stop chord voices.
- `Engine`: the `AudioEngine` class of `public/src/audio/audioEngine.js`.
- `LegacyEngine`: the `AudioEngine` class of `src/audio/audioEngine.js`.
- `Songs`: the song and step records.
- `SongGuide`: `createSongGuide`, as a class over the guide's closure variables.
- `SongsPage`: the pure logic of the songs page: `parseSteps`, `slugify` and the unique-id probe.
- `SongStore`: the songs page's catalogue state (`merged`, `customSongs`, storage) and its handlers.
- `Gestures`: the instrument page of `public/src/app.js`.
- `LegacyGestures`: the instrument page of `src/app.js`.

## Model

| member | source | states |
|---|---|---|
| JsMath.Clamp | public/src/app.js:43-45 | With `min <= max` the result lies in `[min, max]`. A value already inside is returned unchanged. Below `min` it gives `min`; above `max` it gives `max`; when `min > max`, `max` wins. |
| JsMath.ClampMonotone | public/src/app.js:43-45 | Clamping never reverses the order of two values. |
| JsMath.RoundDiv | public/src/audio/audioEngine.js:245 | `Math.round(a/b)` for naturals: the result lies within one half of `a/b`, with halves rounding up. |
| JsMath.RoundDivMonotone | public/src/audio/audioEngine.js:245 | A larger numerator never rounds lower. |
| JsMath.RoundDivScaled | public/src/audio/audioEngine.js:245 | Rounding `s*t/m` for `s <= m` never exceeds `t`. It gives exactly `t` at `s == m` and 0 at `s == 0`. |
| Text.TrimStart | public/src/songs/songsPage.js:35 | The result is a suffix of the input that starts with no white space. |
| Text.TrimEnd | public/src/songs/songsPage.js:35 | The result is a prefix of the input that ends with no white space. |
| Text.TrimStartRemovesBlank | public/src/songs/songsPage.js:35 | What trimming the start removes is all white space. |
| Text.TrimEndRemovesBlank | public/src/songs/songsPage.js:35 | What trimming the end removes is all white space. |
| Text.Trim | public/src/songs/songsPage.js:35 | The trimmed string is a piece of the input that neither starts nor ends with white space. |
| Text.TrimEmptyIffBlank | public/src/songs/songsPage.js:35 | Trimming gives the empty string exactly when the input is all white space. This is the test `filter(Boolean)` makes after `trim`. |
| Text.TrimIdempotent | public/src/songs/songsPage.js:38 | Trimming twice is trimming once. |
| Text.ToLowerChar | public/src/songs/songsPage.js:28 | Upper-case ASCII letters move to lower case; every other character is kept. The result is never an upper-case letter. |
| Text.ToLower | public/src/audio/audioEngine.js:373 | Lower-casing works character by character and keeps the length. |
| Text.ToLowerIdempotent | public/src/audio/audioEngine.js:373 | Lower-casing twice is lower-casing once. |
| Text.ToLowerOfLower | public/src/audio/audioEngine.js:373 | A string with no upper-case letter is its own lower case. |
| Text.Split | public/src/songs/songsPage.js:38 | `split(/[,\|]/)`: there is always at least one piece, and no piece contains a separator. |
| Text.SplitJoin | public/src/songs/songsPage.js:35 | Joining the pieces of a split with the same separator gives back the input. |
| Text.SplitWithoutSeparator | public/src/songs/songsPage.js:38-39 | A string with no separator splits into itself alone. |
| Text.SplitAtFirst | public/src/songs/songsPage.js:35 | Splitting at the first separator gives the text before it, then the split of the rest. |
| Text.SplitOfBlankIsBlank | public/src/songs/songsPage.js:35 | Every piece of a blank string is blank. |
| Text.DigitChar | public/src/songs/songsPage.js:206 | A digit below ten is printed as its decimal character. |
| Text.NatToString | public/src/songs/songsPage.js:210 | A natural prints as a non-empty run of decimal digits. It has two or more digits exactly when it is at least 10. |
| Text.DigitsValueOfNatToString | public/src/songs/songsPage.js:210 | Reading back a printed natural gives the natural. |
| Text.NatToStringInjective | public/src/songs/songsPage.js:210 | Distinct naturals print differently. |
| Text.UnsignedDecimal | public/src/songs/songsPage.js:43 | A decimal read without a sign is never negative. |
| Text.NumberValue | public/src/songs/songsPage.js:196 | `Number()` of text whose trimmed form does not start with `-` is never negative. |
| Text.NumberValueOfBlank | public/src/songs/songsPage.js:196 | `Number()` of a blank string is 0, not NaN, so a blank tempo field is accepted. |
| Text.NumberValueOfNatToString | public/src/songs/songsPage.js:43 | `Number()` reads a printed natural back as that number. |
| MusicTheory.RootToMidi | public/src/audio/audioEngine.js:1-14 | A root has a MIDI number exactly when it is a key of `ROOT_TO_MIDI`. Every such number lies in the middle-C octave, 60 to 71. |
| MusicTheory.NormalizeRoot | public/src/audio/audioEngine.js:28-30 | A string that is not one of the five flats is returned unchanged. A result is never a flat. A normalised root is in the MIDI table exactly when the input was a table key or a flat. |
| MusicTheory.NormalizeRootFixesTable | public/src/audio/audioEngine.js:16-30 | Every key of `ROOT_TO_MIDI` is a fixed point of normalisation. |
| MusicTheory.FlatsSitBelowTheirLetter | public/src/audio/audioEngine.js:1-22 | Each flat normalises to the root one semitone below its letter. |
| MusicTheory.FlatTable | public/src/audio/audioEngine.js:16-22 | Db, Eb, Gb, Ab and Bb map to C#, D#, F#, G# and A#. |
| MusicTheory.TableSpellings | public/src/audio/audioEngine.js:1-14 | Every MIDI-table key is a letter, or a letter followed by `#`. |
| MusicTheory.FlatSpellings | public/src/audio/audioEngine.js:16-22 | Every flat-table key is a letter followed by `b`. |
| MusicTheory.NormalizeRootIdempotent | public/src/audio/audioEngine.js:28-30 | Normalising a root twice is normalising it once. |
| MusicTheory.Intervals | public/src/audio/audioEngine.js:32-36 | "min" gives `[0,3,7]` and "7" gives `[0,4,7,10]`. Any other quality, compared case-sensitively, gives `[0,4,7]`. Every result starts at 0, strictly ascends and stays below 12. |
| MusicTheory.ChordNotes | public/src/audio/audioEngine.js:197-202 | The chord has one note per interval, in interval order. Each note is the normalised root's MIDI number plus the interval, or no number when the root is unknown. |
| MusicTheory.ChordNotesAscending | public/src/audio/audioEngine.js:197-202 | For a known root, every note is pitched. The first note is the root; the notes rise strictly and stay within the octave above the root. |
| MusicTheory.ChordNotesEnharmonic | public/src/audio/audioEngine.js:197-202 | A flat root sounds the same notes as its sharp. |
| MusicTheory.ColonIndex | public/src/audio/audioEngine.js:371 | The position of the first `:`, or the length when there is none. Everything before it is colon-free. |
| MusicTheory.ParseChordKey | public/src/app.js:323-326 | `split(":")` destructured into root and quality. The root is the text up to the first colon. The quality is absent exactly when there is no colon; otherwise it is the text up to the next colon. |
| MusicTheory.ColonIndexOfKeyText | public/src/audio/audioEngine.js:371 | In `root:quality` with a colon-free root, the first colon sits right after the root. |
| MusicTheory.ColonIndexOfColonFree | public/src/audio/audioEngine.js:371 | A colon-free string has no colon position before its end. |
| MusicTheory.ParseKeyText | public/src/audio/audioEngine.js:371 | Splitting `root:quality` built from colon-free parts gives those parts back. |
| MusicTheory.NormalQuality | public/src/audio/audioEngine.js:373 | The quality is already lower case and equals the given quality up to case; a missing one becomes "maj". A colon-free quality stays colon-free. |
| MusicTheory.NormalizeChordKey | public/src/audio/audioEngine.js:370-375 | Parsing the normalised key gives back the normalised root and the normalised quality, so the result always has a quality. A key with no colon becomes its normalised root with ":maj". |
| MusicTheory.NormalizedPartsAreNormal | public/src/audio/audioEngine.js:370-375 | The parts of a normalised key are already normal: the root is fixed by normalisation and the quality by lower-casing. |
| MusicTheory.NormalizeChordKeyIdempotent | src/audio/audioEngine.js:138-143 | Normalising a chord key twice is normalising it once. The older engine's function is the same text. |
| MusicTheory.NormalizeKeyText | public/src/audio/audioEngine.js:370-375 | `root:quality` normalises to `normalizeRoot(root):lowercase(quality)`. |
| MusicTheory.NormalizeBareRoot | public/src/audio/audioEngine.js:373 | A key without a colon normalises to its root with quality "maj". |
| MusicTheory.NormalizeChordKeyEquivalence | public/src/audio/audioEngine.js:370-375 | Two keys whose roots normalise alike and whose qualities lower-case alike normalise to the same key. |
| MusicTheory.NormalizeDefaultsToMaj | public/src/audio/audioEngine.js:373 | A bare root and the same root with ":maj" are the same key. |
| MusicTheory.FlatKeyNormalizes | public/src/audio/audioEngine.js:370-375 | A key with a flat root normalises to its sharp with the lower-cased quality. |
| MusicTheory.DbMajIsCSharpMaj | public/src/audio/audioEngine.js:370-375 | "Db:MAJ" and "C#:maj" normalise to the same key, "C#:maj". |
| MusicTheory.LadderStrictlyIncreasing | src/audio/audioEngine.js:116-118 | Climbing a chord's intervals octave by octave gives strictly rising notes, because the intervals ascend and stay below 12. |
| MusicTheory.RungOrder | src/audio/audioEngine.js:116-117 | A later rung lies in a higher octave, or in the same octave at a higher interval. |
| MusicTheory.LadderMonotone | public/src/audio/audioEngine.js:246-248 | The ladder of notes never descends. |
| Voices.SoundingSnoc | public/src/audio/audioEngine.js:204-233 | One more event changes the sounding set by exactly that event's step. |
| Voices.SoundingAfterStops | public/src/audio/audioEngine.js:204-214 | Stopping a group of voices removes exactly their ids from the sounding set. |
| Voices.SoundingAfterStarts | public/src/audio/audioEngine.js:216-233 | Starting a group of voices adds exactly their ids to the sounding set. |
| Voices.StartChordVoices | public/src/audio/audioEngine.js:221-231 | The `frequencies.map` loop: one new voice per note, sounding that note, with consecutive ids from the next free one. The events are one start per voice, in order. |
| Voices.StopChordVoices | public/src/audio/audioEngine.js:205-211 | The `for (const osc of this.chordOscillators)` loop: one stop event per oscillator, in order. |
| Engine.MaxIndex | public/src/audio/audioEngine.js:243-244 | `max(max(totalStrings, 1) - 1, 1)`: at least 1, and the last string's index once there are two or more strings. |
| Engine.HarpNoteIndex | public/src/audio/audioEngine.js:245 | For a string index at most `MaxIndex`, the note index lies in `[0, totalNotes - 1]`. Index 0 gives 0, and the index `MaxIndex` gives `totalNotes - 1`; that index is the last string once there are two or more strings. |
| Engine.HarpRootMidi | public/src/audio/audioEngine.js:237-239 | The harp's root lies in 60..71. An unknown root falls back to 60. |
| Engine.HarpMappingBounds | public/src/audio/audioEngine.js:240-248 | For a string on the plate: the note index lies in `[0, 4n-1]` and the octave offset in `[0, 3]`. The pitch is `rootMidi - 24 + intervals[noteIndex mod n] + 12 * octaveOffset`, so every pluck lies in MIDI 36..93. |
| Engine.HarpMidiMonotone | public/src/audio/audioEngine.js:240-248 | A higher string never gives a lower harp pitch. |
| Engine.HarpMidiEnds | public/src/audio/audioEngine.js:240-248 | The first string plays the root two octaves down. The string at `MaxIndex` plays the chord's top interval one octave up; it is the last string once there are two or more strings. |
| Engine.AudioEngine.constructor | public/src/audio/audioEngine.js:115-140 | No context, no chord, no oscillators and no events yet. The volumes, release, tempo and rhythm fields start at the source's initial values. |
| Engine.AudioEngine.Enable | public/src/audio/audioEngine.js:142-191 | Afterwards there is a context. Creating it starts the rhythm, at step 0, when rhythm is enabled. A second call leaves the rhythm alone. |
| Engine.AudioEngine.StopChord | public/src/audio/audioEngine.js:204-214 | Every held oscillator is stopped, once and in order. Afterwards no oscillator is held, no chord is active and no chord voice is sounding, even when nothing was held before. |
| Engine.AudioEngine.PlayChord | public/src/audio/audioEngine.js:216-233 | Without a context nothing changes. Otherwise the previous group is stopped. A root with no MIDI number then fails (the NaN frequency throws), leaving no chord active and nothing sounding. A known root starts one voice per interval, sounding the chord's notes; the chord becomes active, and exactly the new group is sounding. |
| Engine.AudioEngine.PlayHarpFromChord | public/src/audio/audioEngine.js:235-269 | Without a context or an active chord nothing happens. Otherwise there are two plucks: the mapped pitch on the main bus, and an octave below on the sub bus. The held chord is untouched. The active root always has a MIDI number, so the fallback to 60 is never used. |
| Engine.AudioEngine.PlayRhythmTick | public/src/audio/audioEngine.js:276-291 | With a context there is one click, and the step counter rises by exactly 1. The click is accented exactly when the step before it is a multiple of 4. Without a context nothing changes. |
| Engine.AudioEngine.StartRhythm | public/src/audio/audioEngine.js:293-299 | With a context, the timer runs and the step counter is reset to 0. Without one nothing changes. The clock stays consistent with the rhythm setting when rhythm is enabled; a direct call while it is disabled breaks that consistency. |
| Engine.AudioEngine.StopRhythm | public/src/audio/audioEngine.js:301-306 | Afterwards no rhythm timer runs. |
| Engine.AudioEngine.SetMasterVolume | public/src/audio/audioEngine.js:308-313 | The master volume becomes the value. |
| Engine.AudioEngine.SetChordVolume | public/src/audio/audioEngine.js:315-320 | The chord volume becomes the value. |
| Engine.AudioEngine.SetHarpVolume | public/src/audio/audioEngine.js:322-327 | The harp main volume becomes the value. |
| Engine.AudioEngine.SetHarpSubVolume | public/src/audio/audioEngine.js:329-334 | The harp sub volume becomes the value. |
| Engine.AudioEngine.SetHarpReleaseSeconds | public/src/audio/audioEngine.js:336-338 | The harp release time becomes the value. |
| Engine.AudioEngine.SetTempoMultiplier | public/src/audio/audioEngine.js:340-345 | The multiplier becomes the value. The rhythm restarts from step 0 only when it is enabled and there is a context; otherwise the timer and the step are untouched. |
| Engine.AudioEngine.SetRhythmVolume | public/src/audio/audioEngine.js:347-352 | The rhythm volume becomes the value. |
| Engine.AudioEngine.SetRhythmEnabled | public/src/audio/audioEngine.js:354-363 | The flag becomes the value. Disabling stops the timer and keeps the step. Enabling with a context restarts from step 0. Enabling without a context leaves the timer and the step as they were. |
| Engine.AudioEngine.StopAll | public/src/audio/audioEngine.js:365-367 | Exactly the effect of `StopChord`. |
| LegacyEngine.LegacyHarpMidi | src/audio/audioEngine.js:110-118 | String `i` has a pitch exactly when the chord's root is known. The pitch is `rootMidi + intervals[i mod n] + 12 * floor(i / n)`. |
| LegacyEngine.LegacyHarpStrictlyIncreasing | src/audio/audioEngine.js:112-118 | A higher string always gives a strictly higher pitch. |
| LegacyEngine.LegacyHarpFirstOctaveIsChord | src/audio/audioEngine.js:112-116 | The first `n` strings sound the chord's own notes. |
| LegacyEngine.AudioEngine.constructor | src/audio/audioEngine.js:39-46 | No context, no chord, no oscillators and no events. |
| LegacyEngine.AudioEngine.Enable | src/audio/audioEngine.js:48-66 | Afterwards there is a context. |
| LegacyEngine.AudioEngine.StopChord | src/audio/audioEngine.js:79-89 | Every held oscillator is stopped, in order. Afterwards none is held, no chord is active and nothing is sounding. |
| LegacyEngine.AudioEngine.PlayChord | src/audio/audioEngine.js:91-108 | Without a context nothing changes. Otherwise the old group is stopped. A root with no MIDI number then fails (the NaN frequency throws), leaving no chord active. A known root gets one voice per interval, sounding the chord's notes, and the chord becomes active. |
| LegacyEngine.AudioEngine.PlayHarpFromChord | src/audio/audioEngine.js:110-131 | Without a context or an active chord nothing happens. Otherwise there is one pluck at the string's pitch on the harp bus, and that pitch is always defined. |
| LegacyEngine.AudioEngine.StopAll | src/audio/audioEngine.js:133-135 | Exactly the effect of `StopChord`. |
| SongGuide.StepDuration | public/src/songs/songGuide.js:38-39 | With a positive tempo and positive beats, a step lasts a positive time. |
| SongGuide.Progress | public/src/songs/songGuide.js:36-42 | The ratio lies in `[0, 1]`. It is 0 before any time has passed, and 1 once the step's duration has elapsed. |
| SongGuide.ProgressMonotone | public/src/songs/songGuide.js:36-42 | Progress never falls as time passes. |
| SongGuide.ProgressProportional | public/src/songs/songGuide.js:40-41 | Within the step, progress is exactly the elapsed fraction of its duration. |
| SongGuide.ProgressExample | public/src/songs/songGuide.js:36-42 | At 120 bpm a two-beat step lasts 1000 ms and is half done after 500 ms. |
| SongGuide.Guide.constructor | public/src/songs/songGuide.js:3-5 | The cursor starts at step 0, timed from the given moment, with no notification yet. |
| SongGuide.Guide.CurrentStep | public/src/songs/songGuide.js:7-9 | There is a current step exactly when the song has steps. It is the step under the cursor. |
| SongGuide.Guide.GetProgress | public/src/songs/songGuide.js:36-42 | The ratio lies in `[0, 1]`. It is 0 at or before the step's start, and 1 once the current step's duration has elapsed. |
| SongGuide.Guide.Advance | public/src/songs/songGuide.js:11-24 | Below the last step the cursor moves up by 1. At the last step it wraps to 0 with loop on, or returns false with nothing changed. On a move the step's start time is now, and one notification with the new step is sent when there is a callback. |
| SongGuide.Guide.AdvanceIfMatches | public/src/songs/songGuide.js:26-34 | The guide advances exactly when the current step's chord and the played key normalise alike. On a mismatch the result is false and nothing changes. A song without steps is an error, and nothing changes. When it moves, the callback (if any) is notified once with the new step and index. |
| SongsPage.MapLines | public/src/songs/songsPage.js:35 | `map` keeps one result per line. |
| SongsPage.MapLinesIndex | public/src/songs/songsPage.js:35 | The `k`-th result is the function applied to the `k`-th line. |
| SongsPage.MapLinesAppend | public/src/songs/songsPage.js:35 | Mapping distributes over concatenation. |
| SongsPage.DropEmpty | public/src/songs/songsPage.js:35 | `filter(Boolean)` keeps no empty line and never adds one. |
| SongsPage.NonBlankLines | public/src/songs/songsPage.js:35 | The lines kept are the trimmed lines, none of them empty. |
| SongsPage.Fields | public/src/songs/songsPage.js:38 | A line has at least one field. |
| SongsPage.ParseLine | public/src/songs/songsPage.js:38-47 | A refused line is reported as `Invalid step: <line>`. An accepted line gives a step with a non-empty chord and positive beats. |
| SongsPage.ParseLineAccepts | public/src/songs/songsPage.js:38-47 | A line is accepted exactly when it has two or more fields, a non-empty first field, and a second field `Number()` reads as positive. The step is then the first field and that number. |
| SongsPage.FieldsAreClean | public/src/songs/songsPage.js:38 | Every field is already trimmed and contains neither `,` nor `\|`. |
| SongsPage.ParseEachIndex | public/src/songs/songsPage.js:37-48 | The `k`-th result is the parse of the `k`-th line. |
| SongsPage.Collect | public/src/songs/songsPage.js:37-48 | On success there is one step per line, each that line's parse. On failure the error is some line's own error. |
| SongsPage.CollectFailureSticks | public/src/songs/songsPage.js:37-48 | Once a line has failed, later lines do not change the error: the first failure is thrown. |
| SongsPage.CollectSucceeds | public/src/songs/songsPage.js:37-48 | When every line parses, the whole input does. |
| SongsPage.ParseErrorNamesALine | public/src/songs/songsPage.js:37-52 | An error from non-empty input names one of its lines, and is never the empty-progression error. |
| SongsPage.StepsOfLinesFacts | public/src/songs/songsPage.js:34-53 | A successful parse is non-empty and has one step per kept line, in input order, each that line's parse. The empty-progression error comes exactly when no line is kept. |
| SongsPage.ParseSteps | public/src/songs/songsPage.js:34-53 | `parseSteps` equals the line-by-line specification. |
| SongsPage.ParseLines | public/src/songs/songsPage.js:36-48 | The `for` loop with `push` collects the parses, stopping at the first error. |
| SongsPage.CollectFirstFailure | public/src/songs/songsPage.js:37-46 | The loop stops at the first failing line: the outcome is that line's error. |
| SongsPage.FirstInvalidLineReported | public/src/songs/songsPage.js:37-46 | When the first `k` lines parse and line `k` does not, the error names line `k`. |
| SongsPage.DropEmptyAppend | public/src/songs/songsPage.js:35 | Filtering distributes over concatenation. |
| SongsPage.BlankLineIgnored | public/src/songs/songsPage.js:35 | Inserting a white-space-only line changes neither the kept lines nor the parse. |
| SongsPage.SplitAroundBlank | public/src/songs/songsPage.js:35 | Two separators around a separator-free piece split into the text before, that piece, and the split of the rest. |
| SongsPage.EmptyPieceDropped | public/src/songs/songsPage.js:35 | A piece that maps to the empty string is dropped by the filter. |
| SongsPage.BlankInputRejected | public/src/songs/songsPage.js:49-52 | Input that is all white space keeps no line and is the "Add at least one chord line." error. |
| SongsPage.DropEmptyOfEmpties | public/src/songs/songsPage.js:35 | A list of empty lines filters to nothing. |
| SongsPage.SkipRun | public/src/songs/songsPage.js:30 | Skipping a run leaves a suffix that starts with `[a-z0-9]`, or nothing. |
| SongsPage.CollapseRuns | public/src/songs/songsPage.js:30 | The result uses only `[a-z0-9-]` and never two `-` in a row. It is empty only for empty input, and keeps a leading `[a-z0-9]` character. |
| SongsPage.StripDashes | public/src/songs/songsPage.js:31 | Dropping a dash at each end turns a dashed string into a slug. |
| SongsPage.Slugify | public/src/songs/songsPage.js:26-32 | The slug contains only `[a-z0-9-]`, has no two consecutive `-`, and neither starts nor ends with `-`. |
| SongsPage.CollapseRunsOfDashed | public/src/songs/songsPage.js:30 | The run replacement leaves a dashed string unchanged. |
| SongsPage.SlugIsFixedPoint | public/src/songs/songsPage.js:26-32 | A slug is its own slug. |
| SongsPage.DashedIsLower | public/src/songs/songsPage.js:28 | A dashed string is its own lower case. |
| SongsPage.DashedIsTrimmed | public/src/songs/songsPage.js:29 | A dashed string is its own trim. |
| SongsPage.SlugifyIdempotent | public/src/songs/songsPage.js:26-32 | Slugifying twice is slugifying once. |
| SongsPage.CandidatesDistinct | public/src/songs/songsPage.js:210 | `id-i` never equals `id`, and distinct counters give distinct candidates. |
| SongsPage.UniqueId | public/src/songs/songsPage.js:207-212 | The result is not taken. It is `id` itself when that is free; otherwise `id-i` for the smallest `i >= 1` not already taken. |
| SongsPage.NextCandidateUntried | public/src/songs/songsPage.js:209-211 | The next candidate probed has not been probed before, so the loop makes progress. |
| SongStore.Overlay | public/src/songs/songsPage.js:159-162 | The ids after the merge are the old ids plus the imported ones. |
| SongStore.OverlayEntries | public/src/songs/songsPage.js:159-162 | Each imported id holds its song flagged custom. Every other id is kept as it was. |
| SongStore.OverlayCompose | public/src/songs/songsPage.js:110-112 | Merging nothing changes nothing. Two merges in a row are one merge of the combined table, with the later one winning. |
| SongStore.MirrorsInsert | public/src/songs/songsPage.js:214-216 | Adding one song to both tables keeps the catalogue's custom entries in step with the custom songs. |
| SongStore.OverlayKeepsMirror | public/src/songs/songsPage.js:159-162 | An import keeps the catalogue's custom entries in step with the custom songs. |
| SongStore.OverlayOne | public/src/songs/songsPage.js:161 | Writing one more custom entry is merging a table with one more song. |
| SongStore.MarkCustom | public/src/songs/songsPage.js:110-112 | The `Object.entries` loop, over the ids in any order, performs exactly the merge. |
| SongStore.BaseOnly | public/src/songs/songsPage.js:249-253 | What remains holds no custom entry and no new id. |
| SongStore.BaseOnlyEntries | public/src/songs/songsPage.js:249-253 | An entry survives exactly when it is not custom, and it survives unchanged. |
| SongStore.BaseId | public/src/songs/songsPage.js:205-206 | The first id offered is never empty: the title's slug, or `song-<now>` when the slug is empty. |
| SongStore.Draft | public/src/songs/songsPage.js:194-203 | An accepted song's title is the trimmed title input. |
| SongStore.DraftFacts | public/src/songs/songsPage.js:194-203 | A form is accepted exactly when its steps parse and its title, meter and tempo are filled. A steps error is reported before a form error. An accepted song has a trimmed non-blank title and meter, the loop flag, and a non-empty list of steps with chords and positive beats. |
| SongStore.PrepareSong | public/src/songs/songsPage.js:194-203 | The handler's reading of the form gives exactly the draft. |
| SongStore.AfterRemoval | public/src/songs/songsPage.js:114-131 | Only the page-load handler hands on a working handler, and the one it hands on is the single-use one. |
| SongStore.SongLibrary.constructor | public/src/songs/songsPage.js:107-131 | The catalogue is the base songs with every saved custom song merged over them, flagged custom. Admins get Remove buttons, wired to the page-load handler. |
| SongStore.SongLibrary.Import | public/src/songs/songsPage.js:155-172 | Anything but a table of songs is refused with "Invalid JSON format." and nothing changes. A table is merged into the custom songs and the catalogue, flagged custom, and saved. Ids not imported are unchanged. Remove buttons then work once. |
| SongStore.SongLibrary.Remove | public/src/songs/songsPage.js:124-126 | The song leaves both the custom songs and the catalogue, and the custom songs are saved. |
| SongStore.SongLibrary.ClickRemove | public/src/songs/songsPage.js:77-82 | A click removes the song exactly when its card has a Remove button (a custom song, deletion allowed) and a handler is installed. The handler is then replaced by the one its re-render installs. Otherwise nothing changes. |
| SongStore.SongLibrary.ClearAll | public/src/songs/songsPage.js:246-254 | Storage is emptied. Exactly the custom entries leave the catalogue; every other entry is unchanged. The in-memory custom songs stay as they were. No Remove buttons are drawn afterwards. |
| SongStore.SongLibrary.Submit | public/src/songs/songsPage.js:190-225 | A refused form reports its error and changes nothing. An accepted song is stored under an id that was free, in both tables, and saved. The catalogue grows by one. The id is the base id when it was free, and otherwise `<base>-<i>` for the smallest `i >= 1` not in the catalogue. Remove buttons then work once. |
| SongStore.SongLibrary.Accept | public/src/songs/songsPage.js:205-225 | The song is saved under an id the catalogue lacked: the base id when it was free, otherwise `<id>-<i>` for the smallest `i >= 1` not in the catalogue. The catalogue grows by one, and Remove buttons then work once. |
| SongStore.SongLibrary.Render | public/src/songs/songsPage.js:55-83 | The catalogue is drawn again with the given `allowDelete` and `onRemove`. |
| SongStore.SongLibrary.Store | public/src/songs/songsPage.js:214-216 | One song is saved under the id in memory, in storage and in the catalogue, flagged custom. |
| Gestures.GainCurve01 | public/src/app.js:47-50 | The gain lies in `[0, 1]`. It is 0 at or below 0, 1 at or above 1, and never above the knob position in between. |
| Gestures.SquareOfUnit | public/src/app.js:49 | Squaring keeps `[0, 1]` and never raises a value there. |
| Gestures.GainCurveMonotone | public/src/app.js:47-50 | Turning a knob up never lowers its gain. |
| Gestures.RoundHalfUp | public/src/app.js:190 | `Math.round` lands within one half of its argument, with halves rounding up. |
| Gestures.KnobTenths | public/src/app.js:187-190 | The tenths lie in 0..10. Over a proper range (min < max): 0 at or below the minimum, 10 at or above the maximum. A zero-width range counts as width 1. |
| Gestures.KnobTenthsMonotone | public/src/app.js:187-190 | Over a proper range, a higher value never shows fewer tenths. |
| Gestures.KnobTenthsExample | public/src/app.js:187-190 | The middle of the range reads 5/10. 0.04 reads 0 and 0.05 reads 1. |
| Gestures.FormatKnobRatio | public/src/app.js:187-192 | The text is a run of digits followed by "/10", and the digits read back as the knob's tenths. |
| Gestures.OverlayRootFromChord | public/src/app.js:328-336 | C#, D#, G# and A# become the flat spelling that normalises back to them; every other root keeps its spelling. |
| Gestures.OverlayRootKeepsPitch | public/src/app.js:328-336 | The overlay's flat spelling normalises back to the same root, so it has the same MIDI number. |
| Gestures.ControlCalls | public/src/app.js:223-245 | Each of the seven known knob ids makes one setter call, carrying a level in `[0, 1]`. Any other id makes none. |
| Gestures.ControlCallsMonotone | public/src/app.js:223-245 | A higher knob position never sends a lower level. |
| Gestures.StringIndex | public/src/app.js:161-162 | With one or more strings, the index lies in `[0, strings - 1]`; with none it is 0. Inside the plate it is `floor(y * strings)`. |
| Gestures.StringIndexMonotone | public/src/app.js:161-162 | Higher on the plate never gives a lower string. |
| Gestures.Cluster | public/src/app.js:131-137 | Every cluster call plucks a string that lies on the plate. There is at most one call per offset. |
| Gestures.ClusterIsOneString | public/src/app.js:131-137 | With a neighbour range of 0, a cluster on the plate is exactly the touched string. Off the plate it is silent. |
| Gestures.KnobDefaultsStep | public/src/app.js:428-433 | The set-up over a list is one control's set-up followed by the rest's. |
| Gestures.KnobDefaultsKeys | public/src/app.js:428-433 | After the set-up, exactly the knobs of the overlay have been given a value, besides the controls that had one. |
| Gestures.KnobDefaultCallsBound | public/src/app.js:428-433 | The set-up makes at most one engine call per control, and none when there is no knob. |
| Gestures.Instrument.constructor | public/src/app.js:29-41 | Nothing held, no strum or knob state, 27 strings, rhythm off, and no calls. |
| Gestures.Instrument.StopChordIfNeeded | public/src/app.js:99-106 | With memory off, releasing the active chord's button stops it once and clears it. Anything else changes nothing. |
| Gestures.Instrument.HandleChordDown | public/src/app.js:112-123 | The chord becomes active, owned by this pointer, and is played. A loaded guide is then offered its key. |
| Gestures.Instrument.HandleChordUp | public/src/app.js:125-129 | A pointer other than the owner changes nothing. The owner frees the chord pointer, and stops the chord exactly when memory is off and the chord is active. |
| Gestures.Instrument.LoadControls | public/src/app.js:423-433 | The plate's string count is taken when it is non-zero. Every knob, in order, stores its default clamped to its range, and applies the unclamped default to the engine. |
| Gestures.Instrument.LoadKnob | public/src/app.js:429-432 | One set-up step: a knob stores its clamped default and applies its default. Any other control is skipped. |
| Gestures.Instrument.TriggerStrumCluster | public/src/app.js:131-137 | The loop plays the cluster's strings on the plate, lowest offset first. |
| Gestures.Instrument.HandleStrumEvent | public/src/app.js:139-171 | Up or cancel drops only this pointer's strum state and plays nothing. Within the pointer's retrigger window, or on the string it sounded last, nothing changes. Otherwise the cluster plays and this pointer alone records string and time. Other pointers are never touched. |
| Gestures.Instrument.GetControlValue | public/src/app.js:173-178 | The result is the stored value, or the fallback, which is stored first when nothing was stored. |
| Gestures.Instrument.SetControlValue | public/src/app.js:180-185 | Stores and returns the clamped value, which lies in the range. |
| Gestures.Instrument.ApplyControlValue | public/src/app.js:223-245 | Makes exactly the setter calls for the control id. |
| Gestures.Instrument.HandleControlDown | public/src/app.js:247-270 | A toggle flips a positive value to 0 and anything else to 1, without applying it. A knob binds this pointer to itself with its current value and range. Other controls change nothing. |
| Gestures.Instrument.HandleControlMove | public/src/app.js:272-285 | For the knob bound to this pointer, the value becomes the start value plus the upward drag over 220 pixels, clamped to the range, and is applied. Any other move changes nothing. A drag only overwrites a stored value, so the set of stored controls never grows. |
| Gestures.Instrument.HandleControlUp | public/src/app.js:287-295 | Releasing a knob unbinds only this pointer. Other controls change nothing. |
| Gestures.Instrument.StopEverything | public/src/app.js:297-305 | The engine stops everything exactly once. No chord, chord pointer, strum pointer or knob binding remains. Stored values are kept. |
| Gestures.Instrument.ToggleRhythm | public/src/app.js:461-468 | The flag flips and the engine is told the new value. |
| Gestures.TwoPointersStrumIndependently | public/src/app.js:151-170 | Two pointers on the same string at the same moment both sound it. |
| Gestures.LiftAllowsImmediateRestrike | public/src/app.js:143-170 | After a lift, the same pointer sounds the same string again at once. |
| Gestures.OtherPointerCannotRelease | public/src/app.js:125-129 | A release by another pointer leaves the chord active and stops nothing. |
| LegacyGestures.LegacyInstrument.constructor | src/app.js:25-33 | No chord, no strum yet (time 0), 27 strings, and no calls. |
| LegacyGestures.LegacyInstrument.StopChordIfNeeded | src/app.js:58-65 | With memory off, releasing the active chord's button stops it once and clears it. Anything else changes nothing. |
| LegacyGestures.LegacyInstrument.HandleChordDown | src/app.js:71-81 | The chord becomes active and is played. A loaded guide is then offered its key. |
| LegacyGestures.LegacyInstrument.HandleChordUp | src/app.js:83-85 | Any release of the active chord's button stops it when memory is off. There is no pointer check. |
| LegacyGestures.LegacyInstrument.HandleStrumEvent | src/app.js:87-108 | Up or cancel forgets the last string, keeps its time and plays nothing. Within 14 ms of the last trigger, or on the last string, nothing changes. Otherwise exactly one pluck plays, and string and time are recorded. |
| LegacyGestures.LegacyInstrument.StopEverything | src/app.js:110-116 | The engine stops everything once. The active chord and the last string are cleared. |
| LegacyGestures.RepeatedStringSoundsOnce | src/app.js:98-102 | Two strums on the same string, well apart in time, sound it only once. |
| LegacyGestures.LiftThenRestrike | src/app.js:87-106 | After a lift, the same string sounds again once the window has passed. |

## Left out

- The Web Audio graph is not modelled: gains, filters, the delay and feedback send, the stereo panner, parameter ramps, and start and stop timestamps. It is replaced by the abstract event trace. The harp's velocities, sustain, brightness and pan values are therefore not represented.
- `midiToFrequency`, `tempoCurve01`, `sustainSeconds01` and `getRhythmIntervalMs` are floating-point curves. Pitches are MIDI numbers; a sub-octave pluck at half the frequency is the pitch 12 below. The knob calls record the clamped curve argument in place of the curve's value.
- Asynchronous `enable()` and `ctx.resume()` are left out, and so are the timers: the `setTimeout` voice clean-up, `setInterval` for the rhythm, and `requestAnimationFrame`. The rhythm timer is a flag, so a tick happens only when the caller invokes `PlayRhythmTick`. `performance.now()` and `Date.now()` are parameters. `isReady` is not modelled.
- These are left out: `fetch`, `localStorage` (modelled as the `stored` field), `JSON.parse` and `JSON.stringify`, `Blob` and `URL` export, logout, DOM updates and status text. Of `renderSongs` only the Remove-button wiring (`allowDelete` and `onRemove`) is modelled. An imported file is modelled after parsing, as a table of songs or anything else.
- SongStore.SongLibrary.Import: a `null` import counts as "not a table" here. In the page it passes the type check and fails later in `Object.entries`, with a different message and also with no change.
- Text.ToLower: lower-cases ASCII letters only; JavaScript's full Unicode case mapping is not modelled.
- Text.NumberValue: reads optional white space, an optional sign, and a decimal with an optional fraction. A blank string is 0. Hexadecimal, exponents, `Infinity` and the other `Number()` forms are not modelled, so such input is refused where JavaScript would accept it.
- JsMath.RoundDiv: exact rational rounding. The floating-point rounding of `stringIndex / maxIndex * (totalNotes - 1)` before `Math.round` is not modelled.
- JavaScript's prototype keys are not modelled. For example, `FLAT_TO_SHARP["constructor"]` or a `merged["constructor"]` entry.
- SongGuide.Guide.GetProgress: requires steps, a positive tempo and positive beats. In the page an empty song throws, and a zero tempo or zero beats gives NaN or Infinity before the clamp.
- SongGuide.Guide.AdvanceIfMatches: the `!song` guard is not modelled, because a guide always holds its song.
- SongsPage.NonBlankLines: `split(/\r?\n/)` is modelled as a split on `\n` followed by the trim each line gets anyway, which removes a trailing `\r`.
- SongStore.SongLibrary.Remove: the page-load `onRemove` handler first sets `__custom = false` on the entry it deletes next. That write has no visible effect and is dropped.
- SongStore.SongLibrary: the import, submit and clear-all handlers are installed only for admins. The model does not gate its methods on that flag; only the initial `allowDelete` depends on it.
- Gestures.Instrument.HandleChordDown: treats the engine call as returning. For a chord button whose root is outside the table, `playChord` throws, and the rest of the handler (status text and the guide call) does not run. The model still records the guide call.
- LegacyGestures.LegacyInstrument.HandleChordDown: the same, for the older page.
- SongStore.DraftFacts: a signed tempo may be negative, because the page never checks that the tempo is positive.
- Gestures.GainCurve01: does not state that the gain is zero only at or below 0, to keep the proof away from non-linear real arithmetic.
- Gestures: memory mode (the memory toggle's `checked`) is a parameter. Loading and clearing a guide (`initGuide`, `clearGuide`, `updateGuideDisplay`) is reduced to the `guideLoaded` flag. The guide's own step is advanced by `SongGuide.Guide.AdvanceIfMatches`, which the pages call; the call appears in the call trace.
- `createKnobIndicators`, `updateKnobIndicator`, `setPressed`, `setChordActive` and the status text are display only.
- The older engine's `normalizeChordKey` (src/audio/audioEngine.js:138-143) is the same text as the current one. It is modelled once, in `MusicTheory`.
- The older songs page (src/songs/songsPage.js), the overlay renderer and hit test, and the Python and shell tools are not part of this model.

Behaviour of the code that is easy to miss, and that the model keeps:

- A toggle press flips the stored value but does not apply it to the engine (public/src/app.js:249-254).
- The older page's strum retrigger window is 14 ms (src/app.js:8); the current page's is 10 ms.
- `advance` on a single-step looping song returns true and stays at step 0.
- Clear-all empties storage and removes the custom entries from the catalogue, but keeps the in-memory `customSongs`. A later import or submit therefore saves them again.
- Remove buttons work at most twice after a page load and once after an import or a submit. The handler's own re-render installs `onRemove: null`, so later buttons do nothing until the next import or submit (public/src/songs/songsPage.js:123-127, 166-171, 219-224).
- `playChord` with a root outside the table stops the held chord and then throws, because a NaN oscillator frequency is refused. No chord is active afterwards.
