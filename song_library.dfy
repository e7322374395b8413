/** The state behind the songs page: the merged catalogue shown to the user,
    the custom songs held in memory, and what was last written to browser
    storage; with the page's handlers (load, import, remove, clear all,
    submit) as methods that update it. */
module SongStore {
  import opened Wrappers
  import opened Text
  import opened Songs
  import opened SongsPage

  /** A catalogue entry: the song and its `__custom` flag. */
  datatype Entry = Entry(song: Song, custom: bool)

  /** The table handed to the import handler, once parsed: an object of songs
      keyed by id, or anything else (an array, a number, a string, `null`). */
  datatype ImportData = SongTable(songs: map<string, Song>) | NotATable

  const InvalidImportError := "Invalid JSON format."
  const FormError := "Fill out title, meter, and BPM."

  /** `m` with every song of `songs` written over it as a custom entry. */
  function Overlay(m: map<string, Entry>, songs: map<string, Song>): (r: map<string, Entry>)
    ensures r.Keys == m.Keys + songs.Keys
  {
    map id | id in m.Keys + songs.Keys :: if id in songs then Entry(songs[id], true) else m[id]
  }

  /** Overlaid ids carry their new song flagged custom; every other entry is
      kept as it was. */
  lemma OverlayEntries(m: map<string, Entry>, songs: map<string, Song>, id: string)
    ensures id in songs ==> id in Overlay(m, songs) && Overlay(m, songs)[id] == Entry(songs[id], true)
    ensures id !in songs && id in m ==> id in Overlay(m, songs) && Overlay(m, songs)[id] == m[id]
    ensures id !in songs && id !in m ==> id !in Overlay(m, songs)
  {
  }

  /** Overlaying nothing leaves the catalogue as it was; overlaying twice is
      overlaying the combined table, the later one winning. */
  lemma OverlayCompose(m: map<string, Entry>, a: map<string, Song>, b: map<string, Song>)
    ensures Overlay(m, map[]) == m
    ensures Overlay(Overlay(m, a), b) == Overlay(m, a + b)
  {
    assert Overlay(m, map[]).Keys == m.Keys;
    assert Overlay(Overlay(m, a), b).Keys == Overlay(m, a + b).Keys;
  }

  /** Custom entries of a catalogue agree with the in-memory custom songs. */
  ghost predicate Mirrors(m: map<string, Entry>, custom: map<string, Song>) {
    forall id :: id in m && m[id].custom ==> id in custom && m[id].song == custom[id]
  }

  /** Adding one song to both the catalogue, flagged custom, and the custom
      table keeps the mirror. */
  lemma MirrorsInsert(m: map<string, Entry>, custom: map<string, Song>, id: string, song: Song)
    requires Mirrors(m, custom)
    ensures Mirrors(m[id := Entry(song, true)], custom[id := song])
  {
  }

  /** Overlaying songs that are also added to the custom table keeps the
      catalogue mirroring it. */
  lemma OverlayKeepsMirror(m: map<string, Entry>, custom: map<string, Song>, songs: map<string, Song>)
    requires Mirrors(m, custom)
    ensures Mirrors(Overlay(m, songs), custom + songs)
  {
    forall id | id in Overlay(m, songs) && Overlay(m, songs)[id].custom
      ensures id in custom + songs && Overlay(m, songs)[id].song == (custom + songs)[id]
    {
      OverlayEntries(m, songs, id);
    }
  }

  /** Writing one more custom entry is overlaying a table with one more song. */
  lemma OverlayOne(m: map<string, Entry>, songs: map<string, Song>, id: string, song: Song)
    ensures Overlay(m, songs)[id := Entry(song, true)] == Overlay(m, songs[id := song])
  {
    assert Overlay(m, songs)[id := Entry(song, true)].Keys == Overlay(m, songs[id := song]).Keys;
  }

  /** The loop `for (const [id, song] of Object.entries(songs)) m[id] =
      { ...song, __custom: true }`, over the ids in whatever order. */
  method MarkCustom(m: map<string, Entry>, songs: map<string, Song>) returns (r: map<string, Entry>)
    ensures r == Overlay(m, songs)
  {
    r := m;
    var remaining := songs.Keys;
    ghost var done: map<string, Song> := map[];
    OverlayCompose(m, done, done);
    while remaining != {}
      invariant remaining <= songs.Keys
      invariant done.Keys == songs.Keys - remaining
      invariant forall k :: k in done ==> done[k] == songs[k]
      invariant r == Overlay(m, done)
      decreases |remaining|
    {
      var id :| id in remaining;
      OverlayOne(m, done, id, songs[id]);
      r := r[id := Entry(songs[id], true)];
      done := done[id := songs[id]];
      remaining := remaining - {id};
    }
    assert done == songs;
  }

  /** The catalogue without its custom entries. */
  function BaseOnly(m: map<string, Entry>): (r: map<string, Entry>)
    ensures r.Keys <= m.Keys
    ensures forall id :: id in r ==> !r[id].custom
  {
    map id | id in m && !m[id].custom :: m[id]
  }

  /** Dropping custom entries keeps exactly the non-custom ones, unchanged. */
  lemma BaseOnlyEntries(m: map<string, Entry>, id: string)
    ensures id in BaseOnly(m) <==> id in m && !m[id].custom
    ensures id in BaseOnly(m) ==> BaseOnly(m)[id] == m[id]
  {
  }

  /** The id a new song is first offered under: the slug of its title, or
      `song-<now>` when the slug is empty. */
  function BaseId(title: string, now: nat): (id: string)
    ensures id != []
  {
    var slug := Slugify(title);
    if slug != [] then slug else "song-" + NatToString(now)
  }

  /** Whether the submit form's title, meter and tempo are acceptable: a
      non-blank title and meter, and a tempo `Number()` can read. */
  predicate FormFilled(titleInput: string, meterInput: string, bpmInput: string) {
    Trim(titleInput) != [] && Trim(meterInput) != [] && NumberValue(bpmInput).Some?
  }

  /** What the submit form yields: the steps are parsed first and their error
      wins; then a blank title or meter or an unreadable tempo is refused;
      otherwise the song of the trimmed title and meter, the tempo read by
      `Number()`, the steps and the loop flag. */
  function Draft(titleInput: string, meterInput: string, bpmInput: string, loop: bool,
                 stepsInput: string): (r: Result<Song, string>)
    ensures r.Success? ==> r.value.title == Trim(titleInput)
  {
    var steps := ParseStepsSpec(stepsInput);
    if steps.Failure? then Failure(steps.error)
    else if !FormFilled(titleInput, meterInput, bpmInput) then Failure(FormError)
    else Success(Song(Trim(titleInput), Trim(meterInput), NumberValue(bpmInput).value, steps.value, loop))
  }

  /** A form is accepted exactly when its steps parse and its fields are
      filled; a steps error is reported before a form error; an accepted song
      has a non-blank trimmed title and meter, a tempo of at least zero when
      it is written without a sign, and at least one step, each with a chord
      and a positive number of beats. */
  lemma DraftFacts(titleInput: string, meterInput: string, bpmInput: string, loop: bool, stepsInput: string)
    ensures Draft(titleInput, meterInput, bpmInput, loop, stepsInput).Success? <==>
      ParseStepsSpec(stepsInput).Success? && FormFilled(titleInput, meterInput, bpmInput)
    ensures ParseStepsSpec(stepsInput).Failure? ==>
      Draft(titleInput, meterInput, bpmInput, loop, stepsInput) == Failure(ParseStepsSpec(stepsInput).error)
    ensures ParseStepsSpec(stepsInput).Success? && !FormFilled(titleInput, meterInput, bpmInput) ==>
      Draft(titleInput, meterInput, bpmInput, loop, stepsInput) == Failure(FormError)
    ensures Draft(titleInput, meterInput, bpmInput, loop, stepsInput).Success? ==>
      var song := Draft(titleInput, meterInput, bpmInput, loop, stepsInput).value;
      && song.title != [] && song.title == Trim(song.title)
      && song.meter != [] && song.meter == Trim(song.meter)
      && (Trim(bpmInput) != [] && Trim(bpmInput)[0] != '-' ==> song.bpm >= 0.0)
      && |song.steps| > 0
      && (forall k :: 0 <= k < |song.steps| ==> song.steps[k].chord != [] && song.steps[k].beats > 0.0)
      && song.loop == loop
  {
    var d := Draft(titleInput, meterInput, bpmInput, loop, stepsInput);
    if d.Success? {
      StepsOfLinesFacts(NonBlankLines(stepsInput));
      TrimIdempotent(titleInput);
      TrimIdempotent(meterInput);
    }
  }

  /** The reading of the form, in the handler's order: trims, `Number()`,
      then the steps. */
  method PrepareSong(titleInput: string, meterInput: string, bpmInput: string, loop: bool,
                     stepsInput: string) returns (r: Result<Song, string>)
    ensures r == Draft(titleInput, meterInput, bpmInput, loop, stepsInput)
  {
    var title := Trim(titleInput);
    var meter := Trim(meterInput);
    var bpm := NumberValue(bpmInput);
    var steps := ParseSteps(stepsInput);
    if steps.Failure? {
      return Failure(steps.error);
    }
    if title == [] || meter == [] || bpm.None? {
      return Failure(FormError);
    }
    r := Success(Song(title, meter, bpm.value, steps.value, loop));
  }

  /** The `onRemove` option the last render gave its Remove buttons. */
  datatype RemoveHandler =
    | RemoveThenRearm  // the page-load handler: removes, then renders with `RemoveOnce`
    | RemoveOnce       // removes, then renders with `onRemove: null`
    | NoHandler        // `onRemove: null`: the buttons do nothing

  /** The handler left on the buttons by the render that follows a removal.
      Only the page-load handler hands on a working one, so at most two
      removals follow a page load and one an import or a submit. */
  function AfterRemoval(h: RemoveHandler): (next: RemoveHandler)
    requires !h.NoHandler?
    ensures next.RemoveOnce? <==> h.RemoveThenRearm?
    ensures !next.RemoveThenRearm?
  {
    if h.RemoveThenRearm? then RemoveOnce else NoHandler
  }

  class SongLibrary {
    /** The catalogue shown: base songs and custom songs, by id. */
    var merged: map<string, Entry>
    /** The custom songs held in memory. */
    var customSongs: map<string, Song>
    /** What browser storage holds under the custom-songs key. */
    var stored: map<string, Song>
    /** `allowDelete` of the last render: custom cards carry a Remove button. */
    var allowDelete: bool
    /** `onRemove` of the last render. */
    var onRemove: RemoveHandler

    /** Custom entries mirror the in-memory custom songs, and storage holds
        either those songs or, after clear-all, nothing. */
    ghost predicate Valid()
      reads this
    {
      Mirrors(merged, customSongs) && (stored == customSongs || stored == map[])
    }

    /** Page load: the base songs, then every saved custom song written over
        them as a custom entry. Admins get Remove buttons wired to the
        page-load handler. */
    constructor (base: map<string, Song>, saved: map<string, Song>, isAdmin: bool)
      ensures Valid()
      ensures merged == Overlay(map id | id in base :: Entry(base[id], false), saved)
      ensures customSongs == saved && stored == saved
      ensures allowDelete == isAdmin && onRemove == RemoveThenRearm
    {
      var start := map id | id in base :: Entry(base[id], false);
      OverlayKeepsMirror(start, map[], saved);
      assert map[] + saved == saved;
      var m := MarkCustom(start, saved);
      merged := m;
      customSongs := saved;
      stored := saved;
      allowDelete := isAdmin;
      onRemove := RemoveThenRearm;
    }

    /** The import handler: a table of songs is merged into the custom songs
        and written over the catalogue as custom entries, then saved; anything
        else is refused and nothing changes. On success the result is the
        number of songs now listed, and the catalogue is drawn again with
        Remove buttons that work once. */
    method Import(data: ImportData) returns (r: Result<nat, string>)
      requires Valid()
      modifies this`merged, this`customSongs, this`stored, this`allowDelete, this`onRemove
      ensures Valid()
      ensures data.NotATable? ==>
        r == Failure(InvalidImportError) &&
        merged == old(merged) && customSongs == old(customSongs) && stored == old(stored) &&
        allowDelete == old(allowDelete) && onRemove == old(onRemove)
      ensures data.SongTable? ==>
        r == Success(|merged|) &&
        merged == Overlay(old(merged), data.songs) &&
        customSongs == old(customSongs) + data.songs && stored == customSongs &&
        allowDelete && onRemove == RemoveOnce
    {
      if data.NotATable? {
        return Failure(InvalidImportError);
      }
      OverlayKeepsMirror(merged, customSongs, data.songs);
      merged := MarkCustom(merged, data.songs);
      customSongs := customSongs + data.songs;
      stored := customSongs;
      allowDelete, onRemove := true, RemoveOnce;
      r := Success(|merged|);
    }

    /** What every working `onRemove` handler does to the tables: the song
        leaves the custom songs and the catalogue, and the custom songs are
        saved. (The page-load handler first clears the entry's `__custom`
        flag, on an entry it deletes next.) */
    method Remove(id: string)
      requires Valid()
      modifies this`merged, this`customSongs, this`stored
      ensures Valid()
      ensures merged == old(merged) - {id} && id !in merged
      ensures customSongs == old(customSongs) - {id} && stored == customSongs
    {
      customSongs := customSongs - {id};
      stored := customSongs;
      merged := merged - {id};
    }

    /** A click on the Remove button of card `id`. The button exists only on
        a custom card of a render that allowed deletion, and it does
        something only while a handler is installed; the handler removes the
        song and draws the catalogue again, handing on the next handler. */
    method ClickRemove(id: string) returns (removed: bool)
      requires Valid()
      modifies this`merged, this`customSongs, this`stored, this`onRemove
      ensures Valid()
      ensures removed <==>
        old(allowDelete) && id in old(merged) && old(merged)[id].custom && !old(onRemove).NoHandler?
      ensures removed ==>
        && merged == old(merged) - {id} && customSongs == old(customSongs) - {id} && stored == customSongs
        && onRemove == AfterRemoval(old(onRemove))
      ensures !removed ==>
        merged == old(merged) && customSongs == old(customSongs) && stored == old(stored) && onRemove == old(onRemove)
    {
      if !allowDelete || id !in merged || !merged[id].custom || onRemove.NoHandler? {
        return false;
      }
      var next := AfterRemoval(onRemove);
      Remove(id);
      onRemove := next;
      removed := true;
    }

    /** The clear-all button: storage is emptied and every custom entry leaves
        the catalogue; the in-memory custom songs are left as they were. The
        catalogue is drawn again without Remove buttons. */
    method ClearAll()
      requires Valid()
      modifies this`merged, this`stored, this`allowDelete, this`onRemove
      ensures Valid()
      ensures merged == BaseOnly(old(merged))
      ensures stored == map[] && customSongs == old(customSongs)
      ensures !allowDelete && onRemove == NoHandler
    {
      var keys := merged.Keys;
      ghost var start := merged;
      while keys != {}
        invariant keys <= start.Keys
        invariant merged == map id | id in start && (id in keys || !start[id].custom) :: start[id]
        decreases |keys|
      {
        var key :| key in keys;
        if merged[key].custom {
          merged := merged - {key};
        }
        keys := keys - {key};
      }
      stored := map[];
      allowDelete, onRemove := false, NoHandler;
    }

    /** The submit handler. A refused form changes nothing. An accepted song
        is stored under a fresh id, the first free one among the base id and
        its numbered variants, in both the custom songs and the catalogue, and
        the custom songs are saved, and the catalogue is drawn again with
        Remove buttons that work once. The result is the id. */
    method Submit(titleInput: string, meterInput: string, bpmInput: string, loop: bool,
                  stepsInput: string, now: nat) returns (r: Result<string, string>)
      requires Valid()
      modifies this`merged, this`customSongs, this`stored, this`allowDelete, this`onRemove
      ensures Valid()
      ensures var d := Draft(titleInput, meterInput, bpmInput, loop, stepsInput);
        && (r.Failure? <==> d.Failure?)
        && (r.Failure? ==>
              r.error == d.error &&
              merged == old(merged) && customSongs == old(customSongs) && stored == old(stored))
        && (r.Success? ==>
              r.value !in old(merged) &&
              merged == old(merged)[r.value := Entry(d.value, true)] &&
              customSongs == old(customSongs)[r.value := d.value] && stored == customSongs)
      ensures r.Failure? ==> allowDelete == old(allowDelete) && onRemove == old(onRemove)
      ensures r.Success? ==> allowDelete && onRemove == RemoveOnce
      ensures r.Success? ==> |merged| == |old(merged)| + 1
      ensures r.Success? && BaseId(Trim(titleInput), now) !in old(merged) ==>
        r.value == BaseId(Trim(titleInput), now)
      ensures r.Success? && BaseId(Trim(titleInput), now) in old(merged) ==>
        exists i :: i >= 1 && r.value == Candidate(BaseId(Trim(titleInput), now), i) &&
          forall j :: 1 <= j < i ==> Candidate(BaseId(Trim(titleInput), now), j) in old(merged)
    {
      var d := PrepareSong(titleInput, meterInput, bpmInput, loop, stepsInput);
      if d.Failure? {
        return Failure(d.error);
      }
      var uniqueId := Accept(BaseId(d.value.title, now), d.value);
      r := Success(uniqueId);
    }

    /** The accepting half of the submit handler: `song` is saved under the
        first of `id`, `id-1`, `id-2`, ... that the catalogue lacks, and the
        catalogue is drawn again with Remove buttons that work once. */
    method Accept(id: string, song: Song) returns (u: string)
      requires Valid()
      modifies this`merged, this`customSongs, this`stored, this`allowDelete, this`onRemove
      ensures Valid()
      ensures u !in old(merged) && (id !in old(merged) ==> u == id)
      ensures id in old(merged) ==>
        exists i :: i >= 1 && u == Candidate(id, i) && forall j :: 1 <= j < i ==> Candidate(id, j) in old(merged)
      ensures merged == old(merged)[u := Entry(song, true)]
      ensures customSongs == old(customSongs)[u := song] && stored == customSongs
      ensures |merged| == |old(merged)| + 1
      ensures allowDelete && onRemove == RemoveOnce
    {
      u := UniqueId(merged.Keys, id);
      Store(u, song);
      Render(true, RemoveOnce);
    }

    /** `renderSongs(list, merged, { allowDelete, onRemove })`: the catalogue
        is drawn again with the given Remove-button wiring. */
    method Render(allow: bool, handler: RemoveHandler)
      requires Valid()
      modifies this`allowDelete, this`onRemove
      ensures Valid()
      ensures allowDelete == allow && onRemove == handler
    {
      allowDelete, onRemove := allow, handler;
    }

    /** Saving one custom song under `id`, in memory, in storage and in the
        catalogue. */
    method Store(id: string, song: Song)
      requires Valid()
      modifies this`merged, this`customSongs, this`stored
      ensures Valid()
      ensures merged == old(merged)[id := Entry(song, true)]
      ensures customSongs == old(customSongs)[id := song] && stored == customSongs
    {
      MirrorsInsert(merged, customSongs, id, song);
      customSongs := customSongs[id := song];
      stored := customSongs;
      merged := merged[id := Entry(song, true)];
    }
  }
}
