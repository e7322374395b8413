/** The instrument's music theory, shared word for word by both engine
    files: root spelling, chord-quality interval tables, the root-to-MIDI
    table, chord notes as MIDI numbers and chord-key normalisation.
    Pitches are MIDI note numbers; a root outside the table has no pitch
    (`None`), where the source computes a NaN frequency that the engines'
    oscillators then refuse. */
module MusicTheory {
  import opened Wrappers
  import Text
  import JsMath

  /** ROOT_TO_MIDI: the twelve natural/sharp spellings of the octave above
      middle C. */
  const RootMidi: map<string, int> :=
    map["C" := 60, "C#" := 61, "D" := 62, "D#" := 63, "E" := 64, "F" := 65,
        "F#" := 66, "G" := 67, "G#" := 68, "A" := 69, "A#" := 70, "B" := 71]

  /** FLAT_TO_SHARP: the five flat spellings and their sharp equivalents. */
  const FlatToSharp: map<string, string> :=
    map["Db" := "C#", "Eb" := "D#", "Gb" := "F#", "Ab" := "G#", "Bb" := "A#"]

  /** `ROOT_TO_MIDI[root]`, `undefined` as `None`. */
  function RootToMidi(root: string): (m: Option<int>)
    ensures m.Some? <==> root in RootMidi
    ensures m.Some? ==> 60 <= m.value <= 71
  {
    if root in RootMidi then Some(RootMidi[root]) else None
  }

  /** `normalizeRoot`: a flat spelling becomes its sharp, every other string is
      returned unchanged. No flat spelling survives, and the result has a MIDI
      number exactly when the input is a table root or one of the flats. */
  function NormalizeRoot(root: string): (r: string)
    ensures root !in FlatToSharp ==> r == root
    ensures r !in FlatToSharp
    ensures r in RootMidi <==> root in RootMidi || root in FlatToSharp
  {
    if root in FlatToSharp then FlatToSharp[root] else root
  }

  /** Every key of ROOT_TO_MIDI is a fixed point of `normalizeRoot`. */
  lemma NormalizeRootFixesTable()
    ensures forall k :: k in RootMidi ==> NormalizeRoot(k) == k
  {
    TableSpellings();
    FlatSpellings();
    forall k | k in RootMidi ensures NormalizeRoot(k) == k {
      assert k !in FlatToSharp;
    }
  }

  /** Each flat lands on the sharp one semitone below its own letter. */
  lemma FlatsSitBelowTheirLetter()
    ensures RootMidi[NormalizeRoot("Db")] == RootMidi["D"] - 1
    ensures RootMidi[NormalizeRoot("Eb")] == RootMidi["E"] - 1
    ensures RootMidi[NormalizeRoot("Gb")] == RootMidi["G"] - 1
    ensures RootMidi[NormalizeRoot("Ab")] == RootMidi["A"] - 1
    ensures RootMidi[NormalizeRoot("Bb")] == RootMidi["B"] - 1
  {
    FlatTable();
  }

  /** The entries of FLAT_TO_SHARP, one by one. */
  lemma FlatTable()
    ensures "Db" in FlatToSharp && FlatToSharp["Db"] == "C#"
    ensures "Eb" in FlatToSharp && FlatToSharp["Eb"] == "D#"
    ensures "Gb" in FlatToSharp && FlatToSharp["Gb"] == "F#"
    ensures "Ab" in FlatToSharp && FlatToSharp["Ab"] == "G#"
    ensures "Bb" in FlatToSharp && FlatToSharp["Bb"] == "A#"
  {
  }

  /** Every root of ROOT_TO_MIDI is a letter, or a letter and a sharp. */
  lemma TableSpellings()
    ensures forall k :: k in RootMidi ==> |k| == 1 || (|k| == 2 && k[1] == '#')
  {
  }

  /** Every key of FLAT_TO_SHARP is a letter and a flat. */
  lemma FlatSpellings()
    ensures forall k :: k in FlatToSharp ==> |k| == 2 && k[1] == 'b'
  {
  }

  /** `normalizeRoot` is idempotent. */
  lemma NormalizeRootIdempotent(root: string)
    ensures NormalizeRoot(NormalizeRoot(root)) == NormalizeRoot(root)
  {
  }

  /** The shape every chord's intervals have: rooted at 0, strictly
      ascending, inside one octave. */
  predicate IsChordShape(iv: seq<int>) {
    && |iv| >= 1
    && iv[0] == 0
    && (forall i, j :: 0 <= i < j < |iv| ==> iv[i] < iv[j])
    && (forall i :: 0 <= i < |iv| ==> 0 <= iv[i] < 12)
  }

  /** `getChordIntervals`: "min" gives a minor triad, "7" a dominant seventh,
      any other quality (the comparison is case-sensitive) a major triad. */
  function Intervals(quality: string): (iv: seq<int>)
    ensures IsChordShape(iv)
    ensures quality == "min" ==> iv == [0, 3, 7]
    ensures quality == "7" ==> iv == [0, 4, 7, 10]
    ensures quality != "min" && quality != "7" ==> iv == [0, 4, 7]
    ensures 3 <= |iv| <= 4
  {
    if quality == "min" then [0, 3, 7]
    else if quality == "7" then [0, 4, 7, 10]
    else [0, 4, 7]
  }

  /** `getChordFrequencies`, in MIDI numbers: one note per interval, in
      interval order, each the normalised root's number plus the interval;
      no pitch at all when the root is unknown. */
  function ChordNotes(root: string, quality: string): (notes: seq<Option<int>>)
    ensures |notes| == |Intervals(quality)|
    ensures forall i :: 0 <= i < |notes| ==>
      notes[i] == (match RootToMidi(NormalizeRoot(root))
                   case Some(m) => Some(m + Intervals(quality)[i])
                   case None => None)
  {
    var iv := Intervals(quality);
    var m := RootToMidi(NormalizeRoot(root));
    seq(|iv|, i requires 0 <= i < |iv| =>
      match m case Some(base) => Some(base + iv[i]) case None => None)
  }

  /** For a known root the chord notes are pitched, start at the root, rise
      strictly and stay within an octave of it. */
  lemma ChordNotesAscending(root: string, quality: string)
    requires NormalizeRoot(root) in RootMidi
    ensures var notes := ChordNotes(root, quality);
      && (forall i :: 0 <= i < |notes| ==> notes[i].Some?)
      && notes[0] == Some(RootMidi[NormalizeRoot(root)])
      && (forall i, j :: 0 <= i < j < |notes| ==> notes[i].value < notes[j].value)
      && (forall i :: 0 <= i < |notes| ==> 60 <= notes[i].value < RootMidi[NormalizeRoot(root)] + 12)
  {
  }

  /** A flat and its sharp spelling sound the same chord. */
  lemma ChordNotesEnharmonic(flat: string, quality: string)
    requires flat in FlatToSharp
    ensures ChordNotes(flat, quality) == ChordNotes(FlatToSharp[flat], quality)
  {
    assert FlatToSharp[flat] !in FlatToSharp;
  }

  // ---------------------------------------------------------------- chord keys

  /** A chord key `"<root>:<quality>"` taken apart (`key.split(":")`
      destructured into two names); the quality is absent when the key has
      no colon. */
  datatype ChordKey = ChordKey(root: string, quality: Option<string>)

  predicate NoColon(s: string) {
    forall i :: 0 <= i < |s| ==> s[i] != ':'
  }

  /** The position of the first colon of `s`, or `|s|` when it has none. */
  function ColonIndex(s: string): (i: nat)
    ensures i <= |s|
    ensures NoColon(s[..i])
    ensures i < |s| ==> s[i] == ':'
  {
    if s == [] || s[0] == ':' then 0
    else
      var j := ColonIndex(s[1..]);
      assert s[..1 + j] == [s[0]] + s[1..][..j];
      1 + j
  }

  /** `parseChordKey` / the destructuring in `normalizeChordKey` (the first
      two pieces of `key.split(":")`): the root is the text before the first
      colon; the quality, when there is a colon, is the text after it up to
      the next colon or the end. */
  function ParseChordKey(key: string): (ck: ChordKey)
    ensures NoColon(ck.root)
    ensures ck.quality.None? <==> NoColon(key)
    ensures ck.quality.None? ==> ck.root == key
    ensures ck.quality.Some? ==>
      && NoColon(ck.quality.value)
      && |ck.root| + 1 + |ck.quality.value| <= |key|
      && key[..|ck.root|] == ck.root
      && key[|ck.root|] == ':'
      && key[|ck.root| + 1..|ck.root| + 1 + |ck.quality.value|] == ck.quality.value
      && (|ck.root| + 1 + |ck.quality.value| == |key| || key[|ck.root| + 1 + |ck.quality.value|] == ':')
  {
    var i := ColonIndex(key);
    if i == |key| then
      assert key[..i] == key;
      ChordKey(key, None)
    else
      var rest := key[i + 1..];
      var j := ColonIndex(rest);
      assert key[i + 1..i + 1 + j] == rest[..j];
      ChordKey(key[..i], Some(rest[..j]))
  }

  /** Builds `"<root>:<quality>"`. */
  function KeyText(root: string, quality: string): string {
    root + ":" + quality
  }

  /** The first colon of a key built from a colon-free root is the one
      after the root. */
  lemma ColonIndexOfKeyText(root: string, quality: string)
    requires NoColon(root)
    ensures ColonIndex(KeyText(root, quality)) == |root|
  {
    var key := KeyText(root, quality);
    var i := ColonIndex(key);
    assert key[|root|] == ':';
    assert key[..|root|] == root;
    assert forall j :: |root| < j <= |key| ==> key[..j][|root|] == ':';
  }

  /** A colon-free string has no colon to find. */
  lemma ColonIndexOfColonFree(s: string)
    requires NoColon(s)
    ensures ColonIndex(s) == |s|
  {
  }

  /** A key built from colon-free parts parses back into them. */
  lemma ParseKeyText(root: string, quality: string)
    requires NoColon(root) && NoColon(quality)
    ensures ParseChordKey(KeyText(root, quality)) == ChordKey(root, Some(quality))
  {
    var key := KeyText(root, quality);
    ColonIndexOfKeyText(root, quality);
    assert key[|root| + 1..] == quality;
    assert key[..|root|] == root;
    ColonIndexOfColonFree(quality);
    assert quality[..|quality|] == quality;
  }

  /** The quality a normalised key carries: the given one lower-cased, or
      "maj" when there is none. */
  function NormalQuality(quality: Option<string>): (q: string)
    ensures Text.ToLower(q) == q
    ensures quality.Some? ==> Text.ToLower(q) == Text.ToLower(quality.value)
    ensures quality.Some? && NoColon(quality.value) ==> NoColon(q)
    ensures quality.None? ==> q == "maj"
  {
    if quality.Some? then
      Text.ToLowerIdempotent(quality.value);
      Text.ToLower(quality.value)
    else
      Text.ToLowerOfLower("maj");
      "maj"
  }

  /** `normalizeChordKey`: the normalised root, a colon and the lower-cased
      quality, which defaults to "maj" when the key has no colon. */
  function NormalizeChordKey(key: string): (r: string)
    ensures var ck := ParseChordKey(key);
      ParseChordKey(r) == ChordKey(NormalizeRoot(ck.root), Some(NormalQuality(ck.quality)))
    ensures NoColon(key) ==> r == KeyText(NormalizeRoot(key), "maj")
  {
    var ck := ParseChordKey(key);
    NormalizedPartsAreNormal(key);
    ParseKeyText(NormalizeRoot(ck.root), NormalQuality(ck.quality));
    KeyText(NormalizeRoot(ck.root), NormalQuality(ck.quality))
  }

  /** The parts of a normalised key are colon-free and already normal. */
  lemma NormalizedPartsAreNormal(key: string)
    ensures var ck := ParseChordKey(key);
      && NoColon(NormalizeRoot(ck.root))
      && NoColon(NormalQuality(ck.quality))
      && NormalizeRoot(NormalizeRoot(ck.root)) == NormalizeRoot(ck.root)
      && Text.ToLower(NormalQuality(ck.quality)) == NormalQuality(ck.quality)
  {
    var ck := ParseChordKey(key);
    if ck.root in FlatToSharp {
      assert NoColon(FlatToSharp[ck.root]);
    }
    NormalizeRootIdempotent(ck.root);
    if ck.quality.Some? {
      Text.ToLowerIdempotent(ck.quality.value);
    } else {
      Text.ToLowerOfLower("maj");
    }
  }

  /** `normalizeChordKey` is idempotent. */
  lemma NormalizeChordKeyIdempotent(key: string)
    ensures NormalizeChordKey(NormalizeChordKey(key)) == NormalizeChordKey(key)
  {
    var ck := ParseChordKey(key);
    NormalizedPartsAreNormal(key);
    NormalizeKeyText(NormalizeRoot(ck.root), NormalQuality(ck.quality));
  }

  /** A key built from colon-free parts normalises part by part. */
  lemma NormalizeKeyText(root: string, quality: string)
    requires NoColon(root) && NoColon(quality)
    ensures NormalizeChordKey(KeyText(root, quality)) == KeyText(NormalizeRoot(root), Text.ToLower(quality))
  {
    ParseKeyText(root, quality);
  }

  /** A bare root, with no colon, normalises as if its quality were "maj". */
  lemma NormalizeBareRoot(root: string)
    requires NoColon(root)
    ensures NormalizeChordKey(root) == KeyText(NormalizeRoot(root), "maj")
  {
  }

  /** Keys that agree up to root spelling and the case of the quality
      normalise to the same key. */
  lemma NormalizeChordKeyEquivalence(r1: string, q1: string, r2: string, q2: string)
    requires NoColon(r1) && NoColon(q1) && NoColon(r2) && NoColon(q2)
    requires NormalizeRoot(r1) == NormalizeRoot(r2)
    requires Text.ToLower(q1) == Text.ToLower(q2)
    ensures NormalizeChordKey(KeyText(r1, q1)) == NormalizeChordKey(KeyText(r2, q2))
  {
    NormalizeKeyText(r1, q1);
    NormalizeKeyText(r2, q2);
  }

  /** A missing quality means "maj". */
  lemma NormalizeDefaultsToMaj(root: string)
    requires NoColon(root)
    ensures NormalizeChordKey(root) == NormalizeChordKey(KeyText(root, "maj"))
  {
    NormalizeBareRoot(root);
    var maj := "maj";
    assert NoColon(maj);
    assert Text.ToLower(maj) == maj;
    NormalizeKeyText(root, maj);
  }

  /** A flat root with any colon-free quality normalises to its sharp and
      the lower-cased quality. */
  lemma FlatKeyNormalizes(flat: string, quality: string)
    requires flat in FlatToSharp && NoColon(quality)
    ensures NormalizeChordKey(KeyText(flat, quality)) == KeyText(FlatToSharp[flat], Text.ToLower(quality))
  {
    FlatSpellings();
    NormalizeKeyText(flat, quality);
  }

  /** "Db:MAJ" and "C#:maj" are one key. */
  lemma DbMajIsCSharpMaj(db: string, bigMaj: string, cs: string, maj: string)
    requires db == "Db" && bigMaj == "MAJ" && cs == "C#" && maj == "maj"
    ensures NormalizeChordKey(KeyText(db, bigMaj)) == NormalizeChordKey(KeyText(cs, maj)) == KeyText(cs, maj)
  {
    FlatExampleNormalizes(db, bigMaj, cs, maj);
    SharpExampleNormalizes(cs, maj);
  }

  lemma FlatExampleNormalizes(db: string, bigMaj: string, cs: string, maj: string)
    requires db == "Db" && bigMaj == "MAJ" && cs == "C#" && maj == "maj"
    ensures NormalizeChordKey(KeyText(db, bigMaj)) == KeyText(cs, maj)
  {
    FlatTable();
    assert NoColon(bigMaj);
    FlatKeyNormalizes(db, bigMaj);
    UpperMajLowers(bigMaj, maj);
  }

  lemma SharpExampleNormalizes(cs: string, maj: string)
    requires cs == "C#" && maj == "maj"
    ensures NormalizeChordKey(KeyText(cs, maj)) == KeyText(cs, maj)
  {
    assert NoColon(maj) && NoColon(cs);
    Text.ToLowerOfLower(maj);
    NormalizeKeyText(cs, maj);
    NormalizeRootFixesTable();
    assert cs in RootMidi;
  }

  lemma UpperMajLowers(bigMaj: string, maj: string)
    requires bigMaj == "MAJ" && maj == "maj"
    ensures Text.ToLower(bigMaj) == maj
  {
    var m := Text.ToLower(bigMaj);
    assert m[0] == 'm' && m[1] == 'a' && m[2] == 'j';
  }

  // ---------------------------------------------------------------- note ladder

  /** The pitch of rung `k` of a ladder that repeats the chord's intervals
      in every octave above `base`: `base + iv[k mod n] + 12 * floor(k / n)`. */
  function LadderNote(base: int, iv: seq<int>, k: nat): int
    requires |iv| >= 1
  {
    base + iv[k % |iv|] + 12 * (k / |iv|)
  }

  /** Higher rungs sound strictly higher, because the intervals rise and stay
      inside one octave. */
  lemma LadderStrictlyIncreasing(base: int, iv: seq<int>, k: nat, k': nat)
    requires IsChordShape(iv)
    requires k < k'
    ensures LadderNote(base, iv, k) < LadderNote(base, iv, k')
  {
    var n := |iv|;
    RungOrder(n, k, k');
    if k / n == k' / n {
      assert iv[k % n] < iv[k' % n];
    } else {
      assert iv[k % n] < 12 && iv[k' % n] >= 0;
    }
  }

  /** A later rung is in a later octave, or in the same octave at a later
      position. */
  lemma RungOrder(n: nat, k: nat, k': nat)
    requires n >= 1 && k < k'
    ensures k / n < k' / n || (k / n == k' / n && k % n < k' % n)
  {
    var q, q' := k / n, k' / n;
    assert k == n * q + k % n && k' == n * q' + k' % n;
    MulStep(n, q' + 1, q);
  }

  lemma MulStep(n: nat, a: nat, b: nat)
    ensures a <= b ==> n * a <= n * b
  {
    if a <= b {
      JsMath.MulMonotone(n, a, b);
    }
  }

  /** The ladder is non-decreasing: the form monotonicity proofs use. */
  lemma LadderMonotone(base: int, iv: seq<int>, k: nat, k': nat)
    requires IsChordShape(iv)
    requires k <= k'
    ensures LadderNote(base, iv, k) <= LadderNote(base, iv, k')
  {
    if k < k' {
      LadderStrictlyIncreasing(base, iv, k, k');
    }
  }
}
