/** The song-entry logic of public/src/songs/songsPage.js: the step parser
    for the progression text box, the slug made from a title, the probe for
    an unused song id, and the in-memory library that merges the bundled
    songs with the custom songs kept in local storage. Fetching, JSON,
    local storage itself and rendering are outside the model: the bundled
    songs and the stored custom songs arrive as maps, and what is written
    back to storage is kept in a field. */
module SongsPage {
  import opened Wrappers
  import opened Text
  import opened Songs

  // ---------------------------------------------------------------- parseSteps

  const EmptyStepsError: string := "Add at least one chord line."

  function InvalidStep(line: string): string {
    "Invalid step: " + line
  }

  /** `parts.map(f)`. */
  function MapLines<T>(lines: seq<string>, f: string -> T): (r: seq<T>)
    ensures |r| == |lines|
  {
    if lines == [] then [] else MapLines(lines[..|lines| - 1], f) + [f(lines[|lines| - 1])]
  }

  lemma {:induction false} MapLinesIndex<T>(lines: seq<string>, f: string -> T, k: nat)
    requires k < |lines|
    ensures MapLines(lines, f)[k] == f(lines[k])
    decreases |lines|
  {
    var front := lines[..|lines| - 1];
    if k < |front| {
      MapLinesIndex(front, f, k);
      assert front[k] == lines[k];
    }
  }

  lemma {:induction false} MapLinesAppend<T>(a: seq<string>, b: seq<string>, f: string -> T)
    ensures MapLines(a + b, f) == MapLines(a, f) + MapLines(b, f)
    decreases |b|
  {
    if b == [] {
      assert a + b == a;
    } else {
      var front := b[..|b| - 1];
      MapLinesAppend(a, front, f);
      assert (a + b)[..|a + b| - 1] == a + front;
      assert (a + b)[|a + b| - 1] == b[|b| - 1];
    }
  }

  /** `.filter(Boolean)` on strings: drops the empty ones, keeps the order. */
  function DropEmpty(ls: seq<string>): (r: seq<string>)
    ensures |r| <= |ls|
    ensures forall i :: 0 <= i < |r| ==> r[i] != []
  {
    if ls == [] then []
    else (if ls[0] == [] then [] else [ls[0]]) + DropEmpty(ls[1..])
  }

  /** The lines `parseSteps` looks at: the input split at line breaks, each
      trimmed, blank ones dropped. Splitting at `\n` and trimming gives the
      same lines as splitting at `/\r?\n/` and trimming, since a carriage
      return left at a line's end is white space that `trim` removes. */
  function NonBlankLines(input: string): (lines: seq<string>)
    ensures forall i :: 0 <= i < |lines| ==> lines[i] != []
  {
    DropEmpty(MapLines(Split(input, {'\n'}), Trim))
  }

  /** A line's comma- or bar-separated fields, trimmed. */
  function Fields(line: string): (fs: seq<string>)
    ensures |fs| >= 1
  {
    MapLines(Split(line, {',', '|'}), Trim)
  }

  /** One line of the progression: at least two fields, a non-empty chord in
      the first and a positive number of beats in the second; anything else
      is rejected with the line quoted. Fields after the second are
      ignored. */
  function ParseLine(line: string): (r: Result<Step, string>)
    ensures r.Failure? ==> r.error == InvalidStep(line)
    ensures r.Success? ==> r.value.chord != [] && r.value.beats > 0.0
  {
    var parts := Fields(line);
    if |parts| < 2 then Failure(InvalidStep(line))
    else
      var beats := NumberValue(parts[1]);
      if parts[0] == [] || beats.None? || beats.value <= 0.0 then Failure(InvalidStep(line))
      else Success(Step(parts[0], beats.value))
  }

  /** A line is accepted exactly when it has two fields, the first
      non-empty and the second a positive number; the step is then made of
      those two fields. */
  lemma ParseLineAccepts(line: string)
    ensures ParseLine(line).Success? <==>
      |Fields(line)| >= 2 && Fields(line)[0] != [] &&
      NumberValue(Fields(line)[1]).Some? && NumberValue(Fields(line)[1]).value > 0.0
    ensures ParseLine(line).Success? ==>
      ParseLine(line).value == Step(Fields(line)[0], NumberValue(Fields(line)[1]).value)
  {
  }

  /** Every field of a line is trimmed and holds no `,` or `|`; in
      particular so is a parsed chord. */
  lemma FieldsAreClean(line: string, n: nat)
    requires n < |Fields(line)|
    ensures Trim(Fields(line)[n]) == Fields(line)[n]
    ensures forall i :: 0 <= i < |Fields(line)[n]| ==> Fields(line)[n][i] != ',' && Fields(line)[n][i] != '|'
  {
    var part := Split(line, {',', '|'})[n];
    MapLinesIndex(Split(line, {',', '|'}), Trim, n);
    TrimIdempotent(part);
    TrimmedPartIsClean(part, {',', '|'});
  }

  /** Trimming a piece cut at separators brings in no separator. */
  lemma TrimmedPartIsClean(part: string, seps: set<char>)
    requires forall i :: 0 <= i < |part| ==> part[i] !in seps
    ensures forall i :: 0 <= i < |Trim(part)| ==> Trim(part)[i] !in seps
  {
    var t := TrimStart(part);
    var off := |part| - |t|;
    forall i | 0 <= i < |Trim(part)|
      ensures Trim(part)[i] !in seps
    {
      assert Trim(part)[i] == t[i] == part[off + i];
    }
  }

  /** The outcome of parsing each line on its own. */
  function ParseEach(lines: seq<string>): (rs: seq<Result<Step, string>>)
    ensures |rs| == |lines|
  {
    MapLines(lines, ParseLine)
  }

  lemma ParseEachIndex(lines: seq<string>, k: nat)
    requires k < |lines|
    ensures ParseEach(lines)[k] == ParseLine(lines[k])
  {
    MapLinesIndex(lines, ParseLine, k);
  }

  /** Appends one more outcome to an earlier one; the first error wins. */
  function Extend(prefix: Result<seq<Step>, string>, next: Result<Step, string>): Result<seq<Step>, string> {
    match prefix
    case Failure(e) => Failure(e)
    case Success(steps) =>
      match next
      case Failure(e) => Failure(e)
      case Success(step) => Success(steps + [step])
  }

  /** The steps of a sequence of outcomes, in order, or its first error. */
  function Collect(rs: seq<Result<Step, string>>): (r: Result<seq<Step>, string>)
    ensures r.Success? ==> |r.value| == |rs|
    ensures r.Success? ==> forall k :: 0 <= k < |rs| ==> rs[k] == Success(r.value[k])
    ensures r.Failure? ==> exists k :: 0 <= k < |rs| && rs[k] == Failure(r.error)
  {
    if rs == [] then Success([])
    else
      var front := rs[..|rs| - 1];
      var r := Extend(Collect(front), rs[|rs| - 1]);
      assert r.Failure? ==> exists k :: 0 <= k < |rs| && rs[k] == Failure(r.error) by {
        if r.Failure? && Collect(front).Failure? {
          var k :| 0 <= k < |front| && front[k] == Failure(Collect(front).error);
          assert front[k] == rs[k];
        }
      }
      r
  }

  /** Once a prefix of the outcomes has failed, later ones cannot change
      the result. */
  lemma {:induction false} CollectFailureSticks(rs: seq<Result<Step, string>>, more: seq<Result<Step, string>>)
    requires Collect(rs).Failure?
    ensures Collect(rs + more) == Collect(rs)
    decreases |more|
  {
    if more != [] {
      var shorter := more[..|more| - 1];
      CollectFailureSticks(rs, shorter);
      assert (rs + more)[..|rs + more| - 1] == rs + shorter;
    } else {
      assert rs + more == rs;
    }
  }

  /** When every outcome is a step, so is the whole. */
  lemma {:induction false} CollectSucceeds(rs: seq<Result<Step, string>>)
    requires forall k :: 0 <= k < |rs| ==> rs[k].Success?
    ensures Collect(rs).Success?
    decreases |rs|
  {
    if rs != [] {
      var front := rs[..|rs| - 1];
      assert forall k :: 0 <= k < |front| ==> front[k] == rs[k];
      CollectSucceeds(front);
    }
  }

  /** What `parseSteps` makes of its non-blank lines: their steps, unless a
      line fails or there is no line at all. */
  function StepsOfLines(lines: seq<string>): Result<seq<Step>, string> {
    match Collect(ParseEach(lines))
    case Failure(e) => Failure(e)
    case Success(steps) => if |steps| == 0 then Failure(EmptyStepsError) else Success(steps)
  }

  /** A failed parse names one of the lines, never the empty-input error. */
  lemma ParseErrorNamesALine(lines: seq<string>)
    requires StepsOfLines(lines).Failure? && lines != []
    ensures exists k :: 0 <= k < |lines| && StepsOfLines(lines).error == InvalidStep(lines[k])
    ensures StepsOfLines(lines).error != EmptyStepsError
  {
    var rs := ParseEach(lines);
    var k :| 0 <= k < |rs| && rs[k] == Failure(Collect(rs).error);
    ParseEachIndex(lines, k);
    assert InvalidStep(lines[k])[0] == 'I';
  }

  /** A result is never empty: one step per line, in order, each the parse
      of its line, so with a non-empty chord and positive beats. The
      empty-input error appears exactly when there is no line. */
  lemma StepsOfLinesFacts(lines: seq<string>)
    ensures StepsOfLines(lines).Success? ==>
      |StepsOfLines(lines).value| == |lines| > 0 &&
      forall k :: 0 <= k < |lines| ==>
        ParseLine(lines[k]) == Success(StepsOfLines(lines).value[k]) &&
        StepsOfLines(lines).value[k].chord != [] && StepsOfLines(lines).value[k].beats > 0.0
    ensures StepsOfLines(lines) == Failure(EmptyStepsError) <==> lines == []
  {
    var r := StepsOfLines(lines);
    if r.Success? {
      forall k | 0 <= k < |lines|
        ensures ParseLine(lines[k]) == Success(r.value[k])
      {
        ParseEachIndex(lines, k);
      }
    } else if lines != [] {
      ParseErrorNamesALine(lines);
    }
  }

  /** What `parseSteps(input)` returns or throws. */
  function ParseStepsSpec(input: string): Result<seq<Step>, string> {
    StepsOfLines(NonBlankLines(input))
  }

  /** `parseSteps(input)`: parses the non-blank lines in turn and rejects
      an empty result. */
  method ParseSteps(input: string) returns (r: Result<seq<Step>, string>)
    ensures r == ParseStepsSpec(input)
  {
    var lines := NonBlankLines(input);
    r := ParseLines(lines, ParseLine);
    if r.Success? && |r.value| == 0 {
      r := Failure(EmptyStepsError);
    }
  }

  /** The loop of `parseSteps` over a line parser: pushes one step per line
      and stops at the first line the parser rejects. */
  method ParseLines(lines: seq<string>, parse: string -> Result<Step, string>) returns (r: Result<seq<Step>, string>)
    ensures r == Collect(MapLines(lines, parse))
  {
    var steps: seq<Step> := [];
    ghost var outcomes := MapLines(lines, parse);
    for i := 0 to |lines|
      invariant Collect(outcomes[..i]) == Success(steps)
    {
      var step := parse(lines[i]);
      MapLinesIndex(lines, parse, i);
      assert outcomes[..i + 1][..i] == outcomes[..i];
      if step.Failure? {
        CollectFailureSticks(outcomes[..i + 1], outcomes[i + 1..]);
        assert outcomes[..i + 1] + outcomes[i + 1..] == outcomes;
        return Failure(step.error);
      }
      steps := steps + [step.value];
    }
    assert outcomes[..|lines|] == outcomes;
    return Success(steps);
  }

  /** The error `parseSteps` reports is the one for the first invalid
      line. */
  lemma FirstInvalidLineReported(lines: seq<string>, k: nat)
    requires k < |lines|
    requires forall j :: 0 <= j < k ==> ParseLine(lines[j]).Success?
    requires ParseLine(lines[k]).Failure?
    ensures StepsOfLines(lines) == Failure(InvalidStep(lines[k]))
  {
    var rs := ParseEach(lines);
    forall j | 0 <= j <= k
      ensures rs[j] == ParseLine(lines[j])
    {
      ParseEachIndex(lines, j);
    }
    CollectFirstFailure(rs, k);
  }

  /** The outcome of a run of outcomes is the first error in it. */
  lemma CollectFirstFailure(rs: seq<Result<Step, string>>, k: nat)
    requires k < |rs|
    requires forall j :: 0 <= j < k ==> rs[j].Success?
    requires rs[k].Failure?
    ensures Collect(rs) == Failure(rs[k].error)
  {
    CollectSucceeds(rs[..k]);
    assert rs[..k + 1][..k] == rs[..k];
    CollectFailureSticks(rs[..k + 1], rs[k + 1..]);
    assert rs[..k + 1] + rs[k + 1..] == rs;
  }

  lemma {:induction false} DropEmptyAppend(a: seq<string>, b: seq<string>)
    ensures DropEmpty(a + b) == DropEmpty(a) + DropEmpty(b)
    decreases |a|
  {
    if a != [] {
      DropEmptyAppend(a[1..], b);
      assert (a + b)[0] == a[0];
      assert (a + b)[1..] == a[1..] + b;
    } else {
      assert a + b == b;
    }
  }

  /** A blank or whitespace-only line between two lines is ignored: the
      lines `parseSteps` reads, and so its outcome, are the same without
      it. */
  lemma BlankLineIgnored(a: string, blank: string, b: string)
    requires forall i :: 0 <= i < |a| ==> a[i] != '\n'
    requires forall i :: 0 <= i < |blank| ==> blank[i] != '\n'
    requires IsBlank(blank)
    ensures NonBlankLines(a + ['\n'] + blank + ['\n'] + b) == NonBlankLines(a + ['\n'] + b)
    ensures ParseStepsSpec(a + ['\n'] + blank + ['\n'] + b) == ParseStepsSpec(a + ['\n'] + b)
  {
    SplitAroundBlank(a, blank, b, '\n', {'\n'});
    SplitAtFirst(a, '\n', b, {'\n'});
    TrimEmptyIffBlank(blank);
    EmptyPieceDropped(a, blank, Split(b, {'\n'}), Trim);
  }

  /** The pieces of `a`, a separator, `blank`, a separator and `b`. */
  lemma SplitAroundBlank(a: string, blank: string, b: string, c: char, seps: set<char>)
    requires c in seps
    requires forall i :: 0 <= i < |a| ==> a[i] !in seps
    requires forall i :: 0 <= i < |blank| ==> blank[i] !in seps
    ensures Split(a + [c] + blank + [c] + b, seps) == [a, blank] + Split(b, seps)
  {
    var tail := blank + [c] + b;
    SplitAtFirst(blank, c, b, seps);
    assert a + [c] + blank + [c] + b == a + [c] + tail;
    SplitAtFirst(a, c, tail, seps);
    assert [a] + ([blank] + Split(b, seps)) == [a, blank] + Split(b, seps);
  }

  /** A piece that maps to the empty string leaves no trace after the
      filter. */
  lemma EmptyPieceDropped(a: string, blank: string, rest: seq<string>, f: string -> string)
    requires f(blank) == []
    ensures DropEmpty(MapLines([a, blank] + rest, f)) == DropEmpty(MapLines([a] + rest, f))
  {
    var head := MapLines([a], f);
    assert head == [f(a)];
    assert MapLines([blank], f) == [[]];
    MapLinesAppend([a, blank], rest, f);
    MapLinesAppend([a], [blank], f);
    assert [a] + [blank] == [a, blank];
    MapLinesAppend([a], rest, f);
    var tail := MapLines(rest, f);
    DropEmptyAppend(head + [[]], tail);
    DropEmptyAppend(head, [[]]);
    DropEmptyAppend(head, tail);
  }

  /** Input with nothing but white space is the empty-progression error. */
  lemma BlankInputRejected(input: string)
    requires IsBlank(input)
    ensures NonBlankLines(input) == []
    ensures ParseStepsSpec(input) == Failure(EmptyStepsError)
  {
    var parts := Split(input, {'\n'});
    SplitOfBlankIsBlank(input, {'\n'});
    var trimmed := MapLines(parts, Trim);
    forall i | 0 <= i < |trimmed|
      ensures trimmed[i] == []
    {
      MapLinesIndex(parts, Trim, i);
      TrimEmptyIffBlank(parts[i]);
    }
    DropEmptyOfEmpties(trimmed);
    assert Collect(MapLines([], ParseLine)) == Success([]);
  }

  lemma {:induction false} DropEmptyOfEmpties(ls: seq<string>)
    requires forall i :: 0 <= i < |ls| ==> ls[i] == []
    ensures DropEmpty(ls) == []
    decreases |ls|
  {
    if ls != [] {
      DropEmptyOfEmpties(ls[1..]);
    }
  }

  // ---------------------------------------------------------------- slugify

  /** The characters `[a-z0-9]` a slug keeps. */
  predicate IsSlugChar(c: char) {
    'a' <= c <= 'z' || '0' <= c <= '9'
  }

  /** Only `[a-z0-9-]`, no two `-` in a row. */
  predicate IsDashed(s: string) {
    && (forall i :: 0 <= i < |s| ==> IsSlugChar(s[i]) || s[i] == '-')
    && (forall i :: 0 <= i < |s| - 1 ==> !(s[i] == '-' && s[i + 1] == '-'))
  }

  /** A slug: dashed, and neither starting nor ending with `-`. */
  predicate IsSlug(s: string) {
    IsDashed(s) && (s != [] ==> s[0] != '-' && s[|s| - 1] != '-')
  }

  /** Drops a leading run of characters outside `[a-z0-9]`. */
  function SkipRun(s: string): (r: string)
    ensures |r| <= |s| && r == s[|s| - |r|..]
    ensures r == [] || IsSlugChar(r[0])
  {
    if s == [] || IsSlugChar(s[0]) then s else SkipRun(s[1..])
  }

  /** `.replace(/[^a-z0-9]+/g, "-")`: every maximal run of characters outside
      `[a-z0-9]` becomes a single `-`. */
  function CollapseRuns(s: string): (r: string)
    ensures IsDashed(r)
    ensures r == [] <==> s == []
    ensures s != [] && IsSlugChar(s[0]) ==> r[0] == s[0]
    decreases |s|
  {
    if s == [] then []
    else if IsSlugChar(s[0]) then [s[0]] + CollapseRuns(s[1..])
    else
      var rest := CollapseRuns(SkipRun(s[1..]));
      assert rest != [] ==> IsSlugChar(rest[0]);
      ['-'] + rest
  }

  /** `.replace(/(^-|-$)/g, "")`: drops one `-` at the start and one at the
      end. */
  function StripDashes(s: string): (r: string)
    ensures IsDashed(s) ==> IsSlug(r)
  {
    var t := if s != [] && s[0] == '-' then s[1..] else s;
    assert IsDashed(s) ==> IsDashed(t) && (t != [] ==> t[0] != '-');
    if t != [] && t[|t| - 1] == '-' then t[..|t| - 1] else t
  }

  /** `slugify(value)`: lower-cased, trimmed, runs outside `[a-z0-9]` turned
      into single dashes, a dash at either end dropped. */
  function Slugify(value: string): (r: string)
    ensures IsSlug(r)
  {
    StripDashes(CollapseRuns(Trim(ToLower(value))))
  }

  lemma {:induction false} CollapseRunsOfDashed(s: string)
    requires IsDashed(s)
    ensures CollapseRuns(s) == s
    decreases |s|
  {
    if s != [] {
      CollapseRunsOfDashed(s[1..]);
      if !IsSlugChar(s[0]) {
        assert SkipRun(s[1..]) == s[1..];
      }
      assert [s[0]] + s[1..] == s;
    }
  }

  /** A slug is its own slug, so slugifying twice changes nothing. */
  lemma SlugIsFixedPoint(s: string)
    requires IsSlug(s)
    ensures Slugify(s) == s
  {
    DashedIsLower(s);
    DashedIsTrimmed(s);
    CollapseRunsOfDashed(s);
    assert StripDashes(s) == s;
  }

  lemma DashedIsLower(s: string)
    requires IsDashed(s)
    ensures ToLower(s) == s
  {
    assert forall i :: 0 <= i < |s| ==> ToLowerChar(s[i]) == s[i];
  }

  lemma DashedIsTrimmed(s: string)
    requires IsDashed(s)
    ensures Trim(s) == s
  {
    if s != [] {
      assert !IsWhitespace(s[0]);
      assert TrimStart(s) == s;
      assert !IsWhitespace(s[|s| - 1]);
      assert TrimEnd(s) == s;
    }
  }

  lemma SlugifyIdempotent(value: string)
    ensures Slugify(Slugify(value)) == Slugify(value)
  {
    SlugIsFixedPoint(Slugify(value));
  }

  // ---------------------------------------------------------------- unique id

  /** The id probed after `id` is taken: `${id}-${i}`. */
  function Candidate(id: string, i: nat): string {
    id + "-" + NatToString(i)
  }

  /** Distinct counters give distinct candidates, none of them `id`. */
  lemma CandidatesDistinct(id: string, i: nat, j: nat)
    ensures Candidate(id, i) != id
    ensures Candidate(id, i) == Candidate(id, j) ==> i == j
  {
    if Candidate(id, i) == Candidate(id, j) {
      var n := |id| + 1;
      assert Candidate(id, i)[n..] == NatToString(i);
      assert Candidate(id, j)[n..] == NatToString(j);
      NatToStringInjective(i, j);
    }
  }

  /** The probe of the submit handler: `id` itself if free, otherwise
      `id-1`, `id-2`, ... up to the first one not yet taken. */
  method UniqueId(taken: set<string>, id: string) returns (u: string)
    ensures u !in taken
    ensures id !in taken ==> u == id
    ensures id in taken ==>
      exists i :: i >= 1 && u == Candidate(id, i) && forall j :: 1 <= j < i ==> Candidate(id, j) in taken
  {
    u := id;
    var i: nat := 1;
    ghost var tried: set<string> := {};
    while u in taken
      invariant i >= 1
      invariant u == if i == 1 then id else Candidate(id, i - 1)
      invariant i > 1 ==> id in taken
      invariant forall j :: 1 <= j < i - 1 ==> Candidate(id, j) in taken
      invariant tried <= taken && u !in tried
      invariant forall t :: t in tried ==> t == id || exists j :: 1 <= j < i - 1 && t == Candidate(id, j)
      decreases |taken| - |tried|
    {
      SubsetSize(tried + {u}, taken);
      tried := tried + {u};
      u := Candidate(id, i);
      NextCandidateUntried(id, i, tried);
      i := i + 1;
    }
    if id in taken {
      assert u == Candidate(id, i - 1);
    }
  }

  lemma SubsetSize(a: set<string>, b: set<string>)
    requires a <= b
    ensures |a| <= |b|
  {
    assert b == a + (b - a);
  }

  /** A candidate with a larger suffix differs from the plain id and from every smaller candidate. */
  lemma NextCandidateUntried(id: string, i: nat, tried: set<string>)
    requires i >= 1
    requires forall t :: t in tried ==> t == id || exists j :: 1 <= j < i && t == Candidate(id, j)
    ensures Candidate(id, i) !in tried
  {
    if Candidate(id, i) in tried {
      CandidatesDistinct(id, i, i);
      var j :| 1 <= j < i && Candidate(id, i) == Candidate(id, j);
      CandidatesDistinct(id, i, j);
    }
  }
}
