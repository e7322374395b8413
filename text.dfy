/** String helpers with the JavaScript semantics the instrument relies on:
    `String.prototype.split` with a separator class, `trim`, an ASCII
    `toLowerCase`, decimal printing of naturals and the decimal subset of
    `Number(string)`. */
module Text {
  import opened Wrappers

  // ---------------------------------------------------------------- whitespace

  /** The characters `String.prototype.trim` strips: white space and line
      terminators of ECMAScript (tab, VT, FF, space, NBSP, ZWNBSP, the Zs
      category, LF, CR, LS, PS). */
  predicate IsWhitespace(c: char) {
    c in {'\t', '\U{000B}', '\U{000C}', ' ', '\U{00A0}', '\U{FEFF}', '\n', '\r',
          '\U{2028}', '\U{2029}', '\U{1680}', '\U{2000}', '\U{2001}', '\U{2002}',
          '\U{2003}', '\U{2004}', '\U{2005}', '\U{2006}', '\U{2007}', '\U{2008}',
          '\U{2009}', '\U{200A}', '\U{202F}', '\U{205F}', '\U{3000}'}
  }

  predicate IsBlank(s: string) {
    forall i :: 0 <= i < |s| ==> IsWhitespace(s[i])
  }

  /** `s.trimStart()`: the longest suffix of `s` that does not start with
      white space. */
  function TrimStart(s: string): (r: string)
    ensures |r| <= |s| && r == s[|s| - |r|..]
    ensures r == [] || !IsWhitespace(r[0])
  {
    if s == [] || !IsWhitespace(s[0]) then s else TrimStart(s[1..])
  }

  /** `s.trimEnd()`: the longest prefix of `s` that does not end with white
      space. */
  function TrimEnd(s: string): (r: string)
    ensures |r| <= |s| && r == s[..|r|]
    ensures r == [] || !IsWhitespace(r[|r| - 1])
  {
    if s == [] || !IsWhitespace(s[|s| - 1]) then s else TrimEnd(s[..|s| - 1])
  }

  /** What `TrimStart` removes is white space. */
  lemma {:induction false} TrimStartRemovesBlank(s: string)
    ensures IsBlank(s[..|s| - |TrimStart(s)|])
    decreases |s|
  {
    if s != [] && IsWhitespace(s[0]) {
      TrimStartRemovesBlank(s[1..]);
      var k := |s| - |TrimStart(s)|;
      assert forall i :: 1 <= i < k ==> s[..k][i] == s[1..][..k - 1][i - 1];
    }
  }

  /** What `TrimEnd` removes is white space. */
  lemma {:induction false} TrimEndRemovesBlank(s: string)
    ensures IsBlank(s[|TrimEnd(s)|..])
    decreases |s|
  {
    if s != [] && IsWhitespace(s[|s| - 1]) {
      var front := s[..|s| - 1];
      TrimEndRemovesBlank(front);
      var k := |TrimEnd(s)|;
      assert forall i :: k <= i < |s| - 1 ==> s[i] == front[i];
    }
  }

  /** `s.trim()`: the middle of `s` that neither starts nor ends with white
      space. */
  function Trim(s: string): (r: string)
    ensures |r| <= |s|
    ensures |r| <= |TrimStart(s)| && r == TrimStart(s)[..|r|]
    ensures r != [] ==> !IsWhitespace(r[0]) && !IsWhitespace(r[|r| - 1])
  {
    TrimEnd(TrimStart(s))
  }

  /** `trim` gives the empty string exactly for blank input. */
  lemma TrimEmptyIffBlank(s: string)
    ensures Trim(s) == [] <==> IsBlank(s)
  {
    var t := TrimStart(s);
    TrimStartRemovesBlank(s);
    TrimEndRemovesBlank(t);
    if Trim(s) == [] {
      assert s == s[..|s| - |t|] + t;
      assert t[0..] == t;
    }
  }

  /** Trimming twice trims nothing more. */
  lemma TrimIdempotent(s: string)
    ensures Trim(Trim(s)) == Trim(s)
  {
    var r := Trim(s);
    if r != [] {
      assert TrimStart(r) == r;
      assert TrimEnd(r) == r;
    }
  }

  // ---------------------------------------------------------------- lower case

  function ToLowerChar(c: char): (d: char)
    ensures 'A' <= c <= 'Z' ==> d as int == c as int + 32
    ensures !('A' <= c <= 'Z') ==> d == c
    ensures !('A' <= d <= 'Z')
  {
    if 'A' <= c <= 'Z' then (c as int + 32) as char else c
  }

  /** `s.toLowerCase()` on the ASCII letters: `A`..`Z` become `a`..`z`. */
  function ToLower(s: string): (r: string)
    ensures |r| == |s|
    ensures forall i :: 0 <= i < |s| ==> r[i] == ToLowerChar(s[i])
  {
    seq(|s|, i requires 0 <= i < |s| => ToLowerChar(s[i]))
  }

  lemma ToLowerIdempotent(s: string)
    ensures ToLower(ToLower(s)) == ToLower(s)
  {
  }

  /** Text with no upper-case ASCII letter is already lower case. */
  lemma ToLowerOfLower(s: string)
    requires forall i :: 0 <= i < |s| ==> !('A' <= s[i] <= 'Z')
    ensures ToLower(s) == s
  {
  }

  // ---------------------------------------------------------------- split / join

  /** `s.split(sep)` where `sep` matches any one character of `seps`: the
      pieces between separators, always at least one (`"".split(",")` is
      `[""]`). */
  function Split(s: string, seps: set<char>): (parts: seq<string>)
    ensures |parts| >= 1
    ensures forall i, j :: 0 <= i < |parts| && 0 <= j < |parts[i]| ==> parts[i][j] !in seps
    decreases |s|
  {
    if s == [] then [""]
    else if s[0] in seps then [""] + Split(s[1..], seps)
    else
      var rest := Split(s[1..], seps);
      [[s[0]] + rest[0]] + rest[1..]
  }

  /** `parts.join(sep)`. */
  function Join(parts: seq<string>, sep: char): string
    requires |parts| >= 1
  {
    if |parts| == 1 then parts[0] else parts[0] + [sep] + Join(parts[1..], sep)
  }

  /** Splitting on one character and joining back with it gives the string
      again. */
  lemma {:induction false} SplitJoin(s: string, c: char)
    ensures Join(Split(s, {c}), c) == s
    decreases |s|
  {
    if s == [] {
    } else if s[0] == c {
      SplitJoin(s[1..], c);
      assert s == [c] + s[1..];
    } else {
      var rest := Split(s[1..], {c});
      SplitJoin(s[1..], c);
      if |rest| == 1 {
        assert s == [s[0]] + s[1..];
      } else {
        assert rest == [rest[0]] + rest[1..];
        assert s == [s[0]] + s[1..];
      }
    }
  }

  /** A string without separators splits into itself alone. */
  lemma {:induction false} SplitWithoutSeparator(s: string, seps: set<char>)
    requires forall i :: 0 <= i < |s| ==> s[i] !in seps
    ensures Split(s, seps) == [s]
    decreases |s|
  {
    if s != [] {
      SplitWithoutSeparator(s[1..], seps);
      assert s == [s[0]] + s[1..];
    }
  }

  /** Splitting at the first separator: the piece before it, then the
      pieces of the rest. */
  lemma {:induction false} SplitAtFirst(a: string, c: char, b: string, seps: set<char>)
    requires c in seps
    requires forall i :: 0 <= i < |a| ==> a[i] !in seps
    ensures Split(a + [c] + b, seps) == [a] + Split(b, seps)
    decreases |a|
  {
    var s := a + [c] + b;
    if a == [] {
      assert s[1..] == b;
    } else {
      assert s[1..] == a[1..] + [c] + b;
      SplitAtFirst(a[1..], c, b, seps);
      assert [a[0]] + a[1..] == a;
    }
  }

  /** The pieces of a blank string are blank. */
  lemma {:induction false} SplitOfBlankIsBlank(s: string, seps: set<char>)
    requires IsBlank(s)
    ensures forall i :: 0 <= i < |Split(s, seps)| ==> IsBlank(Split(s, seps)[i])
    decreases |s|
  {
    if s != [] {
      SplitOfBlankIsBlank(s[1..], seps);
      if s[0] !in seps {
        var rest := Split(s[1..], seps);
        assert IsBlank([s[0]] + rest[0]);
      }
    }
  }

  // ---------------------------------------------------------------- numbers

  predicate IsDigit(c: char) { '0' <= c <= '9' }

  predicate AllDigits(s: string) {
    forall i :: 0 <= i < |s| ==> IsDigit(s[i])
  }

  function DigitChar(d: nat): (c: char)
    requires d < 10
    ensures IsDigit(c) && c as int - '0' as int == d
  {
    ('0' as int + d) as char
  }

  /** The decimal numeral of `n` (template-literal interpolation of a
      non-negative integer). */
  function NatToString(n: nat): (s: string)
    ensures |s| >= 1 && AllDigits(s)
    ensures n >= 10 <==> |s| >= 2
  {
    if n < 10 then [DigitChar(n)] else NatToString(n / 10) + [DigitChar(n % 10)]
  }

  /** The value of a string of decimal digits (`""` is 0). */
  function DigitsValue(s: string): nat
    requires AllDigits(s)
  {
    if s == [] then 0
    else DigitsValue(s[..|s| - 1]) * 10 + (s[|s| - 1] as int - '0' as int)
  }

  /** Reading back a printed natural gives the natural. */
  lemma {:induction false} DigitsValueOfNatToString(n: nat)
    ensures DigitsValue(NatToString(n)) == n
  {
    if n >= 10 {
      var p := NatToString(n / 10);
      DigitsValueOfNatToString(n / 10);
      assert (p + [DigitChar(n % 10)])[..|p|] == p;
    }
  }

  /** Different naturals print differently. */
  lemma NatToStringInjective(a: nat, b: nat)
    requires NatToString(a) == NatToString(b)
    ensures a == b
  {
    DigitsValueOfNatToString(a);
    DigitsValueOfNatToString(b);
  }

  function Pow10(k: nat): (r: nat)
    ensures r >= 1
  {
    if k == 0 then 1 else 10 * Pow10(k - 1)
  }

  /** An unsigned decimal numeral: digits, optionally with one `.` and a
      fraction (`"5"`, `"5."`, `".5"`, `"2.25"`); anything else is NaN. */
  function UnsignedDecimal(s: string): (r: Option<real>)
    ensures r.Some? ==> r.value >= 0.0
  {
    var parts := Split(s, {'.'});
    if |parts| == 1 && parts[0] != [] && AllDigits(parts[0]) then
      Some(DigitsValue(parts[0]) as real)
    else if |parts| == 2 && (parts[0] != [] || parts[1] != [])
         && AllDigits(parts[0]) && AllDigits(parts[1]) then
      Some(DigitsValue(parts[0]) as real + DigitsValue(parts[1]) as real / Pow10(|parts[1]|) as real)
    else
      None
  }

  /** `Number(s)` restricted to decimal notation: surrounding white space is
      ignored, the empty string is 0, a leading sign is honoured, and `None`
      stands for NaN. */
  function NumberValue(s: string): (r: Option<real>)
    ensures r.Some? && Trim(s) != [] && Trim(s)[0] != '-' ==> r.value >= 0.0
  {
    var t := Trim(s);
    if t == [] then Some(0.0)
    else if t[0] == '-' then
      (match UnsignedDecimal(t[1..]) case Some(v) => Some(-v) case None => None)
    else if t[0] == '+' then UnsignedDecimal(t[1..])
    else UnsignedDecimal(t)
  }

  /** A blank field counts as zero. */
  lemma NumberValueOfBlank(s: string)
    requires IsBlank(s)
    ensures NumberValue(s) == Some(0.0)
  {
    TrimEmptyIffBlank(s);
  }

  /** `Number` reads back every printed natural. */
  lemma NumberValueOfNatToString(n: nat)
    ensures NumberValue(NatToString(n)) == Some(n as real)
  {
    var s := NatToString(n);
    assert IsDigit(s[0]) && IsDigit(s[|s| - 1]);
    assert !IsWhitespace(s[0]) && !IsWhitespace(s[|s| - 1]);
    assert TrimStart(s) == s;
    assert TrimEnd(s) == s;
    assert Trim(s) == s;
    assert s[0] != '-' && s[0] != '+';
    SplitWithoutSeparator(s, {'.'});
    DigitsValueOfNatToString(n);
    assert UnsignedDecimal(s) == Some(n as real);
  }
}
