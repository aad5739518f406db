/** Characters and strings as JavaScript sees them: the `\s` and `\d` regex
    classes, `includes`, `trim`, `split`, `padStart`/`padEnd`, and the decimal
    rendering and parsing of integers. */
module Text {

  /** JavaScript's `\s`: the WhiteSpace and LineTerminator characters of
      ECMAScript. `String.prototype.trim` removes exactly these. */
  predicate IsSpace(c: char) {
    || c == '\t' || c == '\n' || c == '\U{000B}' || c == '\U{000C}' || c == '\r'
    || c == ' ' || c == '\U{00A0}' || c == '\U{1680}' || '\U{2000}' <= c <= '\U{200A}'
    || c == '\U{2028}' || c == '\U{2029}' || c == '\U{202F}' || c == '\U{205F}'
    || c == '\U{3000}' || c == '\U{FEFF}'
  }

  /** The characters the regex `.` does not match. */
  predicate IsLineTerminator(c: char) {
    c == '\n' || c == '\r' || c == '\U{2028}' || c == '\U{2029}'
  }

  lemma {:induction false} LineTerminatorIsSpace(c: char)
    ensures IsLineTerminator(c) ==> IsSpace(c)
  {
  }

  /** JavaScript's `\d` (ASCII digits only, the regexes carry no `u` flag). */
  predicate IsDigit(c: char) { '0' <= c <= '9' }

  predicate IsAscii(c: char) { c as int < 0x80 }

  predicate IsLetter(c: char) { 'a' <= c <= 'z' || 'A' <= c <= 'Z' }

  /** `[a-zA-Z0-9]` */
  predicate IsAlnum(c: char) { IsLetter(c) || IsDigit(c) }

  predicate AllAscii(s: string) { forall i :: 0 <= i < |s| ==> IsAscii(s[i]) }

  predicate AllDigits(s: string) { forall i :: 0 <= i < |s| ==> IsDigit(s[i]) }

  // ---------------------------------------------------------------------------
  // Substrings

  predicate OccursAt(s: string, pat: string, i: nat) {
    i + |pat| <= |s| && s[i..i + |pat|] == pat
  }

  /** An occurrence of `x + y` is an occurrence of `x` followed by one of `y`. */
  lemma {:induction false} OccursAtSplit(s: string, x: string, y: string, i: nat)
    ensures OccursAt(s, x + y, i) <==> OccursAt(s, x, i) && OccursAt(s, y, i + |x|)
  {
    if OccursAt(s, x, i) && OccursAt(s, y, i + |x|) {
      assert s[i..i + |x + y|] == s[i..i + |x|] + s[i + |x|..i + |x| + |y|];
    }
    if OccursAt(s, x + y, i) {
      assert s[i..i + |x|] == (x + y)[..|x|];
      assert s[i + |x|..i + |x| + |y|] == (x + y)[|x|..];
    }
  }

  /** Occurrences inside the slice `s[lo..hi]` are occurrences in `s` that end by `hi`. */
  lemma {:induction false} OccursInSlice(s: string, lo: nat, hi: nat, pat: string, i: nat)
    requires lo <= hi <= |s|
    ensures OccursAt(s[lo..hi], pat, i) <==> OccursAt(s, pat, lo + i) && lo + i + |pat| <= hi
  {
    if lo + i + |pat| <= hi {
      var a, b := s[lo..hi][i..i + |pat|], s[lo + i..lo + i + |pat|];
      assert |a| == |b|;
      forall j | 0 <= j < |a| ensures a[j] == b[j] {
        assert a[j] == s[lo..hi][i + j] == s[lo + i + j];
      }
      assert a == b;
    }
  }

  /** `s.includes(pat)` */
  predicate Contains(s: string, pat: string) {
    exists i: nat | i <= |s| :: OccursAt(s, pat, i)
  }

  /** A string contained in a slice of `s` is contained in `s`. */
  lemma {:induction false} ContainsInSlice(s: string, lo: nat, hi: nat, pat: string)
    requires lo <= hi <= |s|
    requires Contains(s[lo..hi], pat)
    ensures Contains(s, pat)
  {
    var i: nat :| i <= hi - lo && OccursAt(s[lo..hi], pat, i);
    forall t | 0 <= t < |pat| ensures s[lo + i + t] == pat[t] {
      assert pat[t] == s[lo..hi][i..i + |pat|][t];
    }
    assert s[lo + i..lo + i + |pat|] == pat;
    assert OccursAt(s, pat, lo + i);
  }

  /** A longer pattern contains every part of itself. */
  lemma {:induction false} ContainsPart(s: string, pat: string, lo: nat, hi: nat)
    requires lo <= hi <= |pat|
    requires Contains(s, pat)
    ensures Contains(s, pat[lo..hi])
  {
    var i: nat :| i <= |s| && OccursAt(s, pat, i);
    forall t | 0 <= t < hi - lo ensures s[i + lo + t] == pat[lo..hi][t] {
      assert pat[lo + t] == s[i..i + |pat|][lo + t];
    }
    assert s[i + lo..i + hi] == pat[lo..hi];
    assert OccursAt(s, pat[lo..hi], i + lo);
  }

  // ---------------------------------------------------------------------------
  // Greedy runs of one character class

  /** `\d`, `[0-9.]`, `\s`, `[^\s]` and `.` */
  datatype CharClass = Digit | DigitOrDot | Space | NonSpace | NonTerminator

  predicate InClass(c: char, k: CharClass) {
    match k
    case Digit => IsDigit(c)
    case DigitOrDot => IsDigit(c) || c == '.'
    case Space => IsSpace(c)
    case NonSpace => !IsSpace(c)
    case NonTerminator => !IsLineTerminator(c)
  }

  /** Where a greedy `k*` that starts at `i` stops: the end of the longest run
      of `k` characters from `i`. */
  function RunEnd(s: string, i: nat, k: CharClass): (e: nat)
    requires i <= |s|
    ensures i <= e <= |s|
    ensures e == |s| || !InClass(s[e], k)
    decreases |s| - i
  {
    if i < |s| && InClass(s[i], k) then RunEnd(s, i + 1, k) else i
  }

  /** Every character of the run is of class `k`. */
  lemma {:induction false} RunEndRun(s: string, i: nat, k: CharClass)
    requires i <= |s|
    ensures forall j :: i <= j < RunEnd(s, i, k) ==> InClass(s[j], k)
    decreases |s| - i
  {
    if i < |s| && InClass(s[i], k) {
      RunEndRun(s, i + 1, k);
    }
  }

  /** The run end is determined by the run property alone. */
  lemma {:induction false} RunEndUnique(s: string, i: nat, k: CharClass, e: nat)
    requires i <= e <= |s|
    requires forall j :: i <= j < e ==> InClass(s[j], k)
    requires e == |s| || !InClass(s[e], k)
    ensures RunEnd(s, i, k) == e
    decreases e - i
  {
    if i < e {
      RunEndUnique(s, i + 1, k, e);
    }
  }

  // ---------------------------------------------------------------------------
  // trim

  /** `s.trimStart()` */
  function TrimStart(s: string): (r: string)
    ensures |r| <= |s| && r == s[|s| - |r|..]
    ensures r == [] || !IsSpace(r[0])
    ensures forall j :: 0 <= j < |s| - |r| ==> IsSpace(s[j])
  {
    RunEndRun(s, 0, Space);
    s[RunEnd(s, 0, Space)..]
  }

  /** `s.trimEnd()` */
  function TrimEnd(s: string): (r: string)
    ensures |r| <= |s| && r == s[..|r|]
    ensures r == [] || !IsSpace(r[|r| - 1])
    ensures forall j :: |r| <= j < |s| ==> IsSpace(s[j])
  {
    if |s| > 0 && IsSpace(s[|s| - 1]) then TrimEnd(s[..|s| - 1]) else s
  }

  /** `s.trim()` */
  function Trim(s: string): (r: string)
    ensures r == [] || (!IsSpace(r[0]) && !IsSpace(r[|r| - 1]))
  {
    TrimEnd(TrimStart(s))
  }

  /** The trimmed string is the slice of `s` between its leading and trailing
      white space, and only white space was removed. */
  lemma {:induction false} TrimIsSlice(s: string)
    ensures var lo := |s| - |TrimStart(s)|;
      && lo + |Trim(s)| <= |s|
      && Trim(s) == s[lo..lo + |Trim(s)|]
      && (forall j :: 0 <= j < lo ==> IsSpace(s[j]))
      && (forall j :: lo + |Trim(s)| <= j < |s| ==> IsSpace(s[j]))
  {
    var t := TrimStart(s);
    var lo := |s| - |t|;
    var r := Trim(s);
    assert r == t[..|r|];
    assert t[..|r|] == s[lo..lo + |r|];
    forall j | lo + |r| <= j < |s| ensures IsSpace(s[j]) {
      assert s[j] == t[j - lo];
    }
  }

  /** What the trimmed string contains, the string contains. */
  lemma {:induction false} TrimContains(s: string, pat: string)
    requires Contains(Trim(s), pat)
    ensures Contains(s, pat)
  {
    TrimIsSlice(s);
    var lo := |s| - |TrimStart(s)|;
    ContainsInSlice(s, lo, lo + |Trim(s)|, pat);
  }

  /** `trimStart` removes exactly the leading run of white space. */
  lemma {:induction false} TrimStartAt(u: string, k: nat)
    requires k <= |u| && forall j :: 0 <= j < k ==> IsSpace(u[j])
    requires k == |u| || !IsSpace(u[k])
    ensures TrimStart(u) == u[k..]
  {
    RunEndUnique(u, 0, Space, k);
  }

  /** `trimEnd` removes exactly the trailing run of white space. */
  lemma {:induction false} TrimEndAt(u: string, k: nat)
    requires k <= |u| && forall j :: k <= j < |u| ==> IsSpace(u[j])
    requires k == 0 || !IsSpace(u[k - 1])
    ensures TrimEnd(u) == u[..k]
  {
  }

  /** A string without surrounding white space is its own trim. */
  lemma {:induction false} TrimOfTrimmed(s: string)
    requires s == [] || (!IsSpace(s[0]) && !IsSpace(s[|s| - 1]))
    ensures Trim(s) == s
  {
    if s != [] {
      RunEndUnique(s, 0, Space, 0);
    }
  }

  lemma {:induction false} TrimIdempotent(s: string)
    ensures Trim(Trim(s)) == Trim(s)
  {
    TrimOfTrimmed(Trim(s));
  }

  lemma {:induction false} TrimEmptyIffAllSpace(s: string)
    ensures Trim(s) == [] <==> forall j :: 0 <= j < |s| ==> IsSpace(s[j])
  {
    TrimIsSlice(s);
    var lo := |s| - |TrimStart(s)|;
    assert Trim(s) != [] ==> Trim(s)[0] == s[lo];
  }

  // ---------------------------------------------------------------------------
  // split on one character

  /** `s.split(sep)` for a one-character separator: the pieces between the
      separators, always at least one. */
  function Split(s: string, sep: char): (parts: seq<string>)
    ensures |parts| >= 1
    ensures forall k :: 0 <= k < |parts| ==> sep !in parts[k]
    decreases |s|
  {
    if s == [] then [""]
    else
      var rest := Split(s[1..], sep);
      if s[0] == sep then [""] + rest
      else [[s[0]] + rest[0]] + rest[1..]
  }

  /** `parts.join(sep)` */
  function Join(parts: seq<string>, sep: char): string
    requires |parts| >= 1
  {
    if |parts| == 1 then parts[0] else parts[0] + [sep] + Join(parts[1..], sep)
  }

  /** Joining the pieces again gives back the string: `split` loses nothing. */
  lemma {:induction false} JoinSplit(s: string, sep: char)
    ensures Join(Split(s, sep), sep) == s
    decreases |s|
  {
    if s != [] {
      var rest := Split(s[1..], sep);
      JoinSplit(s[1..], sep);
      if s[0] != sep && |rest| > 1 {
        assert Split(s, sep)[1..] == rest[1..];
      }
    }
  }

  /** Splitting a join of separator-free pieces gives back the pieces. */
  lemma {:induction false} SplitJoin(parts: seq<string>, sep: char)
    requires |parts| >= 1
    requires forall k :: 0 <= k < |parts| ==> sep !in parts[k]
    ensures Split(Join(parts, sep), sep) == parts
    decreases |parts|, |parts[0]|
  {
    if parts[0] == [] {
      if |parts| > 1 {
        SplitJoin(parts[1..], sep);
        assert Join(parts, sep)[1..] == Join(parts[1..], sep);
        assert [""] + parts[1..] == parts;
      }
    } else {
      var p0 := parts[0];
      var tail := [p0[1..]] + parts[1..];
      assert tail[1..] == parts[1..];
      SplitJoin(tail, sep);
      assert Join(tail, sep) == Join(parts, sep)[1..];
      assert p0 == [p0[0]] + p0[1..];
      assert parts == [p0] + parts[1..];
    }
  }

  // ---------------------------------------------------------------------------
  // padding

  function Spaces(n: nat): (r: string)
    ensures |r| == n && forall i :: 0 <= i < n ==> r[i] == ' '
  {
    seq(n, _ => ' ')
  }

  /** `s.padStart(n)`: spaces in front up to length `n`; a longer string is kept. */
  function PadStart(s: string, n: nat): (r: string)
    ensures |r| == if |s| < n then n else |s|
    ensures r[|r| - |s|..] == s
    ensures forall i :: 0 <= i < |r| - |s| ==> r[i] == ' '
  {
    if |s| < n then Spaces(n - |s|) + s else s
  }

  /** `s.padEnd(n)`: spaces behind up to length `n`; a longer string is kept. */
  function PadEnd(s: string, n: nat): (r: string)
    ensures |r| == if |s| < n then n else |s|
    ensures r[..|s|] == s
    ensures forall i :: |s| <= i < |r| ==> r[i] == ' '
  {
    if |s| < n then s + Spaces(n - |s|) else s
  }

  // ---------------------------------------------------------------------------
  // integers as decimal text

  function DigitChar(d: nat): (c: char)
    requires d < 10
    ensures IsDigit(c) && c as int - '0' as int == d
  {
    ('0' as int + d) as char
  }

  /** The decimal digits of `n`, as `n.toString()` writes them. */
  function NatToString(n: nat): (r: string)
    ensures |r| >= 1 && AllDigits(r)
    ensures r[0] == '0' ==> n == 0
  {
    if n < 10 then [DigitChar(n)] else NatToString(n / 10) + [DigitChar(n % 10)]
  }

  /** `String(i)` for an integer-valued number. */
  function IntToString(i: int): string {
    if i < 0 then "-" + NatToString(-i) else NatToString(i)
  }

  /** The value of a string of decimal digits (`parseInt` of such a string). */
  function DigitsValue(s: string): nat
    requires AllDigits(s)
  {
    if s == [] then 0 else DigitsValue(s[..|s| - 1]) * 10 + (s[|s| - 1] as int - '0' as int)
  }

  /** Reading back the rendered digits gives the number. */
  lemma {:induction false} DigitsValueOfNatToString(n: nat)
    ensures DigitsValue(NatToString(n)) == n
  {
    if n >= 10 {
      var r := NatToString(n);
      assert r[..|r| - 1] == NatToString(n / 10);
      DigitsValueOfNatToString(n / 10);
    }
  }
}
