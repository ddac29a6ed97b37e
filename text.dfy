/**
 * String operations the agents use: substring search, split/join,
 * replace-all, strip, ASCII lower-casing, decimal rendering and the
 * decimal-numeral parser that stands for Python's `float(...)`.
 * Strings are `seq<char>`.
 */
module Text {

  datatype Option<T> = None | Some(value: T)

  // ---------------------------------------------------------------- search

  function StartsWith(s: string, p: string): (r: bool)
    ensures r <==> |p| <= |s| && s[..|p|] == p
  {
    |p| <= |s| && s[..|p|] == p
  }

  function EndsWith(s: string, p: string): (r: bool)
    ensures r ==> |p| <= |s| && s == s[..|s| - |p|] + p
  {
    |p| <= |s| && s[|s| - |p|..] == p
  }

  /** `p` occurs in `s` starting at position `i`. */
  predicate MatchAt(s: string, p: string, i: nat)
  {
    i + |p| <= |s| && s[i..i + |p|] == p
  }

  /** Python's `p in s`. */
  predicate Contains(s: string, p: string)
  {
    exists i: nat | i <= |s| :: MatchAt(s, p, i)
  }

  /** The first position at or after `from` where `p` occurs. */
  function FindFrom(s: string, p: string, from: nat): (r: Option<nat>)
    decreases |s| - from
    ensures r.Some? ==> from <= r.value && MatchAt(s, p, r.value)
  {
    if from + |p| > |s| then None
    else if MatchAt(s, p, from) then Some(from)
    else FindFrom(s, p, from + 1)
  }

  /** The search finds the first occurrence at or after `from`, and finds none only when there is none. */
  lemma {:induction false} FindFromFirst(s: string, p: string, from: nat)
    decreases |s| - from
    ensures var r := FindFrom(s, p, from);
            && (r.Some? ==> forall j: nat | from <= j < r.value :: !MatchAt(s, p, j))
            && (r.None? ==> forall j: nat | from <= j :: !MatchAt(s, p, j))
  {
    if from + |p| <= |s| && !MatchAt(s, p, from) {
      FindFromFirst(s, p, from + 1);
    }
  }

  /** Python's `s.find(p)`, as an option. */
  function IndexOf(s: string, p: string): (r: Option<nat>)
    ensures r.Some? <==> Contains(s, p)
    ensures r.Some? ==> MatchAt(s, p, r.value)
  {
    var r := FindFrom(s, p, 0);
    FindFromFirst(s, p, 0);
    assert r.Some? ==> r.value <= |s|;
    r
  }

  lemma MatchAtPrefix(s: string, p: string)
    requires StartsWith(s, p)
    ensures Contains(s, p)
  {
    assert MatchAt(s, p, 0);
  }

  /** A character of `p` that does not occur in `s` rules out `p in s`. */
  lemma MissingChar(s: string, p: string, c: char)
    requires c in p && c !in s
    ensures !Contains(s, p)
  {
    var k :| 0 <= k < |p| && p[k] == c;
    forall i: nat | i <= |s| ensures !MatchAt(s, p, i) {
      if i + |p| <= |s| {
        assert s[i..i + |p|][k] == s[i + k];
      }
    }
  }

  /** Two adjacent characters of `p` that are never adjacent in `s` rule out `p in s`. */
  lemma MissingPair(s: string, p: string, k: nat)
    requires k + 1 < |p|
    requires forall i | 0 <= i < |s| - 1 :: !(s[i] == p[k] && s[i + 1] == p[k + 1])
    ensures !Contains(s, p)
  {
    forall i: nat | i <= |s| ensures !MatchAt(s, p, i) {
      if i + |p| <= |s| {
        assert s[i..i + |p|][k] == s[i + k] && s[i..i + |p|][k + 1] == s[i + k + 1];
      }
    }
  }

  /** A match inside a slice is a match inside the whole string. */
  lemma ContainsSuffix(s: string, p: string, from: nat)
    requires from <= |s| && Contains(s[from..], p)
    ensures Contains(s, p)
  {
    var i: nat :| i <= |s[from..]| && MatchAt(s[from..], p, i);
    assert s[from..][i..i + |p|] == s[from + i..from + i + |p|];
    assert MatchAt(s, p, from + i);
  }

  // ---------------------------------------------------------- split / join

  /** Python's `s.split(sep)` for a non-empty separator. */
  function Split(s: string, sep: string): (parts: seq<string>)
    requires |sep| > 0
    decreases |s|
    ensures |parts| >= 1
  {
    match IndexOf(s, sep)
    case None => [s]
    case Some(i) => [s[..i]] + Split(s[i + |sep|..], sep)
  }

  /** Python's `sep.join(parts)`. */
  function Join(parts: seq<string>, sep: string): (r: string)
    ensures |parts| == 1 ==> r == parts[0]
    ensures parts == [] ==> r == ""
  {
    if |parts| == 0 then ""
    else if |parts| == 1 then parts[0]
    else parts[0] + sep + Join(parts[1..], sep)
  }

  /** Joining the pieces of a split with the same separator gives the string back. */
  lemma {:induction false} JoinSplit(s: string, sep: string)
    requires |sep| > 0
    decreases |s|
    ensures Join(Split(s, sep), sep) == s
  {
    var found := IndexOf(s, sep);
    if found.Some? {
      var i := found.value;
      var rest := s[i + |sep|..];
      JoinSplit(rest, sep);
      SplitAt(s, sep, i);
      JoinCons(s[..i], Split(rest, sep), sep);
      assert s[i..i + |sep|] == sep;
      SliceConcat(s, i, i + |sep|);
    }
  }

  lemma SliceConcat(s: string, i: nat, j: nat)
    requires i <= j <= |s|
    ensures s == s[..i] + s[i..j] + s[j..]
  {
  }

  lemma SplitAt(s: string, sep: string, i: nat)
    requires |sep| > 0 && IndexOf(s, sep) == Some(i)
    ensures Split(s, sep) == [s[..i]] + Split(s[i + |sep|..], sep)
  {
    match IndexOf(s, sep) {
      case Some(j) => assert j == i;
    }
  }

  lemma JoinCons(head: string, tail: seq<string>, sep: string)
    requires |tail| >= 1
    ensures Join([head] + tail, sep) == head + sep + Join(tail, sep)
  {
    assert ([head] + tail)[1..] == tail;
  }

  /** Splitting a join gives the parts back when no part holds the separator's first character. */
  lemma {:induction false} SplitJoin(parts: seq<string>, sep: string)
    requires |sep| > 0 && |parts| >= 1
    requires forall i | 0 <= i < |parts| :: sep[0] !in parts[i]
    decreases |parts|
    ensures Split(Join(parts, sep), sep) == parts
  {
    var head := parts[0];
    MissingChar(head, sep, sep[0]);
    if |parts| > 1 {
      var tail := parts[1..];
      SplitJoin(tail, sep);
      var s := Join(parts, sep);
      assert s == head + sep + Join(tail, sep);
      assert MatchAt(s, sep, |head|) by {
        assert s[|head|..|head| + |sep|] == sep;
      }
      var found := FindFrom(s, sep, 0);
      FindFromFirst(s, sep, 0);
      assert found.Some? && found.value <= |head|;
      assert found.value == |head|;
      assert s[..|head|] == head;
      assert s[|head| + |sep|..] == Join(tail, sep);
      SplitAt(s, sep, |head|);
    }
  }

  /** Python's `s.replace(pat, rep)` (all non-overlapping occurrences, left to right). */
  function Replace(s: string, pat: string, rep: string): (r: string)
    requires |pat| > 0
    decreases |s|
    ensures !Contains(s, pat) ==> r == s
  {
    match IndexOf(s, pat)
    case None => s
    case Some(i) => s[..i] + rep + Replace(s[i + |pat|..], pat, rep)
  }

  lemma ReplaceAt(s: string, pat: string, rep: string, i: nat)
    requires |pat| > 0 && IndexOf(s, pat) == Some(i)
    ensures Replace(s, pat, rep) == s[..i] + rep + Replace(s[i + |pat|..], pat, rep)
  {
    match IndexOf(s, pat) {
      case Some(j) => assert j == i;
    }
  }

  /** Replace-all is splitting on the pattern and joining with the replacement. */
  lemma {:induction false} ReplaceIsSplitJoin(s: string, pat: string, rep: string)
    requires |pat| > 0
    decreases |s|
    ensures Replace(s, pat, rep) == Join(Split(s, pat), rep)
  {
    match IndexOf(s, pat)
    case None =>
      assert Split(s, pat) == [s];
    case Some(i) =>
      var rest := s[i + |pat|..];
      ReplaceIsSplitJoin(rest, pat, rep);
      var tail := Split(rest, pat);
      SplitAt(s, pat, i);
      JoinCons(s[..i], tail, rep);
      ReplaceAt(s, pat, rep, i);
      calc {
        Replace(s, pat, rep);
        s[..i] + rep + Replace(rest, pat, rep);
        s[..i] + rep + Join(tail, rep);
        Join([s[..i]] + tail, rep);
        Join(Split(s, pat), rep);
      }
  }

  // ------------------------------------------------------- characters, case

  /**
   * The characters Python's `str.isspace()` accepts, which `str.strip()`
   * with no argument removes: the ASCII controls 9-13 and 28-31, the
   * space, U+0085, U+00A0, U+1680, U+2000-U+200A, U+2028, U+2029, U+202F,
   * U+205F and U+3000.
   */
  predicate IsSpace(c: char)
  {
    || ('\U{0009}' <= c <= '\U{000D}') || ('\U{001C}' <= c <= '\U{0020}')
    || c == '\U{0085}' || c == '\U{00A0}' || c == '\U{1680}'
    || ('\U{2000}' <= c <= '\U{200A}') || c == '\U{2028}' || c == '\U{2029}'
    || c == '\U{202F}' || c == '\U{205F}' || c == '\U{3000}'
  }

  function TrimLeft(s: string): (r: string)
    ensures |r| <= |s| && r == s[|s| - |r|..]
    ensures r == [] || !IsSpace(r[0])
  {
    if |s| > 0 && IsSpace(s[0]) then TrimLeft(s[1..]) else s
  }

  function TrimRight(s: string): (r: string)
    ensures |r| <= |s| && r == s[..|r|]
    ensures r == [] || !IsSpace(r[|r| - 1])
  {
    if |s| > 0 && IsSpace(s[|s| - 1]) then TrimRight(s[..|s| - 1]) else s
  }

  /** Python's `s.strip()`: leading and trailing whitespace removed. */
  function Strip(s: string): (r: string)
    ensures |r| <= |s|
    ensures r == [] || (!IsSpace(r[0]) && !IsSpace(r[|r| - 1]))
  {
    var t := TrimLeft(s);
    var u := TrimRight(t);
    assert u == [] || u[0] == t[0];
    u
  }

  function LowerChar(c: char): (r: char)
    ensures 'A' <= c <= 'Z' ==> r as int == c as int + 32
    ensures !('A' <= c <= 'Z') ==> r == c
  {
    if 'A' <= c <= 'Z' then (c as int + 32) as char else c
  }

  /** Python's `s.lower()` on ASCII letters. */
  function Lower(s: string): (r: string)
    ensures |r| == |s|
    ensures forall i | 0 <= i < |s| :: r[i] == LowerChar(s[i])
  {
    if s == [] then [] else [LowerChar(s[0])] + Lower(s[1..])
  }

  // ---------------------------------------------------------------- numbers

  predicate IsDigit(c: char)
  {
    '0' <= c <= '9'
  }

  predicate AllDigits(s: string)
  {
    forall i | 0 <= i < |s| :: IsDigit(s[i])
  }

  function DigitChar(d: nat): (c: char)
    requires d < 10
    ensures IsDigit(c) && c as int - '0' as int == d
  {
    ('0' as int + d) as char
  }

  /** Python's `str(n)` for a natural number. */
  function NatToString(n: nat): (s: string)
    ensures |s| >= 1 && AllDigits(s)
    ensures DigitsValue(s) == n
  {
    if n < 10 then
      var s := [DigitChar(n)];
      assert s[..0] == [];
      s
    else
      var s := NatToString(n / 10) + [DigitChar(n % 10)];
      assert s[..|s| - 1] == NatToString(n / 10);
      s
  }

  /** Python's `str(i)` for an integer. */
  function IntToString(i: int): (s: string)
    ensures i >= 0 ==> s == NatToString(i)
    ensures i < 0 ==> s == "-" + NatToString(-i)
  {
    if i >= 0 then NatToString(i) else "-" + NatToString(-i)
  }

  /** The value of a string of decimal digits, most significant first. */
  function DigitsValue(s: string): (v: nat)
    requires AllDigits(s)
  {
    if s == [] then 0
    else DigitsValue(s[..|s| - 1]) * 10 + (s[|s| - 1] as int - '0' as int)
  }

  /** The position of the first `.` in `s`, if any. */
  function FirstDot(s: string): (r: Option<nat>)
    ensures r.Some? ==> r.value < |s| && s[r.value] == '.'
  {
    if s == [] then None
    else if s[0] == '.' then Some(0)
    else match FirstDot(s[1..])
      case None => None
      case Some(k) => Some(k + 1)
  }

  /** A character string read as a decimal integer; `None` when some character is not a digit. */
  function DigitsOf(s: string): (r: Option<nat>)
  {
    if s == [] then Some(0)
    else match DigitsOf(s[..|s| - 1])
      case None => None
      case Some(v) =>
        if IsDigit(s[|s| - 1]) then Some(v * 10 + (s[|s| - 1] as int - '0' as int)) else None
  }

  /** A character string read as the digits after a decimal point (`0.d1d2...`); `None` on a non-digit. */
  function FractionOf(s: string): (r: Option<real>)
    ensures r.Some? ==> 0.0 <= r.value <= 1.0
  {
    if s == [] then Some(0.0)
    else if !IsDigit(s[0]) then None
    else match FractionOf(s[1..])
      case None => None
      case Some(f) => Some(((s[0] as int - '0' as int) as real + f) / 10.0)
  }

  /**
   * Python's `float(s)` restricted to unsigned plain decimal numerals: one
   * or more digits, optionally followed by `.` and digits, or `.` and at
   * least one digit. Anything else is the `ValueError` path (`None`).
   */
  function ParseDecimal(s: string): (r: Option<real>)
    ensures r.Some? ==> r.value >= 0.0
  {
    match FirstDot(s)
    case None =>
      if s == [] then None
      else (match DigitsOf(s)
        case None => None
        case Some(v) => Some(v as real))
    case Some(i) =>
      if |s| == 1 then None
      else match DigitsOf(s[..i])
        case None => None
        case Some(w) =>
          match FractionOf(s[i + 1..])
          case None => None
          case Some(f) => Some(w as real + f)
  }

  /** Digit strings are read by their decimal value. */
  lemma {:induction false} DigitsOfValue(s: string)
    requires AllDigits(s)
    ensures DigitsOf(s) == Some(DigitsValue(s))
  {
    if s != [] {
      DigitsOfValue(s[..|s| - 1]);
    }
  }

  /** A string without `.` has no first dot. */
  lemma {:induction false} NoDot(s: string)
    requires AllDigits(s)
    ensures FirstDot(s) == None
  {
    if s != [] {
      assert IsDigit(s[0]);
      NoDot(s[1..]);
    }
  }

  /** A numeral (one or more digits) parses to its value. */
  lemma ParseNumeral(s: string)
    requires |s| > 0 && AllDigits(s)
    ensures ParseDecimal(s) == Some(DigitsValue(s) as real)
  {
    NoDot(s);
    DigitsOfValue(s);
  }
}
