/**
 * The Python `str` operations the system relies on, over `string` (a sequence of
 * characters): `in`, `find`, slicing, `split`, `join`, `replace`, `strip`, `lower`,
 * `startswith`/`endswith`, `int(...)` and `str(int)`.
 */
module Strings {
  import opened Wrappers

  /** `p` occurs in `s` at offset `i`. */
  predicate OccursAt(s: string, p: string, i: nat) {
    i + |p| <= |s| && s[i..i + |p|] == p
  }

  /** Python's `s.find(p, start)`: the least offset at or after `start` where `p` occurs; `None` stands for -1. */
  function FindFrom(s: string, p: string, start: nat): (r: Option<nat>)
    ensures r.Some? ==> start <= r.value && OccursAt(s, p, r.value)
    ensures r.Some? ==> forall j :: start <= j < r.value ==> !OccursAt(s, p, j)
    ensures r.None? ==> forall j :: start <= j ==> !OccursAt(s, p, j)
    decreases |s| - start
  {
    if start + |p| > |s| then None
    else if s[start..start + |p|] == p then Some(start)
    else FindFrom(s, p, start + 1)
  }

  /** Python's `p in s`. */
  predicate Contains(s: string, p: string) {
    exists i :: 0 <= i <= |s| - |p| && OccursAt(s, p, i)
  }

  /** `p in s` is `s.find(p) != -1`. */
  lemma ContainsFind(s: string, p: string)
    ensures Contains(s, p) <==> FindFrom(s, p, 0).Some?
  {
    if Contains(s, p) {
      var i :| 0 <= i <= |s| - |p| && OccursAt(s, p, i);
    }
    if FindFrom(s, p, 0).Some? {
      var i := FindFrom(s, p, 0).value;
      assert OccursAt(s, p, i);
    }
  }

  /** A pattern whose first character does not occur in `s` does not occur in `s`. */
  lemma AbsentFirstChar(s: string, p: string)
    requires |p| > 0 && p[0] !in s
    ensures !Contains(s, p)
  {
    forall i | 0 <= i
      ensures !OccursAt(s, p, i)
    {
      if i + |p| <= |s| {
        assert s[i..i + |p|][0] == s[i];
        assert s[i] in s;
      }
    }
  }

  /** Python's `s.startswith(p)`. */
  predicate StartsWith(s: string, p: string) {
    |p| <= |s| && s[..|p|] == p
  }

  /** Python's `s.endswith(p)`. */
  predicate EndsWith(s: string, p: string) {
    |p| <= |s| && s[|s| - |p|..] == p
  }

  /** Python's `s[a:b]` for non-negative bounds: bounds past the end are clamped, crossed bounds give "". */
  function Slice(s: string, a: nat, b: nat): (r: string)
    ensures a <= b <= |s| ==> r == s[a..b]
    ensures |r| <= |s|
  {
    var lo := Min(a, |s|);
    var hi := Min(b, |s|);
    if lo <= hi then s[lo..hi] else ""
  }

  /** Python's `s[:n]` for `n >= 0`. */
  function Take(s: string, n: nat): (r: string)
    ensures |r| == Min(n, |s|)
    ensures r == s[..|r|]
  {
    s[..Min(n, |s|)]
  }

  /** The preview idiom `s[:n] + "..." if len(s) > n else s`. */
  function Ellipsized(s: string, n: nat): (r: string)
    ensures |s| <= n ==> r == s
    ensures |s| > n ==> |r| == n + 3 && r[..n] == s[..n] && r[n..] == "..."
  {
    if |s| > n then s[..n] + "..." else s
  }

  /** `c * n` for a one-character string `c`. */
  function Repeat(c: char, n: nat): (r: string)
    ensures |r| == n && forall k :: 0 <= k < n ==> r[k] == c
  {
    seq(n, _ => c)
  }

  /** Lower-casing of one character (ASCII letters only). */
  function LowerChar(c: char): char {
    if 'A' <= c <= 'Z' then (c as int + 32) as char else c
  }

  /**
   * Python's `s.lower()`, restricted to ASCII letters: no capital letter is left, each
   * capital becomes its small letter, and every other character is kept in place.
   */
  function Lower(s: string): (r: string)
    ensures |r| == |s| && forall k :: 0 <= k < |s| ==> r[k] == LowerChar(s[k])
    ensures forall k :: 0 <= k < |r| ==> !('A' <= r[k] <= 'Z')
    ensures forall k :: 0 <= k < |s| && 'A' <= s[k] <= 'Z' ==> 'a' <= r[k] <= 'z' && r[k] as int - 'a' as int == s[k] as int - 'A' as int
    ensures forall k :: 0 <= k < |s| && !('A' <= s[k] <= 'Z') ==> r[k] == s[k]
  {
    seq(|s|, k requires 0 <= k < |s| => LowerChar(s[k]))
  }

  /** Lower-casing twice is lower-casing once. */
  lemma LowerIdempotent(s: string)
    ensures Lower(Lower(s)) == Lower(s)
  {
  }

  /** `s.replace(a, b)` for single characters. */
  function ReplaceChar(s: string, a: char, b: char): (r: string)
    ensures |r| == |s|
    ensures forall k :: 0 <= k < |s| ==> r[k] == if s[k] == a then b else s[k]
  {
    seq(|s|, k requires 0 <= k < |s| => if s[k] == a then b else s[k])
  }

  /** The characters Python's `str.isspace()` accepts (and `str.strip()` removes). */
  predicate IsSpace(c: char) {
    var n := c as int;
    (9 <= n <= 13) || (28 <= n <= 32) || n == 0x85 || n == 0xA0 || n == 0x1680
    || (0x2000 <= n <= 0x200A) || n == 0x2028 || n == 0x2029 || n == 0x202F
    || n == 0x205F || n == 0x3000
  }

  function LeadingSpaces(s: string): (n: nat)
    ensures n <= |s|
    ensures forall k :: 0 <= k < n ==> IsSpace(s[k])
    ensures n < |s| ==> !IsSpace(s[n])
  {
    if |s| == 0 || !IsSpace(s[0]) then 0 else 1 + LeadingSpaces(s[1..])
  }

  function TrailingSpaces(s: string): (n: nat)
    ensures n <= |s|
    ensures forall k :: |s| - n <= k < |s| ==> IsSpace(s[k])
    ensures n < |s| ==> !IsSpace(s[|s| - n - 1])
  {
    if |s| == 0 || !IsSpace(s[|s| - 1]) then 0 else 1 + TrailingSpaces(s[..|s| - 1])
  }

  /** Python's `s.strip()`: the slice of `s` left after removing leading and trailing whitespace. */
  function Strip(s: string): (r: string)
    ensures |r| <= |s|
    ensures OccursAt(s, r, LeadingSpaces(s))
    ensures forall k :: 0 <= k < LeadingSpaces(s) ==> IsSpace(s[k])
    ensures forall k :: LeadingSpaces(s) + |r| <= k < |s| ==> IsSpace(s[k])
    ensures forall c :: c in r ==> c in s
    ensures r != [] ==> !IsSpace(r[0]) && !IsSpace(r[|r| - 1])
    ensures (forall k :: 0 <= k < |s| ==> !IsSpace(s[k])) ==> r == s
  {
    var t := s[LeadingSpaces(s)..];
    var r := t[..|t| - TrailingSpaces(t)];
    assert s[LeadingSpaces(s)..LeadingSpaces(s) + |r|] == r;
    r
  }

  /** Stripping one space on each side of space-free text gives the text back. */
  lemma StripPadded(d: string)
    requires d != [] && forall k :: 0 <= k < |d| ==> !IsSpace(d[k])
    ensures Strip(" " + d + " ") == d
  {
    var s := " " + d + " ";
    assert s[1..] == d + " ";
    assert LeadingSpaces(s[1..]) == 0;
    assert LeadingSpaces(s) == 1;
    var t := s[1..];
    assert t[..|t| - 1] == d;
    assert TrailingSpaces(t[..|t| - 1]) == 0;
    assert TrailingSpaces(t) == 1;
  }

  /** Python's `sep.join(parts)`. */
  function Join(parts: seq<string>, sep: string): string
  {
    if |parts| == 0 then ""
    else if |parts| == 1 then parts[0]
    else parts[0] + sep + Join(parts[1..], sep)
  }

  /** Python's `s.split(sep)` for a non-empty separator: the pieces between non-overlapping left-to-right occurrences. */
  function SplitOn(s: string, sep: string): (r: seq<string>)
    requires |sep| > 0
    ensures |r| >= 1
    decreases |s|
  {
    match FindFrom(s, sep, 0)
    case None => [s]
    case Some(i) => [s[..i]] + SplitOn(s[i + |sep|..], sep)
  }

  lemma JoinCons(a: string, tail: seq<string>, sep: string)
    requires |tail| >= 1
    ensures Join([a] + tail, sep) == a + sep + Join(tail, sep)
  {
    assert ([a] + tail)[1..] == tail;
  }

  lemma SplitAround(s: string, i: nat, j: nat)
    requires i <= j <= |s|
    ensures s == s[..i] + s[i..j] + s[j..]
  {
  }

  /** `split` and `join` are inverse: joining the pieces with the separator rebuilds the text. */
  lemma {:induction false} JoinSplit(s: string, sep: string)
    requires |sep| > 0
    ensures Join(SplitOn(s, sep), sep) == s
    decreases |s|
  {
    match FindFrom(s, sep, 0)
    case None =>
    case Some(i) =>
      var rest := s[i + |sep|..];
      JoinSplit(rest, sep);
      JoinCons(s[..i], SplitOn(rest, sep), sep);
      SplitAround(s, i, i + |sep|);
  }

  /** No piece produced by `split` contains the separator. */
  lemma {:induction false} SplitPiecesFree(s: string, sep: string)
    requires |sep| > 0
    ensures forall k :: 0 <= k < |SplitOn(s, sep)| ==> !Contains(SplitOn(s, sep)[k], sep)
    decreases |s|
  {
    match FindFrom(s, sep, 0)
    case None =>
    case Some(i) =>
      var rest := s[i + |sep|..];
      SplitPiecesFree(rest, sep);
      var head := s[..i];
      forall j | 0 <= j
        ensures !OccursAt(head, sep, j)
      {
        if j + |sep| <= |head| {
          assert head[j..j + |sep|] == s[j..j + |sep|];
          assert !OccursAt(s, sep, j);
        }
      }
      assert !Contains(head, sep);
  }

  /** When the separator's first character is absent from `a`, splitting `a + sep + b` cuts first right after `a`. */
  lemma SplitFirst(a: string, sep: string, b: string)
    requires |sep| > 0 && sep[0] !in a
    ensures SplitOn(a + sep + b, sep) == [a] + SplitOn(b, sep)
  {
    var s := a + sep + b;
    assert OccursAt(s, sep, |a|) by {
      assert s[|a|..|a| + |sep|] == sep;
    }
    forall j | 0 <= j < |a|
      ensures !OccursAt(s, sep, j)
    {
      assert s[j] == a[j];
      if j + |sep| <= |s| {
        assert s[j..j + |sep|][0] == s[j];
      }
    }
    var i := FindFrom(s, sep, 0).value;
    assert i == |a|;
    assert s[..i] == a;
    assert s[i + |sep|..] == b;
  }

  /** Text without the separator's first character is a single piece. */
  lemma SplitAbsent(s: string, sep: string)
    requires |sep| > 0 && sep[0] !in s
    ensures SplitOn(s, sep) == [s]
  {
    AbsentFirstChar(s, sep);
    ContainsFind(s, sep);
  }

  /** `split` undoes `join` at a one-character separator that no part contains. */
  lemma {:induction false} SplitJoin(parts: seq<string>, c: char)
    requires |parts| >= 1 && forall k :: 0 <= k < |parts| ==> c !in parts[k]
    ensures SplitOn(Join(parts, [c]), [c]) == parts
  {
    if |parts| == 1 {
      SplitAbsent(parts[0], [c]);
    } else {
      SplitJoin(parts[1..], c);
      SplitFirst(parts[0], [c], Join(parts[1..], [c]));
    }
  }

  /** What occurs in a prefix occurs in the whole text. */
  lemma ContainsInPrefix(s: string, i: nat, p: string)
    requires i <= |s| && Contains(s[..i], p)
    ensures Contains(s, p)
  {
    var j :| 0 <= j <= i - |p| && OccursAt(s[..i], p, j);
    assert s[j..j + |p|] == s[..i][j..j + |p|];
    assert OccursAt(s, p, j);
  }

  /** What occurs in a suffix occurs in the whole text. */
  lemma ContainsInSuffix(s: string, i: nat, p: string)
    requires i <= |s| && Contains(s[i..], p)
    ensures Contains(s, p)
  {
    var j :| 0 <= j <= |s| - i - |p| && OccursAt(s[i..], p, j);
    assert s[i + j..i + j + |p|] == s[i..][j..j + |p|];
    assert OccursAt(s, p, i + j);
  }

  /** What occurs in a piece of a split occurs in the whole text. */
  lemma {:induction false} ContainsInPiece(s: string, sep: string, p: string, k: nat)
    requires |sep| > 0 && k < |SplitOn(s, sep)| && Contains(SplitOn(s, sep)[k], p)
    ensures Contains(s, p)
    decreases |s|
  {
    if FindFrom(s, sep, 0).Some? {
      var i := FindFrom(s, sep, 0).value;
      var rest := s[i + |sep|..];
      assert SplitOn(s, sep) == [s[..i]] + SplitOn(rest, sep);
      if k == 0 {
        ContainsInPrefix(s, i, p);
      } else {
        assert SplitOn(rest, sep)[k - 1] == SplitOn(s, sep)[k];
        ContainsInPiece(rest, sep, p, k - 1);
        ContainsInSuffix(s, i + |sep|, p);
      }
    }
  }

  /** Splitting at a one-character separator gives one more piece than there are separators. */
  lemma {:induction false} SplitCount(s: string, c: char)
    ensures |SplitOn(s, [c])| == multiset(s)[c] + 1
    decreases |s|
  {
    match FindFrom(s, [c], 0)
    case None =>
      CharAbsentBefore(s, c, |s|);
      assert s[..|s|] == s;
    case Some(i) =>
      var rest := s[i + 1..];
      SplitCount(rest, c);
      assert s == s[..i] + [c] + rest by {
        assert s[i..i + 1] == [c];
      }
      CharAbsentBefore(s, c, i);
      assert multiset(s) == multiset(s[..i]) + multiset([c]) + multiset(rest);
  }

  /** No one-character match of `c` before `i` means no `c` in `s[..i]`. */
  lemma CharAbsentBefore(s: string, c: char, i: nat)
    requires i <= |s|
    requires forall j :: 0 <= j < i ==> !OccursAt(s, [c], j)
    ensures multiset(s[..i])[c] == 0
  {
    forall j | 0 <= j < i
      ensures s[..i][j] != c
    {
      assert !OccursAt(s, [c], j);
      assert s[j..j + 1] == [s[j]];
    }
  }

  /** Python's `s.replace(target, replacement)` for a non-empty `target`: every occurrence, left to right. */
  function ReplaceAll(s: string, target: string, replacement: string): string
    requires |target| > 0
  {
    Join(SplitOn(s, target), replacement)
  }

  /** The offset of the last `c` in `s` (Python's `s.rfind(c)`). */
  function RFindChar(s: string, c: char): (r: Option<nat>)
    ensures r.Some? ==> r.value < |s| && s[r.value] == c && forall j :: r.value < j < |s| ==> s[j] != c
    ensures r.None? ==> c !in s
  {
    if |s| == 0 then None
    else if s[|s| - 1] == c then Some(|s| - 1)
    else RFindChar(s[..|s| - 1], c)
  }

  predicate IsDigit(c: char) { '0' <= c <= '9' }

  predicate IsDigits(s: string) {
    |s| > 0 && forall k :: 0 <= k < |s| ==> IsDigit(s[k])
  }

  function DigitChar(d: nat): (c: char)
    requires d < 10
    ensures IsDigit(c)
  {
    ('0' as int + d) as char
  }

  /** The value of a decimal digit string. */
  function DigitsValue(s: string): nat
    requires forall k :: 0 <= k < |s| ==> IsDigit(s[k])
  {
    if |s| == 0 then 0
    else
      assert IsDigit(s[|s| - 1]);
      DigitsValue(s[..|s| - 1]) * 10 + (s[|s| - 1] as int - '0' as int)
  }

  /** Python's `str(n)` for a non-negative integer. */
  function NatToString(n: nat): (r: string)
    ensures IsDigits(r)
  {
    if n < 10 then [DigitChar(n)] else NatToString(n / 10) + [DigitChar(n % 10)]
  }

  /** Python's `str(i)`. */
  function IntToString(i: int): string {
    if i < 0 then "-" + NatToString(-i) else NatToString(i)
  }

  /** Python's `int(s)` on base-10 text: surrounding whitespace, an optional sign, ASCII digits; `None` where it raises ValueError. */
  function ParseInt(s: string): Option<int> {
    var t := Strip(s);
    if |t| > 0 && t[0] == '-' && IsDigits(t[1..]) then Some(0 - (DigitsValue(t[1..]) as int))
    else if |t| > 0 && t[0] == '+' && IsDigits(t[1..]) then Some(DigitsValue(t[1..]))
    else if IsDigits(t) then Some(DigitsValue(t))
    else None
  }

  lemma {:induction false} DigitsOfNat(n: nat)
    ensures DigitsValue(NatToString(n)) == n
  {
    if n >= 10 {
      DigitsOfNat(n / 10);
      var x := NatToString(n / 10);
      var r := x + [DigitChar(n % 10)];
      assert r[..|r| - 1] == x;
    }
  }

  /** `int(str(i)) == i`: printing an integer and parsing it back is the identity. */
  lemma ParseIntRoundTrip(i: int)
    ensures ParseInt(IntToString(i)) == Some(i)
  {
    var s := IntToString(i);
    assert forall k :: 0 <= k < |s| ==> !IsSpace(s[k]);
    assert Strip(s) == s;
    if i < 0 {
      DigitsOfNat(-i);
      assert s[1..] == NatToString(-i);
    } else {
      DigitsOfNat(i);
    }
  }

  /** A lower-case hexadecimal digit. */
  function HexChar(d: nat): char
    requires d < 16
  {
    if d < 10 then ('0' as int + d) as char else ('a' as int + d - 10) as char
  }

  /** The value of a lower-case hexadecimal digit. */
  function HexValue(c: char): Option<nat> {
    if '0' <= c <= '9' then Some(c as int - '0' as int)
    else if 'a' <= c <= 'f' then Some(c as int - 'a' as int + 10)
    else None
  }

  /** A control character that `repr` writes as `\xNN`. */
  predicate IsHexEscaped(c: char) {
    (c as int < 32 && c !in "\t\n\r") || c as int == 127
  }

  /**
   * One character as `repr` writes it between quotes `q`: the backslash and
   * the quote are escaped, tab, newline and carriage return get their letter,
   * other ASCII control characters get `\xNN`.
   */
  function ReprChar(c: char, q: char): string {
    if c == '\\' then "\\\\"
    else if c == q then ['\\', q]
    else if c == '\t' then "\\t"
    else if c == '\n' then "\\n"
    else if c == '\r' then "\\r"
    else if IsHexEscaped(c) then ['\\', 'x', HexChar(c as int / 16), HexChar(c as int % 16)]
    else [c]
  }

  function ReprBody(s: string, q: char): string {
    if |s| == 0 then "" else ReprChar(s[0], q) + ReprBody(s[1..], q)
  }

  /** The quotes `repr` chooses: double quotes when the text holds a single quote and no double quote. */
  function ReprQuote(s: string): (q: char)
    ensures q == '\'' || q == '"'
  {
    if '\'' in s && '"' !in s then '"' else '\''
  }

  /** Python's `repr` of a string (characters outside ASCII are taken as printable). */
  function Repr(s: string): (r: string)
    ensures |r| >= 2 && r[0] == r[|r| - 1] == ReprQuote(s)
  {
    [ReprQuote(s)] + ReprBody(s, ReprQuote(s)) + [ReprQuote(s)]
  }

  /** Reading escapes back: the text between the quotes `q`, or `None` when an escape is malformed or a quote is bare. */
  function Unescape(t: string, q: char): Option<string> {
    if |t| == 0 then Some("")
    else if t[0] == q then None
    else if t[0] != '\\' then
      match Unescape(t[1..], q) case None => None case Some(rest) => Some([t[0]] + rest)
    else if |t| < 2 then None
    else
      var e := t[1];
      var c :=
        if e == '\\' then Some('\\') else if e == q then Some(q) else if e == 't' then Some('\t')
        else if e == 'n' then Some('\n') else if e == 'r' then Some('\r')
        else if e == 'x' && |t| >= 4 && HexValue(t[2]).Some? && HexValue(t[3]).Some?
        then Some((HexValue(t[2]).value * 16 + HexValue(t[3]).value) as char)
        else None;
      var skip := if e in ['\\', q, 't', 'n', 'r'] then 2 else 4;
      if c.None? then None
      else match Unescape(t[skip..], q) case None => None case Some(rest) => Some([c.value] + rest)
  }

  /** One written character reads back as itself, whatever follows. */
  lemma ReprCharUnescape(c: char, q: char, rest: string)
    requires q == '\'' || q == '"'
    ensures Unescape(ReprChar(c, q) + rest, q) ==
      match Unescape(rest, q) case None => None case Some(r) => Some([c] + r)
  {
    var t := ReprChar(c, q) + rest;
    if IsHexEscaped(c) && c != q {
      var n := c as int;
      assert HexValue(HexChar(n / 16)) == Some(n / 16);
      assert HexValue(HexChar(n % 16)) == Some(n % 16);
      assert t[4..] == rest;
    } else if c == '\\' || c == q || c == '\t' || c == '\n' || c == '\r' {
      assert t[2..] == rest;
    } else {
      assert t[1..] == rest;
    }
  }

  /** `repr` round-trips: reading the text between the quotes gives the string back. */
  lemma {:induction false} ReprRoundTrip(s: string)
    ensures Unescape(Repr(s)[1..|Repr(s)| - 1], ReprQuote(s)) == Some(s)
  {
    assert Repr(s)[1..|Repr(s)| - 1] == ReprBody(s, ReprQuote(s));
    BodyRoundTrip(s, ReprQuote(s));
  }

  lemma {:induction false} BodyRoundTrip(s: string, q: char)
    requires q == '\'' || q == '"'
    ensures Unescape(ReprBody(s, q), q) == Some(s)
  {
    if |s| > 0 {
      BodyRoundTrip(s[1..], q);
      ReprCharUnescape(s[0], q, ReprBody(s[1..], q));
      assert s == [s[0]] + s[1..];
    }
  }

  /** Text with no quote, backslash or control character is written as it is, in single quotes. */
  lemma {:induction false} ReprPlain(s: string)
    requires forall k :: 0 <= k < |s| ==> s[k] != '\'' && s[k] != '\\' && s[k] as int >= 32 && s[k] as int != 127
    ensures Repr(s) == "'" + s + "'"
  {
    PlainBody(s, '\'');
  }

  /** Text with a single quote, no double quote, backslash or control character is written as it is, in double quotes. */
  lemma ReprDoubleQuoted(s: string)
    requires exists k :: 0 <= k < |s| && s[k] == '\''
    requires forall k :: 0 <= k < |s| ==> s[k] != '"' && s[k] != '\\' && s[k] as int >= 32 && s[k] as int != 127
    ensures Repr(s) == "\"" + s + "\""
  {
    PlainBody(s, '"');
  }

  lemma {:induction false} PlainBody(s: string, q: char)
    requires forall k :: 0 <= k < |s| ==> s[k] != q && s[k] != '\\' && s[k] as int >= 32 && s[k] as int != 127
    ensures ReprBody(s, q) == s
  {
    if |s| > 0 {
      PlainBody(s[1..], q);
      assert s == [s[0]] + s[1..];
    }
  }
}
