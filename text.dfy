/**
 * The Python `str` built-ins the log monitor relies on, over ASCII text:
 * `strip()` and `strip(chars)`, `split(sep)`, `sep.join(parts)`, `lower()` and
 * `upper()`, `find` and the `in` operator, `startswith`, and `int()` with its
 * partner `str()`.
 */
module Text {
  import opened Wrappers

  /** The characters Python's `str.isspace` accepts in the ASCII range. */
  const Whitespace: set<char> :=
    {' ', '\t', '\n', '\U{0B}', '\U{0C}', '\r', '\U{1C}', '\U{1D}', '\U{1E}', '\U{1F}'}

  // ---------------------------------------------------------------------------
  // strip

  /** `s.lstrip(chars)`: `s` without its longest prefix of characters in `chars`. */
  function StripLeft(s: string, chars: set<char>): (r: string)
    ensures |r| <= |s| && r == s[|s| - |r|..]
    ensures forall i | 0 <= i < |s| - |r| :: s[i] in chars
    ensures r != [] ==> r[0] !in chars
  {
    if s != [] && s[0] in chars then StripLeft(s[1..], chars) else s
  }

  /** `s.rstrip(chars)`: `s` without its longest suffix of characters in `chars`. */
  function StripRight(s: string, chars: set<char>): (r: string)
    ensures |r| <= |s| && r == s[..|r|]
    ensures forall i | |r| <= i < |s| :: s[i] in chars
    ensures r != [] ==> r[|r| - 1] !in chars
  {
    if s != [] && s[|s| - 1] in chars then StripRight(s[..|s| - 1], chars) else s
  }

  /** `t` occurs in `s` starting at index `i`. */
  predicate OccursAt(s: string, t: string, i: nat) {
    i + |t| <= |s| && s[i..i + |t|] == t
  }

  /**
   * `s.strip(chars)`: the contiguous middle of `s` that remains once every
   * character of `chars` is dropped from both ends; it is empty exactly when
   * `s` holds nothing but such characters.
   */
  function StripChars(s: string, chars: set<char>): (r: string)
    ensures |r| <= |s|
    ensures r != [] ==> r[0] !in chars && r[|r| - 1] !in chars
    ensures r == [] <==> forall i | 0 <= i < |s| :: s[i] in chars
  {
    var left := StripLeft(s, chars);
    var r := StripRight(left, chars);
    assert r == [] ==> left == [];
    r
  }

  /** Neither end of `s` is whitespace. */
  predicate IsStripped(s: string) {
    s != [] ==> s[0] !in Whitespace && s[|s| - 1] !in Whitespace
  }

  /** `s` holds nothing but whitespace: `s.strip()` is empty, so the line is falsy. */
  predicate IsBlank(s: string) {
    forall i | 0 <= i < |s| :: s[i] in Whitespace
  }

  /** `s.strip()`: `s` without surrounding whitespace. */
  function Strip(s: string): (r: string)
    ensures IsStripped(r)
    ensures r == [] <==> IsBlank(s)
  {
    var r := StripChars(s, Whitespace);
    assert r == [] <==> forall i | 0 <= i < |s| :: s[i] in Whitespace;
    r
  }

  /** What a strip leaves is a contiguous piece of the original. */
  lemma StripOccurs(s: string, chars: set<char>) returns (k: nat)
    ensures OccursAt(s, StripChars(s, chars), k)
  {
    var left := StripLeft(s, chars);
    var r := StripRight(left, chars);
    k := |s| - |left|;
    assert r == left[..|r|];
    assert s[k..k + |r|] == left[..|r|];
  }

  /** Stripping adds no character: one absent from `s` is absent from `s.strip()`. */
  lemma StripKeepsAbsent(s: string, c: char)
    requires c !in s
    ensures c !in Strip(s)
  {
    var t := StripChars(s, Whitespace);
    var i := StripOccurs(s, Whitespace);
    forall j | 0 <= j < |t| ensures t[j] != c {
      assert t[j] == s[i + j];
    }
  }

  /** Stripping leaves a string that is already stripped unchanged. */
  lemma StripCharsIdempotent(s: string, chars: set<char>)
    ensures StripChars(StripChars(s, chars), chars) == StripChars(s, chars)
  {
    var r := StripChars(s, chars);
    assert StripLeft(r, chars) == r;
    assert StripRight(r, chars) == r;
  }

  /** A string whose ends are outside `chars` is its own strip. */
  lemma StripCharsOfClean(s: string, chars: set<char>)
    requires s != [] ==> s[0] !in chars && s[|s| - 1] !in chars
    ensures StripChars(s, chars) == s
  {
    assert StripLeft(s, chars) == s;
    assert StripRight(s, chars) == s;
  }

  /** Extra characters of `chars` in front of `s` do not survive a strip. */
  lemma {:induction false} StripCharsDropsPrefix(p: string, s: string, chars: set<char>)
    requires forall i | 0 <= i < |p| :: p[i] in chars
    ensures StripChars(p + s, chars) == StripChars(s, chars)
  {
    if p != [] {
      assert (p + s)[1..] == p[1..] + s;
      StripCharsDropsPrefix(p[1..], s, chars);
    } else {
      assert p + s == s;
    }
  }

  // ---------------------------------------------------------------------------
  // split and join

  /** Number of occurrences of `c` in `s`. */
  function CountChar(s: string, c: char): nat {
    if s == [] then 0 else (if s[0] == c then 1 else 0) + CountChar(s[1..], c)
  }

  /**
   * `s.split(sep)` for a one-character separator: the pieces between
   * separators, one more than there are separators, none holding `sep`.
   */
  function Split(s: string, sep: char): (r: seq<string>)
    ensures |r| == CountChar(s, sep) + 1
    ensures forall p | p in r :: sep !in p
  {
    if s == [] then [[]]
    else
      var rest := Split(s[1..], sep);
      if s[0] == sep then [[]] + rest else [[s[0]] + rest[0]] + rest[1..]
  }

  /** `sep.join(parts)`. */
  function Join(parts: seq<string>, sep: string): string {
    if parts == [] then []
    else if |parts| == 1 then parts[0]
    else parts[0] + sep + Join(parts[1..], sep)
  }

  /** A join ends where its last part ends. */
  lemma {:induction false} JoinLast(parts: seq<string>, sep: string)
    requires |parts| >= 1 && parts[|parts| - 1] != []
    ensures var j := Join(parts, sep);
            j != [] && j[|j| - 1] == parts[|parts| - 1][|parts[|parts| - 1]| - 1]
  {
    if |parts| > 1 {
      JoinLast(parts[1..], sep);
    }
  }

  /** Splitting at a separator splits the two sides independently. */
  lemma {:induction false} SplitConcat(a: string, b: string, sep: char)
    ensures Split(a + [sep] + b, sep) == Split(a, sep) + Split(b, sep)
  {
    if a == [] {
      assert a + [sep] + b == [sep] + b;
      assert ([sep] + b)[1..] == b;
    } else {
      assert (a + [sep] + b)[1..] == a[1..] + [sep] + b;
      SplitConcat(a[1..], b, sep);
    }
  }

  /** Splitting the joined pieces gives the pieces back. */
  lemma {:induction false} SplitJoin(parts: seq<string>, sep: char)
    requires |parts| >= 1
    requires forall p | p in parts :: sep !in p
    ensures Split(Join(parts, [sep]), sep) == parts
  {
    if |parts| == 1 {
      SplitWithoutSeparator(parts[0], sep);
    } else {
      SplitJoin(parts[1..], sep);
      SplitConcat(parts[0], Join(parts[1..], [sep]), sep);
      SplitWithoutSeparator(parts[0], sep);
      assert parts == [parts[0]] + parts[1..];
    }
  }

  /** A string without the separator splits into itself alone. */
  lemma {:induction false} SplitWithoutSeparator(s: string, sep: char)
    requires sep !in s
    ensures Split(s, sep) == [s]
  {
    if s != [] {
      assert sep !in s[1..] by {
        forall i | 0 <= i < |s| - 1 ensures s[1..][i] != sep {
          assert s[1..][i] == s[i + 1];
        }
      }
      SplitWithoutSeparator(s[1..], sep);
      assert [s[0]] + s[1..] == s;
    }
  }

  /** Joining the pieces with the separator gives back the original string. */
  lemma {:induction false} JoinSplit(s: string, sep: char)
    ensures Join(Split(s, sep), [sep]) == s
  {
    if s != [] {
      var rest := Split(s[1..], sep);
      JoinSplit(s[1..], sep);
      if s[0] == sep {
        assert Split(s, sep) == [[]] + rest;
        assert [s[0]] + s[1..] == s;
      } else {
        assert [s[0]] + s[1..] == s;
        if |rest| == 1 {
          assert Join(Split(s, sep), [sep]) == [s[0]] + rest[0];
        } else {
          assert Split(s, sep)[1..] == rest[1..];
          assert Join(rest, [sep]) == rest[0] + [sep] + Join(rest[1..], [sep]);
        }
      }
    }
  }

  /** A leading character other than the separator stays in the first piece. */
  lemma SplitConsFirst(c: char, s: string, sep: char)
    requires c != sep
    ensures Split([c] + s, sep) == [[c] + Split(s, sep)[0]] + Split(s, sep)[1..]
  {
    assert ([c] + s)[1..] == s;
  }

  /** Text before the first separator joins the first piece. */
  lemma {:induction false} SplitPrefix(p: string, s: string, sep: char)
    requires sep !in p
    ensures Split(p + s, sep) == [p + Split(s, sep)[0]] + Split(s, sep)[1..]
  {
    if p != [] {
      var pieces, tail := Split(s, sep), Split(p[1..] + s, sep);
      assert p[0] in p;
      SplitPrefix(p[1..], s, sep);
      assert tail[0] == p[1..] + pieces[0] && tail[1..] == pieces[1..];
      assert p + s == [p[0]] + (p[1..] + s);
      SplitConsFirst(p[0], p[1..] + s, sep);
      assert [p[0]] + (p[1..] + pieces[0]) == p + pieces[0];
    } else {
      var pieces := Split(s, sep);
      assert p + s == s && p + pieces[0] == pieces[0];
      assert pieces == [pieces[0]] + pieces[1..];
    }
  }

  /** A join of several parts is the first part, the separator and the join of the rest. */
  lemma JoinCons(parts: seq<string>, sep: string)
    requires |parts| > 1
    ensures Join(parts, sep) == parts[0] + (sep + Join(parts[1..], sep))
  {
    assert parts[0] + sep + Join(parts[1..], sep) == parts[0] + (sep + Join(parts[1..], sep));
  }

  /** A join holds a character only if one of the parts or the separator does. */
  lemma {:induction false} JoinAvoids(parts: seq<string>, sep: string, c: char)
    requires c !in sep && forall p | p in parts :: c !in p
    ensures c !in Join(parts, sep)
  {
    if |parts| > 1 {
      assert parts[0] in parts;
      assert forall p | p in parts[1..] :: p in parts;
      JoinAvoids(parts[1..], sep, c);
    }
  }

  // ---------------------------------------------------------------------------
  // universal newlines

  /**
   * Text read from a file opened in text mode: each `\r\n` pair and each
   * lone `\r` becomes `\n`. No `\r` is left and the text never grows.
   */
  function TranslateNewlines(s: string): (r: string)
    ensures '\r' !in r
    ensures |r| <= |s|
    decreases |s|
  {
    if s == [] then []
    else if s[0] == '\r' then
      "\n" + TranslateNewlines(if |s| > 1 && s[1] == '\n' then s[2..] else s[1..])
    else [s[0]] + TranslateNewlines(s[1..])
  }

  /** Text without `\r` is read as written, so translating twice is translating once. */
  lemma TranslateWithoutCarriageReturn(s: string)
    requires '\r' !in s
    ensures TranslateNewlines(s) == s
  {
    TranslateKeepsPrefix(s, []);
    assert s + [] == s;
  }

  /** Text before the first `\r` passes through unchanged. */
  lemma {:induction false} TranslateKeepsPrefix(a: string, b: string)
    requires '\r' !in a
    ensures TranslateNewlines(a + b) == a + TranslateNewlines(b)
  {
    if a == [] {
      assert a + b == b;
    } else {
      var ab := a + b;
      assert ab[0] == a[0] && ab[1..] == a[1..] + b;
      assert '\r' !in a[1..] by {
        assert forall i | 0 <= i < |a| - 1 :: a[1..][i] == a[i + 1];
      }
      TranslateKeepsPrefix(a[1..], b);
      assert TranslateNewlines(ab) == [a[0]] + TranslateNewlines(a[1..] + b);
      assert [a[0]] + a[1..] == a;
    }
  }

  /** A line break written as `\n`, `\r` or `\r\n`. */
  predicate IsLineBreak(sep: string) {
    sep == "\n" || sep == "\r" || sep == "\r\n"
  }

  /** Each line-break convention reads as one `\n`, provided a lone `\r` is not followed by `\n`. */
  lemma TranslateBreak(sep: string, tail: string)
    requires IsLineBreak(sep)
    requires sep == "\r" ==> '\n' !in tail
    ensures TranslateNewlines(sep + tail) == "\n" + TranslateNewlines(tail)
  {
    var t := sep + tail;
    if sep == "\r\n" {
      assert t[0] == '\r' && t[1] == '\n' && t[2..] == tail;
    } else {
      assert t[0] == sep[0] && t[1..] == tail;
      if sep == "\r" && tail != [] {
        assert tail[0] in tail;
      }
    }
  }

  /** One line and its break read as the line and `\n`. */
  lemma TranslateJoinStep(first: string, tail: string, translatedTail: string, sep: string)
    requires IsLineBreak(sep) && '\r' !in first
    requires sep == "\r" ==> '\n' !in tail
    requires TranslateNewlines(tail) == translatedTail
    ensures TranslateNewlines(first + (sep + tail)) == first + ("\n" + translatedTail)
  {
    TranslateKeepsPrefix(first, sep + tail);
    TranslateBreak(sep, tail);
  }

  /**
   * Lines joined with any of the three line-break conventions read back as
   * the same lines joined with `\n`.
   */
  lemma {:induction false} TranslateJoin(lines: seq<string>, sep: string)
    requires IsLineBreak(sep)
    requires forall l | l in lines :: '\r' !in l && '\n' !in l
    ensures TranslateNewlines(Join(lines, sep)) == Join(lines, "\n")
  {
    if |lines| > 1 {
      var rest := lines[1..];
      assert lines[0] in lines;
      assert forall l | l in rest :: l in lines;
      TranslateJoin(rest, sep);
      if sep == "\r" {
        JoinAvoids(rest, sep, '\n');
      }
      TranslateJoinStep(lines[0], Join(rest, sep), Join(rest, "\n"), sep);
      JoinCons(lines, sep);
      JoinCons(lines, "\n");
    } else if |lines| == 1 {
      assert lines[0] in lines;
      TranslateWithoutCarriageReturn(lines[0]);
    }
  }

  // ---------------------------------------------------------------------------
  // case conversion (ASCII)

  function LowerChar(c: char): char {
    if 'A' <= c <= 'Z' then (c as int + 32) as char else c
  }

  function UpperChar(c: char): char {
    if 'a' <= c <= 'z' then (c as int - 32) as char else c
  }

  /** `s.lower()`. */
  function Lower(s: string): (r: string)
    ensures |r| == |s| && forall i | 0 <= i < |s| :: r[i] == LowerChar(s[i])
  {
    seq(|s|, i requires 0 <= i < |s| => LowerChar(s[i]))
  }

  /** `s.upper()`. */
  function Upper(s: string): (r: string)
    ensures |r| == |s| && forall i | 0 <= i < |s| :: r[i] == UpperChar(s[i])
  {
    seq(|s|, i requires 0 <= i < |s| => UpperChar(s[i]))
  }

  /** `a.lower() == b.lower()`, one character at a time. */
  predicate SameIgnoringCase(a: string, b: string)
    decreases |a|
  {
    |a| == |b| && (a == [] || (LowerChar(a[0]) == LowerChar(b[0]) && SameIgnoringCase(a[1..], b[1..])))
  }

  lemma {:induction false} SameIgnoringCaseRefl(a: string)
    ensures SameIgnoringCase(a, a)
    decreases |a|
  {
    if a != [] {
      SameIgnoringCaseRefl(a[1..]);
    }
  }

  lemma {:induction false} SameIgnoringCaseIsLowerEqual(a: string, b: string)
    ensures SameIgnoringCase(a, b) <==> Lower(a) == Lower(b)
    decreases |a|
  {
    if |a| == |b| && a != [] {
      SameIgnoringCaseIsLowerEqual(a[1..], b[1..]);
      assert Lower(a) == [LowerChar(a[0])] + Lower(a[1..]);
      assert Lower(b) == [LowerChar(b[0])] + Lower(b[1..]);
    }
  }

  /** An ASCII letter or digit, or `_`: the characters `\b` treats as word characters. */
  predicate IsWordChar(c: char) {
    'a' <= c <= 'z' || 'A' <= c <= 'Z' || '0' <= c <= '9' || c == '_'
  }

  predicate IsUpperWord(w: string) {
    forall i | 0 <= i < |w| :: 'A' <= w[i] <= 'Z'
  }

  /**
   * Text that equals an upper-case word up to case is that word once
   * upper-cased: `m.upper()` of a case-insensitive match of `w` is `w`.
   */
  lemma UpperOfCaseInsensitiveMatch(m: string, w: string)
    requires IsUpperWord(w) && Lower(m) == Lower(w)
    ensures Upper(m) == w
  {
    forall i | 0 <= i < |w| ensures Upper(m)[i] == w[i] {
      assert Lower(m)[i] == Lower(w)[i];
    }
  }

  // ---------------------------------------------------------------------------
  // find, in, startswith

  /** The first index at or after `from` where `t` occurs in `s`. */
  function IndexOfFrom(s: string, t: string, from: nat): (r: Option<nat>)
    ensures r.Some? ==> from <= r.value && OccursAt(s, t, r.value)
    ensures r.Some? ==> forall j | from <= j < r.value :: !OccursAt(s, t, j)
    ensures r.None? ==> forall j | from <= j :: !OccursAt(s, t, j)
    decreases |s| - from
  {
    if from + |t| > |s| then None
    else if s[from..from + |t|] == t then Some(from)
    else IndexOfFrom(s, t, from + 1)
  }

  /** `s.find(t)`, with `None` for Python's -1. */
  function IndexOf(s: string, t: string): Option<nat> {
    IndexOfFrom(s, t, 0)
  }

  /** Python's `t in s`. */
  predicate Contains(s: string, t: string) {
    IndexOf(s, t).Some?
  }

  /** `t in s` holds exactly when `t` occurs somewhere in `s`. */
  lemma ContainsIffOccurs(s: string, t: string)
    ensures Contains(s, t) <==> exists i :: OccursAt(s, t, i)
  {
  }

  /** `s.startswith(p)`. */
  predicate StartsWith(s: string, p: string) {
    |p| <= |s| && s[..|p|] == p
  }

  // ---------------------------------------------------------------------------
  // int() and str() on decimal integers

  predicate IsDigit(c: char) {
    '0' <= c <= '9'
  }

  predicate AllDigits(s: string) {
    forall i | 0 <= i < |s| :: IsDigit(s[i])
  }

  /** The value of a string of decimal digits, most significant first. */
  function DigitsValue(s: string): nat
    requires AllDigits(s)
  {
    if s == [] then 0 else DigitsValue(s[..|s| - 1]) * 10 + (s[|s| - 1] as int - '0' as int)
  }

  /**
   * `int(s)` on text: optional surrounding whitespace, an optional sign and
   * at least one decimal digit; anything else raises `ValueError` (`None`).
   */
  function ParseInt(s: string): Option<int> {
    var t := Strip(s);
    if |t| > 1 && (t[0] == '-' || t[0] == '+') && AllDigits(t[1..]) then
      Some(if t[0] == '-' then -(DigitsValue(t[1..]) as int) else DigitsValue(t[1..]))
    else if t != [] && AllDigits(t) then
      Some(DigitsValue(t))
    else
      None
  }

  /** `str(n)` for a natural number: its decimal digits, most significant first. */
  function NatToDigits(n: nat): (r: string)
    ensures r != [] && AllDigits(r) && DigitsValue(r) == n
  {
    var last := ('0' as int + n % 10) as char;
    if n < 10 then [last]
    else
      var front := NatToDigits(n / 10);
      assert (front + [last])[..|front|] == front;
      front + [last]
  }

  /** `str(n)`. */
  function IntToString(n: int): string {
    if n < 0 then "-" + NatToDigits(-n) else NatToDigits(n)
  }

  /** `int(str(n)) == n`: the decimal rendering parses back to the same number. */
  lemma ParseIntToString(n: int)
    ensures ParseInt(IntToString(n)) == Some(n)
  {
    var s := IntToString(n);
    var d := NatToDigits(if n < 0 then -n else n);
    assert s[0] !in Whitespace && s[|s| - 1] !in Whitespace;
    assert StripLeft(s, Whitespace) == s;
    assert StripRight(s, Whitespace) == s;
    if n < 0 {
      assert s[1..] == d;
    }
  }
}
