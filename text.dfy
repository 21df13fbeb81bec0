/** Python string operations used by the scripts, on `string` = `seq<char>`.
    Only the behaviour the scripts rely on is modelled: single-character
    separators for `split`, non-empty search text for `replace`. */
module Text {

  predicate IsDigit(c: char) { '0' <= c <= '9' }

  /** Characters `str.isspace()`, `str.strip()` and the regex class `\s` treat as whitespace. */
  predicate IsSpace(c: char) {
    c == ' ' || ('\t' <= c <= '\r') || ('\U{1C}' <= c <= '\U{1F}') || c == '\U{85}' || c == '\U{A0}'
    || c == '\U{1680}' || ('\U{2000}' <= c <= '\U{200A}') || c == '\U{2028}' || c == '\U{2029}'
    || c == '\U{202F}' || c == '\U{205F}' || c == '\U{3000}'
  }

  /** The regex class `\w` restricted to ASCII: letters, digits and underscore. */
  predicate IsWordChar(c: char) {
    ('a' <= c <= 'z') || ('A' <= c <= 'Z') || IsDigit(c) || c == '_'
  }

  predicate AllDigits(s: string) { forall i :: 0 <= i < |s| ==> IsDigit(s[i]) }

  predicate StartsWith(s: string, p: string) { |p| <= |s| && s[..|p|] == p }

  predicate EndsWith(s: string, p: string) { |p| <= |s| && s[|s| - |p|..] == p }

  /** `t` occurs in `s` at index `i`. */
  predicate OccursAt(s: string, t: string, i: nat) { i + |t| <= |s| && s[i..i + |t|] == t }

  /** Python `t in s` for strings: the first index at or after `from` where `t` occurs. */
  function FindFrom(s: string, t: string, from: nat): (r: Option<nat>)
    ensures r.Some? ==> from <= r.value && OccursAt(s, t, r.value)
    ensures r.Some? ==> forall j :: from <= j < r.value ==> !OccursAt(s, t, j)
    ensures r.None? ==> forall j :: from <= j ==> !OccursAt(s, t, j)
    decreases |s| - from
  {
    if from + |t| > |s| then None
    else if s[from..from + |t|] == t then Some(from)
    else FindFrom(s, t, from + 1)
  }

  predicate Contains(s: string, t: string) { FindFrom(s, t, 0).Some? }

  datatype Option<T> = None | Some(value: T)

  // ---- split / join --------------------------------------------------

  /** Python `s.split(sep)` for a one-character separator: always one more piece than separators. */
  function Split(s: string, sep: char): (r: seq<string>)
    ensures |r| >= 1
    ensures forall k :: 0 <= k < |r| ==> sep !in r[k]
    decreases |s|
  {
    if |s| == 0 then [""]
    else
      var tail := Split(s[1..], sep);
      if s[0] == sep then [""] + tail
      else [[s[0]] + tail[0]] + tail[1..]
  }

  function Join(parts: seq<string>, sep: char): string
  {
    if |parts| == 0 then ""
    else if |parts| == 1 then parts[0]
    else parts[0] + [sep] + Join(parts[1..], sep)
  }

  /** Joining the pieces that `Split` returns gives back the string. */
  lemma {:induction false} JoinSplit(s: string, sep: char)
    ensures Join(Split(s, sep), sep) == s
    decreases |s|
  {
    if |s| > 0 {
      JoinSplit(s[1..], sep);
      var tail := Split(s[1..], sep);
      if s[0] == sep {
        assert Split(s, sep) == [""] + tail;
        assert Join([""] + tail, sep) == "" + [sep] + Join(tail, sep);
      } else {
        var r := Split(s, sep);
        assert r == [[s[0]] + tail[0]] + tail[1..];
        if |tail| == 1 {
          assert r == [[s[0]] + tail[0]];
        } else {
          assert r[1..] == tail[1..];
          assert Join(tail, sep) == tail[0] + [sep] + Join(tail[1..], sep);
        }
      }
    }
  }

  /** Splitting a join of separator-free pieces gives back the pieces. */
  lemma {:induction false} SplitJoin(parts: seq<string>, sep: char)
    requires |parts| >= 1
    requires forall k :: 0 <= k < |parts| ==> sep !in parts[k]
    ensures Split(Join(parts, sep), sep) == parts
    decreases |parts|, |parts[0]|
  {
    if |parts| == 1 {
      SplitNoSep(parts[0], sep);
    } else if |parts[0]| == 0 {
      var rest := Join(parts[1..], sep);
      assert Join(parts, sep) == [sep] + rest;
      SplitJoin(parts[1..], sep);
      assert ([sep] + rest)[1..] == rest;
      assert parts == [""] + parts[1..];
    } else {
      var p0 := parts[0];
      var shorter := [p0[1..]] + parts[1..];
      assert shorter[1..] == parts[1..];
      assert Join(shorter, sep) == p0[1..] + [sep] + Join(parts[1..], sep);
      SplitJoin(shorter, sep);
      var j := Join(parts, sep);
      assert j == p0 + [sep] + Join(parts[1..], sep);
      assert j[0] == p0[0];
      assert j[1..] == Join(shorter, sep);
      assert [p0[0]] + p0[1..] == p0;
    }
  }

  lemma {:induction false} SplitNoSep(s: string, sep: char)
    requires sep !in s
    ensures Split(s, sep) == [s]
    decreases |s|
  {
    if |s| > 0 {
      assert sep !in s[1..] by {
        forall k | 0 <= k < |s[1..]| ensures s[1..][k] != sep { assert s[1..][k] == s[k + 1]; }
      }
      SplitNoSep(s[1..], sep);
      assert [s[0]] + s[1..] == s;
    }
  }

  /** Python `s.split(sep)[-1]`: the text after the last separator. */
  function LastPiece(s: string, sep: char): string
  {
    var r := Split(s, sep); r[|r| - 1]
  }

  /** Splitting at a separator followed by separator-free text adds that text as the last piece. */
  lemma {:induction false} SplitAppend(d: string, sep: char, b: string)
    requires sep !in b
    ensures Split(d + [sep] + b, sep) == Split(d, sep) + [b]
    decreases |d|
  {
    if |d| == 0 {
      assert d + [sep] + b == [sep] + b;
      assert ([sep] + b)[1..] == b;
      SplitNoSep(b, sep);
    } else {
      assert (d + [sep] + b)[1..] == d[1..] + [sep] + b;
      SplitAppend(d[1..], sep, b);
    }
  }

  /** Splitting at a separator between two strings splits each side separately. */
  lemma {:induction false} SplitConcat(a: string, sep: char, b: string)
    ensures Split(a + [sep] + b, sep) == Split(a, sep) + Split(b, sep)
    decreases |a|
  {
    if |a| == 0 {
      assert a + [sep] + b == [sep] + b;
      assert ([sep] + b)[1..] == b;
    } else {
      assert (a + [sep] + b)[1..] == a[1..] + [sep] + b;
      SplitConcat(a[1..], sep, b);
    }
  }

  /** `s.split(sep)` has a single piece exactly when `s` holds no separator. */
  lemma {:induction false} SplitSingle(s: string, sep: char)
    ensures |Split(s, sep)| == 1 <==> sep !in s
  {
    if sep in s {
      var i :| 0 <= i < |s| && s[i] == sep;
      assert s == s[..i] + [sep] + s[i + 1..];
      SplitConcat(s[..i], sep, s[i + 1..]);
    } else {
      SplitNoSep(s, sep);
    }
  }

  /** Joining one more piece adds a separator and the piece. */
  lemma {:induction false} JoinSnoc(parts: seq<string>, sep: char, x: string)
    requires |parts| > 0
    ensures Join(parts + [x], sep) == Join(parts, sep) + [sep] + x
    decreases |parts|
  {
    if |parts| == 1 {
      assert parts + [x] == [parts[0], x];
    } else {
      assert (parts + [x])[1..] == parts[1..] + [x];
      JoinSnoc(parts[1..], sep, x);
    }
  }

  /** A join of pieces starts with the first piece. */
  lemma {:induction false} JoinStartsWithFirst(parts: seq<string>, sep: char)
    requires |parts| > 0
    ensures StartsWith(Join(parts, sep), parts[0])
  {
    if |parts| > 1 {
      assert Join(parts, sep)[..|parts[0]|] == parts[0];
    }
  }

  /** The last piece is what follows the last separator. */
  lemma LastPieceAfter(d: string, sep: char, b: string)
    requires sep !in b
    ensures LastPiece(d + [sep] + b, sep) == b
    ensures LastPiece(b, sep) == b
  {
    SplitAppend(d, sep, b);
    SplitNoSep(b, sep);
  }

  /** `s.split(sep)[-1]` is the text after the last separator, or all of `s` when it has none. */
  lemma {:induction false} LastPieceAfterLast(s: string, sep: char)
    ensures match LastIndexOf(s, sep)
      case Some(i) => LastPiece(s, sep) == s[i + 1..]
      case None => LastPiece(s, sep) == s
  {
    match LastIndexOf(s, sep) {
      case Some(i) =>
        assert sep !in s[i + 1..];
        assert s == s[..i] + [sep] + s[i + 1..];
        LastPieceAfter(s[..i], sep, s[i + 1..]);
      case None =>
        assert sep !in s;
        SplitNoSep(s, sep);
    }
  }

  // ---- replace / strip -----------------------------------------------

  /** Python `s.replace(old, new)`: every non-overlapping occurrence, scanned from the left. */
  function Replace(s: string, pat: string, repl: string): (r: string)
    requires |pat| > 0
    decreases |s|
  {
    if |s| == 0 then ""
    else if StartsWith(s, pat) then repl + Replace(s[|pat|..], pat, repl)
    else [s[0]] + Replace(s[1..], pat, repl)
  }

  /** A prefix in which `pat` starts nowhere passes through `Replace` unchanged. */
  lemma {:induction false} ReplaceSkipsPrefix(x: string, t: string, pat: string, repl: string)
    requires |pat| > 0
    requires forall i :: 0 <= i < |x| ==> !StartsWith((x + t)[i..], pat)
    ensures Replace(x + t, pat, repl) == x + Replace(t, pat, repl)
    decreases |x|
  {
    if |x| > 0 {
      assert (x + t)[0..] == x + t;
      assert (x + t)[1..] == x[1..] + t;
      forall i | 0 <= i < |x[1..]| ensures !StartsWith((x[1..] + t)[i..], pat) {
        assert (x[1..] + t)[i..] == (x + t)[i + 1..];
      }
      ReplaceSkipsPrefix(x[1..], t, pat, repl);
      assert [x[0]] + x[1..] == x;
    }
  }

  function LStrip(s: string): (r: string)
    ensures |r| <= |s|
    decreases |s|
  {
    if |s| > 0 && IsSpace(s[0]) then LStrip(s[1..]) else s
  }

  function RStrip(s: string): (r: string)
    ensures |r| <= |s|
    decreases |s|
  {
    if |s| > 0 && IsSpace(s[|s| - 1]) then RStrip(s[..|s| - 1]) else s
  }

  function Strip(s: string): string { RStrip(LStrip(s)) }

  /** The index of the first non-whitespace character at or after `from`, or `|s|`. */
  function SkipSpaces(s: string, from: nat): (n: nat)
    requires from <= |s|
    ensures from <= n <= |s|
    decreases |s| - from
  {
    if from < |s| && IsSpace(s[from]) then SkipSpaces(s, from + 1) else from
  }

  /** What is skipped is whitespace, and it stops at the end or at a non-whitespace character. */
  lemma {:induction false} SkipSpacesIs(s: string, from: nat)
    requires from <= |s|
    ensures var n := SkipSpaces(s, from);
      (n < |s| ==> !IsSpace(s[n])) && forall k :: from <= k < n ==> IsSpace(s[k])
    decreases |s| - from
  {
    if from < |s| && IsSpace(s[from]) {
      SkipSpacesIs(s, from + 1);
    }
  }

  /** `lstrip` drops exactly the leading whitespace. */
  lemma {:induction false} LStripSkips(s: string)
    ensures LStrip(s) == s[SkipSpaces(s, 0)..]
    decreases |s|
  {
    if |s| > 0 && IsSpace(s[0]) {
      LStripSkips(s[1..]);
      SkipSpacesShift(s, 0);
    }
  }

  lemma {:induction false} SkipSpacesShift(s: string, from: nat)
    requires from < |s|
    ensures SkipSpaces(s[1..], from) + 1 == SkipSpaces(s, from + 1)
    decreases |s| - from
  {
    if from + 1 < |s| && IsSpace(s[from + 1]) {
      SkipSpacesShift(s, from + 1);
    }
  }

  /** Python `s.rstrip(c)`: drops every trailing `c`. */
  function RStripChar(s: string, c: char): (r: string)
    ensures |r| <= |s| && r == s[..|r|]
    ensures |r| > 0 ==> r[|r| - 1] != c
    ensures forall k :: |r| <= k < |s| ==> s[k] == c
    decreases |s|
  {
    if |s| > 0 && s[|s| - 1] == c then RStripChar(s[..|s| - 1], c) else s
  }

  /** Index of the last `c` in `s`. */
  function LastIndexOf(s: string, c: char): (r: Option<nat>)
    ensures r.Some? ==> r.value < |s| && s[r.value] == c && forall j :: r.value < j < |s| ==> s[j] != c
    ensures r.None? ==> forall j :: 0 <= j < |s| ==> s[j] != c
    decreases |s|
  {
    if |s| == 0 then None
    else if s[|s| - 1] == c then Some(|s| - 1)
    else LastIndexOf(s[..|s| - 1], c)
  }

  /** Index of the first `c` in `s`. */
  function IndexOf(s: string, c: char): (r: Option<nat>)
    ensures r.Some? ==> r.value < |s| && s[r.value] == c && forall j :: 0 <= j < r.value ==> s[j] != c
    ensures r.None? ==> forall j :: 0 <= j < |s| ==> s[j] != c
    decreases |s|
  {
    if |s| == 0 then None
    else if s[0] == c then Some(0)
    else
      match IndexOf(s[1..], c)
      case Some(i) => Some(i + 1)
      case None => None
  }

  /** The first `c` is at `i` when `s[i]` is `c` and none comes before. */
  lemma IndexOfAt(s: string, c: char, i: nat)
    requires i < |s| && s[i] == c && forall j :: 0 <= j < i ==> s[j] != c
    ensures IndexOf(s, c) == Some(i)
  {
  }

  /** The last `c` is at `i` when `s[i]` is `c` and none comes after. */
  lemma LastIndexOfAt(s: string, c: char, i: nat)
    requires i < |s| && s[i] == c && forall j :: i < j < |s| ==> s[j] != c
    ensures LastIndexOf(s, c) == Some(i)
  {
  }

  // ---- integers ------------------------------------------------------

  function DigitChar(d: nat): char
    requires d < 10
  {
    "0123456789"[d]
  }

  function DigitValue(c: char): nat
    requires IsDigit(c)
  {
    (c as int - '0' as int) as nat
  }

  /** Python `str(n)` for a natural number. */
  function DecimalString(n: nat): (r: string)
    ensures |r| >= 1 && AllDigits(r)
    ensures |r| == 1 <==> n < 10
    decreases n
  {
    if n < 10 then [DigitChar(n)] else DecimalString(n / 10) + [DigitChar(n % 10)]
  }

  /** Python `str(i)` for an integer. */
  function IntToString(i: int): string
  {
    if i < 0 then "-" + DecimalString(-i) else DecimalString(i)
  }

  function DigitsValue(s: string): nat
    requires AllDigits(s)
    decreases |s|
  {
    if |s| == 0 then 0 else DigitsValue(s[..|s| - 1]) * 10 + DigitValue(s[|s| - 1])
  }

  /** Python `int(s)` on a string: an optional sign and at least one digit.
      (Surrounding whitespace and `_` digit separators, which Python also accepts, are not modelled.) */
  function ParseInt(s: string): Option<int>
  {
    if |s| > 0 && (s[0] == '-' || s[0] == '+') then
      var body := s[1..];
      if |body| > 0 && AllDigits(body) then
        Some(if s[0] == '-' then -(DigitsValue(body) as int) else DigitsValue(body) as int)
      else None
    else if |s| > 0 && AllDigits(s) then Some(DigitsValue(s) as int)
    else None
  }

  lemma {:induction false} DigitsValueOfDecimal(n: nat)
    ensures DigitsValue(DecimalString(n)) == n
    decreases n
  {
    var s := DecimalString(n);
    if n >= 10 {
      DigitsValueOfDecimal(n / 10);
      assert s[..|s| - 1] == DecimalString(n / 10);
    }
  }

  /** `int(str(i)) == i`. */
  lemma {:induction false} ParseIntOfString(i: int)
    ensures ParseInt(IntToString(i)) == Some(i)
  {
    var s := IntToString(i);
    if i < 0 {
      var d := DecimalString(-i);
      DigitsValueOfDecimal(-i);
      assert s == "-" + d;
      assert s[0] == '-' && s[1..] == d;
    } else {
      var d := DecimalString(i);
      DigitsValueOfDecimal(i);
      assert s == d && IsDigit(s[0]);
    }
  }

  /** Different natural numbers print differently. */
  lemma DecimalStringInjective(m: nat, n: nat)
    requires DecimalString(m) == DecimalString(n)
    ensures m == n
  {
    DigitsValueOfDecimal(m);
    DigitsValueOfDecimal(n);
  }

  /** The longest prefix of `s` made of digits. */
  function DigitPrefix(s: string): (r: string)
    ensures |r| <= |s| && r == s[..|r|] && AllDigits(r)
    ensures |r| == |s| || !IsDigit(s[|r|])
    decreases |s|
  {
    if |s| == 0 || !IsDigit(s[0]) then "" else [s[0]] + DigitPrefix(s[1..])
  }

  /** `re.search(r"(\d+)", s).group(1)`: the leftmost run of digits, taken whole; None when
      `s` has no digit. */
  function FirstDigitRun(s: string): (r: Option<string>)
    ensures r.None? <==> forall i :: 0 <= i < |s| ==> !IsDigit(s[i])
    ensures r.Some? ==> |r.value| > 0 && AllDigits(r.value)
    decreases |s|
  {
    if |s| == 0 then None
    else if IsDigit(s[0]) then Some(DigitPrefix(s))
    else
      assert forall i :: 1 <= i < |s| ==> s[i] == s[1..][i - 1];
      FirstDigitRun(s[1..])
  }

  /** The run found is the one after a digit-free prefix, up to the first non-digit after it. */
  lemma {:induction false} FirstDigitRunOf(p: string, d: string, q: string)
    requires forall i :: 0 <= i < |p| ==> !IsDigit(p[i])
    requires |d| > 0 && AllDigits(d) && (|q| == 0 || !IsDigit(q[0]))
    ensures FirstDigitRun(p + d + q) == Some(d)
  {
    if |p| == 0 {
      assert p + d + q == d + q;
      DigitPrefixOf(d, q);
    } else {
      assert (p + d + q)[1..] == p[1..] + d + q;
      FirstDigitRunOf(p[1..], d, q);
    }
  }

  lemma {:induction false} DigitPrefixOf(d: string, q: string)
    requires AllDigits(d) && (|q| == 0 || !IsDigit(q[0]))
    ensures DigitPrefix(d + q) == d
  {
    if |d| > 0 {
      assert (d + q)[1..] == d[1..] + q;
      DigitPrefixOf(d[1..], q);
    } else {
      assert d + q == q;
    }
  }

  lemma NonDigitAbsent(s: string, c: char)
    requires AllDigits(s) && !IsDigit(c)
    ensures c !in s
  {
    forall i | 0 <= i < |s| ensures s[i] != c { assert IsDigit(s[i]); }
  }

  // ---- lines ---------------------------------------------------------

  /** Line boundaries of Python `str.splitlines()` (`\r\n` counts as one). */
  predicate IsLineBreak(c: char) {
    ('\n' <= c <= '\r') || ('\U{1C}' <= c <= '\U{1E}') || c == '\U{85}' || c == '\U{2028}' || c == '\U{2029}'
  }

  /** Python `s.splitlines()`: no trailing empty line, boundaries dropped. */
  function SplitLines(s: string): (r: seq<string>)
    decreases |s|
  {
    if |s| == 0 then [] else
      var n := LineLength(s, 0);
      var rest := if n + 1 < |s| && s[n] == '\r' && s[n + 1] == '\n' then s[n + 2..]
                  else if n < |s| then s[n + 1..] else [];
      [s[..n]] + SplitLines(rest)
  }

  /** Index of the first line boundary at or after `i`, or `|s|`. */
  function LineLength(s: string, i: nat): (n: nat)
    requires i <= |s|
    ensures i <= n <= |s| && (n < |s| ==> IsLineBreak(s[n]))
    ensures forall j :: i <= j < n ==> !IsLineBreak(s[j])
    decreases |s| - i
  {
    if i == |s| || IsLineBreak(s[i]) then i else LineLength(s, i + 1)
  }
}
