/**
 * The JavaScript string operations the supervisor relies on, on `seq<char>`:
 * `trim`, `startsWith`, `endsWith`, `includes`, `split` on a character class,
 * `split(/\s+/)`, `replace` of a single character, `toLowerCase`, and the
 * decimal rendering and reading of numbers.
 */
module Text {

  /** The white space that `\s` matches and `trim` removes (the ASCII part of it). */
  predicate IsSpace(c: char) {
    c == ' ' || c == '\t' || c == '\n' || c == '\r' || c == '\U{000B}' || c == '\U{000C}'
  }

  predicate IsDigit(c: char) {
    '0' <= c <= '9'
  }

  predicate AllDigits(s: string) {
    forall i :: 0 <= i < |s| ==> IsDigit(s[i])
  }

  predicate NoSpace(s: string) {
    forall i :: 0 <= i < |s| ==> !IsSpace(s[i])
  }

  predicate AllSpace(s: string) {
    forall i :: 0 <= i < |s| ==> IsSpace(s[i])
  }

  /** No character of `s` is in `seps`. */
  predicate NoneOf(s: string, seps: set<char>) {
    forall i :: 0 <= i < |s| ==> s[i] !in seps
  }

  /** `s.startsWith(prefix)` */
  predicate StartsWith(s: string, prefix: string) {
    |prefix| <= |s| && s[..|prefix|] == prefix
  }

  /** Two prefixes one after the other make a prefix. */
  lemma StartsWithConcat(s: string, a: string, b: string)
    requires StartsWith(s, a) && StartsWith(s[|a|..], b)
    ensures StartsWith(s, a + b)
  {
    assert s[..|a + b|] == s[..|a|] + s[|a|..][..|b|];
  }

  /** A prefix made of two parts: the first part, then the second after it. */
  lemma StartsWithSplit(s: string, a: string, b: string)
    requires StartsWith(s, a + b)
    ensures StartsWith(s, a) && StartsWith(s[|a|..], b)
  {
    assert s[..|a|] == (a + b)[..|a|] == a;
    assert s[|a|..][..|b|] == (a + b)[|a|..] == b;
  }

  /** `s.endsWith(suffix)` */
  predicate EndsWith(s: string, suffix: string) {
    |suffix| <= |s| && s[|s| - |suffix|..] == suffix
  }

  /** `s.includes(sub)` */
  predicate Includes(s: string, sub: string)
    decreases |s|
  {
    StartsWith(s, sub) || (|s| > 0 && Includes(s[1..], sub))
  }

  /** `s.trimStart()`: drops the leading white space and nothing else. */
  function TrimStart(s: string): (r: string)
    ensures |r| <= |s| && r == s[|s| - |r|..]
    ensures AllSpace(s[..|s| - |r|])
    ensures r == [] || !IsSpace(r[0])
  {
    if |s| > 0 && IsSpace(s[0]) then
      var r := TrimStart(s[1..]);
      assert s[1..][..|s| - 1 - |r|] == s[1..|s| - |r|];
      assert s[..|s| - |r|] == [s[0]] + s[1..|s| - |r|];
      r
    else s
  }

  /** `s.trimEnd()`: drops the trailing white space and nothing else. */
  function TrimEnd(s: string): (r: string)
    ensures |r| <= |s| && r == s[..|r|]
    ensures AllSpace(s[|r|..])
    ensures r == [] || !IsSpace(r[|r| - 1])
  {
    if |s| > 0 && IsSpace(s[|s| - 1]) then TrimEnd(s[..|s| - 1]) else s
  }

  /** `s.trim()` */
  function Trim(s: string): (r: string)
    ensures |r| <= |s|
    ensures r == [] || (!IsSpace(r[0]) && !IsSpace(r[|r| - 1]))
  {
    TrimEnd(TrimStart(s))
  }

  /** Trimming removes exactly the white-space padding around a text whose ends are not white space. */
  lemma TrimPadding(front: string, t: string, back: string)
    requires AllSpace(front) && AllSpace(back)
    requires t == [] || (!IsSpace(t[0]) && !IsSpace(t[|t| - 1]))
    requires t == [] ==> back == []
    ensures Trim(front + t + back) == t
  {
    var rest := t + back;
    assert front + t + back == front + rest;
    assert rest == [] || rest[0] == t[0];
    TrimStartPadding(front, rest);
    TrimEndPadding(t, back);
  }

  lemma {:induction false} TrimStartPadding(front: string, rest: string)
    requires AllSpace(front)
    requires rest == [] || !IsSpace(rest[0])
    ensures TrimStart(front + rest) == rest
    decreases |front|
  {
    if front != [] {
      assert (front + rest)[1..] == front[1..] + rest;
      TrimStartPadding(front[1..], rest);
    }
  }

  lemma {:induction false} TrimEndPadding(rest: string, back: string)
    requires AllSpace(back)
    requires rest == [] || !IsSpace(rest[|rest| - 1])
    requires rest == [] ==> back == []
    ensures TrimEnd(rest + back) == rest
    decreases |back|
  {
    if back != [] {
      assert (rest + back)[..|rest + back| - 1] == rest + back[..|back| - 1];
      TrimEndPadding(rest, back[..|back| - 1]);
    }
  }

  /** `s.replace(c, '')` with a one-character pattern: removes the first occurrence of `c` only. */
  function RemoveFirst(s: string, c: char): (r: string)
    ensures |r| <= |s|
  {
    if |s| == 0 then s
    else if s[0] == c then s[1..]
    else [s[0]] + RemoveFirst(s[1..], c)
  }

  /** The first `c` is removed, whatever follows it. */
  lemma {:induction false} RemoveFirstAt(front: string, c: char, back: string)
    requires c !in front
    ensures RemoveFirst(front + [c] + back, c) == front + back
  {
    if front != [] {
      assert (front + [c] + back)[1..] == front[1..] + [c] + back;
      RemoveFirstAt(front[1..], c, back);
    }
  }

  /** A text without `c` is left as it is. */
  lemma {:induction false} RemoveFirstAbsent(s: string, c: char)
    requires c !in s
    ensures RemoveFirst(s, c) == s
  {
    if s != [] {
      RemoveFirstAbsent(s[1..], c);
    }
  }

  function LowerChar(c: char): char {
    if 'A' <= c <= 'Z' then (c as int - 'A' as int + 'a' as int) as char else c
  }

  /** `s.toLowerCase()` on ASCII letters. */
  function Lower(s: string): string {
    seq(|s|, i requires 0 <= i < |s| => LowerChar(s[i]))
  }

  /**
   * `s.split(re)` where `re` matches a single character of `seps`
   * (`split("\n")`, `split(',')`, `split(/[ =]/)`): the pieces between
   * separators; an empty text gives one empty piece.
   */
  function Split(s: string, seps: set<char>): (r: seq<string>)
    ensures |r| >= 1
    ensures forall k :: 0 <= k < |r| ==> NoneOf(r[k], seps)
    decreases |s|
  {
    if |s| == 0 then [""]
    else
      var rest := Split(s[1..], seps);
      if s[0] in seps then [""] + rest else [[s[0]] + rest[0]] + rest[1..]
  }

  /** The lines of a text: its pieces between line feeds. */
  function Lines(text: string): seq<string> {
    Split(text, {'\n'})
  }

  /** `parts.join(sep)` */
  function Join(parts: seq<string>, sep: char): string
  {
    if |parts| == 0 then ""
    else if |parts| == 1 then parts[0]
    else parts[0] + [sep] + Join(parts[1..], sep)
  }

  /** Splitting on one character loses nothing: joining the pieces back gives the text. */
  lemma {:induction false} JoinSplit(s: string, sep: char)
    ensures Join(Split(s, {sep}), sep) == s
    decreases |s|
  {
    if |s| > 0 {
      var rest := Split(s[1..], {sep});
      JoinSplit(s[1..], sep);
      if s[0] == sep {
        assert Split(s, {sep}) == [""] + rest;
        assert ([""] + rest)[1..] == rest;
      } else if |rest| == 1 {
        assert Split(s, {sep}) == [[s[0]] + rest[0]];
      } else {
        var r := Split(s, {sep});
        assert r == [[s[0]] + rest[0]] + rest[1..];
        assert r[1..] == rest[1..];
        assert s == [s[0]] + s[1..];
      }
    }
  }

  /** A text with no separator is one piece. */
  lemma {:induction false} SplitWhole(s: string, seps: set<char>)
    requires NoneOf(s, seps)
    ensures Split(s, seps) == [s]
    decreases |s|
  {
    if |s| > 0 {
      SplitWhole(s[1..], seps);
      assert [s[0]] + s[1..] == s;
    }
  }

  /** The text before the first separator is the first piece. */
  lemma {:induction false} SplitFirst(front: string, c: char, back: string, seps: set<char>)
    requires NoneOf(front, seps) && c in seps
    ensures Split(front + [c] + back, seps) == [front] + Split(back, seps)
    decreases |front|
  {
    var s := front + [c] + back;
    if front == [] {
      assert s[1..] == back;
    } else {
      assert s[1..] == front[1..] + [c] + back;
      SplitFirst(front[1..], c, back, seps);
      assert [s[0]] + front[1..] == front;
    }
  }

  /**
   * `s.split(/\s+/)`: the pieces between maximal runs of white space; leading
   * or trailing white space gives an empty first or last piece.
   */
  function SplitRuns(s: string): (r: seq<string>)
    ensures |r| >= 1
    ensures forall k :: 0 <= k < |r| ==> NoSpace(r[k])
    decreases |s|
  {
    if |s| == 0 then [""]
    else
      var rest := SplitRuns(s[1..]);
      if IsSpace(s[0]) then
        (if |s| > 1 && IsSpace(s[1]) then rest else [""] + rest)
      else [[s[0]] + rest[0]] + rest[1..]
  }

  lemma {:induction false} SplitRunsWord(w: string)
    requires NoSpace(w)
    ensures SplitRuns(w) == [w]
    decreases |w|
  {
    if |w| > 0 {
      SplitRunsWord(w[1..]);
      assert [w[0]] + w[1..] == w;
    }
  }

  lemma {:induction false} SplitRunsLeading(ws: string, w: string)
    requires |ws| > 0 && AllSpace(ws)
    requires |w| > 0 && NoSpace(w)
    ensures SplitRuns(ws + w) == ["", w]
    decreases |ws|
  {
    var s := ws + w;
    assert s[1..] == ws[1..] + w;
    if |ws| == 1 {
      SplitRunsWord(w);
    } else {
      SplitRunsLeading(ws[1..], w);
    }
  }

  /** Two words separated by a run of white space split into exactly those two words. */
  lemma {:induction false} SplitRunsPair(a: string, ws: string, b: string)
    requires |a| > 0 && NoSpace(a)
    requires |ws| > 0 && AllSpace(ws)
    requires |b| > 0 && NoSpace(b)
    ensures SplitRuns(a + ws + b) == [a, b]
    decreases |a|
  {
    var s := a + ws + b;
    assert s[1..] == a[1..] + ws + b;
    if |a| == 1 {
      assert a[1..] + ws + b == ws + b;
      SplitRunsLeading(ws, b);
      assert SplitRuns(s[1..]) == ["", b];
      assert a == [a[0]] + "";
    } else {
      SplitRunsPair(a[1..], ws, b);
      assert [a[0]] + a[1..] == a;
    }
  }

  function DigitChar(d: nat): char
    requires d < 10
  {
    ('0' as int + d) as char
  }

  function DigitValue(c: char): nat {
    if IsDigit(c) then c as int - '0' as int else 0
  }

  /** `String(n)` for a non-negative integer: its decimal digits, without leading zeros. */
  function NatToString(n: nat): (r: string)
    ensures |r| >= 1 && AllDigits(r)
    decreases n
  {
    if n < 10 then [DigitChar(n)] else NatToString(n / 10) + [DigitChar(n % 10)]
  }

  /**
   * `Number(s)` for a text of decimal digits (a non-digit reads as 0,
   * and the empty text as 0, as `Number('')` does).
   */
  function ParseNat(s: string): nat
    decreases |s|
  {
    if s == [] then 0 else ParseNat(s[..|s| - 1]) * 10 + DigitValue(s[|s| - 1])
  }

  /** Reading back the decimal rendering of a number gives the number. */
  lemma {:induction false} ParseNatToString(n: nat)
    ensures ParseNat(NatToString(n)) == n
    decreases n
  {
    var s := NatToString(n);
    if n >= 10 {
      ParseNatToString(n / 10);
      assert s[..|s| - 1] == NatToString(n / 10);
    }
  }

  /** The match of `/^\d+/`, or "" when it does not match. */
  function LeadingDigits(s: string): (r: string)
    ensures AllDigits(r) && StartsWith(s, r)
    ensures |r| < |s| ==> !IsDigit(s[|r|])
    decreases |s|
  {
    if |s| > 0 && IsDigit(s[0]) then [s[0]] + LeadingDigits(s[1..]) else ""
  }

  /** The match of `/\d+$/`, or "" when it does not match. */
  function TrailingDigits(s: string): (r: string)
    ensures AllDigits(r) && EndsWith(s, r)
    ensures |r| < |s| ==> !IsDigit(s[|s| - |r| - 1])
    decreases |s|
  {
    if |s| > 0 && IsDigit(s[|s| - 1]) then TrailingDigits(s[..|s| - 1]) + [s[|s| - 1]] else ""
  }

  /** The text before the last `c` (the whole text has none: ""). */
  function BeforeLast(s: string, c: char): string
    decreases |s|
  {
    if |s| == 0 then ""
    else if s[|s| - 1] == c then s[..|s| - 1]
    else BeforeLast(s[..|s| - 1], c)
  }

  /** Whatever the front holds, the last `c` is the one before a `c`-free tail. */
  lemma {:induction false} BeforeLastAt(front: string, c: char, back: string)
    requires c !in back
    ensures BeforeLast(front + [c] + back, c) == front
    decreases |back|
  {
    var s := front + [c] + back;
    if back == [] {
      assert s[..|s| - 1] == front;
    } else {
      assert s[..|s| - 1] == front + [c] + back[..|back| - 1];
      BeforeLastAt(front, c, back[..|back| - 1]);
    }
  }

  /** No two slashes in a row. */
  predicate NoDoubleSlash(s: string) {
    forall i :: 0 <= i < |s| - 1 ==> !(s[i] == '/' && s[i + 1] == '/')
  }

  /**
   * `path.normalize`, as far as this model needs it: runs of '/' collapse to
   * one; '.' and '..' segments are not resolved.
   */
  function Normalize(s: string): (r: string)
    ensures |r| <= |s|
    ensures |s| > 0 ==> |r| > 0 && r[0] == s[0]
    ensures NoDoubleSlash(r)
    decreases |s|
  {
    if |s| < 2 then s
    else if s[0] == '/' && s[1] == '/' then Normalize(s[1..])
    else [s[0]] + Normalize(s[1..])
  }

  /** A path without doubled slashes is already normal: normalizing is idempotent. */
  lemma {:induction false} NormalizeKeeps(s: string)
    requires NoDoubleSlash(s)
    ensures Normalize(s) == s
    decreases |s|
  {
    if |s| >= 2 {
      assert !(s[0] == '/' && s[1] == '/');
      NormalizeKeeps(s[1..]);
      assert s == [s[0]] + s[1..];
    }
  }
}
