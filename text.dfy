/**
 * The Python string operations the device client and the sync agent rely on,
 * over `string` holding ASCII text: `split()`, `split(sep)`, `rstrip()`,
 * `strip()`, `lower()`, `rfind`, `in`, `endswith`, `int()` and `str()` of an
 * integer. `split()` of raw `bytes`, whose whitespace set is smaller than that
 * of `str`, is `ByteFirstToken`.
 */
module Text {
  import opened Wrappers

  /** Whitespace of `bytes.split()`: space, \t, \n, \r, \v, \f. */
  predicate IsByteSpace(c: char) {
    c == ' ' || c == '\t' || c == '\n' || c == '\r' || c == '\U{0B}' || c == '\U{0C}'
  }

  /** The information separators \x1c-\x1f, whitespace to `str` but not to `bytes`. */
  predicate IsSeparator(c: char) {
    '\U{1C}' <= c <= '\U{1F}'
  }

  /** Whitespace of `str.split()`, `str.strip()` and `str.rstrip()` within ASCII. */
  predicate IsSpace(c: char) {
    IsByteSpace(c) || IsSeparator(c)
  }

  predicate AllSpace(s: string) {
    forall i | 0 <= i < |s| :: IsSpace(s[i])
  }

  // ---------------------------------------------------------------- strip

  /** `s.rstrip()`: drops trailing whitespace and nothing else (see `RStripFacts`). */
  function RStrip(s: string): (r: string)
    ensures |r| <= |s|
  {
    if s != [] && IsSpace(s[|s| - 1]) then RStrip(s[..|s| - 1]) else s
  }

  lemma {:induction false} RStripFacts(s: string)
    ensures var r := RStrip(s);
      && r == s[..|r|]
      && (r == [] || !IsSpace(r[|r| - 1]))
      && AllSpace(s[|r|..])
  {
    if s != [] && IsSpace(s[|s| - 1]) {
      RStripFacts(s[..|s| - 1]);
      var r := RStrip(s[..|s| - 1]);
      assert s[..|s| - 1][..|r|] == s[..|r|];
      assert s[|r|..] == s[..|s| - 1][|r|..] + [s[|s| - 1]];
    }
  }

  /** `s.lstrip()`: drops leading whitespace and nothing else (see `LStripFacts`). */
  function LStrip(s: string): (r: string)
    ensures |r| <= |s|
  {
    if s != [] && IsSpace(s[0]) then LStrip(s[1..]) else s
  }

  lemma {:induction false} LStripFacts(s: string)
    ensures var r := LStrip(s);
      && r == s[|s| - |r|..]
      && (r == [] || !IsSpace(r[0]))
      && AllSpace(s[..|s| - |r|])
  {
    if s != [] && IsSpace(s[0]) {
      LStripFacts(s[1..]);
      var r := LStrip(s[1..]);
      assert s[..|s| - |r|] == [s[0]] + s[1..][..|s| - 1 - |r|];
    }
  }

  /** `s.strip()`. */
  function Strip(s: string): string {
    LStrip(RStrip(s))
  }

  // ---------------------------------------------------------------- lower

  function LowerChar(c: char): (d: char)
    ensures 'A' <= c <= 'Z' ==> d as int == c as int + 32
    ensures !('A' <= c <= 'Z') ==> d == c
  {
    if 'A' <= c <= 'Z' then (c as int + 32) as char else c
  }

  /** `s.lower()` on ASCII letters; every other character is kept. */
  function Lower(s: string): (r: string)
    ensures |r| == |s|
    ensures forall i | 0 <= i < |s| :: r[i] == LowerChar(s[i])
  {
    seq(|s|, i requires 0 <= i < |s| => LowerChar(s[i]))
  }

  // ---------------------------------------------------------------- search

  predicate StartsWith(s: string, t: string) {
    |t| <= |s| && s[..|t|] == t
  }

  predicate EndsWith(s: string, t: string) {
    |t| <= |s| && s[|s| - |t|..] == t
  }

  /** `t` occurs in `s` at index `i`. */
  predicate OccursAt(s: string, t: string, i: int) {
    0 <= i && i + |t| <= |s| && s[i..i + |t|] == t
  }

  /** The largest index `j <= i` where `t` occurs in `s`, or -1. */
  function RFindFrom(s: string, t: string, i: int): (r: int)
    decreases i + 1
    ensures r == -1 || 0 <= r <= i
    ensures r >= 0 ==> OccursAt(s, t, r)
    ensures forall j | r < j <= i :: !OccursAt(s, t, j)
  {
    if i < 0 then -1
    else if OccursAt(s, t, i) then i
    else RFindFrom(s, t, i - 1)
  }

  /** `s.rfind(t)`: the last index where `t` occurs, or -1. */
  function RFind(s: string, t: string): (r: int)
    ensures r >= -1
    ensures r >= 0 ==> OccursAt(s, t, r)
    ensures forall j | r < j :: !OccursAt(s, t, j)
  {
    RFindFrom(s, t, |s| - |t|)
  }

  /** Python's `t in s`. */
  predicate Contains(s: string, t: string) {
    RFind(s, t) >= 0
  }

  // ---------------------------------------------------------------- split(sep)

  /** `sep.join(parts)`. */
  function Join(parts: seq<string>, sep: char): string {
    if |parts| == 0 then []
    else if |parts| == 1 then parts[0]
    else parts[0] + [sep] + Join(parts[1..], sep)
  }

  lemma JoinConsChar(x: char, parts: seq<string>, sep: char)
    requires |parts| >= 1
    ensures Join([[x] + parts[0]] + parts[1..], sep) == [x] + Join(parts, sep)
  {
    var ps := [[x] + parts[0]] + parts[1..];
    assert ps[1..] == parts[1..];
  }

  /** `s.split(sep)`: the pieces between occurrences of `sep`, empty pieces included. */
  function SplitOn(s: string, sep: char): (r: seq<string>)
    ensures |r| >= 1
    ensures forall i | 0 <= i < |r| :: sep !in r[i]
    ensures Join(r, sep) == s
  {
    if s == [] then [[]]
    else
      var rest := SplitOn(s[1..], sep);
      if s[0] == sep then
        assert [[]] + rest == [[]] + rest;
        assert s == [sep] + s[1..];
        [[]] + rest
      else
        JoinConsChar(s[0], rest, sep);
        assert s == [s[0]] + s[1..];
        [[s[0]] + rest[0]] + rest[1..]
  }

  /** Splitting undoes joining: pieces free of `sep` come back unchanged. */
  lemma {:induction false} SplitJoin(parts: seq<string>, sep: char)
    requires |parts| >= 1
    requires forall i | 0 <= i < |parts| :: sep !in parts[i]
    ensures SplitOn(Join(parts, sep), sep) == parts
  {
    if |parts| == 1 {
      SplitPiece(parts[0], sep);
    } else {
      SplitJoin(parts[1..], sep);
      SplitPrefix(parts[0], Join(parts[1..], sep), sep);
      assert [parts[0]] + parts[1..] == parts;
    }
  }

  /** A piece without `sep` splits into itself. */
  lemma {:induction false} SplitPiece(p: string, sep: char)
    requires sep !in p
    ensures SplitOn(p, sep) == [p]
  {
    if p != [] {
      SplitPiece(p[1..], sep);
      assert [p[0]] + p[1..] == p;
    }
  }

  /** Splitting `p + [sep] + q` with `p` free of `sep` puts `p` first. */
  lemma {:induction false} SplitPrefix(p: string, q: string, sep: char)
    requires sep !in p
    ensures SplitOn(p + [sep] + q, sep) == [p] + SplitOn(q, sep)
  {
    if p == [] {
      assert ([sep] + q)[1..] == q;
    } else {
      SplitPrefix(p[1..], q, sep);
      assert (p + [sep] + q)[1..] == p[1..] + [sep] + q;
      assert [p[0]] + p[1..] == p;
    }
  }

  // ---------------------------------------------------------------- split()

  /** The longest prefix of `s` without whitespace (see `WordFacts`). */
  function Word(s: string): (w: string)
    ensures |w| <= |s|
  {
    if s == [] || IsSpace(s[0]) then [] else [s[0]] + Word(s[1..])
  }

  lemma {:induction false} WordFacts(s: string)
    ensures var w := Word(s);
      && w == s[..|w|]
      && (forall i | 0 <= i < |w| :: !IsSpace(w[i]))
      && (|w| < |s| ==> IsSpace(s[|w|]))
      && (s != [] && !IsSpace(s[0]) ==> |w| >= 1)
  {
    if s != [] && !IsSpace(s[0]) {
      WordFacts(s[1..]);
    }
  }

  /** A non-empty run of non-whitespace characters. */
  predicate IsWord(w: string) {
    w != [] && forall k | 0 <= k < |w| :: !IsSpace(w[k])
  }

  /** `s.split()`: the maximal runs of non-whitespace, in order. */
  function SplitWs(s: string): seq<string>
    decreases |s|
  {
    var t := LStrip(s);
    if t == [] then [] else var w := Word(t); [w] + SplitWs(t[|w|..])
  }

  /** Every piece of `s.split()` is a word. */
  lemma {:induction false} SplitWsWords(s: string)
    decreases |s|
    ensures forall i | 0 <= i < |SplitWs(s)| :: IsWord(SplitWs(s)[i])
  {
    var t := LStrip(s);
    if t != [] {
      var w := Word(t);
      LStripFacts(s);
      WordFacts(t);
      SplitWsWords(t[|w|..]);
      var rest := SplitWs(t[|w|..]);
      assert SplitWs(s) == [w] + rest;
      assert IsWord(w);
      forall i | 0 <= i < |SplitWs(s)| ensures IsWord(SplitWs(s)[i]) {
        if i > 0 { assert SplitWs(s)[i] == rest[i - 1]; }
      }
    }
  }

  /** `s.split()` is empty exactly when `s` is blank. */
  lemma SplitWsEmpty(s: string)
    ensures SplitWs(s) == [] <==> AllSpace(s)
  {
    var t := LStrip(s);
    LStripFacts(s);
    if t == [] {
      assert s[..|s| - |t|] == s;
    } else {
      assert t[0] == s[|s| - |t|];
    }
  }

  /** `s.split()[0]`, or the IndexError it raises on a blank string. */
  function FirstToken(s: string): (r: Result<string>)
    ensures r.Raised? <==> AllSpace(s)
    ensures r.Raised? ==> r.fault == IndexError
  {
    SplitWsEmpty(s);
    var ws := SplitWs(s);
    if ws == [] then Raised(IndexError) else Ok(ws[0])
  }

  // ---------------------------------------------------------------- bytes.split()

  /** The longest prefix of `s` without `bytes` whitespace. */
  function ByteWord(s: string): (w: string)
    ensures |w| <= |s|
  {
    if s == [] || IsByteSpace(s[0]) then [] else [s[0]] + ByteWord(s[1..])
  }

  /** `b.split()[0]` on raw bytes, or the IndexError it raises when they are blank. */
  function ByteFirstToken(s: string): (r: Result<string>)
    ensures r.Raised? ==> r.fault == IndexError
  {
    if s == [] then Raised(IndexError)
    else if IsByteSpace(s[0]) then ByteFirstToken(s[1..])
    else Ok(ByteWord(s))
  }

  /** `b.split()` raises exactly on bytes that are all `bytes` whitespace. */
  lemma {:induction false} ByteFirstTokenBlank(s: string)
    ensures ByteFirstToken(s).Raised? <==> forall i | 0 <= i < |s| :: IsByteSpace(s[i])
  {
    if s != [] && IsByteSpace(s[0]) {
      ByteFirstTokenBlank(s[1..]);
      assert forall i | 1 <= i < |s| :: s[i] == s[1..][i - 1];
    }
  }

  lemma {:induction false} ByteWordAgrees(s: string)
    requires forall i | 0 <= i < |s| :: !IsSeparator(s[i])
    ensures ByteWord(s) == Word(s)
  {
    if s != [] && !IsByteSpace(s[0]) {
      ByteWordAgrees(s[1..]);
    }
  }

  /** Without the separators \x1c-\x1f, the first word of the bytes and of the decoded text agree. */
  lemma {:induction false} ByteFirstTokenAgrees(s: string)
    requires forall i | 0 <= i < |s| :: !IsSeparator(s[i])
    ensures ByteFirstToken(s) == FirstToken(s)
  {
    if s != [] {
      if IsByteSpace(s[0]) {
        ByteFirstTokenAgrees(s[1..]);
        assert LStrip(s) == LStrip(s[1..]);
        assert SplitWs(s) == SplitWs(s[1..]);
      } else {
        ByteWordAgrees(s);
        assert LStrip(s) == s;
        assert SplitWs(s)[0] == Word(s);
      }
    }
  }

  lemma {:induction false} ByteWordOf(t: string, rest: string)
    requires forall k | 0 <= k < |t| :: !IsByteSpace(t[k])
    requires rest == [] || IsByteSpace(rest[0])
    ensures ByteWord(t + rest) == t
  {
    if t != [] {
      ByteWordOf(t[1..], rest);
      assert (t + rest)[1..] == t[1..] + rest;
      assert [t[0]] + t[1..] == t;
    } else {
      assert t + rest == rest;
    }
  }

  /** A separator ends a word of the text but not a word of the bytes. */
  lemma SeparatorSplitsText()
    ensures FirstToken("ok\U{1C}") == Ok("ok")
    ensures ByteFirstToken("ok\U{1C}") == Ok("ok\U{1C}")
  {
    assert LStrip("ok\U{1C}") == "ok\U{1C}";
    assert Word("ok\U{1C}") == "ok";
    var sep := "\U{1C}";
    assert sep[1..] == [] && ByteWord(sep[1..]) == [];
    assert ByteWord(sep) == sep;
    assert "k\U{1C}"[1..] == sep;
    assert ByteWord("k\U{1C}") == "k\U{1C}";
    assert "ok\U{1C}"[1..] == "k\U{1C}";
    assert ByteWord("ok\U{1C}") == "ok\U{1C}";
    assert !IsByteSpace("ok\U{1C}"[0]);
  }

  lemma {:induction false} WordOf(t: string, rest: string)
    requires forall k | 0 <= k < |t| :: !IsSpace(t[k])
    requires rest == [] || IsSpace(rest[0])
    ensures Word(t + rest) == t
  {
    if t != [] {
      WordOf(t[1..], rest);
      assert (t + rest)[1..] == t[1..] + rest;
      assert [t[0]] + t[1..] == t;
    } else {
      assert t + rest == rest;
    }
  }

  /** Words joined by single spaces split back into the same words. */
  lemma {:induction false} SplitWsJoin(words: seq<string>)
    requires forall i | 0 <= i < |words| :: IsWord(words[i])
    ensures SplitWs(Join(words, ' ')) == words
  {
    if |words| == 1 {
      SplitWsWordFirst(words[0], []);
      assert words[0] + [] == words[0];
    } else if |words| > 1 {
      var rest := Join(words[1..], ' ');
      assert Join(words, ' ') == words[0] + ([' '] + rest);
      SplitWsWordFirst(words[0], [' '] + rest);
      SplitWsSpaceFirst(rest);
      SplitWsJoin(words[1..]);
    }
  }

  /** A word followed by whitespace (or nothing) is the first piece of `split()`. */
  lemma SplitWsWordFirst(w: string, rest: string)
    requires IsWord(w)
    requires rest == [] || IsSpace(rest[0])
    ensures SplitWs(w + rest) == [w] + SplitWs(rest)
  {
    var s := w + rest;
    assert LStrip(s) == s;
    WordOf(w, rest);
    assert s[|w|..] == rest;
  }

  /** A leading space does not change `split()`. */
  lemma SplitWsSpaceFirst(rest: string)
    ensures SplitWs([' '] + rest) == SplitWs(rest)
  {
    assert ([' '] + rest)[1..] == rest;
  }

  // ---------------------------------------------------------------- integers

  predicate IsDigit(c: char) {
    '0' <= c <= '9'
  }

  predicate AllDigits(s: string) {
    forall i | 0 <= i < |s| :: IsDigit(s[i])
  }

  function DigitChar(d: nat): (c: char)
    requires d < 10
    ensures IsDigit(c) && c as int - '0' as int == d
  {
    ('0' as int + d) as char
  }

  /** The value of a run of decimal digits. */
  function DigitsValue(s: string): nat
    requires AllDigits(s)
  {
    if s == [] then 0 else DigitsValue(s[..|s| - 1]) * 10 + (s[|s| - 1] as int - '0' as int)
  }

  /** `str(n)` for a natural number. */
  function Decimal(n: nat): (s: string)
    ensures s != [] && AllDigits(s)
  {
    if n < 10 then [DigitChar(n)] else Decimal(n / 10) + [DigitChar(n % 10)]
  }

  /**
   * `int(s)` on a token that holds no whitespace: an optional sign and one or
   * more decimal digits, anything else raises ValueError.
   */
  function ParseInt(s: string): (r: Option<int>)
  {
    if s != [] && (s[0] == '+' || s[0] == '-') then
      if s[1..] != [] && AllDigits(s[1..]) then
        Some(if s[0] == '-' then -(DigitsValue(s[1..]) as int) else DigitsValue(s[1..]))
      else None
    else if s != [] && AllDigits(s) then Some(DigitsValue(s))
    else None
  }

  /** `int(str(n)) == n`. */
  lemma {:induction false} DecimalValue(n: nat)
    ensures DigitsValue(Decimal(n)) == n
  {
    if n >= 10 {
      DecimalValue(n / 10);
      var s := Decimal(n);
      assert s[..|s| - 1] == Decimal(n / 10);
    }
  }

  lemma DecimalRoundTrip(n: nat)
    ensures ParseInt(Decimal(n)) == Some(n)
  {
    DecimalValue(n);
  }
}
