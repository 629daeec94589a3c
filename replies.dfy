/**
 * The pure parts of the device client (CBD_Api.py): how one reply line is
 * classified or taken apart. The parts that read the socket are in module
 * Printer.
 */
module Replies {
  import opened Wrappers
  import opened Text

  // ---------------------------------------------------------------- listing lines

  /** A `(filename, size)` record of the storage listing; the size stays text. */
  type Entry = (string, string)

  const CtbExt: string := ".ctb"
  const GooExt: string := ".goo"

  /** The line mentions a model-file extension, in any letter case. */
  predicate HasModelExt(line: string) {
    Contains(Lower(line), CtbExt) || Contains(Lower(line), GooExt)
  }

  /**
   * Where `__stripSpaceFromBack__` cuts a line: just after the rightmost
   * `.ctb` or `.goo`, found in the lower-cased copy (`.ctb` wins a tie, which
   * cannot happen for two different extensions). Python's slice clips, so a
   * line without either extension is cut after 3 characters.
   */
  function ExtCut(line: string): (cut: nat)
    ensures cut <= |line|
  {
    var lower := Lower(line);
    var ctb := RFind(lower, CtbExt);
    var goo := RFind(lower, GooExt);
    var i := if ctb >= goo then ctb else goo;
    var ext := if ctb == i then CtbExt else GooExt;
    if i + |ext| <= |line| then i + |ext| else |line|
  }

  /** `__stripSpaceFromBack__`: the line up to the cut, and the stripped remainder. */
  function SplitAtExt(line: string): Entry {
    var cut := ExtCut(line);
    (line[..cut], Strip(line[cut..]))
  }

  lemma LowerPrefix(s: string, k: nat)
    requires k <= |s|
    ensures Lower(s[..k]) == Lower(s)[..k]
  {
  }

  /**
   * On a line that holds an extension, the name is the prefix of the line
   * through the rightmost extension occurrence, it ends with that extension,
   * no extension starts after it, and the size is the stripped rest.
   */
  lemma SplitAtRightmostExt(line: string)
    requires HasModelExt(line)
    ensures var (name, size) := SplitAtExt(line);
      && |name| >= 4 && line[..|name|] == name
      && size == Strip(line[|name|..])
      && (EndsWith(Lower(name), CtbExt) || EndsWith(Lower(name), GooExt))
      && forall j | j > |name| - 4 :: !OccursAt(Lower(line), CtbExt, j) && !OccursAt(Lower(line), GooExt, j)
  {
    var cut := ExtCut(line);
    CutAfterExt(line);
    assert SplitAtExt(line).0 == line[..cut];
  }

  /** The cut of a line with an extension follows the rightmost occurrence of one. */
  lemma CutAfterExt(line: string)
    requires HasModelExt(line)
    ensures var cut := ExtCut(line);
      && cut >= 4
      && (Lower(line[..cut])[cut - 4..] == CtbExt || Lower(line[..cut])[cut - 4..] == GooExt)
      && forall j | j > cut - 4 :: !OccursAt(Lower(line), CtbExt, j) && !OccursAt(Lower(line), GooExt, j)
  {
    var lower := Lower(line);
    var ctb := RFind(lower, CtbExt);
    var goo := RFind(lower, GooExt);
    var i := if ctb >= goo then ctb else goo;
    var ext := if ctb == i then CtbExt else GooExt;
    assert i >= 0 && |ext| == 4;
    assert OccursAt(lower, ext, i);
    assert ExtCut(line) == i + 4;
    LowerPrefix(line, i + 4);
  }

  // ---------------------------------------------------------------- identify

  function HexDigit(d: nat): char
    requires d < 16
  {
    "0123456789abcdef"[d]
  }

  /** How `repr` of a bytes object writes one byte, inside the given quote. */
  function EscapeByte(c: char, quote: char): string {
    if c == quote || c == '\\' then ['\\', c]
    else if c == '\t' then "\\t"
    else if c == '\n' then "\\n"
    else if c == '\r' then "\\r"
    else if c < ' ' || ('\U{7F}' <= c && (c as int) < 256) then
      "\\x" + [HexDigit(c as int / 16), HexDigit(c as int % 16)]
    else [c]
  }

  function Escape(s: string, quote: char): string {
    if s == [] then [] else EscapeByte(s[0], quote) + Escape(s[1..], quote)
  }

  /**
   * `str(b)` of a bytes reply: `b'...'` with escapes, or `b"..."` when the
   * bytes hold a single quote and no double quote. The identify parser works
   * on this text, not on the decoded reply.
   */
  function BytesRepr(s: string): string {
    var quote := if '\'' in s && '"' !in s then '"' else '\'';
    "b" + [quote] + Escape(s, quote) + [quote]
  }

  /** Sentinel returned for an empty identify field. */
  const NoResponse: string := "No Response"

  /**
   * The piece of one token between its first and second colon
   * (`split(":")[1]`); an empty piece becomes "No Response"; a token without
   * a colon raises.
   */
  function FieldOf(token: string): Result<string> {
    var parts := SplitOn(token, ':');
    if |parts| < 2 then Raised(IndexError)
    else if parts[1] == [] then Ok(NoResponse)
    else Ok(parts[1])
  }

  /**
   * `__getUniversal__(n)`: the field of the `n`-th space-separated token of
   * `str(reply)`; a missing token raises.
   */
  function IdentifyField(reply: string, n: nat): Result<string> {
    var tokens := SplitOn(BytesRepr(reply), ' ');
    if n >= |tokens| then Raised(IndexError) else FieldOf(tokens[n])
  }

  /** The text between the first and the second colon of `t`. */
  predicate BetweenColons(t: string, v: string) {
    exists k | 0 <= k < |t| ::
      && t[k] == ':' && ':' !in t[..k]
      && |v| <= |t| - k - 1 && t[k + 1..k + 1 + |v|] == v && ':' !in v
      && (k + 1 + |v| == |t| || t[k + 1 + |v|] == ':')
  }

  /** The pieces of a split put back around the first two: the head, ':', the second, and the rest. */
  lemma {:induction false} JoinHead(parts: seq<string>, sep: char)
    requires |parts| >= 2
    ensures var t := Join(parts, sep);
      && |parts[0]| < |t| && t[..|parts[0]|] == parts[0] && t[|parts[0]|] == sep
      && |parts[0]| + 1 + |parts[1]| <= |t|
      && t[|parts[0]| + 1..|parts[0]| + 1 + |parts[1]|] == parts[1]
      && (|parts[0]| + 1 + |parts[1]| == |t| || t[|parts[0]| + 1 + |parts[1]|] == sep)
  {
    var t := Join(parts, sep);
    var tail := Join(parts[1..], sep);
    assert t == parts[0] + [sep] + tail;
    if |parts| == 2 {
      assert tail == parts[1];
    } else {
      assert tail == parts[1] + [sep] + Join(parts[2..], sep);
    }
  }

  /** The second piece of a colon split lies between the first two colons, and only it. */
  lemma SecondPiece(t: string)
    requires |SplitOn(t, ':')| >= 2
    ensures BetweenColons(t, SplitOn(t, ':')[1])
    ensures SplitOn(t, ':')[1] != [] ==> !BetweenColons(t, [])
  {
    var parts := SplitOn(t, ':');
    JoinHead(parts, ':');
    var k := |parts[0]|;
    assert t[k] == ':' && t[..k] == parts[0];
    if parts[1] != [] {
      assert t[k + 1] == parts[1][0];
    }
  }

  /** The field of a token without spaces, read back from the token's text. */
  lemma FieldOfMeaning(t: string)
    requires FieldOf(t).Ok? && ' ' !in t
    ensures var v := FieldOf(t).value;
      && (v == NoResponse <==> BetweenColons(t, []))
      && (v != NoResponse ==> v != [] && BetweenColons(t, v))
  {
    var parts := SplitOn(t, ':');
    SecondPiece(t);
    if parts[1] != [] {
      JoinHead(parts, ':');
      assert ' ' in NoResponse;
      assert ' ' !in parts[1] by {
        assert forall i | 0 <= i < |parts[1]| :: parts[1][i] == t[|parts[0]| + 1 + i];
      }
    }
  }

  /**
   * An identify field is "No Response" exactly when the piece between the
   * first two colons of the token is empty; otherwise it is that piece.
   */
  lemma IdentifyFieldMeaning(reply: string, n: nat)
    requires IdentifyField(reply, n).Ok?
    ensures var tokens := SplitOn(BytesRepr(reply), ' ');
      var v := IdentifyField(reply, n).value;
      && n < |tokens|
      && (v == NoResponse <==> BetweenColons(tokens[n], []))
      && (v != NoResponse ==> v != [] && BetweenColons(tokens[n], v))
  {
    var tokens := SplitOn(BytesRepr(reply), ' ');
    FieldOfMeaning(tokens[n]);
  }

  /** `getName`: the NAME field cut at the first backslash of its escaped text. */
  function NameField(reply: string): Result<string> {
    match IdentifyField(reply, 5)
    case Raised(f) => Raised(f)
    case Ok(v) => Ok(SplitOn(v, '\\')[0])
  }

  // ---------------------------------------------------------------- status

  const Sentinel: string := "SD"
  const NotPrinting: string := "Not Printing"

  /**
   * `printingStatus` after the reply has been received: "Printing " and the
   * reply when its first token is "SD", "Not Printing" otherwise; a blank
   * reply raises IndexError.
   */
  function StatusText(s: string): (r: Result<string>)
    ensures r.Raised? <==> AllSpace(s)
    ensures r.Ok? ==> (r.value == "Printing " + s <==> FirstToken(s) == Ok(Sentinel))
    ensures r.Ok? ==> (r.value == NotPrinting <==> FirstToken(s) != Ok(Sentinel))
  {
    match FirstToken(s)
    case Raised(f) => Raised(f)
    case Ok(t) =>
      assert ("Printing " + s)[0] != NotPrinting[0];
      Ok(if t == Sentinel then "Printing " + s else NotPrinting)
  }

  /** The exact string "Printing" that callers compare against is never produced. */
  lemma StatusNeverBarePrinting(s: string)
    ensures StatusText(s) != Ok("Printing")
  {
  }

  /** `printingPercent`: the fourth whitespace token of the status reply, split at '/'. */
  function Percent(s: string): (r: Result<seq<string>>)
    ensures r.Raised? <==> |SplitWs(s)| < 4
    ensures r.Ok? ==> Join(r.value, '/') == SplitWs(s)[3]
    ensures r.Ok? ==> forall i | 0 <= i < |r.value| :: '/' !in r.value[i]
  {
    var tokens := SplitWs(s);
    if |tokens| < 4 then Raised(IndexError) else Ok(SplitOn(tokens[3], '/'))
  }

  // ---------------------------------------------------------------- jog

  /** The soft-limit test of `jogSoft`; its second disjunct adds nothing. */
  function JogAllowed(distance: real): (ok: bool)
    ensures ok <==> distance < 200.0
  {
    distance < 200.0 || distance < 1.0
  }
}
