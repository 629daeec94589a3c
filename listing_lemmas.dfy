/**
 * What `getCardFiles` returns, stated against an independent reading of the
 * listing: the entries are the splits of the kept lines before the first
 * "End file list", in order; the end marker and one more reply must arrive;
 * every entry name ends in a model-file extension.
 */
module ListingLemmas {
  import opened Wrappers
  import opened Text
  import opened Replies
  import opened CbdApi

  /** The entries of all lines, in order. */
  function Collected(lines: seq<string>): seq<Entry> {
    if lines == [] then [] else LineEntries(RStrip(lines[0])) + Collected(lines[1..])
  }

  /** Line `k` is the first end marker. */
  predicate FirstEnd(inbox: seq<string>, k: nat) {
    && k < |inbox| && RStrip(inbox[k]) == EndList
    && forall j | 0 <= j < k :: RStrip(inbox[j]) != EndList
  }

  /**
   * With the first end marker at `k` and its acknowledgement after it, the
   * listing is the entries of the lines before `k` and reading stops after
   * the acknowledgement.
   */
  lemma {:induction false} ListingMeaning(inbox: seq<string>, k: nat)
    requires FirstEnd(inbox, k) && k + 1 < |inbox|
    ensures ListingRun(inbox).0 == Ok(Collected(inbox[..k]))
    ensures ListingRun(inbox).1 == inbox[k + 2..]
  {
    if k == 0 {
      assert inbox[..k] == [];
    } else {
      assert FirstEnd(inbox[1..], k - 1) by {
        assert forall j | 0 <= j < k - 1 :: inbox[1..][j] == inbox[j + 1];
      }
      ListingMeaning(inbox[1..], k - 1);
      assert inbox[..k][0] == inbox[0] && inbox[..k][1..] == inbox[1..][..k - 1];
      assert inbox[1..][k + 1..] == inbox[k + 2..];
    }
  }

  /** `rstrip()` of the decoded reply also drops a trailing separator, so such a line still ends the listing. */
  lemma SeparatorEndsListing()
    ensures RStrip("End file list\U{1C}\r\n") == EndList
  {
    var line := "End file list\U{1C}\r\n";
    assert line[..|line| - 1] == "End file list\U{1C}\r";
    assert "End file list\U{1C}\r"[..14] == "End file list\U{1C}";
    assert "End file list\U{1C}"[..13] == EndList;
  }

  /** Without an end marker followed by one more reply the listing times out. */
  lemma {:induction false} ListingTimesOut(inbox: seq<string>)
    requires forall k | 0 <= k < |inbox| - 1 :: RStrip(inbox[k]) != EndList
    ensures ListingRun(inbox).0 == Raised(Timeout)
    ensures ListingRun(inbox).1 == []
  {
    if inbox != [] && RStrip(inbox[0]) != EndList {
      assert forall k | 0 <= k < |inbox[1..]| - 1 :: inbox[1..][k] == inbox[k + 1];
      ListingTimesOut(inbox[1..]);
    }
  }

  /** A listing line with an extension at `d` and no '.' after it is cut just after that extension. */
  lemma CutAtDot(line: string, d: nat)
    requires OccursAt(Lower(line), CtbExt, d) || OccursAt(Lower(line), GooExt, d)
    requires forall j | d < j < |line| :: line[j] != '.'
    ensures HasModelExt(line) && ExtCut(line) == d + 4
  {
    assert HasModelExt(line);
    CutAfterExt(line);
    var cut := ExtCut(line);
    LowerPrefix(line, cut);
    assert Lower(line[..cut])[cut - 4..][0] == '.';
    assert LowerChar(line[cut - 4]) == '.';
  }

  /** `line` is `name`, one space and `size`; `name` ends in a lower-case extension and `size` is one word without '.'. */
  predicate SizedLine(line: string, name: string, size: string) {
    && line == name + [' '] + size && |name| >= 4
    && (name[|name| - 4..] == CtbExt || name[|name| - 4..] == GooExt)
    && '.' !in size && size != [] && !IsSpace(size[0]) && !IsSpace(size[|size| - 1])
  }

  lemma SizedLineCut(line: string, name: string, size: string)
    requires SizedLine(line, name, size)
    ensures HasModelExt(line) && ExtCut(line) == |name|
  {
    var d := |name| - 4;
    assert line[d..d + 4] == name[d..];
    assert Lower(line)[d..d + 4] == line[d..d + 4] by {
      forall k | d <= k < d + 4
        ensures Lower(line)[k] == line[k]
      {
        assert line[k] in name[d..];
      }
    }
    assert forall j | d < j < |line| :: line[j] != '.' by {
      forall j | d < j < |line|
        ensures line[j] != '.'
      {
        if j < |name| {
          assert line[j] in name[d..];
        } else if j > |name| {
          assert line[j] == size[j - |name| - 1];
        }
      }
    }
    CutAtDot(line, d);
  }

  lemma SizedLineNotBegin(line: string, name: string, size: string)
    requires SizedLine(line, name, size)
    ensures line != BeginList
  {
    var d := |name| - 4;
    assert name[d..][0] == '.';
    assert line[d] == '.';
    assert forall i | 0 <= i < |BeginList| :: BeginList[i] != '.';
  }

  lemma SizedLineSize(line: string, name: string, size: string)
    requires SizedLine(line, name, size)
    ensures Strip(line[|name|..]) == size
  {
    var rest := line[|name|..];
    assert rest == [' '] + size;
    assert RStrip(rest) == rest;
    assert rest[1..] == size;
    assert LStrip(size) == size;
    assert LStrip(rest) == size;
  }

  /** Such a line is kept as the record `(name, size)`, whatever the size says. */
  lemma SizedRecord(line: string, name: string, size: string)
    requires SizedLine(line, name, size)
    ensures LineEntries(line) == [(name, size)]
  {
    SizedLineCut(line, name, size);
    SizedLineNotBegin(line, name, size);
    SizedLineSize(line, name, size);
    assert line[..|name|] == name;
  }

  /** A sized line is its own `rstrip()` and is not the end marker. */
  lemma SizedLineKept(line: string, name: string, size: string)
    requires SizedLine(line, name, size)
    ensures RStrip(line) == line && RStrip(line) != EndList
  {
    assert line[|line| - 1] == size[|size| - 1];
    var d := |name| - 4;
    assert name[d..][0] == '.';
    assert line[d] == '.';
    assert forall i | 0 <= i < |EndList| :: EndList[i] != '.';
  }

  /** The end marker and its acknowledgement close an empty listing. */
  lemma EndThenAck(ack: string)
    ensures ListingRun([EndList, ack]) == (Ok([]), [])
  {
    var inbox := [EndList, ack];
    assert inbox[0] == EndList && RStrip(EndList) == EndList;
    assert inbox[2..] == [];
  }

  lemma RecordThen(line: string, name: string, size: string, rest: seq<string>, es: seq<Entry>)
    requires SizedLine(line, name, size) && ListingRun(rest).0 == Ok(es)
    ensures ListingRun([line] + rest).0 == Ok([(name, size)] + es)
  {
    SizedLineKept(line, name, size);
    SizedRecord(line, name, size);
    ListingRunCons(line, rest);
  }

  lemma BeginThen(rest: seq<string>)
    ensures ListingRun([BeginList] + rest) == ListingRun(rest)
  {
    assert RStrip(BeginList) == BeginList && !Kept(BeginList);
    ListingRunCons(BeginList, rest);
    PrependNothing(ListingRun(rest).0);
  }

  /**
   * A listing of two sized lines is their two records, whatever the sizes
   * say: no size, not even "0", drops a file.
   */
  lemma SizedListing(first: string, n1: string, s1: string, second: string, n2: string, s2: string, ack: string)
    requires SizedLine(first, n1, s1) && SizedLine(second, n2, s2)
    ensures ListingRun([BeginList, first, second, EndList, ack]).0 == Ok([(n1, s1), (n2, s2)])
  {
    var tail := [EndList, ack];
    EndThenAck(ack);
    RecordThen(second, n2, s2, tail, []);
    RecordThen(first, n1, s1, [second] + tail, [(n2, s2)] + []);
    BeginThen([first] + ([second] + tail));
    assert [(n1, s1)] + ([(n2, s2)] + []) == [(n1, s1), (n2, s2)];
    assert [BeginList] + ([first] + ([second] + tail)) == [BeginList, first, second, EndList, ack];
  }

  /** A listing with a file of size 0 keeps that file. */
  lemma ListingKeepsZeroSize()
    ensures ListingRun(["Begin file list", "foo.ctb 1200000", "bar.goo 0", "End file list", "ok"]).0
      == Ok([("foo.ctb", "1200000"), ("bar.goo", "0")])
  {
    SizedListing("foo.ctb 1200000", "foo.ctb", "1200000", "bar.goo 0", "bar.goo", "0", "ok");
  }

  /** A name a listing entry can carry: it ends in `.ctb` or `.goo` in any letter case. */
  predicate ModelName(name: string) {
    EndsWith(Lower(name), CtbExt) || EndsWith(Lower(name), GooExt)
  }

  lemma LineEntriesNamed(line: string)
    ensures forall e | e in LineEntries(line) :: ModelName(e.0)
  {
    if Kept(line) {
      SplitAtRightmostExt(line);
    }
  }

  lemma {:induction false} ListingNamed(inbox: seq<string>)
    requires ListingRun(inbox).0.Ok?
    ensures forall e | e in ListingRun(inbox).0.value :: ModelName(e.0)
  {
    if RStrip(inbox[0]) != EndList {
      LineEntriesNamed(RStrip(inbox[0]));
      ListingNamed(inbox[1..]);
    }
  }
}
