/**
 * What `uploadFile` promises, stated over the loop and upload specifications
 * of module CbdApi: the cursor invariant, how each kind of reply moves the
 * cursor, the early exit on a refused `M28`, the size check that always
 * says `T0`, the retry report, and that a run on clean replies delivers
 * exactly the file.
 */
module UploadLemmas {
  import opened Wrappers
  import opened Text
  import opened Packet
  import opened CbdApi

  // ---------------------------------------------------------------- the cursor invariant

  /** `offs + self.remaining == filelength` survives every reply. */
  lemma StepKeepsBalance(fileLength: int, c: Cursor, n: nat, reply: Reply)
    requires c.offs + c.remaining == fileLength
    requires Step(fileLength, c, n, reply).Ok?
    ensures Step(fileLength, c, n, reply).value.offs + Step(fileLength, c, n, reply).value.remaining == fileLength
  {
  }

  /** ... and therefore the whole loop: it stops with `offs + remaining == filelength`. */
  lemma {:induction false} TransferKeepsBalance(file: seq<bv8>, c: Cursor, inbox: seq<string>, sent: seq<Datagram>)
    requires c.offs + c.remaining == |file|
    decreases |inbox|
    ensures var e := Transfer(file, c, inbox, sent); e.c.offs + e.c.remaining == |file|
  {
    if c.remaining > 0 && SendPhase(file, c).Ok? && inbox != [] {
      var n := if c.send && c.offs >= 0 then |Chunk(file, c.offs)| else 0;
      var next := Step(|file|, c, n, Classify(inbox[0]));
      if next.Ok? {
        StepKeepsBalance(|file|, c, n, Classify(inbox[0]));
        TransferKeepsBalance(file, next.value, inbox[1..], sent + SendPhase(file, c).value);
      }
    }
  }

  /** A loop that ends without a fault has sent everything: `remaining` is not positive. */
  lemma {:induction false} TransferEndsDone(file: seq<bv8>, c: Cursor, inbox: seq<string>, sent: seq<Datagram>)
    decreases |inbox|
    ensures var e := Transfer(file, c, inbox, sent); e.fault.None? ==> e.c.remaining <= 0
  {
    if c.remaining > 0 && SendPhase(file, c).Ok? && inbox != [] {
      var n := if c.send && c.offs >= 0 then |Chunk(file, c.offs)| else 0;
      var next := Step(|file|, c, n, Classify(inbox[0]));
      if next.Ok? {
        TransferEndsDone(file, next.value, inbox[1..], sent + SendPhase(file, c).value);
      }
    }
  }

  // ---------------------------------------------------------------- one reply at a time

  /** The packet for the chunk at `offs`. */
  function PacketAt(file: seq<bv8>, offs: nat): Datagram
    requires offs < OffsetLimit
  {
    Data(Frame(Chunk(file, offs), offs))
  }

  /**
   * After a chunk is sent, "ok" advances the cursor by the chunk length,
   * `min(1280, filelength - offs)`.
   */
  lemma OkAdvances(file: seq<bv8>, c: Cursor, reply: string, more: seq<string>, sent: seq<Datagram>)
    requires |file| <= OffsetLimit && c.send && 0 <= c.offs < |file| && c.offs + c.remaining == |file|
    requires Classify(reply) == Ack
    ensures var step := Min(ChunkSize, |file| - c.offs);
      Transfer(file, c, [reply] + more, sent)
        == Transfer(file, c.(offs := c.offs + step, remaining := c.remaining - step), more, sent + [PacketAt(file, c.offs)])
  {
    var inbox := [reply] + more;
    assert inbox[0] == reply && inbox[1..] == more;
    var n := |Chunk(file, c.offs)|;
    assert n == Min(ChunkSize, |file| - c.offs);
    var c' := c.(offs := c.offs + n, remaining := c.remaining - n);
    assert c.remaining > 0 && c.offs < OffsetLimit;
    assert SendPhase(file, c) == Ok([PacketAt(file, c.offs)]);
    assert Step(|file|, c, n, Classify(inbox[0])) == Ok(c');
    TransferStep(file, c, inbox, sent, [PacketAt(file, c.offs)], n, c');
  }

  /**
   * A reply that is neither "ok" nor "resend" stops sending; the "ok" after it
   * only re-arms the flag, so the loop is back at the same cursor and the same
   * packet goes out again.
   */
  lemma GarbageThenOkResends(file: seq<bv8>, c: Cursor, garbage: string, ok: string, more: seq<string>, sent: seq<Datagram>)
    requires |file| <= OffsetLimit && c.send && 0 <= c.offs < |file| && c.offs + c.remaining == |file|
    requires Classify(garbage) == Other && Classify(ok) == Ack
    ensures Transfer(file, c, [garbage, ok] + more, sent) == Transfer(file, c, more, sent + [PacketAt(file, c.offs)])
  {
    var inbox := [garbage, ok] + more;
    assert inbox[0] == garbage && inbox[1..] == [ok] + more;
    assert ([ok] + more)[0] == ok && ([ok] + more)[1..] == more;
    var n := |Chunk(file, c.offs)|;
    var idle := c.(send := false);
    var out := sent + [PacketAt(file, c.offs)];
    assert Step(|file|, c, n, Other) == Ok(idle);
    TransferStep(file, c, inbox, sent, [PacketAt(file, c.offs)], n, idle);
    assert Step(|file|, idle, 0, Ack) == Ok(c);
    TransferStep(file, idle, [ok] + more, out, [], 0, c);
    assert out + [] == out;
  }

  /** The offset token `tag:K` of a resend reply reads back as `K`. */
  lemma ResendOffsetOf(amount: string, tag: string, k: nat)
    requires ':' !in tag
    ensures ResendOffset(["resend", amount, tag + ":" + Decimal(k)]) == Ok(k)
  {
    var offset := tag + ":" + Decimal(k);
    assert ':' !in Decimal(k);
    assert Join([tag, Decimal(k)], ':') == offset;
    SplitJoin([tag, Decimal(k)], ':');
    DecimalRoundTrip(k);
  }

  lemma ResendTokens(words: seq<string>)
    requires |words| == 3 && words[0] == "resend" && IsWord(words[1]) && IsWord(words[2])
    ensures SplitWs(Join(words, ' ')) == words
    ensures ByteFirstToken(Join(words, ' ')) == Ok("resend")
  {
    assert IsWord(words[0]);
    SplitWsJoin(words);
    var rest := [' '] + Join(words[1..], ' ');
    assert Join(words, ' ') == "resend" + rest;
    ByteWordOf("resend", rest);
  }

  lemma ClassifyResend(reply: string, words: seq<string>, k: int)
    requires SplitWs(reply) == words && ByteFirstToken(reply) == Ok("resend") && ResendOffset(words) == Ok(k)
    ensures Classify(reply) == Resend(Ok(k))
  {
  }

  lemma StepOnResend(fileLength: int, c: Cursor, n: nat, r: Reply, k: int)
    requires r == Resend(Ok(k))
    ensures Step(fileLength, c, n, r) == Ok(Cursor(k, fileLength - k, c.retr + 1, true))
  {
  }

  /**
   * `resend N,offset error:K` moves the cursor to `K`, sets `remaining` to
   * `filelength - K`, counts one retry and re-arms sending, whatever `N` is.
   */
  lemma ResendRestarts(fileLength: int, c: Cursor, n: nat, amount: string, tag: string, k: nat, reply: string)
    requires IsWord(amount) && IsWord(tag) && ':' !in tag
    requires reply == Join(["resend", amount, tag + ":" + Decimal(k)], ' ')
    ensures Classify(reply) == Resend(Ok(k))
    ensures Step(fileLength, c, n, Classify(reply)) == Ok(Cursor(k, fileLength - k, c.retr + 1, true))
  {
    var words := ["resend", amount, tag + ":" + Decimal(k)];
    assert IsWord(words[2]) by {
      assert forall i | 0 <= i < |Decimal(k)| :: IsDigit(Decimal(k)[i]);
    }
    ResendTokens(words);
    ResendOffsetOf(amount, tag, k);
    ClassifyResend(reply, words, k);
    StepOnResend(fileLength, c, n, Classify(reply), k);
  }

  lemma JoinThree(x: string, y: string, z: string, sep: char)
    ensures Join([x, y, z], sep) == x + [sep] + y + [sep] + z
  {
    assert [x, y, z][1..] == [y, z] && [y, z][1..] == [z];
    assert Join([y, z], sep) == y + [sep] + z;
    assert Join([x, y, z], sep) == x + [sep] + Join([y, z], sep);
  }

  lemma ExampleOffsetToken()
    ensures "error" + ":" + Decimal(6165760) == "error:6165760"
  {
    assert Decimal(6) == "6";
    assert Decimal(61) == "61";
    assert Decimal(616) == "616";
    assert Decimal(6165) == "6165";
    assert Decimal(61657) == "61657";
    assert Decimal(616576) == "616576";
    assert Decimal(6165760) == "6165760";
  }

  lemma ExampleJoin()
    ensures Join(["resend", "1280,offset", "error:6165760"], ' ') == "resend 1280,offset error:6165760"
  {
    JoinThree("resend", "1280,offset", "error:6165760", ' ');
  }

  lemma ExampleReplyWords()
    ensures Join(["resend", "1280,offset", "error" + ":" + Decimal(6165760)], ' ') == "resend 1280,offset error:6165760"
  {
    ExampleOffsetToken();
    ExampleJoin();
  }

  /**
   * The example resend reply of CBD_Api.py:260, on a file of 6200000 bytes:
   * resume at 6165760 with 34240 bytes left.
   */
  lemma ResendExample(c: Cursor, n: nat)
    ensures Step(6200000, c, n, Classify("resend 1280,offset error:6165760"))
      == Ok(Cursor(6165760, 34240, c.retr + 1, true))
  {
    ExampleReplyWords();
    assert IsWord("1280,offset") && IsWord("error");
    ResendRestarts(6200000, c, n, "1280,offset", "error", 6165760, "resend 1280,offset error:6165760");
  }

  // ---------------------------------------------------------------- around the loop

  /** A refused `M28` ends the upload: one reply is absorbed, no data goes out, the counters stay. */
  lemma RefusedSendsNoData(card: string, file: Option<seq<bv8>>, inbox: seq<string>, sent: seq<Datagram>, remaining0: int, filelength0: int)
    requires |inbox| >= 2 && Refused(RStrip(inbox[0]))
    ensures var u := UploadRun(card, file, inbox, sent, remaining0, filelength0);
      && u.result == Ok("M28 Error: " + RStrip(inbox[0]))
      && u.sent == sent + [Command("M28 " + card)]
      && u.rest == inbox[2..]
      && u.remaining == remaining0 && u.filelength == filelength0
  {
  }

  /**
   * The size-verify failure report ends with the device's reply, and starts
   * with the retry count and the advice exactly when some chunk was resent.
   */
  lemma VerifyErrorReport(retr: nat, v: string)
    ensures EndsWith(VerifyError(retr, v), "Size Verify Error: " + v)
    ensures retr > 0 <==> StartsWith(VerifyError(retr, v), Decimal(retr) + RetryAdvice)
  {
    var tail := "Size Verify Error: " + v;
    var r := VerifyError(retr, v);
    if retr > 0 {
      assert r == Decimal(retr) + RetryAdvice + tail;
      assert r[..|Decimal(retr) + RetryAdvice|] == Decimal(retr) + RetryAdvice;
    } else {
      assert r == tail;
      assert r[0] == 'S' && (Decimal(retr) + RetryAdvice)[0] == Decimal(retr)[0];
    }
    assert r[|r| - |tail|..] == tail;
  }

  // ---------------------------------------------------------------- a clean run

  /** The packets of the whole file from `offs` on, one per 1280-byte chunk. */
  function ChunksFrom(file: seq<bv8>, offs: nat): seq<Datagram>
    requires |file| <= OffsetLimit
    decreases |file| - offs
  {
    if offs >= |file| then [] else [PacketAt(file, offs)] + ChunksFrom(file, offs + |Chunk(file, offs)|)
  }

  /** Every reply reads as "ok". */
  predicate AllAck(replies: seq<string>) {
    replies == [] || (Classify(replies[0]) == Ack && AllAck(replies[1..]))
  }

  lemma ConsAppend<T>(a: seq<T>, b: seq<T>)
    requires a != []
    ensures a + b == [a[0]] + (a[1..] + b)
  {
  }

  /** A chunk before the end of the file holds `min(1280, filelength - offs)` bytes. */
  lemma ChunkLength(file: seq<bv8>, offs: nat)
    requires offs < |file|
    ensures |Chunk(file, offs)| == Min(ChunkSize, |file| - offs) >= 1
  {
  }

  /** One "ok" on a balanced, sending cursor: the chunk at `offs` goes out and the cursor moves past it. */
  lemma AckStep(file: seq<bv8>, offs: nat, retr: nat, acks: seq<string>, more: seq<string>, sent: seq<Datagram>)
    requires |file| <= OffsetLimit && offs < |file|
    requires acks != [] && Classify(acks[0]) == Ack
    ensures var n := |Chunk(file, offs)|;
      Transfer(file, Cursor(offs, |file| - offs, retr, true), acks + more, sent)
      == Transfer(file, Cursor(offs + n, |file| - (offs + n), retr, true), acks[1..] + more, sent + [PacketAt(file, offs)])
  {
    assert (acks + more)[0] == acks[0] && (acks + more)[1..] == acks[1..] + more;
    assert SendPhase(file, Cursor(offs, |file| - offs, retr, true)) == Ok([PacketAt(file, offs)]);
    TransferStep(file, Cursor(offs, |file| - offs, retr, true), acks + more, sent, [PacketAt(file, offs)],
                 |Chunk(file, offs)|, Cursor(offs + |Chunk(file, offs)|, |file| - (offs + |Chunk(file, offs)|), retr, true));
  }

  /** The packets from `offs` on start with the one at `offs`; the next starts one chunk later. */
  lemma ChunksFromStep(file: seq<bv8>, offs: nat)
    requires |file| <= OffsetLimit && offs < |file|
    ensures |Chunk(file, offs)| >= 1
    ensures ChunksFrom(file, offs) == [PacketAt(file, offs)] + ChunksFrom(file, offs + |Chunk(file, offs)|)
  {
  }

  lemma EmptyAppend<T>(a: seq<T>, b: seq<T>)
    requires a == []
    ensures a + b == b
  {
  }

  lemma AppendAssoc<T>(a: seq<T>, b: seq<T>, c: seq<T>)
    ensures a + b + c == a + (b + c)
  {
  }

  /** `ChunksFrom` with the packets already sent in front, built in the order the loop sends them. */
  function ChunksOnto(file: seq<bv8>, offs: nat, sent: seq<Datagram>): seq<Datagram>
    requires |file| <= OffsetLimit
    decreases |file| - offs
  {
    if offs >= |file| then sent else ChunksOnto(file, offs + |Chunk(file, offs)|, sent + [PacketAt(file, offs)])
  }

  lemma {:induction false} ChunksOntoFrom(file: seq<bv8>, offs: nat, sent: seq<Datagram>)
    requires |file| <= OffsetLimit
    decreases |file| - offs
    ensures ChunksOnto(file, offs, sent) == sent + ChunksFrom(file, offs)
  {
    if offs >= |file| {
      assert sent + [] == sent;
    } else {
      ChunksFromStep(file, offs);
      ChunksOntoFrom(file, offs + |Chunk(file, offs)|, sent + [PacketAt(file, offs)]);
      AppendAssoc(sent, [PacketAt(file, offs)], ChunksFrom(file, offs + |Chunk(file, offs)|));
    }
  }

  /**
   * The loop from a sending cursor at `offs`, on `acks` followed by `more`,
   * sends the chunks from `offs`, reads exactly `acks` and stops at the end
   * of the file without a fault.
   */
  predicate CleanFrom(file: seq<bv8>, offs: nat, retr: nat, acks: seq<string>, more: seq<string>, sent: seq<Datagram>)
    requires |file| <= OffsetLimit && offs <= |file|
  {
    var e := Transfer(file, Cursor(offs, |file| - offs, retr, true), acks + more, sent);
    && e.c == Cursor(|file|, 0, retr, true)
    && e.sent == ChunksOnto(file, offs, sent)
    && e.rest == more
    && e.fault == None
  }

  /** The clean loop from the end of the file: nothing is sent and nothing is read. */
  lemma CleanEnd(file: seq<bv8>, retr: nat, acks: seq<string>, more: seq<string>, sent: seq<Datagram>)
    requires |file| <= OffsetLimit && acks == []
    ensures CleanFrom(file, |file|, retr, acks, more, sent)
  {
    EmptyAppend(acks, more);
  }

  /** One "ok" in front of a clean rest of the loop. */
  lemma CleanStep(file: seq<bv8>, offs: nat, retr: nat, acks: seq<string>, more: seq<string>, sent: seq<Datagram>)
    requires |file| <= OffsetLimit && offs < |file|
    requires acks != [] && Classify(acks[0]) == Ack
    requires CleanFrom(file, offs + |Chunk(file, offs)|, retr, acks[1..], more, sent + [PacketAt(file, offs)])
    ensures CleanFrom(file, offs, retr, acks, more, sent)
  {
    AckStep(file, offs, retr, acks, more, sent);
  }

  /**
   * When every reply is "ok", the loop sends the chunks from `offs` in order,
   * takes one reply per chunk, and stops at the end of the file with
   * `remaining` 0.
   */
  lemma {:induction false} CleanTransferOnto(file: seq<bv8>, offs: nat, retr: nat, acks: seq<string>, more: seq<string>, sent: seq<Datagram>)
    requires |file| <= OffsetLimit && offs <= |file|
    requires |acks| == |ChunksFrom(file, offs)| && AllAck(acks)
    decreases |file| - offs
    ensures CleanFrom(file, offs, retr, acks, more, sent)
  {
    if offs == |file| {
      CleanEnd(file, retr, acks, more, sent);
    } else {
      ChunksFromStep(file, offs);
      CleanTransferOnto(file, offs + |Chunk(file, offs)|, retr, acks[1..], more, sent + [PacketAt(file, offs)]);
      CleanStep(file, offs, retr, acks, more, sent);
    }
  }

  lemma CleanTransfer(file: seq<bv8>, offs: nat, retr: nat, acks: seq<string>, more: seq<string>, sent: seq<Datagram>)
    requires |file| <= OffsetLimit && offs <= |file|
    requires |acks| == |ChunksFrom(file, offs)| && AllAck(acks)
    ensures var e := Transfer(file, Cursor(offs, |file| - offs, retr, true), acks + more, sent);
      && e.c == Cursor(|file|, 0, retr, true)
      && e.sent == sent + ChunksFrom(file, offs)
      && e.rest == more
      && e.fault == None
  {
    CleanTransferOnto(file, offs, retr, acks, more, sent);
    ChunksOntoFrom(file, offs, sent);
  }

  /**
   * The device side of the transfer: every datagram must be a data packet
   * that unframes and whose 32-bit offset field is the length of the image
   * so far; its chunk is appended. An image of 2^32 bytes or more takes no
   * further packet.
   */
  function Assemble(ds: seq<Datagram>, image: seq<bv8>): Option<seq<bv8>> {
    if ds == [] then Some(image)
    else if !ds[0].Data? || |image| >= OffsetLimit then None
    else match Unframe(ds[0].bytes)
      case None => None
      case Some((chunk, o)) => if o != |image| as bv32 then None else Assemble(ds[1..], image + chunk)
  }

  /** A packet that unframes to `chunk` at the image's length appends `chunk`. */
  lemma AssembleCons(d: Datagram, ds: seq<Datagram>, image: seq<bv8>, chunk: seq<bv8>)
    requires d.Data? && |image| < OffsetLimit && Unframe(d.bytes) == Some((chunk, |image| as bv32))
    ensures Assemble([d] + ds, image) == Assemble(ds, image + chunk)
  {
    assert ([d] + ds)[0] == d && ([d] + ds)[1..] == ds;
  }

  /** The packet framed at the image's length appends its chunk. */
  lemma AssembleFrame(chunk: seq<bv8>, offs: nat, ds: seq<Datagram>, image: seq<bv8>)
    requires offs < OffsetLimit && |image| == offs
    ensures Assemble([Data(Frame(chunk, offs))] + ds, image) == Assemble(ds, image + chunk)
  {
    UnframeFrame(chunk, offs);
    AssembleCons(Data(Frame(chunk, offs)), ds, image, chunk);
  }

  /** The chunks from `offs` on, appended to the first `offs` bytes, rebuild the file. */
  predicate Rebuilds(file: seq<bv8>, offs: nat)
    requires |file| <= OffsetLimit && offs <= |file|
  {
    Assemble(ChunksFrom(file, offs), file[..offs]) == Some(file)
  }

  /** The device accepts the packet at `offs` when its image holds the file up to `offs`. */
  lemma AssembleStep(file: seq<bv8>, offs: nat)
    requires |file| <= OffsetLimit && offs < |file|
    requires Rebuilds(file, offs + |Chunk(file, offs)|)
    ensures Rebuilds(file, offs)
  {
    var chunk := Chunk(file, offs);
    var next := offs + |chunk|;
    ChunksFromStep(file, offs);
    AssembleFrame(chunk, offs, ChunksFrom(file, next), file[..offs]);
    ChunkExtends(file, offs);
  }

  /** The first `offs` bytes and the chunk at `offs` are the first `offs + |chunk|` bytes. */
  lemma ChunkExtends(file: seq<bv8>, offs: nat)
    requires offs < |file|
    ensures file[..offs] + Chunk(file, offs) == file[..offs + |Chunk(file, offs)|]
  {
  }

  lemma {:induction false} ChunksAssemble(file: seq<bv8>, offs: nat)
    requires |file| <= OffsetLimit && offs <= |file|
    decreases |file| - offs
    ensures Rebuilds(file, offs)
  {
    if offs == |file| {
      assert file[..offs] == file;
    } else {
      ChunksFromStep(file, offs);
      ChunksAssemble(file, offs + |Chunk(file, offs)|);
      AssembleStep(file, offs);
    }
  }

  /** The whole file's packets rebuild it on a device that starts empty. */
  lemma ChunksAssembleFromStart(file: seq<bv8>)
    requires |file| <= OffsetLimit
    ensures Assemble(ChunksFrom(file, 0), []) == Some(file)
  {
    assert file[..0] == [];
    ChunksAssemble(file, 0);
  }

  /** The closing stages when the size check is answered "ok": `M29`, and its answer is the result. */
  lemma ClosingAccepted(retr: nat, size: nat, v: string, fin: string, confirmation: string, more: seq<string>)
    requires FirstToken(RStrip(v)) == Ok("ok")
    ensures var r := Closing(retr, size, [v, fin, confirmation] + more);
      && r.0 == Ok(RStrip(fin))
      && r.1 == [Command(SizeCheck(size)), Command("M29")]
      && r.2 == more
  {
    var inbox := [v, fin, confirmation] + more;
    assert inbox[0] == v && inbox[1] == fin && inbox[3..] == more;
    var r := Closing(retr, size, inbox);
    assert r.0 == Ok(RStrip(fin));
    assert r.1 == [Command(SizeCheck(size))] + [Command("M29")];
    assert [Command(SizeCheck(size))] + [Command("M29")] == [Command(SizeCheck(size)), Command("M29")];
    assert r.2 == more;
  }

  /** An `M28` answer that is no refusal hands every later reply to the data loop. */
  lemma UploadAccepted(card: string, file: seq<bv8>, m28: string, rest: seq<string>, sent: seq<Datagram>,
                       remaining0: int, filelength0: int)
    requires !Refused(RStrip(m28))
    ensures UploadRun(card, Some(file), [m28] + rest, sent, remaining0, filelength0)
      == Transmit(file, rest, sent + [Command("M28 " + card)])
  {
    assert ([m28] + rest)[0] == m28 && ([m28] + rest)[1..] == rest;
  }

  /**
   * A local file that is not there is noticed only after the device has
   * accepted `M28`: the upload raises with the file left open on the card,
   * no data and no `M29` sent, and the counters untouched.
   */
  lemma MissingFileLeavesOpen(card: string, m28: string, rest: seq<string>, sent: seq<Datagram>,
                              remaining0: int, filelength0: int)
    requires !Refused(RStrip(m28))
    ensures var u := UploadRun(card, None, [m28] + rest, sent, remaining0, filelength0);
      && u.result == Raised(FileNotFound)
      && u.sent == sent + [Command("M28 " + card)]
      && Command("M29") !in u.sent[|sent|..]
      && u.rest == rest
      && u.remaining == remaining0 && u.filelength == filelength0
  {
    assert ([m28] + rest)[0] == m28 && ([m28] + rest)[1..] == rest;
    assert (sent + [Command("M28 " + card)])[|sent|..] == [Command("M28 " + card)];
  }

  /**
   * The data loop and the closing stages on clean replies (one "ok" per chunk,
   * the size check answered "ok"): the packets, the size check and `M29` go
   * out in that order, the result is the answer to `M29`, both counters end at 0.
   */
  lemma TransmitClean(file: seq<bv8>, acks: seq<string>, v: string, fin: string, confirmation: string,
                      more: seq<string>, sent: seq<Datagram>)
    requires |file| <= OffsetLimit
    requires |acks| == |ChunksFrom(file, 0)| && AllAck(acks)
    requires FirstToken(RStrip(v)) == Ok("ok")
    ensures var u := Transmit(file, acks + ([v, fin, confirmation] + more), sent);
      && u.result == Ok(RStrip(fin))
      && u.sent == sent + ChunksFrom(file, 0) + [Command(SizeCheck(0)), Command("M29")]
      && u.rest == more
      && u.remaining == 0 && u.filelength == 0
  {
    CleanTransfer(file, 0, 0, acks, [v, fin, confirmation] + more, sent);
    ClosingAccepted(0, 0, v, fin, confirmation, more);
  }

  /**
   * A whole upload on clean replies (the `M28` answer is no refusal, one "ok"
   * per chunk, the size check answered "ok"): `M28`, the packets, the size
   * check and `M29` go out in that order, the result is the answer to `M29`,
   * both counters end at 0, and the packets rebuild the file on the device.
   */
  lemma CleanUpload(card: string, file: seq<bv8>, m28: string, acks: seq<string>, v: string, fin: string,
                    confirmation: string, more: seq<string>, sent: seq<Datagram>, remaining0: int, filelength0: int)
    requires |file| <= OffsetLimit && !Refused(RStrip(m28))
    requires |acks| == |ChunksFrom(file, 0)| && AllAck(acks)
    requires FirstToken(RStrip(v)) == Ok("ok")
    ensures var u := UploadRun(card, Some(file), [m28] + acks + [v, fin, confirmation] + more, sent, remaining0, filelength0);
      && u.result == Ok(RStrip(fin))
      && u.sent == sent + [Command("M28 " + card)] + ChunksFrom(file, 0) + [Command(SizeCheck(0)), Command("M29")]
      && u.rest == more
      && u.remaining == 0 && u.filelength == 0
    ensures Assemble(ChunksFrom(file, 0), []) == Some(file)
  {
    AppendAssoc([m28] + acks, [v, fin, confirmation], more);
    AppendAssoc([m28], acks, [v, fin, confirmation] + more);
    UploadAccepted(card, file, m28, acks + ([v, fin, confirmation] + more), sent, remaining0, filelength0);
    TransmitClean(file, acks, v, fin, confirmation, more, sent + [Command("M28 " + card)]);
    ChunksAssembleFromStart(file);
  }

  // ---------------------------------------------------------------- the size check

  /** After a fault-free loop the first datagram of the closing stages is the size check. */
  lemma TransmitSendsSizeCheck(file: seq<bv8>, inbox: seq<string>, sent: seq<Datagram>, size: nat)
    requires Transfer(file, Cursor(0, |file|, 0, true), inbox, sent).fault.None?
    ensures var e := Transfer(file, Cursor(0, |file|, 0, true), inbox, sent);
      var u := TransmitReporting(file, inbox, sent, size);
      |u.sent| > |e.sent| && u.sent[|e.sent|] == Command(SizeCheck(size))
  {
  }

  /** Different sizes give different size checks: the number reads back. */
  lemma SizeCheckReadsBack(size: nat)
    ensures StartsWith(SizeCheck(size), "M4012 I1 T")
    ensures ParseInt(SizeCheck(size)[10..]) == Some(size)
  {
    DecimalRoundTrip(size);
    assert SizeCheck(size)[10..] == Decimal(size);
  }

  /**
   * As written, the size check sent after a fault-free loop always reads
   * `M4012 I1 T0`; for a non-empty file that is not the file length.
   */
  lemma SizeCheckSaysZero(file: seq<bv8>, inbox: seq<string>, sent: seq<Datagram>)
    requires Transfer(file, Cursor(0, |file|, 0, true), inbox, sent).fault.None?
    ensures var e := Transfer(file, Cursor(0, |file|, 0, true), inbox, sent);
      var u := Transmit(file, inbox, sent);
      && |u.sent| > |e.sent| && u.sent[|e.sent|] == Command("M4012 I1 T0")
      && (|file| > 0 ==> u.sent[|e.sent|] != Command(SizeCheck(|file|)))
  {
    TransmitSendsSizeCheck(file, inbox, sent, 0);
    assert Decimal(0) == "0";
    SizeCheckReadsBack(0);
    SizeCheckReadsBack(|file|);
  }

  /** The corrected closing sends a size check whose number reads back as the file length. */
  lemma IntendedSizeCheck(file: seq<bv8>, inbox: seq<string>, sent: seq<Datagram>)
    requires Transfer(file, Cursor(0, |file|, 0, true), inbox, sent).fault.None?
    ensures var e := Transfer(file, Cursor(0, |file|, 0, true), inbox, sent);
      var u := TransmitIntended(file, inbox, sent);
      && |u.sent| > |e.sent| && u.sent[|e.sent|].Command?
      && StartsWith(u.sent[|e.sent|].text, "M4012 I1 T")
      && ParseInt(u.sent[|e.sent|].text[10..]) == Some(|file|)
  {
    TransmitSendsSizeCheck(file, inbox, sent, |file|);
    SizeCheckReadsBack(|file|);
  }
}
