/**
 * The device client of CBD_Api.py (class `Printer`) over a modelled socket:
 * `inbox` holds the datagrams the device will send, in order, and every
 * receive takes the next one (an empty inbox is the socket timeout);
 * `outbox` collects every datagram the client sends. `remaining` and
 * `filelength` are the two progress counters of `uploadFile`.
 */
module CbdApi {
  import opened Wrappers
  import opened Text
  import opened Packet
  import opened Replies

  /** A datagram sent to the device. */
  datatype Datagram =
    | Command(text: string)      // an M-code or G-code line
    | Data(bytes: seq<bv8>)      // an upload data packet
    | JogTo(z: real)             // "G0 Z" followed by the float

  // ================================================================ upload specification

  /** The loop variables of `uploadFile`: `offs`, `self.remaining`, `retr` and `send`. */
  datatype Cursor = Cursor(offs: int, remaining: int, retr: nat, send: bool)

  function Min(a: int, b: int): int {
    if a <= b then a else b
  }

  /** `f.seek(offs); f.read(readamt)` with `readamt` always 1280. */
  function Chunk(file: seq<bv8>, offs: nat): seq<bv8> {
    if offs >= |file| then [] else file[offs..Min(offs + ChunkSize, |file|)]
  }

  /**
   * The offset of a `resend N,offset error:K` reply split into tokens: the
   * third token's text after its first colon, read by `int()`. `N` is read
   * into `amt_str` and never used.
   */
  function ResendOffset(tokens: seq<string>): Result<int> {
    if |tokens| < 3 then Raised(IndexError)
    else
      var pieces := SplitOn(tokens[2], ':');
      if |pieces| < 2 then Raised(IndexError)
      else match ParseInt(pieces[1])
        case None => Raised(ValueError)
        case Some(k) => Ok(k)
  }

  /** What the loop makes of one reply: its first token, and for "resend" the offset. */
  datatype Reply =
    | Blank                          // `s.split()[0]` raises IndexError
    | Ack                            // first token "ok"
    | Resend(offset: Result<int>)    // first token "resend"; the offset or what reading it raised
    | Other                          // any other first token

  /**
   * The loop tests `s.split()[0]` on the raw bytes (CBD_Api.py:252, 259) but
   * reads the resend offset from the decoded text's `split()` (CBD_Api.py:262).
   */
  function Classify(reply: string): Reply {
    match ByteFirstToken(reply)
    case Raised(_) => Blank
    case Ok(t) =>
      if t == "ok" then Ack
      else if t == "resend" then Resend(ResendOffset(SplitWs(reply)))
      else Other
  }

  /**
   * How one reply moves the loop (CBD_Api.py:251-271), `sentLen` being the
   * length of the chunk sent in this iteration.
   */
  function Step(fileLength: int, c: Cursor, sentLen: nat, reply: Reply): Result<Cursor> {
    match reply
    case Blank => Raised(IndexError)
    case Ack =>
      Ok(if c.send then c.(offs := c.offs + sentLen, remaining := c.remaining - sentLen)
         else c.(send := true))
    case Resend(Raised(f)) => Raised(f)
    case Resend(Ok(k)) => Ok(Cursor(k, fileLength - k, c.retr + 1, true))
    case Other => Ok(c.(send := false))
  }

  /** The datagram sent at the top of an iteration (CBD_Api.py:241-250), or what it raises. */
  function SendPhase(file: seq<bv8>, c: Cursor): Result<seq<Datagram>> {
    if !c.send then Ok([])
    else if c.offs < 0 then Raised(OSError)
    else if c.offs >= OffsetLimit then Raised(OverflowError)
    else Ok([Data(Frame(Chunk(file, c.offs), c.offs))])
  }

  /** Where the loop stopped: the cursor, every datagram sent, the unread replies, and what it raised. */
  datatype LoopEnd = LoopEnd(c: Cursor, sent: seq<Datagram>, rest: seq<string>, fault: Option<Fault>)

  /**
   * The `while self.remaining > 0` loop run from cursor `c` on the replies in
   * `inbox`, `sent` being the datagrams already sent before it.
   */
  function Transfer(file: seq<bv8>, c: Cursor, inbox: seq<string>, sent: seq<Datagram>): LoopEnd
    decreases |inbox|
  {
    if c.remaining <= 0 then LoopEnd(c, sent, inbox, None)
    else match SendPhase(file, c)
      case Raised(f) => LoopEnd(c, sent, inbox, Some(f))
      case Ok(out) =>
        if inbox == [] then LoopEnd(c, sent + out, [], Some(Timeout))
        else
          var n := if c.send && c.offs >= 0 then |Chunk(file, c.offs)| else 0;
          match Step(|file|, c, n, Classify(inbox[0]))
          case Raised(f) => LoopEnd(c, sent + out, inbox[1..], Some(f))
          case Ok(c') => Transfer(file, c', inbox[1..], sent + out)
  }

  /** One pass of the loop body, for a cursor that still has bytes to send. */
  lemma TransferStep(file: seq<bv8>, c: Cursor, inbox: seq<string>, sent: seq<Datagram>, out: seq<Datagram>, n: nat, c': Cursor)
    requires c.remaining > 0 && SendPhase(file, c) == Ok(out) && inbox != []
    requires n == if c.send && c.offs >= 0 then |Chunk(file, c.offs)| else 0
    requires Step(|file|, c, n, Classify(inbox[0])) == Ok(c')
    ensures Transfer(file, c, inbox, sent) == Transfer(file, c', inbox[1..], sent + out)
  {
  }

  /** The result of a whole `uploadFile` call, every datagram sent so far, the unread replies and the two counters. */
  datatype Upload = Upload(result: Result<string>, sent: seq<Datagram>, rest: seq<string>,
                           remaining: int, filelength: int)

  const RetryAdvice: string := " Transfer Error(s): Consider increasing send delay.\n"

  /** The text returned when the size-verify reply is not "ok". */
  function VerifyError(retr: nat, reply: string): string {
    (if retr > 0 then Decimal(retr) + RetryAdvice else "") + "Size Verify Error: " + reply
  }

  /** The device refuses to open the file when its reply mentions "Error" or "Failed". */
  predicate Refused(m28: string) {
    Contains(m28, "Error") || Contains(m28, "Failed")
  }

  /**
   * The four stages of `uploadFile` (CBD_Api.py:224-291) on the replies in
   * `inbox`. `file` is the content of the local file, `None` when there is no
   * such file: `os.stat` then raises once M28 has been accepted.
   */
  function UploadRun(card: string, file: Option<seq<bv8>>, inbox: seq<string>, sent: seq<Datagram>,
                     remaining0: int, filelength0: int): Upload {
    var begin := sent + [Command("M28 " + card)];
    if inbox == [] then Upload(Raised(Timeout), begin, [], remaining0, filelength0)
    else if Refused(RStrip(inbox[0])) then
      if |inbox| < 2 then Upload(Raised(Timeout), begin, [], remaining0, filelength0)
      else Upload(Ok("M28 Error: " + RStrip(inbox[0])), begin, inbox[2..], remaining0, filelength0)
    else if file.None? then Upload(Raised(FileNotFound), begin, inbox[1..], remaining0, filelength0)
    else Transmit(file.value, inbox[1..], begin)
  }

  /**
   * The data loop and the closing stages, after the device accepted the file.
   * The size check reports `self.filelength`, which the code has just set to 0.
   */
  function Transmit(file: seq<bv8>, inbox: seq<string>, sent: seq<Datagram>): Upload {
    TransmitReporting(file, inbox, sent, 0)
  }

  /** The same stages with the size check reporting the file length, as the comment at CBD_Api.py:207-212 intends. */
  function TransmitIntended(file: seq<bv8>, inbox: seq<string>, sent: seq<Datagram>): Upload {
    TransmitReporting(file, inbox, sent, |file|)
  }

  /** The data loop, then the closing stages with `size` in the size check. */
  function TransmitReporting(file: seq<bv8>, inbox: seq<string>, sent: seq<Datagram>, size: nat): Upload {
    var e := Transfer(file, Cursor(0, |file|, 0, true), inbox, sent);
    if e.fault.Some? then Upload(Raised(e.fault.value), e.sent, e.rest, e.c.remaining, |file|)
    else
      var (result, closing, rest) := Closing(e.c.retr, size, e.rest);
      Upload(result, e.sent + closing, rest, 0, 0)
  }

  /** The size-verify command `M4012 I1 T<filelength>`. */
  function SizeCheck(filelength: nat): string {
    "M4012 I1 T" + Decimal(filelength)
  }

  /**
   * After the data loop: `M4012 I1 T<size>`, a size-verify reply whose first
   * token must be "ok", then `M29` and its reply; each answer is followed by
   * one more datagram that is read and dropped.
   */
  function Closing(retr: nat, size: nat, inbox: seq<string>): (Result<string>, seq<Datagram>, seq<string>) {
    var verify := [Command(SizeCheck(size))];
    if inbox == [] then (Raised(Timeout), verify, [])
    else
      var v := RStrip(inbox[0]);
      match FirstToken(v)
      case Raised(f) => (Raised(f), verify, inbox[1..])
      case Ok(t) =>
        if t != "ok" then
          if |inbox| < 2 then (Raised(Timeout), verify, [])
          else (Ok(VerifyError(retr, v)), verify, inbox[2..])
        else
          var finish := verify + [Command("M29")];
          if |inbox| < 3 then (Raised(Timeout), finish, [])
          else (Ok(RStrip(inbox[1])), finish, inbox[3..])
  }

  // ================================================================ listing specification

  const BeginList: string := "Begin file list"
  const EndList: string := "End file list"

  /**
   * A listing line that `getCardFiles` keeps. Its size test compares the size
   * text with the integer 0 and therefore never fails, so it is absent here.
   */
  predicate Kept(line: string) {
    HasModelExt(line) && line != BeginList
  }

  /** The entries one listing line contributes: its split, or nothing. */
  function LineEntries(line: string): seq<Entry> {
    if Kept(line) then [SplitAtExt(line)] else []
  }

  /** A result with `front` put before its entries; a fault is kept as it is. */
  function Prepend(front: seq<Entry>, r: Result<seq<Entry>>): Result<seq<Entry>> {
    if r.Ok? then Ok(front + r.value) else r
  }

  lemma PrependPrepend(a: seq<Entry>, b: seq<Entry>, r: Result<seq<Entry>>)
    ensures Prepend(a, Prepend(b, r)) == Prepend(a + b, r)
  {
    if r.Ok? {
      assert a + (b + r.value) == a + b + r.value;
    }
  }

  lemma PrependNothing(r: Result<seq<Entry>>)
    ensures Prepend([], r) == r
  {
    if r.Ok? {
      assert [] + r.value == r.value;
    }
  }

  /** The listing read from `inbox` (CBD_Api.py:100-110) and the replies left unread. */
  function ListingRun(inbox: seq<string>): (Result<seq<Entry>>, seq<string>)
    decreases |inbox|
  {
    if inbox == [] then (Raised(Timeout), [])
    else
      var line := RStrip(inbox[0]);
      if line == EndList then
        if |inbox| < 2 then (Raised(Timeout), []) else (Ok([]), inbox[2..])
      else
        var tail := ListingRun(inbox[1..]);
        (Prepend(LineEntries(line), tail.0), tail.1)
  }

  lemma HeadTail(s: seq<string>)
    requires s != []
    ensures s == [s[0]] + s[1..]
  {
  }

  lemma ListingRunCons(line: string, rest: seq<string>)
    requires RStrip(line) != EndList
    ensures ListingRun([line] + rest)
      == (Prepend(LineEntries(RStrip(line)), ListingRun(rest).0), ListingRun(rest).1)
  {
    assert ([line] + rest)[0] == line && ([line] + rest)[1..] == rest;
  }

  // ================================================================ status specification

  /**
   * What `printingStatus` returns for the replies waiting on the socket
   * (CBD_Api.py:178-188): no reply gives "Not Printing", a reply without its
   * confirmation raises, otherwise the reply is classified.
   */
  function StatusRun(inbox: seq<string>): Result<string> {
    if inbox == [] then Ok(NotPrinting)
    else if |inbox| == 1 then Raised(Timeout)
    else StatusText(RStrip(inbox[0]))
  }

  // ================================================================ the client

  class Printer {
    var inbox: seq<string>
    var outbox: seq<Datagram>
    var remaining: int
    var filelength: int

    constructor (replies: seq<string>)
      ensures inbox == replies && outbox == [] && remaining == 0 && filelength == 0
    {
      inbox := replies;
      outbox := [];
      remaining := 0;
      filelength := 0;
    }

    /** `sock.sendto`. */
    method Send(d: Datagram)
      modifies this`outbox
      ensures outbox == old(outbox) + [d]
    {
      outbox := outbox + [d];
    }

    /** `sock.recv`: the next datagram, or the timeout. */
    method Recv() returns (r: Result<string>)
      modifies this`inbox
      ensures old(inbox) == [] ==> r == Raised(Timeout) && inbox == []
      ensures old(inbox) != [] ==> r == Ok(old(inbox)[0]) && inbox == old(inbox)[1..]
    {
      if inbox == [] {
        r := Raised(Timeout);
      } else {
        r := Ok(inbox[0]);
        inbox := inbox[1..];
      }
    }

    /** `uploadFile(fileNameLocal, fileNameCard)` with the local file's bytes given as `file`. */
    method UploadFile(local: string, card: string, file: Option<seq<bv8>>) returns (r: Result<string>)
      modifies this
      ensures var u := UploadRun(if card == "" then local else card, file, old(inbox), old(outbox), old(remaining), old(filelength));
        && r == u.result && outbox == u.sent && inbox == u.rest
        && remaining == u.remaining && filelength == u.filelength
    {
      var name := if card == "" then local else card;
      ghost var replies := inbox;
      ghost var begin := outbox + [Command("M28 " + name)];
      Send(Command("M28 " + name));
      var m28r := Recv();
      if m28r.Raised? {
        return Raised(m28r.fault);
      }
      var m28 := RStrip(m28r.value);
      assert replies != [] && m28 == RStrip(replies[0]) && inbox == replies[1..];
      if Contains(m28, "Error") || Contains(m28, "Failed") {
        var confirmation := Recv();
        if confirmation.Raised? {
          return Raised(confirmation.fault);
        }
        return Ok("M28 Error: " + m28);
      }
      if file.None? {
        return Raised(FileNotFound);
      }
      assert UploadRun(name, file, replies, old(outbox), old(remaining), old(filelength)) == Transmit(file.value, inbox, begin);
      r := TransmitFile(file.value);
    }

    /** Everything after the device accepted the file (CBD_Api.py:232-291). */
    method TransmitFile(file: seq<bv8>) returns (r: Result<string>)
      modifies this
      ensures var u := Transmit(file, old(inbox), old(outbox));
        && r == u.result && outbox == u.sent && inbox == u.rest
        && remaining == u.remaining && filelength == u.filelength
    {
      filelength := |file|;
      remaining := filelength;
      var retr, fault := SendChunks(file);
      if fault.Some? {
        return Raised(fault.value);
      }
      filelength := 0;
      remaining := 0;
      r := VerifyAndClose(retr);
    }

    /** The data loop of `uploadFile` (CBD_Api.py:234-274): returns `retr` and what it raised. */
    method SendChunks(file: seq<bv8>) returns (retr: nat, fault: Option<Fault>)
      requires filelength == |file| && remaining == |file|
      modifies this`inbox, this`outbox, this`remaining
      ensures var e := Transfer(file, Cursor(0, |file|, 0, true), old(inbox), old(outbox));
        && retr == e.c.retr && fault == e.fault && remaining == e.c.remaining
        && inbox == e.rest && outbox == e.sent
    {
      var offs := 0;
      var send := true;
      retr := 0;
      ghost var total := Transfer(file, Cursor(0, |file|, 0, true), inbox, outbox);
      while remaining > 0
        invariant Transfer(file, Cursor(offs, remaining, retr, send), inbox, outbox) == total
        decreases |inbox|
      {
        ghost var before := Cursor(offs, remaining, retr, send);
        ghost var inboxBefore := inbox;
        ghost var outboxBefore := outbox;
        var dd: seq<bv8> := [];
        ghost var out: seq<Datagram> := [];
        if send {
          if offs < 0 {
            return retr, Some(OSError);
          }
          dd := Chunk(file, offs);
          var packet := BuildPacket(dd, offs);
          if packet.Raised? {
            return retr, Some(packet.fault);
          }
          Send(Data(packet.value));
          out := [Data(packet.value)];
        }
        assert SendPhase(file, before) == Ok(out);
        assert outbox == outboxBefore + out;
        var s := Recv();
        if s.Raised? {
          return retr, Some(s.fault);
        }
        var next := Advance(|file|, Cursor(offs, remaining, retr, send), |dd|, s.value);
        if next.Raised? {
          return retr, Some(next.fault);
        }
        offs, remaining, retr, send := next.value.offs, next.value.remaining, next.value.retr, next.value.send;
        assert Cursor(offs, remaining, retr, send) == next.value;
        TransferStep(file, before, inboxBefore, outboxBefore, out, |dd|, Cursor(offs, remaining, retr, send));
      }
      fault := None;
    }

    /** The reply handling of the loop body (CBD_Api.py:251-271), `sentLen` being the chunk length just sent. */
    static method Advance(fileLength: int, c: Cursor, sentLen: nat, reply: string) returns (r: Result<Cursor>)
      ensures r == Step(fileLength, c, sentLen, Classify(reply))
    {
      var first := ByteFirstToken(reply);
      if first.Raised? {
        return Raised(first.fault);
      }
      var next := c;
      if first.value == "ok" {
        if c.send {
          next := c.(offs := c.offs + sentLen, remaining := c.remaining - sentLen);
        } else {
          next := c.(send := true);
        }
      } else if first.value == "resend" {
        var k := ResendOffset(SplitWs(reply));
        if k.Raised? {
          return Raised(k.fault);
        }
        next := Cursor(k.value, fileLength - k.value, c.retr + 1, true);
      } else {
        next := c.(send := false);
      }
      return Ok(next);
    }

    /** The size check and the close of `uploadFile` (CBD_Api.py:276-291), after the counters are zeroed. */
    method VerifyAndClose(retr: nat) returns (r: Result<string>)
      requires filelength >= 0
      modifies this`inbox, this`outbox
      ensures var u := Closing(retr, filelength, old(inbox));
        && r == u.0 && outbox == old(outbox) + u.1 && inbox == u.2
    {
      ghost var replies := inbox;
      Send(Command(SizeCheck(filelength)));
      var vr := Recv();
      if vr.Raised? {
        assert Closing(retr, filelength, replies).0 == Raised(Timeout);
        return Raised(vr.fault);
      }
      var m4012 := RStrip(vr.value);
      assert replies != [] && m4012 == RStrip(replies[0]) && inbox == replies[1..];
      var first := FirstToken(m4012);
      if first.Raised? {
        assert Closing(retr, filelength, replies).0 == Raised(IndexError);
        return Raised(first.fault);
      }
      if first.value != "ok" {
        var retstring := "";
        if retr > 0 {
          retstring := Decimal(retr) + RetryAdvice;
        }
        retstring := retstring + "Size Verify Error: " + m4012;
        var confirmation := Recv();
        if confirmation.Raised? {
          assert Closing(retr, filelength, replies).0 == Raised(Timeout);
          return Raised(confirmation.fault);
        }
        assert Closing(retr, filelength, replies).0 == Ok(VerifyError(retr, m4012));
        return Ok(retstring);
      }
      Send(Command("M29"));
      var fin := Recv();
      if fin.Raised? {
        assert Closing(retr, filelength, replies).0 == Raised(Timeout);
        return Raised(fin.fault);
      }
      var retstring := RStrip(fin.value);
      var confirmation := Recv();
      if confirmation.Raised? {
        assert Closing(retr, filelength, replies).0 == Raised(Timeout);
        return Raised(confirmation.fault);
      }
      assert Closing(retr, filelength, replies).0 == Ok(RStrip(replies[1]));
      return Ok(retstring);
    }

    /** `getCardFiles`: `M20`, then the listing lines up to "End file list", then one more datagram. */
    method GetCardFiles() returns (r: Result<seq<Entry>>)
      modifies this`inbox, this`outbox
      ensures outbox == old(outbox) + [Command("M20")]
      ensures (r, inbox) == ListingRun(old(inbox))
    {
      ghost var total := ListingRun(inbox);
      Send(Command("M20"));
      var output: seq<Entry> := [];
      var line := Recv();
      if line.Raised? {
        return Raised(line.fault);
      }
      var request := RStrip(line.value);
      ghost var current := line.value;
      assert old(inbox) == [current] + inbox;
      PrependNothing(total.0);
      while request != EndList
        invariant outbox == old(outbox) + [Command("M20")]
        invariant request == RStrip(current)
        invariant ListingRun([current] + inbox).1 == total.1
        invariant Prepend(output, ListingRun([current] + inbox).0) == total.0
        decreases |inbox|
      {
        ghost var rest := inbox;
        ghost var front := output;
        ListingRunCons(current, rest);
        if Kept(request) {
          output := output + [SplitAtExt(request)];
        }
        assert output == front + LineEntries(request);
        PrependPrepend(front, LineEntries(request), ListingRun(rest).0);
        line := Recv();
        if line.Raised? {
          return Raised(line.fault);
        }
        HeadTail(rest);
        request := RStrip(line.value);
        current := line.value;
      }
      assert ([current] + inbox)[0] == current;
      ghost var rest := inbox;
      var confirmation := Recv();
      if confirmation.Raised? {
        return Raised(confirmation.fault);
      }
      assert ([current] + rest)[2..] == inbox;
      assert output + [] == output;
      return Ok(output);
    }

    /** `__getUniversal__(n)`: `M99999`, then field `n` of the raw reply. */
    method GetUniversal(n: nat) returns (r: Result<string>)
      modifies this`inbox, this`outbox
      ensures outbox == old(outbox) + [Command("M99999")]
      ensures old(inbox) == [] ==> r == Raised(Timeout) && inbox == []
      ensures old(inbox) != [] ==> r == IdentifyField(old(inbox)[0], n) && inbox == old(inbox)[1..]
    {
      Send(Command("M99999"));
      var reply := Recv();
      if reply.Raised? {
        return Raised(reply.fault);
      }
      r := IdentifyField(reply.value, n);
    }

    /** `getVer`, which the sync agent uses as its reachability probe. */
    method GetVer() returns (r: Result<string>)
      modifies this`inbox, this`outbox
      ensures outbox == old(outbox) + [Command("M99999")]
      ensures old(inbox) == [] ==> r == Raised(Timeout) && inbox == []
      ensures old(inbox) != [] ==> r == IdentifyField(old(inbox)[0], 3) && inbox == old(inbox)[1..]
    {
      r := GetUniversal(3);
    }

    /** `getID`. */
    method GetId() returns (r: Result<string>)
      modifies this`inbox, this`outbox
      ensures outbox == old(outbox) + [Command("M99999")]
      ensures old(inbox) == [] ==> r == Raised(Timeout) && inbox == []
      ensures old(inbox) != [] ==> r == IdentifyField(old(inbox)[0], 4) && inbox == old(inbox)[1..]
    {
      r := GetUniversal(4);
    }

    /** `getName`: field 5 cut at its first backslash. */
    method GetName() returns (r: Result<string>)
      modifies this`inbox, this`outbox
      ensures outbox == old(outbox) + [Command("M99999")]
      ensures old(inbox) == [] ==> r == Raised(Timeout) && inbox == []
      ensures old(inbox) != [] ==> r == NameField(old(inbox)[0]) && inbox == old(inbox)[1..]
    {
      var field := GetUniversal(5);
      if field.Raised? {
        return field;
      }
      r := Ok(SplitOn(field.value, '\\')[0]);
    }

    /**
     * `printingStatus`: `M27`; a missing reply gives "Not Printing" (the
     * only call inside the `try`); otherwise one more datagram is read and
     * dropped, then the reply is classified.
     */
    method PrintingStatus() returns (r: Result<string>)
      modifies this`inbox, this`outbox
      ensures outbox == old(outbox) + [Command("M27")]
      ensures r == StatusRun(old(inbox))
      ensures inbox == if |old(inbox)| < 2 then [] else old(inbox)[2..]
    {
      Send(Command("M27"));
      var reply := Recv();
      if reply.Raised? {
        return Ok(NotPrinting);
      }
      var s := RStrip(reply.value);
      var confirmation := Recv();
      if confirmation.Raised? {
        return Raised(confirmation.fault);
      }
      r := StatusText(s);
    }

    /** `printingPercent`: `M27`, then the "done/total" token of the reply split at '/'. */
    method PrintingPercent() returns (r: Result<seq<string>>)
      modifies this`inbox, this`outbox
      ensures outbox == old(outbox) + [Command("M27")]
      ensures old(inbox) == [] ==> r == Raised(Timeout) && inbox == []
      ensures old(inbox) != [] ==> r == Percent(RStrip(old(inbox)[0])) && inbox == old(inbox)[1..]
    {
      Send(Command("M27"));
      var reply := Recv();
      if reply.Raised? {
        return Raised(reply.fault);
      }
      r := Percent(RStrip(reply.value));
    }

    /** `jogSoft(distance)`: move only below the 200 mm soft limit. */
    method JogSoft(distance: real) returns (r: Result<string>)
      modifies this`inbox, this`outbox
      ensures distance < 200.0 ==> outbox == old(outbox) + [JogTo(distance)]
      ensures distance < 200.0 && old(inbox) == [] ==> r == Raised(Timeout) && inbox == []
      ensures distance < 200.0 && old(inbox) != [] ==> r == Ok("Complete") && inbox == old(inbox)[1..]
      ensures distance >= 200.0 ==>
        r == Ok("Distance too great or other error") && outbox == old(outbox) && inbox == old(inbox)
    {
      if JogAllowed(distance) {
        Send(JogTo(distance));
        var reply := Recv();
        if reply.Raised? {
          return Raised(reply.fault);
        }
        return Ok("Complete");
      }
      return Ok("Distance too great or other error");
    }
  }
}
