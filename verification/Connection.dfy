/** One connection's receive side: the growing, compacting byte buffer, the line
    reader and the framer. Every method is specified on `Stream()`, the bytes
    buffered plus the bytes the socket has yet to deliver, so nothing it promises
    depends on how the socket splits its reads. */
module Connections {
  import opened Text
  import opened Protocol
  import opened Commands
  import opened Exchange
  import opened Framing

  const RECV_BUF_SIZE := 65536

  /** What one try at reaching the server meets: the reads it will serve, how it
      ends, and how many commands it takes. */
  datatype Attempt = Attempt(net: seq<seq<byte>>, fate: Fate, budget: nat)

  predicate IsAttempt(a: Attempt) {
    forall i :: 0 <= i < |a.net| ==> a.net[i] != []
  }

  predicate NoCrlfBefore(s: seq<byte>, n: int) {
    forall i :: 0 <= i < n ==> !IsCrlf(s, i)
  }

  lemma {:induction false} NoCrlfExtends(s: seq<byte>, t: seq<byte>)
    requires s <= t && NoCrlfBefore(s, |s|)
    ensures NoCrlfBefore(t, |s| - 1)
  {
    forall i | 0 <= i < |s| - 1 ensures !IsCrlf(t, i) {
      assert !IsCrlf(s, i);
    }
  }

  /** Searching on from where the last search left off finds the first CRLF of
      the pending bytes, and of the whole stream when the pending bytes hold one. */
  lemma {:induction false} FindAgrees(b: seq<byte>, start: nat, end: nat, from: nat, later: seq<byte>)
    requires start + from <= end <= |b|
    requires NoCrlfBefore(b[start..end], from)
    ensures
      var pending := b[start..end];
      var s := pending + later;
      var p := FindCrlf(s, 0, |s|);
      match FindCrlf(b, start + from, end)
      case Some(i) => i >= start && FindCrlf(pending, 0, |pending|) == Some(i - start) == p
      case None => NoCrlfBefore(pending, |pending|) && FindCrlf(pending, 0, |pending|).None? && (p.Some? ==> p.value + 1 >= |pending|)
  {
    var pending := b[start..end];
    var s := pending + later;
    assert forall i :: 0 <= i < |pending| - 1 ==> (IsCrlf(pending, i) <==> IsCrlf(b, start + i)) && (IsCrlf(pending, i) <==> IsCrlf(s, i));
    var found := FindCrlf(b, start + from, end);
    if found.None? {
      forall i | from <= i < |pending| ensures !IsCrlf(pending, i) {
        assert !IsCrlf(b, start + i) || start + i + 2 > end;
      }
      var p := FindCrlf(s, 0, |s|);
      assert p.Some? ==> IsCrlf(s, p.value);
    } else {
      var i := found.value - start;
      assert IsCrlf(pending, i) && IsCrlf(s, i);
      forall j | 0 <= j < i ensures !IsCrlf(s, j) && !IsCrlf(pending, j) {
        if j >= from {
          assert !IsCrlf(b, start + j);
        }
      }
    }
  }

  /** Scanning the pending bytes from where the last scan left off agrees with
      reading a line from the whole stream. */
  lemma {:induction false} ScanAgrees(b: seq<byte>, start: nat, end: nat, from: nat, later: seq<byte>, fate: Fate)
    requires start + from <= end <= |b|
    requires NoCrlfBefore(b[start..end], from)
    ensures
      var pending := b[start..end];
      var step := NextLine(pending + later, fate);
      match ScanLine(b, start, end, from)
      case Found(line, next) =>
        && next <= end && FindCrlf(pending, 0, |pending|).Some?
        && (step == Line(line, b[next..end] + later) || step == Overlong(line, b[next..end] + later))
      case ScanFailed(e) =>
        && (step == LineFailed(e) || step.Overlong?)
        && if FindCrlf(pending, 0, |pending|).Some? then e == NotAscii else e == LineTooLong && |pending| >= MAX_LINE_LEN
      case NeedMore =>
        && |pending| < MAX_LINE_LEN && NoCrlfBefore(pending, |pending|)
        && (later == [] ==> step == LineFailed(Lost(fate)))
  {
    var pending := b[start..end];
    var s := pending + later;
    FindAgrees(b, start, end, from, later);
    hide FindCrlf, IsCrlf;
    match FindCrlf(b, start + from, end) {
      case None =>
        assert later == [] ==> s == pending;
      case Some(at) =>
        var i := at - start;
        assert s[..i] == b[start..at];
        assert s[i + 2..] == pending[i + 2..] + later;
    }
  }

  class Connection {
    const ms: Mseed
    var version: Version
    var buf: array<byte>
    var start: nat
    var end: nat
    var connected: bool
    var streaming: bool
    var batchActive: bool
    /** The reads the socket will serve, each non-empty, and what follows them. */
    var chunks: seq<seq<byte>>
    var fate: Fate
    /** The command lines handed to sockets so far, and how many more this one accepts. */
    var sent: seq<seq<byte>>
    var sendBudget: nat
    /** Bytes copied so far by growth and compaction. */
    ghost var moved: nat

    ghost predicate Valid()
      reads this
    {
      && start <= end <= buf.Length && RECV_BUF_SIZE <= buf.Length
      && (forall i :: 0 <= i < |chunks| ==> chunks[i] != [])
      && (!connected ==> start == end && chunks == [] && !streaming && !batchActive)
    }

    /** The queue the buffer implements: bytes received and not yet consumed. */
    ghost function Pending(): seq<byte>
      reads this, buf
      requires Valid()
    {
      buf[start..end]
    }

    /** Every byte the connection still has to offer. */
    ghost function Stream(): seq<byte>
      reads this, buf
      requires Valid()
    {
      Pending() + Flatten(chunks)
    }

    /** A buffer below twice the longest v4 frame stays below it. */
    twostate predicate KeepsBound()
      reads this
    {
      old(buf.Length) < 2 * MAX_FRAME ==> buf.Length < 2 * MAX_FRAME
    }

    twostate predicate StillOpen()
      reads this
    {
      connected == old(connected) && streaming == old(streaming) && batchActive == old(batchActive)
    }

    constructor (ms: Mseed)
      ensures Valid() && !connected && Stream() == [] && sent == []
      ensures buf.Length == RECV_BUF_SIZE && fresh(buf) && this.ms == ms
    {
      this.ms := ms;
      version, fate := V3, Eof;
      buf := new byte[RECV_BUF_SIZE];
      start, end, connected, streaming, batchActive := 0, 0, false, false, false;
      chunks, sent, sendBudget, moved := [], [], 0, 0;
    }

    // ------------------------------------------------------- receive buffer

    method ResetRecvBuf()
      requires RECV_BUF_SIZE <= buf.Length
      modifies this`buf, this`start, this`end
      ensures start == end == 0 && buf.Length == RECV_BUF_SIZE
      ensures buf == old(buf) || fresh(buf)
    {
      if buf.Length > RECV_BUF_SIZE {
        buf := new byte[RECV_BUF_SIZE];
      }
      start, end := 0, 0;
    }

    /** Makes room for `n` buffered bytes in all without changing the queue.
        When bytes are still missing, what is missing fits behind `end`. */
    method PrepareRoom(n: nat) returns (done: bool)
      requires Valid() && connected
      modifies this`buf, this`start, this`end, this`moved, buf
      ensures Valid() && Pending() == old(Pending())
      ensures done <==> n <= |Pending()|
      ensures !done ==> end < start + n <= buf.Length
      ensures buf == old(buf) || fresh(buf)
      ensures buf.Length <= old(buf.Length) || buf.Length < 2 * n
      ensures moved <= old(moved) + if done then 0 else |Pending()|
    {
      var available := end - start;
      if available >= n {
        return true;
      }
      if available == 0 && n <= RECV_BUF_SIZE {
        ResetRecvBuf();
      }
      if n > buf.Length {
        var newSize := if n > buf.Length * 2 then n else buf.Length * 2;
        var newBuf := new byte[newSize];
        forall i | 0 <= i < available {
          newBuf[i] := buf[start + i];
        }
        buf, start, end := newBuf, 0, available;
        moved := moved + available;
      } else if buf.Length - start < n {
        forall i | 0 <= i < available {
          buf[i] := buf[start + i];
        }
        start, end := 0, available;
        moved := moved + available;
      }
      return false;
    }

    method Close()
      requires Valid()
      modifies this`buf, this`start, this`end, this`connected, this`streaming, this`batchActive, this`chunks
      ensures Valid() && !connected && Stream() == []
      ensures buf.Length == RECV_BUF_SIZE && (buf == old(buf) || fresh(buf))
    {
      connected, streaming, batchActive, chunks := false, false, false, [];
      ResetRecvBuf();
    }

    // ------------------------------------------------------------ transport

    method CopyIn(chunk: seq<byte>, n: nat)
      requires n <= |chunk| && end + n <= buf.Length
      modifies buf
      ensures buf[..end] == old(buf[..end]) && buf[end..end + n] == chunk[..n]
    {
      forall i | 0 <= i < n {
        buf[end + i] := chunk[i];
      }
    }

    /** One socket read into the room behind `end`. The room must be positive:
        a read of nothing is how the end of the stream is told. */
    method RecvInto() returns (r: Result<nat, Error>)
      requires Valid() && connected && end < buf.Length
      modifies this`chunks, buf
      ensures Valid() && buf[..end] == old(buf[..end])
      ensures old(chunks) == [] ==> chunks == [] && r == if fate.Eof? then Ok(0) else Err(Lost(fate))
      ensures old(chunks) != [] ==>
        r.Ok? && 0 < r.value <= buf.Length - end
        && buf[end..end + r.value] + Flatten(chunks) == old(Flatten(chunks))
    {
      if chunks == [] {
        return if fate.Eof? then Ok(0) else Err(Lost(fate));
      }
      var chunk := chunks[0];
      var n := if |chunk| <= buf.Length - end then |chunk| else buf.Length - end;
      CopyIn(chunk, n);
      if n < |chunk| {
        var later := chunks[1..];
        chunks := [chunk[n..]] + later;
        assert chunk == chunk[..n] + chunk[n..] && chunks[1..] == later;
        assert chunk[..n] + (chunk[n..] + Flatten(later)) == chunk + Flatten(later);
      } else {
        chunks := chunks[1..];
      }
      return Ok(n);
    }

    /** One pass of a fill loop: read into the free room and append what came. */
    method Fill() returns (r: Result<nat, Error>)
      requires Valid() && connected && end < buf.Length
      modifies this`chunks, this`end, buf
      ensures Valid() && Stream() == old(Stream())
      ensures old(chunks) == [] ==> chunks == [] && end == old(end) && r == if fate.Eof? then Ok(0) else Err(Lost(fate))
      ensures old(chunks) != [] ==> r.Ok? && r.value > 0 && |Flatten(chunks)| < |old(Flatten(chunks))|
      ensures old(Pending()) <= Pending()
    {
      r := RecvInto();
      ghost var before := old(Pending());
      assert buf[start..end] == before by {
        assert before == old(buf[..end])[start..] == buf[..end][start..];
      }
      if r.Ok? {
        assert buf[start..end + r.value] == before + buf[end..end + r.value];
        end := end + r.value;
      }
    }

    /** The fill loop of Ensure. Room for `n` bytes holds throughout, so every
        pass offers the socket a positive length and a read of zero bytes can
        only mean that the peer closed. */
    method FillTo(n: nat) returns (r: Result<(), Error>)
      requires Valid() && connected && start + n <= buf.Length
      modifies this`buf, this`start, this`end, this`connected, this`streaming, this`batchActive, this`chunks, buf
      ensures Valid() && (buf == old(buf) || fresh(buf)) && buf.Length <= old(buf.Length)
      ensures n <= |old(Stream())| ==>
        r == Ok(()) && StillOpen() && Stream() == old(Stream()) && n <= |Pending()|
      ensures n > |old(Stream())| ==>
        && r == Err(Lost(fate)) && Stream() == []
        && connected == (fate.Silent? && old(Stream()) == [])
        && (connected ==> StillOpen())
    {
      while end - start < n
        invariant Valid() && connected && StillOpen() && buf == old(buf) && start == old(start)
        invariant Stream() == old(Stream())
        decreases |Flatten(chunks)|
      {
        var chunk := Fill();
        assert chunks == [] ==> Stream() == Pending();
        if chunk.Err? {
          if chunk.error != TimedOut || end > start {
            Close();
          }
          return Err(chunk.error);
        }
        if chunk.value == 0 {
          Close();
          return Err(ConnectionClosed);
        }
      }
      return Ok(());
    }

    /** At least `n` bytes buffered, exactly when the stream holds that many. */
    method Ensure(n: nat) returns (r: Result<(), Error>)
      requires Valid()
      modifies this`buf, this`start, this`end, this`connected, this`streaming, this`batchActive, this`chunks, this`moved, buf
      ensures Valid() && (buf == old(buf) || fresh(buf))
      ensures !old(connected) ==> r == Err(NotConnected) && !connected
      ensures old(connected) && n <= |old(Stream())| ==>
        r == Ok(()) && StillOpen() && Stream() == old(Stream()) && n <= |Pending()|
      ensures old(connected) && n > |old(Stream())| ==>
        && r == Err(Lost(fate)) && Stream() == []
        && connected == (fate.Silent? && old(Stream()) == [])
        && (connected ==> StillOpen())
      ensures buf.Length <= old(buf.Length) || buf.Length < 2 * n
      ensures moved <= old(moved) + if |old(Pending())| < n then |old(Pending())| else 0
    {
      if !connected {
        return Err(NotConnected);
      }
      var ready := PrepareRoom(n);
      if ready {
        return Ok(());
      }
      r := FillTo(n);
    }

    /** The asyncio fill loop, abandoned by a poll timeout once `awaits` reads have
        completed, or while waiting on a silent server. */
    method FillAbortable(n: nat, awaits: nat) returns (r: Option<Result<(), Error>>)
      requires Valid() && connected && start + n <= buf.Length
      modifies this`buf, this`start, this`end, this`connected, this`streaming, this`batchActive, this`chunks, buf
      ensures Valid() && (buf == old(buf) || fresh(buf))
      ensures r.None? ==> old(Pending()) <= Pending() && |Pending()| < n && (awaits <= |Pending()| || (fate.Silent? && chunks == []))
      ensures r.None? || r.value.Ok? ==> StillOpen() && Stream() == old(Stream())
      ensures r.Some? && r.value.Ok? ==> n <= |Pending()|
      ensures r.Some? && r.value.Err? ==> !fate.Silent? && n > |old(Stream())| && r.value.error == Lost(fate) && !connected
    {
      var left := awaits;
      while end - start < n
        invariant Valid() && connected && StillOpen() && buf == old(buf) && start == old(start)
        invariant Stream() == old(Stream()) && old(Pending()) <= Pending()
        invariant awaits - left <= end - start
        decreases left
      {
        if left == 0 || (chunks == [] && fate.Silent?) {
          return None;
        }
        left := left - 1;
        var chunk := Fill();
        if chunk.Err? {
          Close();
          return Some(Err(chunk.error));
        }
        if chunk.value == 0 {
          Close();
          return Some(Err(ConnectionClosed));
        }
      }
      return Some(Ok(()));
    }

    /** The asyncio `_ensure`, which a poll timeout may abort. An aborted call is
        invisible: it neither loses, repeats nor reorders a byte. */
    method EnsureAbortable(n: nat, awaits: nat) returns (r: Option<Result<(), Error>>)
      requires Valid() && connected
      modifies this`buf, this`start, this`end, this`connected, this`streaming, this`batchActive, this`chunks, this`moved, buf
      ensures Valid() && (buf == old(buf) || fresh(buf))
      ensures r.None? ==> StillOpen() && Stream() == old(Stream()) && old(Pending()) <= Pending()
      ensures r.Some? && r.value.Ok? ==> StillOpen() && Stream() == old(Stream()) && n <= |Pending()|
      ensures r.Some? && r.value.Err? ==> !fate.Silent? && n > |old(Stream())| && r.value.error == Lost(fate) && !connected
      ensures n <= |old(Stream())| && awaits >= n ==> r.Some? && r.value.Ok?
    {
      var ready := PrepareRoom(n);
      if ready {
        return Some(Ok(()));
      }
      r := FillAbortable(n, awaits);
      assert chunks == [] ==> Stream() == Pending();
    }

    method Peek(n: nat) returns (r: Result<seq<byte>, Error>)
      requires Valid()
      modifies this`buf, this`start, this`end, this`connected, this`streaming, this`batchActive, this`chunks, this`moved, buf
      ensures Valid() && (buf == old(buf) || fresh(buf))
      ensures !old(connected) ==> r == Err(NotConnected) && !connected
      ensures old(connected) && n <= |old(Stream())| ==>
        r == Ok(old(Stream())[..n]) && StillOpen() && Stream() == old(Stream())
      ensures old(connected) && n > |old(Stream())| ==> r == Err(Lost(fate))
      ensures buf.Length <= old(buf.Length) || buf.Length < 2 * n
      ensures moved <= old(moved) + if |old(Pending())| < n then |old(Pending())| else 0
      ensures r.Ok? ==> n <= |Pending()|
    {
      var ok := Ensure(n);
      if ok.Err? {
        return Err(ok.error);
      }
      HeadOfStream(buf[..], start, end, n, Flatten(chunks));
      assert buf[..][start..end] == Pending() && buf[..][start..start + n] == buf[start..start + n];
      return Ok(buf[start..start + n]);
    }

    /** Gives up the first `n` buffered bytes. */
    method Skip(n: nat)
      requires Valid() && n <= end - start
      modifies this`start
      ensures Valid() && Stream() == old(Stream())[n..]
    {
      assert Stream()[n..] == buf[start + n..end] + Flatten(chunks);
      start := start + n;
    }

    method Take(n: nat) returns (r: Result<seq<byte>, Error>)
      requires Valid()
      modifies this`buf, this`start, this`end, this`connected, this`streaming, this`batchActive, this`chunks, this`moved, buf
      ensures Valid() && (buf == old(buf) || fresh(buf))
      ensures !old(connected) ==> r == Err(NotConnected) && !connected
      ensures old(connected) && n <= |old(Stream())| ==>
        r == Ok(old(Stream())[..n]) && StillOpen() && Stream() == old(Stream())[n..]
      ensures old(connected) && n > |old(Stream())| ==> r == Err(Lost(fate))
      ensures buf.Length <= old(buf.Length) || buf.Length < 2 * n
      ensures moved <= old(moved) + if |old(Pending())| < n then |old(Pending())| else 0
    {
      var ok := Ensure(n);
      if ok.Err? {
        return Err(ok.error);
      }
      var data := buf[start..start + n];
      HeadOfStream(buf[..], start, end, n, Flatten(chunks));
      assert buf[..][start..end] == Pending() && buf[..][start..start + n] == buf[start..start + n];
      Skip(n);
      return Ok(data);
    }

    /** Text up to the first CRLF of the stream. The search resumes one byte
        before the old end, so a CR and LF that arrive apart are still found. */
    method ReadLine() returns (r: Result<string, Error>)
      requires Valid()
      modifies this`buf, this`start, this`end, this`connected, this`streaming, this`batchActive, this`chunks, this`moved, buf
      ensures Valid() && (buf == old(buf) || fresh(buf))
      ensures !old(connected) ==> r == Err(NotConnected) && !connected
      ensures old(connected) ==>
        match NextLine(old(Stream()), fate)
        case Line(text, rest) => r == Ok(text) && StillOpen() && Stream() == rest
        case LineFailed(e) => r == Err(e) && (connected ==> e == TimedOut && StillOpen())
        case Overlong(text, rest) =>
          if r.Ok? then r == Ok(text) && StillOpen() && Stream() == rest
          else r.error in {LineTooLong, NotAscii} && !connected
      ensures old(connected) && FindCrlf(old(Pending()), 0, |old(Pending())|).Some? ==> r != Err(LineTooLong)
      ensures old(connected) && FindCrlf(old(Pending()), 0, |old(Pending())|).None? && |old(Pending())| >= MAX_LINE_LEN ==>
        r == Err(LineTooLong)
      ensures buf.Length <= old(buf.Length) || buf.Length < 2 * MAX_LINE_LEN
    {
      hide NextLine, ScanLine, FindCrlf, IsCrlf, Flatten;
      var searchFrom: nat := 0;
      while true
        invariant Valid() && (buf == old(buf) || fresh(buf))
        invariant StillOpen() && Stream() == old(Stream())
        invariant searchFrom <= end - start
        invariant Pending() != old(Pending()) ==>
          |old(Pending())| < MAX_LINE_LEN && NoCrlfBefore(old(Pending()), |old(Pending())|)
        invariant NoCrlfBefore(Pending(), searchFrom)
        invariant buf.Length <= old(buf.Length) || buf.Length < 2 * MAX_LINE_LEN
        decreases |Flatten(chunks)|
      {
        ScanAgrees(buf[..], start, end, searchFrom, Flatten(chunks), fate);
        assert buf[..][start..end] == Pending();
        var result := ScanLine(buf[..], start, end, searchFrom);
        match result {
          case ScanFailed(e) =>
            Close();
            return Err(e);
          case Found(line, next) =>
            start := next;
            return Ok(line);
          case NeedMore =>
            var available := end - start;
            ghost var was := Pending();
            searchFrom := if available > 1 then available - 1 else 0;
            var ok := Ensure(available + 1);
            if ok.Err? {
              return Err(ok.error);
            }
            assert was == Stream()[..available] == Pending()[..available];
            NoCrlfExtends(was, Pending());
        }
      }
    }

    // -------------------------------------------------------------- framing

    /** END or ERROR behind an E: a bare END is told on three bytes. */
    method ClassifyE() returns (r: Result<Event, Error>)
      requires Valid() && connected && |Pending()| >= 2
      requires Stream()[0] == 'E' as int
      modifies this`buf, this`start, this`end, this`connected, this`streaming, this`batchActive, this`chunks, this`moved, buf
      ensures Valid() && (buf == old(buf) || fresh(buf)) && buf.Length <= old(buf.Length)
      ensures r == Classify(old(Stream()), fate) && r != Ok(PacketEvent) && r != Ok(OtherEvent)
      ensures r.Ok? ==> StillOpen() && Stream() == old(Stream())
      ensures r == Ok(EndEvent) ==> moved <= old(moved) + (if |old(Pending())| < 3 then 2 else 0) && |Pending()| >= 3
    {
      var three := Peek(3);
      if three.Err? {
        return Err(three.error);
      }
      var event := ClassifyPrefix(three.value);
      if event == OtherEvent {
        var five := Peek(5);
        if five.Err? {
          return Err(five.error);
        }
        event := ClassifyPrefix(five.value);
        assert five.value[..3] == three.value && event != EndEvent;
      }
      return if event in {EndEvent, ErrorEvent} then Ok(event) else Err(UnexpectedData);
    }

    /** Peeks at two, three, then five bytes, so that a bare END with nothing
        behind it is recognised without waiting for more. */
    method ClassifyNext() returns (r: Result<Event, Error>)
      requires Valid() && connected
      modifies this`buf, this`start, this`end, this`connected, this`streaming, this`batchActive, this`chunks, this`moved, buf
      ensures Valid() && (buf == old(buf) || fresh(buf))
      ensures r == Classify(old(Stream()), fate)
      ensures r.Ok? ==> StillOpen() && Stream() == old(Stream())
      ensures buf.Length <= old(buf.Length)
      ensures r.Ok? && r.value !in {EndEvent, ErrorEvent} ==> moved <= old(moved) + 1
      ensures r == Ok(EndEvent) ==> moved <= old(moved) + 3 && |Pending()| >= 3
    {
      hide ClassifyPrefix, Flatten;
      var two := Ensure(2);
      if two.Err? {
        return Err(two.error);
      }
      var first, second := buf[start], buf[start + 1];
      assert first == Stream()[0] && second == Stream()[1];
      if IsPacketSignature(first, second) {
        return Ok(PacketEvent);
      }
      if first == 'E' as int {
        r := ClassifyE();
        return;
      }
      return Err(UnexpectedData);
    }

    /** One miniSEED record, its length found by peeking at growing prefixes. */
    method ReadMseedPayload() returns (r: Result<seq<byte>, Error>)
      requires Valid() && connected
      modifies this`buf, this`start, this`end, this`connected, this`streaming, this`batchActive, this`chunks, this`moved, buf
      ensures Valid() && (buf == old(buf) || fresh(buf))
      ensures
        var s := old(Stream());
        match DetectLength(ms, s, MIN_PAYLOAD_DETECT, fate)
        case Err(e) => r == Err(e)
        case Ok(n) =>
          if |s| < n then r == Err(Lost(fate)) else r == Ok(s[..n]) && StillOpen() && Stream() == s[n..]
    {
      var size: nat := MIN_PAYLOAD_DETECT;
      ghost var s := Stream();
      while true
        invariant Valid() && (buf == old(buf) || fresh(buf)) && connected && StillOpen() && Stream() == s
        invariant 0 < size <= MAX_RECORD_LEN
        invariant DetectLength(ms, s, MIN_PAYLOAD_DETECT, fate) == DetectLength(ms, s, size, fate)
        decreases MAX_RECORD_LEN - size
      {
        var prefix := Peek(size);
        if prefix.Err? {
          return Err(prefix.error);
        }
        match ms.detect(prefix.value) {
          case NotRecord => return Err(NotMiniSeed);
          case RecordLength(n) =>
            r := Take(n);
            return;
          case Undecided =>
            if size >= MAX_RECORD_LEN {
              return Err(LengthUndetermined);
            }
            size := NextSize(size);
        }
      }
    }

    method RecvFrameV3() returns (r: Result<Item, Error>)
      requires Valid() && connected
      modifies this`buf, this`start, this`end, this`connected, this`streaming, this`batchActive, this`chunks, this`moved, buf
      ensures Valid() && (buf == old(buf) || fresh(buf))
      ensures
        match NextPacketV3(ms, old(Stream()), fate)
        case Got(item, rest) => r == Ok(item) && StillOpen() && Stream() == rest
        case Failed(e) => r == Err(e)
        case Ambiguous(_) => false
    {
      var head := Take(HEADSIZE_V3);
      if head.Err? {
        return Err(head.error);
      }
      var h := ParseHeaderV3(head.value);
      if h.Err? {
        return Err(h.error);
      }
      var payload := ReadMseedPayload();
      if payload.Err? {
        return Err(payload.error);
      }
      var f := DecodeV3(ms, h.value, payload.value);
      return if f.Ok? then Ok(Packet(f.value)) else Err(f.error);
    }

    /** The fixed part of a v4 header, parsed where it lies in the buffer. */
    method PeekHeaderV4() returns (r: Result<HeaderV4, Error>)
      requires Valid() && connected
      modifies this`buf, this`start, this`end, this`connected, this`streaming, this`batchActive, this`chunks, this`moved, buf
      ensures Valid() && (buf == old(buf) || fresh(buf))
      ensures r == if |old(Stream())| < HEADSIZE_V4 then Err(Lost(fate)) else ParseHeaderV4(old(Stream())[..HEADSIZE_V4])
      ensures |old(Stream())| >= HEADSIZE_V4 ==> StillOpen() && Stream() == old(Stream())
      ensures moved < old(moved) + HEADSIZE_V4 && buf.Length <= old(buf.Length)
    {
      var ok := Ensure(HEADSIZE_V4);
      if ok.Err? {
        return Err(ok.error);
      }
      assert buf[start..start + HEADSIZE_V4] == Stream()[..HEADSIZE_V4];
      return ParseHeaderV4(buf[start..start + HEADSIZE_V4]);
    }

    /** Decodes the frame at the head of the buffer where it lies. */
    method DecodeBuffered(h: HeaderV4) returns (f: Result<Frame, Error>)
      requires Valid() && HEADSIZE_V4 + h.stationIdLength + h.payloadLength <= end - start
      ensures HEADSIZE_V4 + h.stationIdLength + h.payloadLength <= |Stream()| && f == DecodeBodyV4(Stream(), 0, h)
    {
      assert buf[..][start..end] <= Stream();
      DecodeInPlace(buf[..], start, h, Stream());
      f := DecodeBodyV4(buf[..], start, h);
    }

    /** One fill for the header and one for the whole frame, which is then
        decoded where it lies in the buffer. */
    method RecvFrameV4() returns (r: Result<Item, Error>)
      requires Valid() && connected
      modifies this`buf, this`start, this`end, this`connected, this`streaming, this`batchActive, this`chunks, this`moved, buf
      ensures Valid() && (buf == old(buf) || fresh(buf))
      ensures
        match NextPacketV4(old(Stream()), fate)
        case Got(item, rest) =>
          && r == Ok(item) && StillOpen() && Stream() == rest
          && moved < old(moved) + (|old(Stream())| - |rest|) + HEADSIZE_V4 - 1
        case Failed(e) => r == Err(e) && (e.DecodeFailed? ==> StillOpen() && Stream() == old(Stream()))
        case Ambiguous(_) => false
      ensures buf.Length <= old(buf.Length) || buf.Length < 2 * MAX_FRAME
    {
      hide ParseHeaderV4, DecodeBodyV4, Flatten;
      var h := PeekHeaderV4();
      if h.Err? {
        return Err(h.error);
      }
      var total := HEADSIZE_V4 + h.value.stationIdLength + h.value.payloadLength;
      var ok := Ensure(total);
      if ok.Err? {
        return Err(ok.error);
      }
      var f := DecodeBuffered(h.value);
      if f.Err? {
        return Err(f.error);
      }
      Skip(total);
      return Ok(Packet(f.value));
    }

    /** One item, by what the stream starts with. */
    method RecvItem() returns (r: Result<Item, Error>)
      requires Valid() && connected
      modifies this`buf, this`start, this`end, this`connected, this`streaming, this`batchActive, this`chunks, this`moved, buf
      ensures Valid() && (buf == old(buf) || fresh(buf))
      ensures
        match NextItem(ms, version, old(Stream()), fate)
        case Got(item, rest) =>
          && r == Ok(item) && StillOpen() && Stream() == rest
          && (version.V4? && !item.Reply? ==> moved <= old(moved) + 2 * (|old(Stream())| - |rest|))
        case Failed(e) => r == Err(e) && (e.DecodeFailed? ==> StillOpen() && Stream() == old(Stream()))
        case Ambiguous(line) => r in {Ok(Reply(ParseReply(line))), Err(LineTooLong), Err(NotAscii)} && (r.Ok? ==> StillOpen())
      ensures version.V4? ==> KeepsBound()
    {
      hide Classify, NextLine, NextPacketV3, NextPacketV4, Flatten, ParseReply, Encode;
      ghost var s := Stream();
      if NextItem(ms, version, s, fate) == Failed(DecodeFailed) {
        OnlyV4FailsToDecode(ms, version, s, fate);
      }
      var event := ClassifyNext();
      if event.Err? {
        return Err(event.error);
      }
      match event.value {
        case EndEvent =>
          var _ := Take(3);
          r := Ok(EndOfStream);
        case ErrorEvent =>
          var line := ReadLine();
          r := if line.Ok? then Ok(Reply(ParseReply(line.value))) else Err(line.error);
        case _ =>
          if version == V4 {
            r := RecvFrameV4();
          } else {
            r := RecvFrameV3();
          }
      }
    }

    /** One item: a packet, an ERROR reply or END. The buffer is released to its
        default capacity whenever it runs empty. Reading a v4 packet copies fewer
        than twice its bytes and leaves a buffer below twice the longest frame. */
    method RecvFrame() returns (r: Result<Item, Error>)
      requires Valid() && connected
      modifies this`buf, this`start, this`end, this`connected, this`streaming, this`batchActive, this`chunks, this`moved, buf
      ensures Valid() && (buf == old(buf) || fresh(buf))
      ensures
        match NextItem(ms, version, old(Stream()), fate)
        case Got(item, rest) =>
          && r == Ok(item) && StillOpen() && Stream() == rest
          && (version.V4? && !item.Reply? ==> moved <= old(moved) + 2 * (|old(Stream())| - |rest|))
        case Failed(e) => r == Err(e) && (e.DecodeFailed? ==> StillOpen() && Stream() == old(Stream()))
        case Ambiguous(line) => r in {Ok(Reply(ParseReply(line))), Err(LineTooLong), Err(NotAscii)} && (r.Ok? ==> StillOpen())
      ensures r.Ok? && Pending() == [] ==> buf.Length == RECV_BUF_SIZE
      ensures version.V4? ==> KeepsBound()
    {
      hide NextItem, Flatten, ParseReply;
      r := RecvItem();
      if r.Ok? && start == end {
        ghost var s := Stream();
        ResetRecvBuf();
        assert Stream() == s;
      }
    }

    /** What reading items came to: the packets, and the item or error that ended it. */
    predicate IsSession(session: Session, frames: seq<Frame>, last: Result<Item, Error>) {
      && frames == session.frames
      && match session.stop
         case Ended(_) => last == Ok(EndOfStream)
         case Refused(r, _) => last == Ok(Reply(r))
         case Broken(e) => last == Err(e)
         case Unclear(line) => last in {Ok(Reply(ParseReply(line))), Err(LineTooLong), Err(NotAscii)}
    }

    /** Reading items until one is no packet, as `collect()` does on one connection:
        the packets and what ends them are those of the byte stream, however it
        was cut into reads. After a final END the buffer is back at its default
        capacity. In 4.0 the bytes copied are at most twice those consumed, up to
        the last packet (`copied`, with `left` to come), and up to END. */
    method ReceiveAll() returns (frames: seq<Frame>, last: Result<Item, Error>, ghost copied: nat, ghost left: seq<byte>)
      requires Valid() && connected
      modifies this`buf, this`start, this`end, this`connected, this`streaming, this`batchActive, this`chunks, this`moved, buf
      ensures Valid() && (buf == old(buf) || fresh(buf))
      ensures IsSession(ReadSession(ms, version, old(Stream()), fate), frames, last)
      ensures
        match ReadSession(ms, version, old(Stream()), fate).stop
        case Ended(rest) => Stream() == rest && (rest == [] ==> Pending() == [] && buf.Length == RECV_BUF_SIZE)
        case Refused(_, rest) => Stream() == rest
        case _ => true
      ensures version.V4? ==> KeepsBound()
      ensures ReadSession(ms, version, left, fate) == Session([], ReadSession(ms, version, old(Stream()), fate).stop)
      ensures version.V4? ==> |left| <= |old(Stream())| && copied <= old(moved) + 2 * (|old(Stream())| - |left|)
      ensures version.V4? && last == Ok(EndOfStream) ==> moved <= old(moved) + 2 * (|old(Stream())| - |Stream()|)
    {
      hide NextItem, Flatten, ParseReply, ReadSession;
      frames, copied, left := [], moved, Stream();
      ghost var all := ReadSession(ms, version, Stream(), fate);
      while true
        invariant Valid() && connected && (buf == old(buf) || fresh(buf)) && (version.V4? ==> KeepsBound())
        invariant all.stop == ReadSession(ms, version, Stream(), fate).stop
        invariant all.frames == frames + ReadSession(ms, version, Stream(), fate).frames
        invariant left == Stream() && |left| <= |old(Stream())|
        invariant version.V4? ==> copied == moved <= old(moved) + 2 * (|old(Stream())| - |left|)
        decreases |Stream()|
      {
        OneItem(ms, version, Stream(), fate);
        last := RecvFrame();
        if last.Err? || !last.value.Packet? {
          return;
        }
        frames := frames + [last.value.frame];
        copied, left := moved, Stream();
      }
    }

    /** One poll: the first byte of an item is waited for, `awaits` reads at most, and
        then the item is read. `frames` were read before. */
    method PollItem(awaits: nat, ghost frames: seq<Frame>) returns (item: Option<Result<Item, Error>>)
      requires Valid() && connected
      modifies this`buf, this`start, this`end, this`connected, this`streaming, this`batchActive, this`chunks, this`moved, buf
      ensures Valid() && (buf == old(buf) || fresh(buf))
      ensures item.None? ==> StillOpen() && Stream() == old(Stream()) && (awaits == 0 || Stream() == [])
      ensures item.Some? ==>
        var s, here := ReadSession(ms, version, old(Stream()), fate), ReadSession(ms, version, Stream(), fate);
        if item.value.Ok? && item.value.value.Packet? then
          connected && old(Stream()) != [] && Session(frames + s.frames, s.stop) == Session(frames + [item.value.value.frame] + here.frames, here.stop)
        else IsSession(Session(frames + s.frames, s.stop), frames, item.value)
    {
      hide NextItem, Flatten, ParseReply, ReadSession;
      OneItem(ms, version, Stream(), fate);
      var poll := EnsureAbortable(1, awaits);
      if poll.None? {
        return None;
      }
      if poll.value.Err? {
        NothingToRead(ms, version, fate);
        return Some(Err(poll.value.error));
      }
      var read := RecvFrame();
      return Some(read);
    }

    /** The asyncio loop on one connection, over any number of polls: each waits for
        the first byte of an item, `polls[i]` reads at most before it times out, and
        then reads the item without a timeout. Polls that time out change nothing:
        what has been handed out is always the packets of the byte stream so far,
        and every poll that lasts a read hands one out while bytes are left. */
    method ReceivePolled(polls: seq<nat>) returns (frames: seq<Frame>, last: Option<Result<Item, Error>>)
      requires Valid() && connected
      modifies this`buf, this`start, this`end, this`connected, this`streaming, this`batchActive, this`chunks, this`moved, buf
      ensures Valid() && (buf == old(buf) || fresh(buf))
      ensures last.Some? ==> IsSession(ReadSession(ms, version, old(Stream()), fate), frames, last.value)
      ensures last.None? ==>
        var all, here := ReadSession(ms, version, old(Stream()), fate), ReadSession(ms, version, Stream(), fate);
        connected && all == Session(frames + here.frames, here.stop)
      ensures last.None? ==> Live(polls) <= |frames| || Stream() == []
    {
      hide NextItem, Flatten, ParseReply, ReadSession, Live, IsSession;
      NoneLive(polls);
      frames := [];
      ghost var all := ReadSession(ms, version, Stream(), fate);
      for i := 0 to |polls|
        invariant Valid() && connected && (buf == old(buf) || fresh(buf))
        invariant all == Session(frames + ReadSession(ms, version, Stream(), fate).frames, ReadSession(ms, version, Stream(), fate).stop)
        invariant Live(polls[..i]) <= |frames| || Stream() == []
      {
        LiveSnoc(polls, i);
        var item := PollItem(polls[i], frames);
        if item.None? {
          continue;
        }
        if item.value.Err? || !item.value.value.Packet? {
          return frames, item;
        }
        frames := frames + [item.value.value.frame];
      }
      assert polls[..|polls|] == polls;
      return frames, None;
    }

    // ------------------------------------------------------------- commands

    /** `_read_line`, with `luck` 1 when the line was past the limit and taken all
        the same. */
    method HearLine() returns (r: Result<string, Error>, ghost luck: nat)
      requires Valid() && connected
      modifies this`buf, this`start, this`end, this`connected, this`streaming, this`batchActive, this`chunks, this`moved, buf
      ensures Valid() && (buf == old(buf) || fresh(buf)) && KeepsBound()
      ensures Followed(Hear(old(Stream()), fate, luck))
      ensures
        match Hear(old(Stream()), fate, luck)
        case Text(line, _, left) => r == Ok(line) && left == 0 && luck == if NextLine(old(Stream()), fate).Overlong? then 1 else 0
        case Mute(e) => r == Err(e) && luck == 0
        case TooMuch => r in {Err(LineTooLong), Err(NotAscii)} && luck == 0
    {
      hide NextLine, Flatten;
      ghost var step := NextLine(Stream(), fate);
      r := ReadLine();
      luck := if step.Overlong? && r.Ok? then 1 else 0;
    }

    /** Send one command and read the reply it is owed. `luck` is 1 when that reply
        was past the line limit and taken all the same. */
    method SendCommand(cmd: Command) returns (r: Result<Option<Response>, Error>, ghost luck: nat)
      requires Valid() && connected
      modifies this`buf, this`start, this`end, this`connected, this`streaming, this`batchActive, this`chunks, this`moved, this`sent, this`sendBudget, buf
      ensures Valid() && (buf == old(buf) || fresh(buf)) && KeepsBound()
      ensures Encoded(cmd).Err? || old(sendBudget) == 0 ==> sent == old(sent) && sendBudget == old(sendBudget)
      ensures Encoded(cmd).Err? ==> r == Err(Encoded(cmd).error) && StillOpen() && Stream() == old(Stream())
      ensures Encoded(cmd).Ok? && old(sendBudget) == 0 ==> r == Err(SendFailed) && !connected
      ensures Encoded(cmd).Ok? && old(sendBudget) > 0 ==>
        && sent == old(sent) + [Encoded(cmd).value] && sendBudget == old(sendBudget) - 1
        && (cmd.parse.NoReply? ==> r == Ok(None) && StillOpen() && Stream() == old(Stream()))
        && (!cmd.parse.NoReply? ==> IsAnswer(cmd, NextLine(old(Stream()), fate), Hear(old(Stream()), fate, luck), r, luck)
                                    && Followed(Hear(old(Stream()), fate, luck)))
    {
      luck := 0;
      var wire := Encoded(cmd);
      if wire.Err? {
        return Err(wire.error), 0;
      }
      if sendBudget == 0 {
        Close();
        return Err(SendFailed), 0;
      }
      sent, sendBudget := sent + [wire.value], sendBudget - 1;
      if cmd.parse == NoReply {
        return Ok(None), 0;
      }
      assert Stream() == old(Stream());
      hide Hear, NextLine, Encoded, ParseReply, Interpret, Flatten;
      var line;
      line, luck := HearLine();
      if line.Err? {
        return Err(line.error), luck;
      }
      return Answer(cmd, line.value), luck;
    }

    /** The connection after a line was read, or could not be. */
    twostate predicate Followed(h: Heard)
      requires old(Valid()) && Valid()
      reads this, buf
    {
      match h
      case Text(_, rest, _) => StillOpen() && Stream() == rest
      case Mute(_) => connected ==> StillOpen()
      case TooMuch => !connected
    }

    /** The connection after an exchange: exactly the commands of the talk were
        handed to the socket, and streaming begins exactly with a welcome. */
    twostate predicate Spoke(t: Talk, begins: bool)
      requires old(Valid()) && Valid()
      reads this, buf
    {
      && sent == old(sent) + Wires(t.sent) && sendBudget + |t.sent| == old(sendBudget)
      && (t.ending.Welcomed? || t.ending.Declined? ==> connected && Stream() == t.rest)
      && (t.ending.Unsent? || t.ending.Overran? ==> !connected)
      && (streaming <==> (begins && t.ending.Welcomed?) || (old(streaming) && connected))
    }

    /** A send loop under way: what the log says was sent is what the socket got. */
    twostate predicate Logged(log: Log, plan: seq<Command>)
      requires old(Valid()) && Valid()
      reads this, buf
    {
      && log.plan == plan && log.s == old(Stream()) && log.fate == fate && log.budget == old(sendBudget)
      && sent == old(sent) + Wires(log.cmds) && sendBudget + |log.cmds| == old(sendBudget)
    }

    /** Send a command of a plan; on failure the conversation ends with it. */
    method SendNext(cmd: Command, ghost log: Log, ghost w: Walk, ghost rest: seq<Command>)
      returns (r: Result<Option<Response>, Error>, ghost next: Log, ghost now: seq<Command>)
      requires Valid() && connected && Sends(w, cmd) && log.fate == fate && SoFar(log, w, [cmd] + rest, Stream(), sendBudget)
      modifies this`buf, this`start, this`end, this`connected, this`streaming, this`batchActive, this`chunks, this`moved, this`sent, this`sendBudget, buf
      ensures Valid() && (buf == old(buf) || fresh(buf)) && KeepsBound()
      ensures next == log.(luck := next.luck, cmds := next.cmds, lines := next.lines)
      ensures sent == old(sent) + Wires(now) && sendBudget + |now| == old(sendBudget)
      ensures
        var t := Whole(next, 0);
        if r.Err? then
          && Tells(t.ending, Err(r.error))
          && t.sent == log.cmds + now
          && Ended(t)
        else
          && next.cmds == log.cmds + [cmd] && (cmd.parse.NoReply? ==> next.lines == log.lines && r.value == None)
          && (!cmd.parse.NoReply? ==>
                |next.lines| == |log.lines| + 1 && next.lines == log.lines + [next.lines[|log.lines|]]
                && r.value == Some(ParseReply(next.lines[|log.lines|])))
          && now == [cmd] && StillOpen()
          && SoFar(next, Recorded(Noted(w, cmd), cmd, r.value), rest, Stream(), sendBudget)
    {
      hide NextLine, Hear, Encoded, Flatten, Converse, SoFar, Interpret, Wires, ParseReply;
      ghost var s, b := Stream(), sendBudget;
      ghost var luck;
      r, luck := SendCommand(cmd);
      if Encoded(cmd).Ok? {
        OneWire(cmd);
      }
      NoWires();
      if r.Err? {
        StoppedCommand(log, w, cmd, rest, s, b, luck);
        next := log.(luck := log.luck + luck);
        assert Whole(next, 0) == StoppedTalk(log, cmd, s, b, luck);
        now := if Encoded(cmd).Ok? && b > 0 then [cmd] else [];
        assert Whole(next, 0).sent == log.cmds + now;
        return;
      }
      now := [cmd];
      if cmd.parse == NoReply {
        SilentCommand(log, w, cmd, rest, s, b);
        next := log.(cmds := log.cmds + [cmd]);
      } else {
        AnsweredCommand(log, w, cmd, rest, s, b, luck);
        InterpretedReply(cmd.parse, Hear(s, fate, luck).line);
        next := log.(luck := log.luck + luck, cmds := log.cmds + [cmd], lines := log.lines + [Hear(s, fate, luck).line]);
      }
    }

    /** The connection where an exchange ended. */
    twostate predicate Ended(t: Talk)
      requires old(Valid()) && Valid()
      reads this, buf
    {
      && (t.ending.Declined? ==> connected && Stream() == t.rest)
      && (t.ending.Unsent? || t.ending.Overran? ==> !connected)
      && (connected ==> StillOpen())
    }

    /** The loop of the sends. */
    method SendAll(plan: seq<Command>, walk: NegotiationWalk) returns (r: Result<(), Error>, ghost log: Log)
      requires Valid() && connected && walk.View() == FreshWalk
      modifies walk, this`buf, this`start, this`end, this`connected, this`streaming, this`batchActive, this`chunks, this`moved, this`sent, this`sendBudget, buf
      ensures Valid() && (buf == old(buf) || fresh(buf)) && KeepsBound()
      ensures r.Ok? ==> StillOpen() && Logged(log, plan) && SoFar(log, walk.View(), [], Stream(), sendBudget)
      ensures r.Err? ==>
        var t := Converse(FreshWalk, plan, old(Stream()), fate, old(sendBudget), log.luck);
        Tells(t.ending, r) && Ended(t) && !t.ending.Welcomed? && sent == old(sent) + Wires(t.sent) && sendBudget + |t.sent| == old(sendBudget)
    {
      hide NextLine, Hear, Encoded, Flatten, Converse, SoFar, Interpret, Wires, Whole, Sends, Noted, Recorded;
      log := Log(plan, Stream(), fate, sendBudget, 0, [], []);
      StartOfPlan(plan, Stream(), fate, sendBudget);
      NoWires();
      for i := 0 to |plan|
        invariant Valid() && (buf == old(buf) || fresh(buf)) && StillOpen() && KeepsBound()
        invariant Logged(log, plan) && SoFar(log, walk.View(), plan[i..], Stream(), sendBudget)
      {
        ghost var w, rest, before := walk.View(), plan[i + 1..], log.cmds;
        var cmd := plan[i];
        assert plan[i..] == [cmd] + rest;
        var send := walk.ShouldSend(cmd);
        if !send {
          SkippedCommand(log, w, cmd, rest, Stream(), sendBudget);
          continue;
        }
        var resp;
        ghost var now;
        resp, log, now := SendNext(cmd, log, w, rest);
        WiresJoin(before, now);
        WholeNow(log);
        if resp.Err? {
          return Err(resp.error), log;
        }
        walk.Record(cmd, resp.value);
      }
      assert plan[|plan|..] == [];
      return Ok(()), log;
    }

    /** The send loop of `negotiate()`: exactly the conversation over the plan. */
    method SendPlan(plan: seq<Command>) returns (r: Result<(), Error>, ghost luck: nat)
      requires Valid() && connected
      modifies this`buf, this`start, this`end, this`connected, this`streaming, this`batchActive, this`chunks, this`moved, this`sent, this`sendBudget, buf
      ensures Valid() && (buf == old(buf) || fresh(buf)) && KeepsBound()
      ensures Tells(Converse(FreshWalk, plan, old(Stream()), fate, old(sendBudget), luck).ending, r)
      ensures Spoke(Converse(FreshWalk, plan, old(Stream()), fate, old(sendBudget), luck), true)
      ensures connected ==> batchActive == old(batchActive)
    {
      hide Flatten, Converse, SoFar, Wires, Whole;
      var walk := new NegotiationWalk();
      ghost var log;
      r, log := SendAll(plan, walk);
      luck := log.luck;
      if r.Err? {
        return;
      }
      EndOfPlan(log, walk.View(), Stream(), sendBudget);
      WholeNow(log);
      r := walk.Finish();
      if r.Ok? {
        streaming := true;
      }
    }

    // ------------------------------------------------------------ connecting

    method ConnectSocket(net: seq<seq<byte>>, fate: Fate, budget: nat) returns (r: Result<(), Error>)
      requires Valid() && forall i :: 0 <= i < |net| ==> net[i] != []
      modifies this
      ensures Valid() && (buf == old(buf) || fresh(buf))
      ensures old(connected) ==>
        && r == Err(AlreadyConnected) && StillOpen() && Stream() == old(Stream()) && buf == old(buf)
        && version == old(version) && this.fate == old(this.fate) && sent == old(sent) && sendBudget == old(sendBudget)
      ensures !old(connected) ==>
        && r == Ok(()) && connected && !streaming && !batchActive && buf.Length == RECV_BUF_SIZE
        && Stream() == Flatten(net) && sent == old(sent) && this.fate == fate && sendBudget == budget
    {
      if connected {
        return Err(AlreadyConnected);
      }
      connected, chunks, sendBudget := true, net, budget;
      this.fate := fate;
      ResetRecvBuf();
      return Ok(());
    }

    /** The connection after two lines were read, or could not be. */
    twostate predicate Paired(pair: Pair)
      requires old(Valid()) && Valid()
      reads this, buf
    {
      match pair
      case Two(_, _, rest) => StillOpen() && Stream() == rest
      case Short(_, _, ending) => (ending.Overran? ==> !connected) && (connected ==> StillOpen())
    }

    method HearTwoLines() returns (r: Result<(string, string), Error>, ghost luck: nat)
      requires Valid() && connected
      modifies this`buf, this`start, this`end, this`connected, this`streaming, this`batchActive, this`chunks, this`moved, buf
      ensures Valid() && (buf == old(buf) || fresh(buf)) && KeepsBound()
      ensures IsPair(HearTwo(old(Stream()), fate, luck), r) && Paired(HearTwo(old(Stream()), fate, luck))
    {
      hide Hear, HearTwo, Flatten, NextLine, IsPair;
      ghost var s, more := Stream(), 0;
      var first, second;
      first, luck := HearLine();
      PairHeard(s, fate, luck, 0);
      if first.Err? {
        r := Err(first.error);
        PairTold(s, fate, luck, 0, r);
        return;
      }
      second, more := HearLine();
      PairHeard(s, fate, luck, more);
      r := if second.Ok? then Ok((first.value, second.value)) else Err(second.error);
      PairTold(s, fate, luck, more, r);
      luck := luck + more;
    }

    /** HELLO, answered by two lines whose reading is `hello`. */
    method DoHello(hello: HelloReader) returns (r: Result<bool, Error>, ghost luck: nat)
      requires Valid() && connected
      modifies this`version, this`buf, this`start, this`end, this`connected, this`streaming, this`batchActive, this`chunks, this`moved, this`sent, this`sendBudget, buf
      ensures Valid() && (buf == old(buf) || fresh(buf)) && KeepsBound()
      ensures
        match Hail(hello, old(Stream()), fate, old(sendBudget), luck)
        case Unmet(t) => r.Err? && Tells(t.ending, Err(r.error)) && Spoke(t, false)
        case Greeted(v, cap, _, rest) =>
          && r == Ok(cap) && version == v && StillOpen() && Stream() == rest
          && sent == old(sent) + Wires([HELLO]) && sendBudget + 1 == old(sendBudget)
    {
      HelloWires();
      NoWires();
      hide HearTwo, Flatten, Wires, Encoded;
      luck := 0;
      var send, _ := SendCommand(HELLO);
      if send.Err? {
        return Err(send.error), luck;
      }
      var lines;
      lines, luck := HearTwoLines();
      if lines.Err? {
        return Err(lines.error), luck;
      }
      var identity := hello(lines.value.0, lines.value.1);
      if identity.Err? {
        return Err(identity.error), luck;
      }
      version := identity.value.0;
      return Ok(identity.value.1), luck;
    }

    /** The handshake after HELLO: exactly the conversation over its plan. */
    method Handshake(plan: seq<Command>) returns (r: Result<(), Error>, ghost luck: nat)
      requires Valid() && connected && !batchActive
      requires AreGeneric(plan)
      modifies this`buf, this`start, this`end, this`connected, this`streaming, this`batchActive, this`chunks, this`moved, this`sent, this`sendBudget, buf
      ensures Valid() && (buf == old(buf) || fresh(buf)) && KeepsBound()
      ensures Tells(Converse(FreshWalk, plan, old(Stream()), fate, old(sendBudget), luck).ending, r)
      ensures Spoke(Converse(FreshWalk, plan, old(Stream()), fate, old(sendBudget), luck), false)
      ensures r.Ok? ==> batchActive == BatchAgreed(plan, Converse(FreshWalk, plan, old(Stream()), fate, old(sendBudget), luck).heard)
    {
      NothingAgreed();
      hide NextLine, Hear, Encoded, Flatten, Converse, SoFar, Interpret, ParseReply, Wires, BatchAgreed;
      ghost var log := Log(plan, Stream(), fate, sendBudget, 0, [], []);
      StartOfPlan(plan, Stream(), fate, sendBudget);
      NoWires();
      for i := 0 to |plan|
        invariant Valid() && (buf == old(buf) || fresh(buf)) && connected && streaming == old(streaming) && KeepsBound()
        invariant log.cmds == plan[..i] && |log.lines| == i && batchActive == BatchAgreed(log.cmds, log.lines)
        invariant Logged(log, plan) && SoFar(log, FreshWalk, plan[i..], Stream(), sendBudget)
      {
        ghost var rest, before := plan[i + 1..], log;
        var cmd := plan[i];
        assert plan[i..] == [cmd] + rest;
        var resp;
        ghost var now;
        resp, log, now := SendNext(cmd, log, FreshWalk, rest);
        WiresJoin(before.cmds, now);
        if resp.Err? {
          return Err(resp.error), log.luck;
        }
        BatchAgreedSnoc(before.cmds, before.lines, cmd, log.lines[i]);
        if cmd.text == "BATCH" {
          batchActive := resp.value.value.IsOk();
        }
      }
      assert plan[|plan|..] == [] && log.cmds == plan;
      EndOfPlan(log, FreshWalk, Stream(), sendBudget);
      return Ok(()), log.luck;
    }

    /** HELLO and the handshake. */
    method Greet(me: Identity) returns (r: Result<(), Error>, ghost luck: nat, ghost luck2: nat)
      requires Valid() && connected && !batchActive
      modifies this`version, this`buf, this`start, this`end, this`connected, this`streaming, this`batchActive, this`chunks, this`moved, this`sent, this`sendBudget, buf
      ensures Valid() && (buf == old(buf) || fresh(buf)) && KeepsBound()
      ensures Tells(Meet(me, old(Stream()), fate, old(sendBudget), luck, luck2).talk.ending, r)
      ensures Spoke(Meet(me, old(Stream()), fate, old(sendBudget), luck, luck2).talk, false)
      ensures r.Ok? ==>
        var met := Meet(me, old(Stream()), fate, old(sendBudget), luck, luck2);
        version == met.version && batchActive == met.batch
    {
      hide Converse, Flatten, PlanHandshake, BatchAgreed, Wires, Hail;
      luck2 := 0;
      var cap;
      cap, luck := DoHello(me.hello);
      if cap.Err? {
        return Err(cap.error), luck, luck2;
      }
      var plan := PlanHandshake(version, cap.value, me.agent, me.auth, me.wantBatch);
      if plan.Err? {
        return Err(plan.error), luck, luck2;
      }
      HandshakeAwaitsReplies(version, cap.value, me.agent, me.auth, me.wantBatch);
      ghost var s, b := Stream(), sendBudget;
      r, luck2 := Handshake(plan.value);
      WiresJoin([HELLO], Converse(FreshWalk, plan.value, s, fate, b, luck2).sent);
    }

    /** `connect()`. A SeedLinkError leaves the client disconnected. */
    method Connect(a: Attempt, me: Identity) returns (r: Result<(), Error>, ghost luck: nat, ghost luck2: nat)
      requires Valid() && IsAttempt(a)
      modifies this, buf
      ensures Valid() && (buf == old(buf) || fresh(buf))
      ensures old(connected) ==>
        && r == Err(AlreadyConnected) && StillOpen() && Stream() == old(Stream()) && buf == old(buf)
        && version == old(version) && fate == old(fate) && sent == old(sent) && sendBudget == old(sendBudget)
      ensures !old(connected) ==>
        var met := Meet(me, Flatten(a.net), a.fate, a.budget, luck, luck2);
        && Tells(met.talk.ending, r) && sent == old(sent) + Wires(met.talk.sent) && buf.Length < 2 * MAX_FRAME && !streaming
        && if r.Ok? then connected && Introduced(met, a) else r.error == EncodeFailed || !connected
    {
      hide Flatten, Meet, Wires;
      luck, luck2 := 0, 0;
      r := ConnectSocket(a.net, a.fate, a.budget);
      if r.Ok? {
        r, luck, luck2 := Greet(me);
        if r.Err? && r.error != EncodeFailed {
          Close();
        }
      }
    }

    /** A connection just made, as the meeting describes it. */
    ghost predicate Introduced(met: Meeting, a: Attempt)
      requires Valid()
      reads this, buf
    {
      && version == met.version && batchActive == met.batch && Stream() == met.talk.rest && fate == a.fate
      && sendBudget + |met.talk.sent| == a.budget
    }
  }

  function Answer(cmd: Command, line: string): Result<Option<Response>, Error> {
    match Interpret(cmd.parse, line) case Ok(resp) => Ok(Some(resp)) case Err(e) => Err(e)
  }

  /** A command's reply, given the line behind it as heard with `luck`. */
  predicate IsAnswer(cmd: Command, step: LineStep, h: Heard, r: Result<Option<Response>, Error>, luck: nat) {
    match h
    case Text(line, _, _) => r == Answer(cmd, line) && luck == if step.Overlong? then 1 else 0
    case Mute(e) => r == Err(e)
    case TooMuch => r in {Err(LineTooLong), Err(NotAscii)}
  }

  lemma {:induction false} NothingAgreed()
    ensures !BatchAgreed([], [])
  {
  }

  lemma {:induction false} NothingToRead(ms: Mseed, version: Version, fate: Fate)
    ensures NextItem(ms, version, [], fate) == Failed(Lost(fate))
  {
  }

  lemma {:induction false} NoWires()
    ensures Wires([]) == []
  {
  }

  lemma {:induction false} OneWire(cmd: Command)
    requires Encoded(cmd).Ok?
    ensures Wires([cmd]) == [Encoded(cmd).value]
  {
    assert [cmd][1..] == [];
  }

  /** How many polls last at least one read. */
  function Live(polls: seq<nat>): nat {
    if polls == [] then 0 else Live(polls[..|polls| - 1]) + if polls[|polls| - 1] >= 1 then 1 else 0
  }

  lemma {:induction false} NoneLive(polls: seq<nat>)
    ensures Live(polls[..0]) == 0
  {
  }

  lemma {:induction false} LiveSnoc(polls: seq<nat>, i: nat)
    requires i < |polls|
    ensures Live(polls[..i + 1]) == Live(polls[..i]) + if polls[i] > 0 then 1 else 0
  {
    assert polls[..i + 1][..i] == polls[..i];
  }

  predicate IsPair(pair: Pair, r: Result<(string, string), Error>) {
    match pair
    case Two(line1, line2, _) => r == Ok((line1, line2))
    case Short(_, _, ending) => r.Err? && Tells(ending, Err(r.error)) && (ending.Unheard? || ending.Overran?)
  }

  lemma {:induction false} PairTold(s: seq<byte>, fate: Fate, luck: nat, more: nat, r: Result<(string, string), Error>)
    requires
      match Hear(s, fate, luck)
      case Mute(e) => r == Err(e) && more == 0
      case TooMuch => r in {Err(LineTooLong), Err(NotAscii)} && more == 0
      case Text(line1, s1, left) =>
        left == 0
        && match Hear(s1, fate, more)
           case Mute(e) => r == Err(e)
           case TooMuch => r in {Err(LineTooLong), Err(NotAscii)}
           case Text(line2, _, _) => r == Ok((line1, line2))
    ensures IsPair(HearTwo(s, fate, luck + more), r)
  {
    PairHeard(s, fate, luck, more);
    hide Hear, HearTwo;
  }

  lemma {:induction false} HeadOfStream(b: seq<byte>, start: nat, end: nat, n: nat, later: seq<byte>)
    requires start + n <= end <= |b|
    ensures (b[start..end] + later)[..n] == b[start..start + n]
  {
  }

  lemma {:induction false} SameSlice(view: seq<byte>, start: nat, end: nat, s: seq<byte>, lo: nat, hi: nat)
    requires lo <= hi <= end - start && end <= |view| && view[start..end] <= s
    ensures view[start + lo..start + hi] == s[lo..hi]
  {
    forall i | lo <= i < hi ensures view[start + i] == s[i] {
      assert view[start..end][i] == view[start + i];
    }
  }

  /** Decoding a frame where it lies in the buffer gives what decoding it at the
      head of the stream gives. */
  lemma {:induction false} DecodeInPlace(view: seq<byte>, start: nat, h: HeaderV4, s: seq<byte>)
    requires start + HEADSIZE_V4 + h.stationIdLength + h.payloadLength <= |view|
    requires view[start..start + HEADSIZE_V4 + h.stationIdLength + h.payloadLength] <= s
    ensures DecodeBodyV4(view, start, h) == DecodeBodyV4(s, 0, h)
  {
    var mid := HEADSIZE_V4 + h.stationIdLength;
    var total := mid + h.payloadLength;
    SameSlice(view, start, start + total, s, HEADSIZE_V4, mid);
    SameSlice(view, start, start + total, s, mid, total);
    assert view[start + HEADSIZE_V4..start + HEADSIZE_V4 + h.stationIdLength] == s[HEADSIZE_V4..mid];
    assert view[start + mid..start + mid + h.payloadLength] == s[mid..mid + h.payloadLength];
    hide Decode, IsAscii;
  }
}
