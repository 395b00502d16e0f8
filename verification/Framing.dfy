/** The stream a streaming connection carries, read item by item. The result
    is a function of the bytes alone; a stream of well-formed messages, cut
    anywhere, yields exactly the messages that arrived whole. */
module Framing {
  import opened Text
  import opened Protocol

  /** Why a reader stops consuming packets. */
  datatype Stop = Ended(rest: seq<byte>) | Refused(response: Response, rest: seq<byte>) | Broken(error: Error) | Unclear(line: string)

  datatype Session = Session(frames: seq<Frame>, stop: Stop)

  /** Every packet of a stream up to the first END, ERROR reply or failure. */
  function ReadSession(ms: Mseed, version: Version, s: seq<byte>, fate: Fate): Session
    decreases |s|
  {
    match NextItem(ms, version, s, fate)
    case Failed(e) => Session([], Broken(e))
    case Ambiguous(line) => Session([], Unclear(line))
    case Got(EndOfStream, rest) => Session([], Ended(rest))
    case Got(Reply(r), rest) => Session([], Refused(r, rest))
    case Got(Packet(f), rest) =>
      var tail := ReadSession(ms, version, rest, fate);
      Session([f] + tail.frames, tail.stop)
  }

  lemma {:induction false} OneItem(ms: Mseed, version: Version, s: seq<byte>, fate: Fate)
    ensures
      var session := ReadSession(ms, version, s, fate);
      match NextItem(ms, version, s, fate)
      case Failed(e) => session == Session([], Broken(e))
      case Ambiguous(line) => session == Session([], Unclear(line))
      case Got(EndOfStream, rest) => session == Session([], Ended(rest))
      case Got(Reply(r), rest) => session == Session([], Refused(r, rest))
      case Got(Packet(f), rest) =>
        var tail := ReadSession(ms, version, rest, fate);
        session == Session([f] + tail.frames, tail.stop)
  {
    hide NextItem;
  }

  predicate AllWellFormed(ms: Mseed, version: Version, msgs: seq<Message>) {
    forall i :: 0 <= i < |msgs| ==> IsWellFormed(ms, version, msgs[i])
  }

  function WireAll(ms: Mseed, version: Version, msgs: seq<Message>): seq<byte>
    requires AllWellFormed(ms, version, msgs)
  {
    if msgs == [] then [] else Wire(ms, version, msgs[0]) + WireAll(ms, version, msgs[1..])
  }

  function Meanings(ms: Mseed, version: Version, msgs: seq<Message>): (fs: seq<Frame>)
    requires AllWellFormed(ms, version, msgs)
    ensures |fs| == |msgs|
  {
    if msgs == [] then [] else [Meaning(ms, version, msgs[0])] + Meanings(ms, version, msgs[1..])
  }

  /** Messages followed by anything: the messages, then whatever the rest reads as. */
  lemma {:induction false} SessionOfMessages(ms: Mseed, version: Version, msgs: seq<Message>, tail: seq<byte>, fate: Fate)
    requires AllWellFormed(ms, version, msgs)
    ensures ReadSession(ms, version, WireAll(ms, version, msgs) + tail, fate)
         == Session(Meanings(ms, version, msgs) + ReadSession(ms, version, tail, fate).frames,
                    ReadSession(ms, version, tail, fate).stop)
  {
    hide NextItem, Wire, Meaning, IsWellFormed;
    if msgs == [] {
      assert WireAll(ms, version, msgs) + tail == tail;
    } else {
      var rest := WireAll(ms, version, msgs[1..]) + tail;
      assert WireAll(ms, version, msgs) + tail == Wire(ms, version, msgs[0]) + rest;
      PacketRoundTrip(ms, version, msgs[0], rest, fate);
      SessionOfMessages(ms, version, msgs[1..], tail, fate);
    }
  }

  /** Dial-up: messages closed by END are read back, then END, with nothing left over. */
  lemma {:induction false} SessionOfDialup(ms: Mseed, version: Version, msgs: seq<Message>, fate: Fate)
    requires AllWellFormed(ms, version, msgs)
    ensures ReadSession(ms, version, WireAll(ms, version, msgs) + Protocol.Encode("END"), fate)
         == Session(Meanings(ms, version, msgs), Ended([]))
  {
    ReadEnd(ms, version, fate);
    SessionOfMessages(ms, version, msgs, Protocol.Encode("END"), fate);
    hide NextItem, Wire, Meaning, IsWellFormed;
    assert Meanings(ms, version, msgs) + [] == Meanings(ms, version, msgs);
  }

  lemma {:induction false} ReadEnd(ms: Mseed, version: Version, fate: Fate)
    ensures ReadSession(ms, version, Protocol.Encode("END"), fate) == Session([], Ended([]))
  {
    hide NextPacketV3, NextPacketV4, NextLine;
    var end := Protocol.Encode("END");
    assert end[0] == 'E' as int && end[1] == 'N' as int && end[..3] == end && end[3..] == [];
  }

  lemma {:induction false} DetectTruncated(ms: Mseed, record: seq<byte>, k: nat, size: nat, fate: Fate)
    requires 0 < size <= MAX_RECORD_LEN
    requires Detectable(ms, record, size)
    requires k < |record|
    ensures DetectLength(ms, record[..k], size, fate) in {Ok(|record|), Err(Lost(fate))}
    decreases MAX_RECORD_LEN - size
  {
    if size <= k {
      assert record[..k][..size] == record[..size];
      if ms.detect(record[..size]).Undecided? {
        DetectTruncated(ms, record, k, NextSize(size), fate);
      }
    }
  }

  lemma {:induction false} TruncatedV3(ms: Mseed, header: seq<byte>, h: HeaderV3, record: seq<byte>, k: nat, fate: Fate)
    requires |header| == HEADSIZE_V3 && ParseHeaderV3(header) == Ok(h)
    requires Detectable(ms, record, MIN_PAYLOAD_DETECT)
    requires k < |header + record|
    ensures NextPacketV3(ms, (header + record)[..k], fate) == Failed(Lost(fate))
  {
    if k >= HEADSIZE_V3 {
      var s := (header + record)[..k];
      assert s[..HEADSIZE_V3] == header;
      assert s[HEADSIZE_V3..] == record[..k - HEADSIZE_V3];
      DetectTruncated(ms, record, k - HEADSIZE_V3, MIN_PAYLOAD_DETECT, fate);
    }
  }

  /** A message that has not arrived whole reads as a lost connection, never as data. */
  lemma {:induction false} TruncatedMessage(ms: Mseed, version: Version, m: Message, k: nat, fate: Fate)
    requires IsWellFormed(ms, version, m)
    requires k < |Wire(ms, version, m)|
    ensures NextItem(ms, version, Wire(ms, version, m)[..k], fate) == Failed(Lost(fate))
  {
    var w := Wire(ms, version, m);
    var s := w[..k];
    if k >= 2 {
      assert s[0] == w[0] && s[1] == w[1];
      match m {
        case DataV4(f) =>
          assert w[0] == Protocol.Encode("SE")[0] && w[1] == Protocol.Encode("SE")[1];
          if k >= HEADSIZE_V4 {
            HeaderV4RoundTrip(ms, f);
            assert s[..HEADSIZE_V4] == w[..HEADSIZE_V4];
          }
        case DataV3(n, record) =>
          var header := Protocol.Encode("SL") + Protocol.Encode(HexField(n));
          assert w[0] == Protocol.Encode("SL")[0] && w[1] == Protocol.Encode("SL")[1];
          HeaderV3RoundTrip(n);
          TruncatedV3(ms, header, HeaderV3(Some(n), false, false), record, k, fate);
        case InfoV3(record, more) =>
          var header := Protocol.Encode("SLINFO") + Protocol.Encode(if more then " *" else "  ");
          assert w[0] == Protocol.Encode("SLINFO")[0] && w[1] == Protocol.Encode("SLINFO")[1];
          assert header[..6] == Protocol.Encode("SLINFO");
          assert header[7] == (if more then " *" else "  ")[1] as int;
          TruncatedV3(ms, header, HeaderV3(None, true, more), record, k, fate);
      }
    }
  }

  lemma {:induction false} EmptyStream(ms: Mseed, version: Version, fate: Fate)
    ensures NextItem(ms, version, [], fate) == Failed(Lost(fate))
  {
  }

  /** How many messages lie whole within the first `k` bytes. */
  function WholeMessages(ms: Mseed, version: Version, msgs: seq<Message>, k: nat): (n: nat)
    requires AllWellFormed(ms, version, msgs)
    ensures n <= |msgs|
  {
    if msgs == [] || k < |Wire(ms, version, msgs[0])| then 0
    else 1 + WholeMessages(ms, version, msgs[1..], k - |Wire(ms, version, msgs[0])|)
  }

  /** Cut anywhere, the stream yields exactly the messages that arrived whole
      and then reports the lost connection. */
  lemma {:induction false} SessionOfTruncated(ms: Mseed, version: Version, msgs: seq<Message>, k: nat, fate: Fate)
    requires AllWellFormed(ms, version, msgs)
    requires k <= |WireAll(ms, version, msgs)|
    ensures ReadSession(ms, version, WireAll(ms, version, msgs)[..k], fate)
         == Session(Meanings(ms, version, msgs)[..WholeMessages(ms, version, msgs, k)], Broken(Lost(fate)))
  {
    hide NextItem, Wire, Meaning, IsWellFormed;
    if msgs == [] {
      EmptyStream(ms, version, fate);
    } else {
      var w := Wire(ms, version, msgs[0]);
      var all := WireAll(ms, version, msgs);
      if k < |w| {
        assert all[..k] == w[..k];
        TruncatedMessage(ms, version, msgs[0], k, fate);
      } else {
        var rest := WireAll(ms, version, msgs[1..])[..k - |w|];
        assert all[..k] == w + rest;
        PacketRoundTrip(ms, version, msgs[0], rest, fate);
        SessionOfTruncated(ms, version, msgs[1..], k - |w|, fate);
      }
    }
  }

  // ------------------------------------------------------- more bytes to come

  lemma {:induction false} ClassifyStable(s: seq<byte>, c: seq<byte>, f: Fate, g: Fate)
    requires Classify(s, f).Ok?
    ensures Classify(s + c, g) == Classify(s, f)
  {
    assert (s + c)[0] == s[0] && (s + c)[1] == s[1];
    if |s| >= 3 {
      assert (s + c)[..3] == s[..3];
    }
    if |s| >= 5 {
      assert (s + c)[..5] == s[..5];
    }
  }

  lemma {:induction false} LineStable(s: seq<byte>, c: seq<byte>, f: Fate, g: Fate)
    requires NextLine(s, f).Line?
    ensures NextLine(s + c, g) == Line(NextLine(s, f).text, NextLine(s, f).rest + c)
  {
    var p := FindCrlf(s, 0, |s|).value;
    assert IsCrlf(s + c, p);
    forall i | 0 <= i < p ensures !IsCrlf(s + c, i) {
      assert !IsCrlf(s, i);
    }
    assert (s + c)[..p] == s[..p] && (s + c)[p + 2..] == s[p + 2..] + c;
  }

  lemma {:induction false} DetectStable(ms: Mseed, s: seq<byte>, c: seq<byte>, size: nat, f: Fate, g: Fate)
    requires 0 < size <= MAX_RECORD_LEN && DetectLength(ms, s, size, f).Ok?
    ensures DetectLength(ms, s + c, size, g) == DetectLength(ms, s, size, f)
    decreases MAX_RECORD_LEN - size
  {
    assert (s + c)[..size] == s[..size];
    if ms.detect(s[..size]).Undecided? {
      DetectStable(ms, s, c, NextSize(size), f, g);
    }
  }

  lemma {:induction false} PacketV3Stable(ms: Mseed, s: seq<byte>, c: seq<byte>, f: Fate, g: Fate)
    requires NextPacketV3(ms, s, f).Got?
    ensures NextPacketV3(ms, s + c, g) == Got(NextPacketV3(ms, s, f).item, NextPacketV3(ms, s, f).rest + c)
  {
    hide ParseHeaderV3, DecodeV3, DetectLength;
    var body := s[HEADSIZE_V3..];
    assert (s + c)[..HEADSIZE_V3] == s[..HEADSIZE_V3] && (s + c)[HEADSIZE_V3..] == body + c;
    DetectStable(ms, body, c, MIN_PAYLOAD_DETECT, f, g);
    var n := DetectLength(ms, body, MIN_PAYLOAD_DETECT, f).value;
    assert (body + c)[..n] == body[..n] && (body + c)[n..] == body[n..] + c;
  }

  lemma {:induction false} PacketV4Stable(s: seq<byte>, c: seq<byte>, f: Fate, g: Fate)
    requires NextPacketV4(s, f).Got?
    ensures NextPacketV4(s + c, g) == Got(NextPacketV4(s, f).item, NextPacketV4(s, f).rest + c)
  {
    hide ParseHeaderV4, Decode, IsAscii;
    assert (s + c)[..HEADSIZE_V4] == s[..HEADSIZE_V4];
    var h := ParseHeaderV4(s[..HEADSIZE_V4]).value;
    var mid := HEADSIZE_V4 + h.stationIdLength;
    var total := mid + h.payloadLength;
    assert (s + c)[HEADSIZE_V4..mid] == s[HEADSIZE_V4..mid] && (s + c)[mid..total] == s[mid..total];
    assert (s + c)[total..] == s[total..] + c;
  }

  /** An item that lies whole in the bytes so far is the item whatever follows. */
  lemma {:induction false} ItemStable(ms: Mseed, version: Version, s: seq<byte>, c: seq<byte>, f: Fate, g: Fate)
    requires NextItem(ms, version, s, f).Got?
    ensures NextItem(ms, version, s + c, g) == Got(NextItem(ms, version, s, f).item, NextItem(ms, version, s, f).rest + c)
  {
    hide Classify, NextLine, NextPacketV3, NextPacketV4, ParseReply;
    ClassifyStable(s, c, f, g);
    match Classify(s, f).value {
      case EndEvent => assert (s + c)[3..] == s[3..] + c;
      case ErrorEvent => LineStable(s, c, f, g);
      case _ =>
        if version.V4? {
          PacketV4Stable(s, c, f, g);
        } else {
          PacketV3Stable(ms, s, c, f, g);
        }
    }
  }
}
