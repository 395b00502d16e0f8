/** The SeedLink wire codec: header and reply parsing, line scanning, and the
    pure parser that says which item a byte stream starts with. The encoders
    state the packet layouts of SeedLink 4.0 (section "Packet format") and 3.x
    independently of the parsers; PacketRoundTrip joins the two. */
module Protocol {
  import opened Text

  type byte = b: int | 0 <= b < 256

  const HEADSIZE_V3 := 8
  const HEADSIZE_V4 := 17
  const MIN_PAYLOAD_DETECT := 64
  const MAX_STATIONID := 21
  const MAX_COMMAND_LEN := 4096
  const MAX_LINE_LEN := 8192
  const MAX_PAYLOAD_SIZE := 16 * 1024 * 1024
  const MAX_RECORD_LEN := 1024 * 1024
  /** The longest v4 frame a reader accepts. */
  const MAX_FRAME := HEADSIZE_V4 + MAX_STATIONID + MAX_PAYLOAD_SIZE

  const CR: byte := 13
  const LF: byte := 10

  datatype Version = V3 | V4

  /** Everything the client raises. Two are not SeedLinkErrors: DecodeFailed, a
      plain UnicodeDecodeError out of a header or station ID, and EncodeFailed, a
      UnicodeEncodeError from a command that is not ASCII. */
  datatype Error =
    | NotConnected | AlreadyConnected | ConnectionClosed | RecvFailed | TimedOut | SendFailed
    | UnexpectedData | BadHeader | BadSequence | PayloadTooLong | StationIdTooLong
    | LineTooLong | NotAscii | NotMiniSeed | LengthUndetermined | BadRecord
    | CommandTooLong | Rejected(code: Option<string>, message: Option<string>)
    | BadCredentials | AuthRejected | NoStationAccepted | NotOneStream
    | DecodeFailed | EncodeFailed

  /** How a connection that delivers no more bytes behaves. */
  datatype Fate = Eof | Reset | Silent

  function Lost(fate: Fate): Error {
    match fate case Eof => ConnectionClosed case Reset => RecvFailed case Silent => TimedOut
  }

  function Flatten(chunks: seq<seq<byte>>): seq<byte> {
    if chunks == [] then [] else chunks[0] + Flatten(chunks[1..])
  }

  // ------------------------------------------------------------- ASCII bytes

  predicate IsAscii(bs: seq<byte>) {
    forall i :: 0 <= i < |bs| ==> bs[i] < 128
  }

  predicate IsAsciiText(s: string) {
    forall i :: 0 <= i < |s| ==> s[i] as int < 128
  }

  /** `bytes.decode("ascii")` on bytes below 128. */
  function Decode(bs: seq<byte>): (s: string)
    ensures |s| == |bs|
  {
    seq(|bs|, i requires 0 <= i < |bs| => bs[i] as char)
  }

  /** `str.encode("ascii")` on ASCII text. */
  function Encode(s: string): (bs: seq<byte>)
    requires IsAsciiText(s)
    ensures |bs| == |s| && IsAscii(bs)
  {
    seq(|s|, i requires 0 <= i < |s| => s[i] as int)
  }

  lemma {:induction false} DecodeOfEncode(s: string)
    requires IsAsciiText(s)
    ensures Decode(Encode(s)) == s
  {
  }

  // ------------------------------------------------------ little-endian fields

  function ToLittleEndian(n: nat, k: nat): (bs: seq<byte>)
    ensures |bs| == k
  {
    if k == 0 then [] else [n % 256] + ToLittleEndian(n / 256, k - 1)
  }

  function FromLittleEndian(bs: seq<byte>): nat {
    if bs == [] then 0 else bs[0] + 256 * FromLittleEndian(bs[1..])
  }

  lemma {:induction false} LittleEndianRoundTrip(n: nat, k: nat)
    requires n < Power(256, k)
    ensures FromLittleEndian(ToLittleEndian(n, k)) == n
  {
    if k > 0 {
      LittleEndianRoundTrip(n / 256, k - 1);
      assert ToLittleEndian(n, k)[1..] == ToLittleEndian(n / 256, k - 1);
    }
  }

  // -------------------------------------------------------------------- lines

  predicate IsCrlf(s: seq<byte>, i: int) {
    0 <= i && i + 2 <= |s| && s[i] == CR && s[i + 1] == LF
  }

  /** `s.find(b"\r\n", lo, hi)`. */
  function FindCrlf(s: seq<byte>, lo: nat, hi: nat): (r: Option<nat>)
    requires lo <= hi <= |s|
    ensures r.Some? ==> lo <= r.value && r.value + 2 <= hi && IsCrlf(s, r.value)
    ensures forall i :: lo <= i < (if r.Some? then r.value else hi - 1) ==> !IsCrlf(s, i)
    decreases hi - lo
  {
    if hi < lo + 2 then None
    else if s[lo] == CR && s[lo + 1] == LF then Some(lo)
    else FindCrlf(s, lo + 1, hi)
  }

  datatype Scan = NeedMore | Found(line: string, next: nat) | ScanFailed(error: Error)

  /** `scan_line(buf, start, end, search_from)`. */
  function ScanLine(buf: seq<byte>, start: nat, end: nat, searchFrom: nat): Scan
    requires start + searchFrom <= end <= |buf|
  {
    match FindCrlf(buf, start + searchFrom, end)
    case None => if end - start >= MAX_LINE_LEN then ScanFailed(LineTooLong) else NeedMore
    case Some(i) =>
      if IsAscii(buf[start..i]) then Found(Decode(buf[start..i]), i + 2) else ScanFailed(NotAscii)
  }

  /** A line read from a stream: the text before the first CRLF and the bytes
      after it. Overlong marks the one case that depends on how the bytes were
      chunked: the line ends, but past MAX_LINE_LEN bytes. */
  datatype LineStep = Line(text: string, rest: seq<byte>) | LineFailed(error: Error) | Overlong(line: string, rest: seq<byte>)

  function NextLine(s: seq<byte>, fate: Fate): (r: LineStep)
    ensures !r.LineFailed? ==> |r.rest| + 2 <= |s|
  {
    match FindCrlf(s, 0, |s|)
    case None => LineFailed(if |s| >= MAX_LINE_LEN then LineTooLong else Lost(fate))
    case Some(p) =>
      if p + 2 > MAX_LINE_LEN then Overlong(Decode(s[..p]), s[p + 2..])
      else if IsAscii(s[..p]) then Line(Decode(s[..p]), s[p + 2..])
      else LineFailed(NotAscii)
  }

  /** A pending line is refused by some fill level exactly when its CRLF lies
      beyond the line limit: for every shorter line no way of splitting the
      reads makes the scanner fail, for every longer one the level MAX_LINE_LEN
      does. */
  lemma {:induction false} LineLimitIsExact(s: seq<byte>, p: nat)
    requires FindCrlf(s, 0, |s|) == Some(p)
    ensures p + 2 <= MAX_LINE_LEN <==>
            forall k :: 0 <= k <= |s| ==> ScanLine(s, 0, k, 0) != ScanFailed(LineTooLong)
  {
    if p + 2 <= MAX_LINE_LEN {
      forall k | 0 <= k <= |s| ensures ScanLine(s, 0, k, 0) != ScanFailed(LineTooLong) {
        if k >= p + 2 {
          assert IsCrlf(s, p);
          assert FindCrlf(s, 0, k).Some?;
        }
      }
    } else {
      assert ScanLine(s, 0, MAX_LINE_LEN, 0) == ScanFailed(LineTooLong);
    }
  }

  /** A text that can travel as one reply line. */
  predicate IsReplyText(t: string) {
    && IsAsciiText(t) && |t| + 2 <= MAX_LINE_LEN
    && forall i :: 0 <= i < |t| - 1 ==> !(t[i] == '\r' && t[i + 1] == '\n')
  }

  function EncodeLine(t: string): seq<byte>
    requires IsAsciiText(t)
  {
    Encode(t) + [CR, LF]
  }

  /** Reading a line returns the text that was written and stops just after it. */
  lemma {:induction false} LineRoundTrip(t: string, rest: seq<byte>, fate: Fate)
    requires IsReplyText(t)
    ensures NextLine(EncodeLine(t) + rest, fate) == Line(t, rest)
  {
    var s := EncodeLine(t) + rest;
    assert s[..|t|] == Encode(t);
    assert forall i :: 0 <= i < |t| ==> s[i] == t[i] as int;
    assert IsCrlf(s, |t|);
    forall i | 0 <= i < |t| ensures !IsCrlf(s, i) {
      if i == |t| - 1 {
        assert s[i + 1] == CR;
      }
    }
    assert s[|t| + 2..] == rest;
    DecodeOfEncode(t);
  }

  // ------------------------------------------------------------------ replies

  datatype Response = Response(status: string, code: Option<string>, message: Option<string>) {
    /** `bool(resp)`. */
    predicate IsOk() { status == "OK" }
  }

  function NonEmpty(s: string): Option<string> {
    if s == "" then None else Some(s)
  }

  function StripLineEnd(s: string): string {
    if s != "" && (s[|s| - 1] == '\r' || s[|s| - 1] == '\n') then StripLineEnd(s[..|s| - 1]) else s
  }

  /** `s.split(None, 1)` as the first word and the rest, "" when absent. */
  function SplitOnce(s: string): (string, string) {
    var t := StripLeft(s);
    var n := WordLength(t);
    (t[..n], StripLeft(t[n..]))
  }

  /** `parse_reply`. */
  function ParseReply(line: string): Response {
    var text := StripLineEnd(line);
    var (head, _, extra) := Partition(text, '\r');
    var (status, rest) := SplitOnce(head);
    if status == "OK" then Response("OK", None, NonEmpty(extra))
    else if status == "ERROR" then
      var (code, message) := SplitOnce(rest);
      Response("ERROR", NonEmpty(code), if message != "" then Some(message) else NonEmpty(extra))
    else Response(status, None, NonEmpty(text))
  }

  // ------------------------------------------------------------------ headers

  datatype HeaderV3 = HeaderV3(seqnum: Option<int>, isInfo: bool, infoContinues: bool)

  datatype HeaderV4 = HeaderV4(format: char, subformat: char, payloadLength: nat, seqnum: nat, stationIdLength: nat)

  /** One decoded packet frame. */
  datatype Frame = Frame(
    station: string, seqnum: Option<int>, format: char, subformat: char,
    payload: seq<byte>, infoContinues: bool)

  /** `int(bytes, 16)`: on bytes only ASCII white space is stripped, so a byte that
      is a space in text alone fails like any other that is no digit. */
  function BytesInt(bs: seq<byte>): Option<int> {
    if exists i :: 0 <= i < |bs| && (0x1C <= bs[i] <= 0x1F || bs[i] >= 128) then None else PyInt(Decode(bs), 16)
  }

  function ParseHeaderV3(buf: seq<byte>): Result<HeaderV3, Error> {
    if |buf| < HEADSIZE_V3 then Err(BadHeader)
    else if buf[..6] == Encode("SLINFO") then Ok(HeaderV3(None, true, buf[7] == '*' as int))
    else if buf[..2] == Encode("SL") then
      match BytesInt(buf[2..8])
      case None => Err(BadSequence)
      case Some(n) => Ok(HeaderV3(Some(n), false, false))
    else Err(BadHeader)
  }

  /** Layout: 'SE', format, subformat, payload length (u32), sequence number
      (u64) and station ID length (u8), little-endian. */
  function ParseHeaderV4(buf: seq<byte>): (r: Result<HeaderV4, Error>)
    ensures r.Ok? ==> r.value.payloadLength <= MAX_PAYLOAD_SIZE && r.value.stationIdLength <= MAX_STATIONID
  {
    if |buf| < HEADSIZE_V4 then Err(BadHeader)
    else if buf[..2] != Encode("SE") then Err(BadHeader)
    else
      var length := FromLittleEndian(buf[4..8]);
      if length > MAX_PAYLOAD_SIZE then Err(PayloadTooLong)
      else if buf[16] > MAX_STATIONID then Err(StationIdTooLong)
      else if buf[2] >= 128 || buf[3] >= 128 then Err(DecodeFailed)
      else Ok(HeaderV4(buf[2] as char, buf[3] as char, length, FromLittleEndian(buf[8..16]), buf[16]))
  }

  /** `decode_frame_v4_body` on a view holding the whole frame at `start`. */
  function DecodeBodyV4(view: seq<byte>, start: nat, h: HeaderV4): Result<Frame, Error>
    requires start + HEADSIZE_V4 + h.stationIdLength + h.payloadLength <= |view|
  {
    var pos := start + HEADSIZE_V4;
    var id := view[pos..pos + h.stationIdLength];
    var end := pos + h.stationIdLength;
    if IsAscii(id) then
      Ok(Frame(Decode(id), Some(h.seqnum), h.format, h.subformat, view[end..end + h.payloadLength], false))
    else Err(DecodeFailed)
  }

  // ----------------------------------------------------------------- miniSEED

  type positive = n: int | 0 < n witness 1

  datatype Detection = NotRecord | Undecided | RecordLength(length: positive)

  /** What the client asks of libmseed, left uninterpreted: record length
      detection, the station of a record, the text inside an INFO record. */
  datatype Mseed = Mseed(
    detect: seq<byte> -> Detection,
    station: seq<byte> -> Option<string>,
    infoText: seq<byte> -> Option<seq<byte>>)

  function NextSize(size: nat): nat {
    if size * 2 < MAX_RECORD_LEN then size * 2 else MAX_RECORD_LEN
  }

  /** The length found by peeking at 64, 128, ... bytes of the payload. */
  function DetectLength(ms: Mseed, s: seq<byte>, size: nat, fate: Fate): Result<nat, Error>
    requires 0 < size <= MAX_RECORD_LEN
    decreases MAX_RECORD_LEN - size
  {
    if |s| < size then Err(Lost(fate))
    else
      match ms.detect(s[..size])
      case NotRecord => Err(NotMiniSeed)
      case RecordLength(n) => Ok(n)
      case Undecided =>
        if size >= MAX_RECORD_LEN then Err(LengthUndetermined)
        else DetectLength(ms, s, NextSize(size), fate)
  }

  function DecodeV3(ms: Mseed, h: HeaderV3, payload: seq<byte>): Result<Frame, Error> {
    if h.isInfo then
      match ms.infoText(payload)
      case None => Err(BadRecord)
      case Some(text) => Ok(Frame("", None, 'X', 'I', text, h.infoContinues))
    else
      match ms.station(payload)
      case None => Err(BadRecord)
      case Some(id) => Ok(Frame(id, h.seqnum, '2', 'D', payload, false))
  }

  // ------------------------------------------------------------ stream parser

  datatype Item = Packet(frame: Frame) | Reply(response: Response) | EndOfStream

  /** What a reader makes of the start of a stream. */
  datatype Step = Got(item: Item, rest: seq<byte>) | Failed(error: Error) | Ambiguous(line: string)

  function NextPacketV4(s: seq<byte>, fate: Fate): (r: Step)
    ensures r.Got? ==> |r.rest| + HEADSIZE_V4 <= |s| && r.item.Packet?
  {
    if |s| < HEADSIZE_V4 then Failed(Lost(fate))
    else
      match ParseHeaderV4(s[..HEADSIZE_V4])
      case Err(e) => Failed(e)
      case Ok(h) =>
        var total := HEADSIZE_V4 + h.stationIdLength + h.payloadLength;
        if |s| < total then Failed(Lost(fate))
        else
          match DecodeBodyV4(s, 0, h)
          case Err(e) => Failed(e)
          case Ok(f) => Got(Packet(f), s[total..])
  }

  function NextPacketV3(ms: Mseed, s: seq<byte>, fate: Fate): (r: Step)
    ensures r.Got? ==> |r.rest| + HEADSIZE_V3 <= |s| && r.item.Packet?
  {
    if |s| < HEADSIZE_V3 then Failed(Lost(fate))
    else
      match ParseHeaderV3(s[..HEADSIZE_V3])
      case Err(e) => Failed(e)
      case Ok(h) =>
        var body := s[HEADSIZE_V3..];
        match DetectLength(ms, body, MIN_PAYLOAD_DETECT, fate)
        case Err(e) => Failed(e)
        case Ok(n) =>
          if |body| < n then Failed(Lost(fate))
          else
            match DecodeV3(ms, h, body[..n])
            case Err(e) => Failed(e)
            case Ok(f) => Got(Packet(f), body[n..])
  }

  datatype Event = PacketEvent | EndEvent | ErrorEvent | OtherEvent

  /** `classify_stream_prefix`. */
  function ClassifyPrefix(buf: seq<byte>): Event {
    if Encode("END") <= buf then EndEvent
    else if Encode("ERROR") <= buf then ErrorEvent
    else if Encode("SL") <= buf || Encode("SE") <= buf then PacketEvent
    else OtherEvent
  }

  predicate IsPacketSignature(first: byte, second: byte) {
    first == 'S' as int && (second == 'L' as int || second == 'E' as int)
  }

  /** Packet, END or ERROR, decided on two, then three, then five bytes. */
  function Classify(s: seq<byte>, fate: Fate): (r: Result<Event, Error>)
    ensures r == Ok(EndEvent) ==> Encode("END") <= s
  {
    if |s| < 2 then Err(Lost(fate))
    else if IsPacketSignature(s[0], s[1]) then Ok(PacketEvent)
    else if s[0] != 'E' as int then Err(UnexpectedData)
    else if |s| < 3 then Err(Lost(fate))
    else if ClassifyPrefix(s[..3]) == EndEvent then Ok(EndEvent)
    else if |s| < 5 then Err(Lost(fate))
    else if ClassifyPrefix(s[..5]) == ErrorEvent then Ok(ErrorEvent)
    else Err(UnexpectedData)
  }

  /** The first item of a stream and the bytes left behind it. */
  function NextItem(ms: Mseed, version: Version, s: seq<byte>, fate: Fate): (r: Step)
    ensures r.Got? ==> |r.rest| < |s|
  {
    match Classify(s, fate)
    case Err(e) => Failed(e)
    case Ok(EndEvent) => Got(EndOfStream, s[3..])
    case Ok(ErrorEvent) =>
      (match NextLine(s, fate)
       case Line(text, rest) => Got(Reply(ParseReply(text)), rest)
       case LineFailed(e) => Failed(e)
       case Overlong(line, _) => Ambiguous(line))
    case Ok(_) =>
      if version.V4? then NextPacketV4(s, fate) else NextPacketV3(ms, s, fate)
  }

  /** A 3.x sequence number holds no byte that text alone takes for a space. */
  lemma {:induction false} HeaderNumberIsAscii(buf: seq<byte>)
    requires ParseHeaderV3(buf).Ok? && !ParseHeaderV3(buf).value.isInfo
    ensures forall i :: 2 <= i < 8 ==> buf[i] < 0x1C || 0x20 <= buf[i] < 128
  {
    var bs := buf[2..8];
    assert forall i :: 2 <= i < 8 ==> buf[i] == bs[i - 2];
    hide PyInt;
  }

  lemma {:induction false} LengthDecodes(ms: Mseed, s: seq<byte>, size: nat, fate: Fate)
    requires 0 < size <= MAX_RECORD_LEN
    ensures DetectLength(ms, s, size, fate) != Err(DecodeFailed)
    decreases MAX_RECORD_LEN - size
  {
    if |s| >= size && ms.detect(s[..size]).Undecided? && size < MAX_RECORD_LEN {
      LengthDecodes(ms, s, NextSize(size), fate);
    }
  }

  /** Only a 4.0 packet can fail with a plain decode error. */
  lemma {:induction false} OnlyV4FailsToDecode(ms: Mseed, version: Version, s: seq<byte>, fate: Fate)
    requires NextItem(ms, version, s, fate) == Failed(DecodeFailed)
    ensures version.V4? && NextPacketV4(s, fate) == Failed(DecodeFailed)
    ensures Classify(s, fate).Ok? && Classify(s, fate).value !in {EndEvent, ErrorEvent}
  {
    hide NextPacketV4, FindCrlf, ParseReply;
    if |s| >= HEADSIZE_V3 {
      LengthDecodes(ms, s[HEADSIZE_V3..], MIN_PAYLOAD_DETECT, fate);
    }
  }

  /** Bytes that begin no packet, no END and no ERROR are refused for what they are. */
  lemma {:induction false} OthersRefused(ms: Mseed, version: Version, s: seq<byte>, fate: Fate)
    requires |s| >= 5
    requires Encode("SL") != s[..2] && Encode("SE") != s[..2] && Encode("END") != s[..3] && Encode("ERROR") != s[..5]
    ensures NextItem(ms, version, s, fate) == Failed(UnexpectedData)
  {
    assert s[..2] == [s[0], s[1]] && s[..5][..3] == s[..3];
    assert Encode("SL") == ['S' as int, 'L' as int] && Encode("SE") == ['S' as int, 'E' as int];
    assert Encode("ERROR")[0] == 'E' as int && Encode("END")[0] == 'E' as int;
  }

  /** The `k`th size a record is looked at: doubled each time, to the limit. */
  function SizeTried(k: nat): nat {
    if k == 0 then MIN_PAYLOAD_DETECT else 2 * SizeTried(k - 1)
  }

  lemma {:induction false} SizesTried(ms: Mseed, s: seq<byte>, fate: Fate, k: nat, j: nat)
    requires j <= k && SizeTried(k) <= MAX_RECORD_LEN && SizeTried(k) <= |s|
    requires forall i :: j <= i < k ==> SizeTried(i) <= |s| && ms.detect(s[..SizeTried(i)]).Undecided?
    ensures 0 < SizeTried(j) <= SizeTried(k)
    ensures DetectLength(ms, s, SizeTried(j), fate) == DetectLength(ms, s, SizeTried(k), fate)
    decreases k - j
  {
    if j < k {
      SizesTried(ms, s, fate, k, j + 1);
    } else {
      SizePositive(j);
    }
  }

  lemma {:induction false} SizePositive(k: nat)
    ensures SizeTried(k) > 0
  {
    if k > 0 {
      SizePositive(k - 1);
    }
  }

  /** The first of 64, 128, ... bytes, up to the limit, at which the record shows its
      length, gives it. */
  lemma {:induction false} LengthDetected(ms: Mseed, s: seq<byte>, fate: Fate, k: nat)
    requires SizeTried(k) <= MAX_RECORD_LEN && SizeTried(k) <= |s|
    requires forall i :: 0 <= i < k ==> SizeTried(i) <= |s| && ms.detect(s[..SizeTried(i)]).Undecided?
    requires ms.detect(s[..SizeTried(k)]).RecordLength?
    ensures DetectLength(ms, s, MIN_PAYLOAD_DETECT, fate) == Ok(ms.detect(s[..SizeTried(k)]).length)
  {
    SizesTried(ms, s, fate, k, 0);
  }

  // ------------------------------------------------- packets as servers send them

  datatype Message = DataV4(frame: Frame) | DataV3(seqnum: nat, record: seq<byte>) | InfoV3(record: seq<byte>, more: bool)

  /** The detector recognises `record` from its own bytes at one of the sizes tried. */
  predicate Detectable(ms: Mseed, record: seq<byte>, size: nat)
    requires 0 < size <= MAX_RECORD_LEN
    decreases MAX_RECORD_LEN - size
  {
    && size <= |record|
    && match ms.detect(record[..size])
       case NotRecord => false
       case RecordLength(n) => n == |record|
       case Undecided => size < MAX_RECORD_LEN && Detectable(ms, record, NextSize(size))
  }

  /** What the protocols allow a server to send. */
  predicate IsWellFormed(ms: Mseed, version: Version, m: Message) {
    match m
    case DataV4(f) =>
      && version.V4?
      && f.seqnum.Some? && 0 <= f.seqnum.value < Power(256, 8)
      && |f.payload| <= MAX_PAYLOAD_SIZE && |f.station| <= MAX_STATIONID
      && IsAsciiText(f.station) && IsAsciiText([f.format, f.subformat]) && !f.infoContinues
    case DataV3(n, record) =>
      version.V3? && n < Power(16, 6) && Detectable(ms, record, MIN_PAYLOAD_DETECT) && ms.station(record).Some?
    case InfoV3(record, _) =>
      version.V3? && Detectable(ms, record, MIN_PAYLOAD_DETECT) && ms.infoText(record).Some?
  }

  function HexField(n: nat): (s: string)
    ensures |s| == 6 && IsAsciiText(s) && AllDigits(s, 16)
  {
    FixedDigits(n, 6, 16)
  }

  /** The bytes of a message on the wire. */
  function Wire(ms: Mseed, version: Version, m: Message): seq<byte>
    requires IsWellFormed(ms, version, m)
  {
    match m
    case DataV4(f) =>
      Encode("SE") + Encode([f.format, f.subformat]) + ToLittleEndian(|f.payload|, 4)
      + ToLittleEndian(f.seqnum.value, 8) + [|f.station|] + Encode(f.station) + f.payload
    case DataV3(n, record) => Encode("SL") + Encode(HexField(n)) + record
    case InfoV3(record, more) => Encode("SLINFO") + Encode(if more then " *" else "  ") + record
  }

  /** What a message means to the client. */
  function Meaning(ms: Mseed, version: Version, m: Message): Frame
    requires IsWellFormed(ms, version, m)
  {
    match m
    case DataV4(f) => f
    case DataV3(n, record) => Frame(ms.station(record).value, Some(n), '2', 'D', record, false)
    case InfoV3(record, more) => Frame("", None, 'X', 'I', ms.infoText(record).value, more)
  }

  lemma {:induction false} HeaderV4RoundTrip(ms: Mseed, f: Frame)
    requires IsWellFormed(ms, V4, DataV4(f))
    ensures ParseHeaderV4(Wire(ms, V4, DataV4(f))[..HEADSIZE_V4])
         == Ok(HeaderV4(f.format, f.subformat, |f.payload|, f.seqnum.value, |f.station|))
  {
    var w := Wire(ms, V4, DataV4(f))[..HEADSIZE_V4];
    assert w[..2] == Encode("SE");
    assert w[4..8] == ToLittleEndian(|f.payload|, 4);
    assert w[8..16] == ToLittleEndian(f.seqnum.value, 8);
    var formats := [f.format, f.subformat];
    assert w[2..4] == Encode(formats);
    assert w[2] == w[2..4][0] == formats[0] as int && w[3] == w[2..4][1] == formats[1] as int;
    assert Power(256, 4) == 4294967296;
    LittleEndianRoundTrip(|f.payload|, 4);
    LittleEndianRoundTrip(f.seqnum.value, 8);
  }

  lemma {:induction false} BodyV4RoundTrip(ms: Mseed, f: Frame, rest: seq<byte>, fate: Fate)
    requires IsWellFormed(ms, V4, DataV4(f))
    ensures NextPacketV4(Wire(ms, V4, DataV4(f)) + rest, fate) == Got(Packet(f), rest)
  {
    var w := Wire(ms, V4, DataV4(f));
    var s := w + rest;
    HeaderV4RoundTrip(ms, f);
    assert s[..HEADSIZE_V4] == w[..HEADSIZE_V4];
    var mid := HEADSIZE_V4 + |f.station|;
    assert s[HEADSIZE_V4..mid] == Encode(f.station);
    assert s[mid..mid + |f.payload|] == f.payload;
    assert s[|w|..] == rest;
    DecodeOfEncode(f.station);
  }

  lemma {:induction false} HexBytes(n: nat)
    ensures BytesInt(Encode(HexField(n))) == PyInt(Decode(Encode(HexField(n))), 16)
  {
    var s := HexField(n);
    hide PyInt, FixedDigits;
    forall i | 0 <= i < 6 ensures !(0x1C <= Encode(s)[i] <= 0x1F || Encode(s)[i] >= 128) {
      assert DigitValue(s[i]) < 16;
    }
  }

  lemma {:induction false} HeaderV3RoundTrip(n: nat)
    requires n < Power(16, 6)
    ensures ParseHeaderV3(Encode("SL") + Encode(HexField(n))) == Ok(HeaderV3(Some(n), false, false))
  {
    var h := Encode("SL") + Encode(HexField(n));
    assert h[2..8] == Encode(HexField(n));
    assert DigitValue(HexField(n)[0]) < 16;
    assert h[2] == HexField(n)[0] as int;
    assert Encode("SLINFO")[2] == 'I' as int;
    assert h[..6] != Encode("SLINFO") by {
      assert h[..6][2] == h[2];
    }
    assert h[..2] == Encode("SL");
    DecodeOfEncode(HexField(n));
    HexBytes(n);
    ParseOfFixedDigits(n, 6, 16);
    assert ParseDigits(HexField(n), 16, 0, true) == ParseDigits(HexField(n), 16, 0, false);
    PyIntOfDigits(HexField(n), 16, n);
  }

  lemma {:induction false} DetectOfDetectable(ms: Mseed, record: seq<byte>, rest: seq<byte>, size: nat, fate: Fate)
    requires 0 < size <= MAX_RECORD_LEN
    requires Detectable(ms, record, size)
    ensures DetectLength(ms, record + rest, size, fate) == Ok(|record|)
    decreases MAX_RECORD_LEN - size
  {
    assert (record + rest)[..size] == record[..size];
    if ms.detect(record[..size]).Undecided? {
      DetectOfDetectable(ms, record, rest, NextSize(size), fate);
    }
  }

  lemma {:induction false} BodyV3RoundTrip(ms: Mseed, header: seq<byte>, h: HeaderV3, record: seq<byte>, f: Frame, rest: seq<byte>, fate: Fate)
    requires |header| == HEADSIZE_V3 && ParseHeaderV3(header) == Ok(h)
    requires Detectable(ms, record, MIN_PAYLOAD_DETECT) && DecodeV3(ms, h, record) == Ok(f)
    ensures NextPacketV3(ms, header + record + rest, fate) == Got(Packet(f), rest)
  {
    var s := header + record + rest;
    assert s[..HEADSIZE_V3] == header;
    assert s[HEADSIZE_V3..] == record + rest;
    DetectOfDetectable(ms, record, rest, MIN_PAYLOAD_DETECT, fate);
    assert (record + rest)[..|record|] == record;
    assert (record + rest)[|record|..] == rest;
  }

  lemma {:induction false} DataV4RoundTrip(ms: Mseed, f: Frame, rest: seq<byte>, fate: Fate)
    requires IsWellFormed(ms, V4, DataV4(f))
    ensures NextItem(ms, V4, Wire(ms, V4, DataV4(f)) + rest, fate) == Got(Packet(f), rest)
  {
    hide NextPacketV4;
    BodyV4RoundTrip(ms, f, rest, fate);
    var s := Wire(ms, V4, DataV4(f)) + rest;
    assert s[0] == Encode("SE")[0] && s[1] == Encode("SE")[1];
  }

  lemma {:induction false} DataV3RoundTrip(ms: Mseed, n: nat, record: seq<byte>, rest: seq<byte>, fate: Fate)
    requires IsWellFormed(ms, V3, DataV3(n, record))
    ensures NextItem(ms, V3, Wire(ms, V3, DataV3(n, record)) + rest, fate) == Got(Packet(Meaning(ms, V3, DataV3(n, record))), rest)
  {
    hide NextPacketV3, DetectLength, Detectable, ParseHeaderV3;
    var header := Encode("SL") + Encode(HexField(n));
    HeaderV3RoundTrip(n);
    BodyV3RoundTrip(ms, header, HeaderV3(Some(n), false, false), record, Meaning(ms, V3, DataV3(n, record)), rest, fate);
    var s := header + record + rest;
    assert s[0] == Encode("SL")[0] && s[1] == Encode("SL")[1];
  }

  lemma {:induction false} InfoHeader(more: bool)
    ensures ParseHeaderV3(Encode("SLINFO") + Encode(if more then " *" else "  ")) == Ok(HeaderV3(None, true, more))
  {
    var header := Encode("SLINFO") + Encode(if more then " *" else "  ");
    assert header[..6] == Encode("SLINFO");
    assert header[7] == (if more then " *" else "  ")[1] as int;
  }

  lemma {:induction false} InfoV3RoundTrip(ms: Mseed, record: seq<byte>, more: bool, rest: seq<byte>, fate: Fate)
    requires IsWellFormed(ms, V3, InfoV3(record, more))
    ensures NextItem(ms, V3, Wire(ms, V3, InfoV3(record, more)) + rest, fate) == Got(Packet(Meaning(ms, V3, InfoV3(record, more))), rest)
  {
    hide NextPacketV3, DetectLength, Detectable, ParseHeaderV3;
    var header := Encode("SLINFO") + Encode(if more then " *" else "  ");
    InfoHeader(more);
    BodyV3RoundTrip(ms, header, HeaderV3(None, true, more), record, Meaning(ms, V3, InfoV3(record, more)), rest, fate);
    var s := header + record + rest;
    assert s[0] == Encode("SLINFO")[0] && s[1] == Encode("SLINFO")[1];
  }

  /** Whatever follows a message, the parser returns exactly that message and
      leaves exactly what follows. */
  lemma {:induction false} PacketRoundTrip(ms: Mseed, version: Version, m: Message, rest: seq<byte>, fate: Fate)
    requires IsWellFormed(ms, version, m)
    ensures NextItem(ms, version, Wire(ms, version, m) + rest, fate) == Got(Packet(Meaning(ms, version, m)), rest)
  {
    hide NextItem;
    match m {
      case DataV4(f) => DataV4RoundTrip(ms, f, rest, fate);
      case DataV3(n, record) => DataV3RoundTrip(ms, n, record, rest, fate);
      case InfoV3(record, more) => InfoV3RoundTrip(ms, record, more, rest, fate);
    }
  }
}
