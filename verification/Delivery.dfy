/** A client that reconnects and resumes against a server that logs packets per
    station, over a network that delays, fragments and drops. In every run the
    packets handed to the caller for a station are a contiguous piece of that
    station's log. */
module Delivery {
  import opened Text
  import opened Protocol
  import opened Framing
  import opened Streams
  import opened Times
  import opened Commands
  import opened Negotiation
  import opened Servers
  import opened Subscription
  import opened Selections
  import opened Collect

  /** What stays fixed in a run. */
  datatype Site = Site(ms: Mseed, version: Version, glob: Glob, iso: IsoReader, times: StartTimes, dialup: bool)

  datatype World = World(
    /** The packets the server holds for each station, oldest first. */
    logs: map<string, seq<Message>>,
    /** Per connection: the next log index to send for each subscribed station. */
    cursors: map<string, nat>,
    /** Bytes sent and not yet received, received and not yet consumed. */
    inFlight: seq<byte>,
    buffered: seq<byte>,
    connected: bool,
    over: bool,
    streams: seq<Tracked>,
    /** Everything handed to the caller. */
    yielded: seq<Frame>,
    /** History, read by no step: messages sent on this connection and not yet
        consumed, the text that closes the connection, and the log index each
        station's delivery began at. */
    unread: seq<Message>,
    trailer: seq<byte>,
    base: map<string, nat>)

  // ------------------------------------------------------------ logs and frames

  function Seen(s: Site, m: Message): Frame {
    if IsWellFormed(s.ms, s.version, m) then Meaning(s.ms, s.version, m) else Frame("", None, 'X', 'I', [], false)
  }

  function SeqOf(s: Site, m: Message): int {
    if Seen(s, m).seqnum.Some? then Seen(s, m).seqnum.value else -1
  }

  predicate IsData(s: Site, m: Message) { React(Packet(Seen(s, m))).Yields? }

  /** A packet a server may log for a station. In 3.x its successor must still fit
      the six hexadecimal digits of a sequence number. */
  predicate IsEntry(s: Site, x: string, m: Message) {
    && IsWellFormed(s.ms, s.version, m) && IsData(s, m)
    && Seen(s, m).station == x && Seen(s, m).seqnum.Some?
    && (s.version.V3? ==> SeqOf(s, m) < 0xFFFFFF)
  }

  predicate IsLog(s: Site, x: string, log: seq<Message>) {
    && (forall i :: 0 <= i < |log| ==> IsEntry(s, x, log[i]))
    && (forall i, j :: 0 <= i < j < |log| ==> SeqOf(s, log[i]) < SeqOf(s, log[j]))
  }

  function LogOf(w: World, x: string): seq<Message> {
    if x in w.logs then w.logs[x] else []
  }

  /** How many entries are numbered `n` or lower. */
  function After(s: Site, log: seq<Message>, n: int): (k: nat)
    ensures k <= |log|
  {
    if log == [] || SeqOf(s, log[0]) > n then 0 else 1 + After(s, log[1..], n)
  }

  /** The packets of a list that are data of one station. */
  function OfStation(s: Site, x: string, msgs: seq<Message>): seq<Message> {
    if msgs == [] then []
    else (if IsData(s, msgs[0]) && Seen(s, msgs[0]).station == x then [msgs[0]] else []) + OfStation(s, x, msgs[1..])
  }

  function FramesOf(x: string, fs: seq<Frame>): seq<Frame> {
    if fs == [] then []
    else FramesOf(x, fs[..|fs| - 1]) + if fs[|fs| - 1].station == x then [fs[|fs| - 1]] else []
  }

  function SeenAll(s: Site, msgs: seq<Message>): (fs: seq<Frame>)
    ensures |fs| == |msgs|
    ensures forall i :: 0 <= i < |msgs| ==> fs[i] == Seen(s, msgs[i])
  {
    if msgs == [] then [] else [Seen(s, msgs[0])] + SeenAll(s, msgs[1..])
  }

  /** These frames are the log's entries from index `lo` on. */
  predicate IsPiece(s: Site, log: seq<Message>, lo: nat, fs: seq<Frame>) {
    lo + |fs| <= |log| && fs == SeenAll(s, log[lo..lo + |fs|])
  }

  // -------------------------------------------------------------------- steps

  datatype Action =
    | Append(station: string, m: Message)
    | Send(station: string)
    | SendOther(m: Message)
    | SendLast(text: string)
    | Arrive(count: nat)
    | Read
    | Drop
    | SaveState
    | FailedTry
    | Reconnect(batch: bool, lines: seq<string>, starts: map<string, nat>)

  function OptionsOf(s: Site, batch: bool): Options {
    Options(s.version, s.dialup, true, true, true, batch, None, None)
  }

  /** What the client negotiates with: its streams in request order. */
  function Configs(s: Site, w: World): seq<Config> {
    SortStreams(ConfigsOf(PlannedAll(s.times, s.version.V3?, w.streams)))
  }

  function Negotiated(s: Site, w: World, batch: bool, lines: seq<string>): Negotiation.Run {
    RunWalk(FreshWalk, Plan(OptionsOf(s, batch), s.iso, Configs(s, w)).value, lines)
  }

  function SubsAfter(s: Site, w: World, batch: bool, lines: seq<string>): seq<Sub> {
    Serve(NewServer(s.version, batch), Negotiated(s, w, batch, lines).sent, lines).server.subs
  }

  /** The first accepted request for a station. */
  function RequestFor(subs: seq<Sub>, x: string): Option<Request> {
    if subs == [] then None
    else if subs[0].station == x && subs[0].request.Some? then subs[0].request
    else RequestFor(subs[1..], x)
  }

  function Requested(subs: seq<Sub>): set<string> {
    if subs == [] then {} else (if subs[0].request.Some? then {subs[0].station} else {}) + Requested(subs[1..])
  }

  /** The log index a request starts at. A request for the next packet starts
      wherever the server stands, which `chosen` decides. */
  function StartIndex(s: Site, log: seq<Message>, r: Request, chosen: nat): (k: nat)
    ensures k <= |log|
  {
    match r
    case Resume(FromSeq(n), _) => After(s, log, n - 1)
    case Resume(Earliest, _) => 0
    case _ => if chosen <= |log| then chosen else |log|
  }

  function CursorsAfter(s: Site, w: World, subs: seq<Sub>, starts: map<string, nat>): map<string, nat> {
    map x | x in Requested(subs) ::
      StartIndex(s, LogOf(w, x), if RequestFor(subs, x).Some? then RequestFor(subs, x).value else Resume(Next, None),
                 if x in starts then starts[x] else 0)
  }

  /** A station nothing was handed out for yet begins where its cursor is. */
  function BasesAfter(w: World, cursors: map<string, nat>): map<string, nat> {
    map x | x in w.base.Keys + cursors.Keys ::
      if x in cursors && FramesOf(x, w.yielded) == [] then cursors[x] else if x in w.base then w.base[x] else 0
  }

  predicate IsLastText(text: string) {
    text == "END" || ("ERROR" <= text && IsReplyText(text))
  }

  function LastBytes(text: string): seq<byte>
    requires IsLastText(text)
  {
    if text == "END" then Encode(text) else EncodeLine(text)
  }

  predicate Enabled(s: Site, w: World, a: Action) {
    match a
    case Append(x, m) =>
      IsEntry(s, x, m) && (LogOf(w, x) == [] || SeqOf(s, LogOf(w, x)[|LogOf(w, x)| - 1]) < SeqOf(s, m))
    case Send(x) => w.connected && w.trailer == [] && x in w.cursors && w.cursors[x] < |LogOf(w, x)|
    case SendOther(m) => w.connected && w.trailer == [] && IsWellFormed(s.ms, s.version, m) && !IsData(s, m)
    case SendLast(text) => w.connected && w.trailer == [] && IsLastText(text)
    case Arrive(count) => count <= |w.inFlight|
    case Read => w.connected && !w.over && NextItem(s.ms, s.version, w.buffered, Eof).Got?
    case Drop => w.connected && !w.over
    case SaveState => true
    case FailedTry => !w.connected && !w.over
    case Reconnect(batch, lines, _) => CanReconnect(s, w, batch, lines)
  }

  /** The server's replies let the negotiation through. */
  predicate CanReconnect(s: Site, w: World, batch: bool, lines: seq<string>) {
    && !w.connected && !w.over && w.streams != []
    && AllSendable(Plan(OptionsOf(s, batch), s.iso, Configs(s, w)).value)
    && Negotiated(s, w, batch, lines).outcome == Accepted
  }

  /** `close()`: whatever was sent and not consumed is gone. */
  function Closed(w: World): World {
    w.(connected := false, cursors := map[], inFlight := [], buffered := [], unread := [], trailer := [])
  }

  function AfterRead(s: Site, w: World, item: Item, rest: seq<byte>): World {
    match React(item)
    case Yields(f) =>
      w.(buffered := rest, unread := Rest(w.unread), yielded := w.yielded + [f],
         streams := UpdatedAll(s.glob, f, w.streams))
    case Skips => w.(buffered := rest, unread := Rest(w.unread))
    case Closes => Closed(w)
    case Finishes => Closed(w).(over := true)
  }

  /** The step an enabled action takes. */
  function Do(s: Site, w: World, a: Action): World
    requires Enabled(s, w, a)
  {
    match a
    case Append(x, m) => w.(logs := w.logs[x := LogOf(w, x) + [m]])
    case Send(x) =>
      var m := LogOf(w, x)[w.cursors[x]];
      if IsWellFormed(s.ms, s.version, m) then
        w.(inFlight := w.inFlight + Wire(s.ms, s.version, m), unread := w.unread + [m],
           cursors := w.cursors[x := w.cursors[x] + 1])
      else w
    case SendOther(m) => w.(inFlight := w.inFlight + Wire(s.ms, s.version, m), unread := w.unread + [m])
    case SendLast(text) => w.(inFlight := w.inFlight + LastBytes(text), trailer := LastBytes(text))
    case Arrive(count) => w.(inFlight := w.inFlight[count..], buffered := w.buffered + w.inFlight[..count])
    case Read =>
      var step := NextItem(s.ms, s.version, w.buffered, Eof);
      AfterRead(s, w, step.item, step.rest)
    case Drop => Closed(w)
    case SaveState => w.(streams := SettledAll(s.times, w.streams))
    case FailedTry => w.(streams := PlannedAll(s.times, s.version.V3?, w.streams))
    case Reconnect(batch, lines, starts) =>
      var cursors := CursorsAfter(s, w, SubsAfter(s, w, batch, lines), starts);
      w.(connected := true, cursors := cursors, streams := PlannedAll(s.times, s.version.V3?, w.streams),
         base := BasesAfter(w, cursors))
  }

  /** Where a run ends, if each action is enabled when its turn comes. */
  function Final(s: Site, w: World, actions: seq<Action>): Option<World>
    decreases |actions|
  {
    if actions == [] then Some(w)
    else if !Enabled(s, w, actions[0]) then None
    else Final(s, Do(s, w, actions[0]), actions[1..])
  }

  lemma {:induction false} FirstStep(s: Site, w: World, a: Action, rest: seq<Action>)
    requires Enabled(s, w, a)
    ensures Final(s, w, [a] + rest) == Final(s, Do(s, w, a), rest)
  {
    hide Do, Enabled;
    assert ([a] + rest)[1..] == rest;
  }

  lemma {:induction false} EmptyRun(s: Site, w: World)
    ensures Final(s, w, []) == Some(w)
  {
    hide Enabled, Do;
  }

  // ---------------------------------------------------------------- invariant

  /** Streams the theorem covers: exact, distinct, nameable station IDs. */
  predicate AreExact(s: Site, ts: seq<Tracked>) {
    && (forall i :: 0 <= i < |ts| ==> !IsPattern(ts[i].config.id) && IsSpeakable(OptionsOf(s, false), ts[i].config))
    && (forall i, j :: 0 <= i < j < |ts| ==> ts[i].config.id != ts[j].config.id)
  }

  /** One station's part of the world: its log, its cursor and base, what was
      handed out, what is under way, and the number its stream holds. */
  datatype Lane = Lane(
    log: seq<Message>, cursor: Option<nat>, base: nat, got: seq<Frame>, way: seq<Message>, seqnum: Option<int>)

  function LaneOf(s: Site, w: World, t: Tracked): Lane {
    var x := t.config.id;
    Lane(LogOf(w, x), if x in w.cursors then Some(w.cursors[x]) else None, if x in w.base then w.base[x] else 0,
         FramesOf(x, w.yielded), OfStation(s, x, w.unread), t.config.seqnum)
  }

  /** The sequence number a stream started the run with, and whether its log had
      reached that number then. */
  datatype First = First(number: Option<int>, held: bool) {
    function Known(): Option<int> { if held then number else None }
  }

  /** What was handed out is log[base..base+n] and the stream holds its last
      number; it begins right behind a number its log had reached. */
  predicate HandedOut(s: Site, l: Lane, first: First) {
    var next := l.base + |l.got|;
    if l.got == [] then l.seqnum == first.number
    else
      && next <= |l.log| && l.got == SeenAll(s, l.log[l.base..next]) && l.seqnum == Some(SeqOf(s, l.log[next - 1]))
      && (first.Known().Some? ==> l.base == After(s, l.log, first.Known().value))
  }

  /** What is under way continues exactly where the deliveries stopped. */
  predicate UnderWay(s: Site, l: Lane, first: First) {
    var next := l.base + |l.got|;
    if l.cursor.None? then l.way == []
    else
      && next <= l.cursor.value <= |l.log| && l.way == l.log[next..l.cursor.value]
      && (first.Known().Some? ==> l.base == After(s, l.log, first.Known().value))
  }

  /** The log still reaches the number the run started with. */
  predicate StillHeld(s: Site, log: seq<Message>, n: Option<int>) {
    n.Some? ==> log != [] && n.value <= SeqOf(s, log[|log| - 1])
  }

  predicate LaneInv(s: Site, x: string, l: Lane, first: First) {
    IsLog(s, x, l.log) && HandedOut(s, l, first) && UnderWay(s, l, first) && StillHeld(s, l.log, first.Known())
  }

  predicate WireInv(s: Site, w: World) {
    && AllWellFormed(s.ms, s.version, w.unread)
    && w.buffered + w.inFlight == WireAll(s.ms, s.version, w.unread) + w.trailer
    && (w.trailer == [] || w.trailer[0] == 'E' as int)
  }

  predicate LogsInv(s: Site, w: World) {
    forall x :: x in w.logs ==> IsLog(s, x, w.logs[x])
  }

  predicate Inv(s: Site, w: World, firsts: seq<First>) {
    && LogsInv(s, w)
    && AreExact(s, w.streams) && |w.streams| == |firsts|
    && WireInv(s, w)
    && (!w.connected ==> w.unread == [] && w.trailer == [] && w.cursors == map[])
    && (forall i :: 0 <= i < |firsts| ==> LaneInv(s, w.streams[i].config.id, LaneOf(s, w, w.streams[i]), firsts[i]))
  }

  // ------------------------------------------------------------ small lemmas

  lemma {:induction false} AfterAppend(s: Site, log: seq<Message>, m: Message, n: int)
    requires SeqOf(s, m) > n
    ensures After(s, log + [m], n) == After(s, log, n)
  {
    if log != [] {
      assert (log + [m])[1..] == log[1..] + [m];
      AfterAppend(s, log[1..], m, n);
    }
  }

  /** Asking for the successor of an entry lands just behind it. */
  lemma {:induction false} AfterEntry(s: Site, x: string, log: seq<Message>, k: nat)
    requires IsLog(s, x, log) && k < |log|
    ensures After(s, log, SeqOf(s, log[k])) == k + 1
  {
    hide SeqOf, IsEntry;
    if k > 0 {
      AfterEntry(s, x, log[1..], k - 1);
    } else if |log| > 1 {
      assert After(s, log[1..], SeqOf(s, log[0])) == 0;
    }
  }

  lemma {:induction false} OfStationAppend(s: Site, x: string, msgs: seq<Message>, m: Message)
    ensures OfStation(s, x, msgs + [m])
         == OfStation(s, x, msgs) + if IsData(s, m) && Seen(s, m).station == x then [m] else []
  {
    hide IsData, Seen;
    if msgs == [] {
      assert ([] + [m])[1..] == [];
    } else {
      assert (msgs + [m])[1..] == msgs[1..] + [m];
      OfStationAppend(s, x, msgs[1..], m);
    }
  }

  lemma {:induction false} WireAllAppend(ms: Mseed, version: Version, msgs: seq<Message>, m: Message)
    requires AllWellFormed(ms, version, msgs) && IsWellFormed(ms, version, m)
    ensures WireAll(ms, version, msgs + [m]) == WireAll(ms, version, msgs) + Wire(ms, version, m)
  {
    hide Wire, IsWellFormed;
    if msgs == [] {
      assert ([] + [m])[1..] == [];
    } else {
      assert (msgs + [m])[1..] == msgs[1..] + [m];
      WireAllAppend(ms, version, msgs[1..], m);
    }
  }

  lemma {:induction false} NoPacketAfterE(ms: Mseed, version: Version, b: seq<byte>, fate: Fate)
    requires b == [] || b[0] == 'E' as int
    ensures !(NextItem(ms, version, b, fate).Got? && NextItem(ms, version, b, fate).item.Packet?)
  {
  }

  /** A packet read from the buffer is the oldest unread message, read whole. */
  lemma {:induction false} HeadOfUnread(s: Site, w: World)
    requires WireInv(s, w)
    requires NextItem(s.ms, s.version, w.buffered, Eof).Got? && NextItem(s.ms, s.version, w.buffered, Eof).item.Packet?
    ensures
      var step := NextItem(s.ms, s.version, w.buffered, Eof);
      && w.unread != [] && step.item.frame == Seen(s, w.unread[0])
      && step.rest + w.inFlight == WireAll(s.ms, s.version, w.unread[1..]) + w.trailer
  {
    hide NextItem, Wire, Meaning, IsWellFormed;
    var all := w.buffered + w.inFlight;
    if w.unread == [] {
      assert w.buffered != [] ==> w.buffered[0] == all[0] == w.trailer[0];
      NoPacketAfterE(s.ms, s.version, w.buffered, Eof);
    } else {
      var wire := Wire(s.ms, s.version, w.unread[0]);
      var later := WireAll(s.ms, s.version, w.unread[1..]) + w.trailer;
      assert all == wire + later;
      if |w.buffered| < |wire| {
        assert w.buffered == all[..|w.buffered|] == wire[..|w.buffered|];
        TruncatedMessage(s.ms, s.version, w.unread[0], |w.buffered|, Eof);
      } else {
        var rest := w.buffered[|wire|..];
        assert w.buffered == wire + rest by {
          assert w.buffered[..|wire|] == all[..|wire|] == wire;
        }
        PacketRoundTrip(s.ms, s.version, w.unread[0], rest, Eof);
        assert rest + w.inFlight == all[|wire|..] == later;
      }
    }
  }

  // --------------------------------------------------- what a step does to a lane

  lemma {:induction false} LogGrows(s: Site, x: string, log: seq<Message>, m: Message)
    requires IsLog(s, x, log) && IsEntry(s, x, m)
    requires log == [] || SeqOf(s, log[|log| - 1]) < SeqOf(s, m)
    ensures IsLog(s, x, log + [m])
  {
    hide IsEntry, SeqOf;
    assert forall i :: 0 <= i < |log| ==> (log + [m])[i] == log[i] && SeqOf(s, log[i]) <= SeqOf(s, log[|log| - 1]);
  }

  lemma {:induction false} SliceOfAppend(log: seq<Message>, m: Message, lo: nat, hi: nat)
    ensures lo <= hi <= |log| ==> (log + [m])[lo..hi] == log[lo..hi]
    ensures 0 < hi <= |log| ==> (log + [m])[hi - 1] == log[hi - 1]
  {
  }

  lemma {:induction false} HandedOutAppend(s: Site, l: Lane, m: Message, first: First)
    requires HandedOut(s, l, first) && (first.Known().Some? ==> first.Known().value < SeqOf(s, m))
    ensures HandedOut(s, l.(log := l.log + [m]), first)
  {
    hide SeqOf, SeenAll, After;
    SliceOfAppend(l.log, m, l.base, l.base + |l.got|);
    AfterAppend(s, l.log, m, if first.Known().Some? then first.Known().value else SeqOf(s, m) - 1);
  }

  lemma {:induction false} UnderWayAppend(s: Site, l: Lane, m: Message, first: First)
    requires UnderWay(s, l, first) && (first.Known().Some? ==> first.Known().value < SeqOf(s, m))
    ensures UnderWay(s, l.(log := l.log + [m]), first)
  {
    hide SeqOf, After;
    SliceOfAppend(l.log, m, l.base + |l.got|, if l.cursor.Some? then l.cursor.value else 0);
    AfterAppend(s, l.log, m, if first.Known().Some? then first.Known().value else SeqOf(s, m) - 1);
  }

  lemma {:induction false} LaneAppend(s: Site, x: string, l: Lane, m: Message, first: First)
    requires LaneInv(s, x, l, first) && IsEntry(s, x, m)
    requires l.log == [] || SeqOf(s, l.log[|l.log| - 1]) < SeqOf(s, m)
    ensures LaneInv(s, x, l.(log := l.log + [m]), first)
  {
    hide IsLog, IsEntry, SeqOf, HandedOut, UnderWay;
    LogGrows(s, x, l.log, m);
    HandedOutAppend(s, l, m, first);
    UnderWayAppend(s, l, m, first);
  }

  lemma {:induction false} LaneSend(s: Site, x: string, l: Lane, first: First)
    requires LaneInv(s, x, l, first) && l.cursor.Some? && l.cursor.value < |l.log|
    ensures var k := l.cursor.value;
            LaneInv(s, x, l.(cursor := Some(k + 1), way := l.way + [l.log[k]]), first)
  {
    hide IsLog, SeqOf, Seen, After, SeenAll, StillHeld;
    SliceSnoc(l.log, l.base + |l.got|, l.cursor.value);
  }

  lemma {:induction false} SliceSnoc(log: seq<Message>, lo: nat, hi: nat)
    requires lo <= hi < |log|
    ensures log[lo..hi + 1] == log[lo..hi] + [log[hi]]
  {
  }

  lemma {:induction false} HandedOutRead(s: Site, l: Lane, m: Message, way: seq<Message>, first: First)
    requires HandedOut(s, l, first) && l.base + |l.got| < |l.log| && l.log[l.base + |l.got|] == m
    requires l.got == [] && first.Known().Some? ==> l.base == After(s, l.log, first.Known().value)
    ensures HandedOut(s, l.(got := l.got + [Seen(s, m)], way := way, seqnum := Some(SeqOf(s, m))), first)
  {
    hide SeqOf, Seen, After;
    var next := l.base + |l.got|;
    SliceSnoc(l.log, l.base, next);
    SeenAllAppend(s, l.log[l.base..next], m);
    hide SeenAll, StillHeld;
    if l.got == [] {
      assert l.log[l.base..next] == [];
    }
  }

  lemma {:induction false} LaneRead(s: Site, x: string, l: Lane, first: First)
    requires LaneInv(s, x, l, first) && l.way != []
    ensures LaneInv(s, x, l.(got := l.got + [Seen(s, l.way[0])], way := l.way[1..], seqnum := Some(SeqOf(s, l.way[0]))), first)
  {
    hide IsLog, SeqOf, Seen, HandedOut, After, StillHeld;
    var next := l.base + |l.got|;
    assert l.way[0] == l.log[next];
    assert l.way[1..] == l.log[next + 1..l.cursor.value];
    HandedOutRead(s, l, l.way[0], l.way[1..], first);
  }

  lemma {:induction false} SeenAllAppend(s: Site, msgs: seq<Message>, m: Message)
    ensures SeenAll(s, msgs + [m]) == SeenAll(s, msgs) + [Seen(s, m)]
  {
    assert forall i :: 0 <= i < |msgs| ==> (msgs + [m])[i] == msgs[i];
  }

  lemma {:induction false} LaneDrop(s: Site, x: string, l: Lane, first: First)
    requires LaneInv(s, x, l, first)
    ensures LaneInv(s, x, l.(cursor := None, way := []), first)
  {
    hide IsLog, SeqOf, SeenAll, After, StillHeld;
  }

  /** A connection that resumes a stream starts exactly behind what it handed out;
      one that has handed nothing out may start anywhere, unless it began with a
      sequence number. */
  lemma {:induction false} LaneConnect(s: Site, x: string, l: Lane, first: First, k: nat)
    requires LaneInv(s, x, l, first) && l.cursor.None? && k <= |l.log|
    requires l.seqnum.Some? ==> k == After(s, l.log, l.seqnum.value)
    ensures LaneInv(s, x, l.(cursor := Some(k), base := if l.got == [] then k else l.base), first)
  {
    hide IsLog, SeqOf, Seen, SeenAll, After;
    var next := l.base + |l.got|;
    if l.got != [] {
      AfterEntry(s, x, l.log, next - 1);
    }
    assert l.log[k..k] == [];
  }

  // ------------------------------------------------------------ each step keeps Inv

  lemma {:induction false} SameWires(s: Site, w: World, w1: World)
    requires WireInv(s, w)
    requires w1.unread == w.unread && w1.trailer == w.trailer && w1.buffered == w.buffered && w1.inFlight == w.inFlight
    ensures WireInv(s, w1)
  {
  }

  lemma {:induction false} AppendedLane(s: Site, w: World, w1: World, x: string, m: Message, t: Tracked)
    requires w1 == w.(logs := w.logs[x := LogOf(w, x) + [m]])
    ensures LaneOf(s, w1, t) == if t.config.id != x then LaneOf(s, w, t) else
            LaneOf(s, w, t).(log := LaneOf(s, w, t).log + [m])
    ensures t.config.id == x ==> LaneOf(s, w, t).log == LogOf(w, x)
  {
  }

  lemma {:induction false} EmptyLog(s: Site, x: string)
    ensures IsLog(s, x, [])
  {
  }

  lemma {:induction false} AppendDoes(s: Site, w: World, x: string, m: Message)
    requires LogsInv(s, w) && Enabled(s, w, Append(x, m))
    ensures
      var w1 := Do(s, w, Append(x, m));
      && w1 == w.(logs := w.logs[x := LogOf(w, x) + [m]]) && LogsInv(s, w1)
      && IsEntry(s, x, m) && (LogOf(w, x) == [] || SeqOf(s, LogOf(w, x)[|LogOf(w, x)| - 1]) < SeqOf(s, m))
  {
    EmptyLog(s, x);
    LogGrows(s, x, LogOf(w, x), m);
    hide IsLog, IsEntry, SeqOf;
  }

  lemma {:induction false} AppendedKeeps(s: Site, w: World, w1: World, x: string, m: Message, firsts: seq<First>)
    requires Inv(s, w, firsts) && LogsInv(s, w1) && w1 == w.(logs := w.logs[x := LogOf(w, x) + [m]])
    requires IsEntry(s, x, m) && (LogOf(w, x) == [] || SeqOf(s, LogOf(w, x)[|LogOf(w, x)| - 1]) < SeqOf(s, m))
    ensures Inv(s, w1, firsts)
  {
    hide IsEntry, SeqOf, WireInv, AreExact, LaneInv, LogsInv, LaneOf, LogOf;
    SameWires(s, w, w1);
    forall i | 0 <= i < |firsts|
      ensures LaneInv(s, w1.streams[i].config.id, LaneOf(s, w1, w1.streams[i]), firsts[i])
    {
      var t := w.streams[i];
      AppendedLane(s, w, w1, x, m, t);
      if t.config.id == x {
        LaneAppend(s, x, LaneOf(s, w, t), m, firsts[i]);
      }
    }
  }

  lemma {:induction false} AppendKeeps(s: Site, w: World, x: string, m: Message, firsts: seq<First>)
    requires Inv(s, w, firsts) && Enabled(s, w, Append(x, m))
    ensures Inv(s, Do(s, w, Append(x, m)), firsts)
  {
    AppendDoes(s, w, x, m);
    hide IsEntry, SeqOf, WireInv, AreExact, LaneInv, LogsInv, LaneOf, Do, Enabled;
    AppendedKeeps(s, w, Do(s, w, Append(x, m)), x, m, firsts);
  }

  lemma {:induction false} WireGrows(s: Site, w: World, w1: World, m: Message)
    requires WireInv(s, w) && w.trailer == [] && IsWellFormed(s.ms, s.version, m)
    requires w1.buffered == w.buffered && w1.trailer == []
    requires w1.inFlight == w.inFlight + Wire(s.ms, s.version, m) && w1.unread == w.unread + [m]
    ensures WireInv(s, w1)
  {
    hide Wire, IsWellFormed;
    WireAllAppend(s.ms, s.version, w.unread, m);
    assert w1.buffered + w1.inFlight == (w.buffered + w.inFlight) + Wire(s.ms, s.version, m);
    assert w.buffered + w.inFlight == WireAll(s.ms, s.version, w.unread);
  }

  lemma {:induction false} EntryAt(s: Site, x: string, log: seq<Message>, k: nat)
    requires IsLog(s, x, log) && k < |log|
    ensures IsWellFormed(s.ms, s.version, log[k]) && IsData(s, log[k]) && Seen(s, log[k]).station == x
  {
  }

  lemma {:induction false} SendDoes(s: Site, w: World, x: string)
    requires LogsInv(s, w) && Enabled(s, w, Send(x))
    ensures
      var k := w.cursors[x];
      var m := LogOf(w, x)[k];
      && IsWellFormed(s.ms, s.version, m) && IsData(s, m) && Seen(s, m).station == x
      && Do(s, w, Send(x))
         == w.(inFlight := w.inFlight + Wire(s.ms, s.version, m), unread := w.unread + [m], cursors := w.cursors[x := k + 1])
  {
    EntryAt(s, x, LogOf(w, x), w.cursors[x]);
    hide IsWellFormed, IsData, Seen, Wire, IsLog;
  }

  lemma {:induction false} SentKeeps(s: Site, w: World, w1: World, x: string, m: Message, firsts: seq<First>)
    requires Inv(s, w, firsts) && w.connected && w.trailer == [] && x in w.cursors && w.cursors[x] < |LogOf(w, x)|
    requires m == LogOf(w, x)[w.cursors[x]] && IsWellFormed(s.ms, s.version, m) && IsData(s, m) && Seen(s, m).station == x
    requires w1 == w.(inFlight := w.inFlight + Wire(s.ms, s.version, m), unread := w.unread + [m],
                      cursors := w.cursors[x := w.cursors[x] + 1])
    ensures Inv(s, w1, firsts)
  {
    hide AreExact, LaneInv, LogsInv, Wire, WireInv, IsWellFormed, IsData, Seen, LaneOf, LogOf;
    WireGrows(s, w, w1, m);
    assert LogsInv(s, w1) by { SameLogs(s, w, w1); }
    forall i | 0 <= i < |firsts|
      ensures LaneInv(s, w1.streams[i].config.id, LaneOf(s, w1, w1.streams[i]), firsts[i])
    {
      SentLane(s, w, w1, x, m, w.streams[i]);
      if w.streams[i].config.id == x {
        SendableLane(s, w, x, w.streams[i]);
        LaneSend(s, x, LaneOf(s, w, w.streams[i]), firsts[i]);
      }
    }
  }

  lemma {:induction false} SendKeeps(s: Site, w: World, x: string, firsts: seq<First>)
    requires Inv(s, w, firsts) && Enabled(s, w, Send(x))
    ensures Inv(s, Do(s, w, Send(x)), firsts)
  {
    SendDoes(s, w, x);
    hide AreExact, LaneInv, LogsInv, WireInv, Do, LaneOf, Inv, IsData, Seen, IsWellFormed, Wire;
    SentKeeps(s, w, Do(s, w, Send(x)), x, LogOf(w, x)[w.cursors[x]], firsts);
  }

  lemma {:induction false} SameLogs(s: Site, w: World, w1: World)
    requires LogsInv(s, w) && w1.logs == w.logs
    ensures LogsInv(s, w1)
  {
  }

  lemma {:induction false} SendableLane(s: Site, w: World, x: string, t: Tracked)
    requires x in w.cursors && w.cursors[x] < |LogOf(w, x)| && t.config.id == x
    ensures LaneOf(s, w, t).cursor == Some(w.cursors[x]) && LaneOf(s, w, t).log == LogOf(w, x)
  {
  }

  lemma {:induction false} SentLane(s: Site, w: World, w1: World, x: string, m: Message, t: Tracked)
    requires x in w.cursors && IsData(s, m) && Seen(s, m).station == x
    requires w1 == w.(inFlight := w1.inFlight, unread := w.unread + [m], cursors := w.cursors[x := w.cursors[x] + 1])
    ensures LaneOf(s, w1, t) == if t.config.id != x then LaneOf(s, w, t) else
            LaneOf(s, w, t).(cursor := Some(w.cursors[x] + 1), way := LaneOf(s, w, t).way + [m])
  {
    hide IsData, Seen;
    OfStationAppend(s, t.config.id, w.unread, m);
  }

  lemma {:induction false} SendOtherKeeps(s: Site, w: World, m: Message, firsts: seq<First>)
    requires Inv(s, w, firsts) && Enabled(s, w, SendOther(m))
    ensures Inv(s, Do(s, w, SendOther(m)), firsts)
  {
    hide SeqOf, AreExact, LaneInv, IsLog, Wire, WireInv, IsWellFormed, IsData, Seen;
    var w1 := Do(s, w, SendOther(m));
    WireGrows(s, w, w1, m);
    forall i | 0 <= i < |firsts|
      ensures LaneInv(s, w1.streams[i].config.id, LaneOf(s, w1, w1.streams[i]), firsts[i])
    {
      OfStationAppend(s, w.streams[i].config.id, w.unread, m);
      assert LaneOf(s, w1, w.streams[i]) == LaneOf(s, w, w.streams[i]);
    }
  }

  /** Steps that touch neither logs, cursors, streams, deliveries nor messages. */
  lemma {:induction false} SameLanes(s: Site, w: World, w1: World, firsts: seq<First>)
    requires Inv(s, w, firsts) && WireInv(s, w1)
    requires w1 == w.(inFlight := w1.inFlight, buffered := w1.buffered, trailer := w1.trailer) && (w.connected || w1.trailer == [])
    ensures Inv(s, w1, firsts)
  {
    hide AreExact, LaneInv, IsLog, WireInv;
    forall i | 0 <= i < |firsts|
      ensures LaneInv(s, w1.streams[i].config.id, LaneOf(s, w1, w1.streams[i]), firsts[i])
    {
      assert LaneOf(s, w1, w.streams[i]) == LaneOf(s, w, w.streams[i]);
    }
  }

  lemma {:induction false} TrailerGrows(s: Site, w: World, w1: World, last: seq<byte>)
    requires WireInv(s, w) && w.trailer == [] && last != [] && last[0] == 'E' as int
    requires w1 == w.(inFlight := w.inFlight + last, trailer := last)
    ensures WireInv(s, w1)
  {
    hide AllWellFormed, WireAll;
    assert w1.buffered + w1.inFlight == (w.buffered + w.inFlight) + last;
    assert w.buffered + w.inFlight == WireAll(s.ms, s.version, w.unread);
  }

  lemma {:induction false} SendLastKeeps(s: Site, w: World, text: string, firsts: seq<First>)
    requires Inv(s, w, firsts) && Enabled(s, w, SendLast(text))
    ensures Inv(s, Do(s, w, SendLast(text)), firsts)
  {
    var last := LastBytes(text);
    var w1 := w.(inFlight := w.inFlight + last, trailer := last);
    assert last[0] == 'E' as int && Do(s, w, SendLast(text)) == w1;
    hide AreExact, LaneInv, LogsInv, WireInv, Do, Enabled, LastBytes;
    TrailerGrows(s, w, w1, last);
    SameLanes(s, w, w1, firsts);
  }

  lemma {:induction false} ArriveDoes(s: Site, w: World, count: nat)
    requires count <= |w.inFlight|
    ensures Enabled(s, w, Arrive(count))
    ensures Do(s, w, Arrive(count)) == w.(inFlight := w.inFlight[count..], buffered := w.buffered + w.inFlight[..count])
  {
    hide NextItem, CanReconnect, IsEntry;
  }

  lemma {:induction false} ArrivedWires(s: Site, w: World, count: nat)
    requires WireInv(s, w) && count <= |w.inFlight|
    ensures WireInv(s, w.(inFlight := w.inFlight[count..], buffered := w.buffered + w.inFlight[..count]))
  {
    hide AllWellFormed, WireAll;
    assert (w.buffered + w.inFlight[..count]) + w.inFlight[count..] == w.buffered + w.inFlight;
  }

  lemma {:induction false} ArriveKeeps(s: Site, w: World, count: nat, firsts: seq<First>)
    requires Inv(s, w, firsts) && Enabled(s, w, Arrive(count))
    ensures Inv(s, Do(s, w, Arrive(count)), firsts)
  {
    ArriveDoes(s, w, count);
    hide AreExact, LaneInv, LogsInv, WireInv, Do, Enabled, LaneOf;
    ArrivedWires(s, w, count);
    SameLanes(s, w, Do(s, w, Arrive(count)), firsts);
  }

  lemma {:induction false} ClosedKeeps(s: Site, w: World, firsts: seq<First>)
    requires Inv(s, w, firsts)
    ensures Inv(s, Closed(w), firsts) && Inv(s, Closed(w).(over := true), firsts)
  {
    hide AreExact, LaneInv, IsLog;
    var w1 := Closed(w);
    forall i | 0 <= i < |firsts|
      ensures LaneInv(s, w1.streams[i].config.id, LaneOf(s, w1, w1.streams[i]), firsts[i])
    {
      var t := w.streams[i];
      LaneDrop(s, t.config.id, LaneOf(s, w, t), firsts[i]);
      assert LaneOf(s, w1, t) == LaneOf(s, w, t).(cursor := None, way := []);
    }
  }

  // ------------------------------------------------------------------ reading

  /** Consuming the oldest message. */
  lemma {:induction false} ConsumeLane(s: Site, w: World, w1: World, t: Tracked, t1: Tracked)
    requires w.unread != [] && w1 == w.(buffered := w1.buffered, unread := w.unread[1..], streams := w1.streams, yielded := w1.yielded)
    requires var m := w.unread[0];
             if IsData(s, m) then w1.yielded == w.yielded + [Seen(s, m)] else w1.yielded == w.yielded
    requires var m := w.unread[0];
             t1.config.id == t.config.id
             && t1.config.seqnum == if IsData(s, m) && Seen(s, m).station == t.config.id then Some(SeqOf(s, m)) else t.config.seqnum
    ensures
      var m := w.unread[0];
      var l := LaneOf(s, w, t);
      LaneOf(s, w1, t1) ==
      if IsData(s, m) && Seen(s, m).station == t.config.id
      then l.(got := l.got + [Seen(s, m)], way := l.way[1..], seqnum := Some(SeqOf(s, m))) else l
    ensures var m := w.unread[0];
            IsData(s, m) && Seen(s, m).station == t.config.id ==> LaneOf(s, w, t).way != [] && LaneOf(s, w, t).way[0] == m
  {
    hide IsData, Seen, SeqOf;
    var m := w.unread[0];
    var x := t.config.id;
    assert OfStation(s, x, w.unread) == (if IsData(s, m) && Seen(s, m).station == x then [m] else []) + OfStation(s, x, w.unread[1..]);
    if IsData(s, m) {
      assert (w.yielded + [Seen(s, m)])[..|w.yielded|] == w.yielded;
    }
  }

  /** Only the stream with the packet's exact ID moves. */
  lemma {:induction false} ExactUpdate(s: Site, w: World, f: Frame, i: nat)
    requires AreExact(s, w.streams) && i < |w.streams| && f.seqnum.Some?
    ensures
      var t, t1 := w.streams[i], Updated(s.glob, f, w.streams[i]);
      t1.config.id == t.config.id
      && t1.config.seqnum == if f.station == t.config.id then f.seqnum else t.config.seqnum
  {
  }

  lemma {:induction false} StillExact(s: Site, ts: seq<Tracked>, f: Frame)
    requires AreExact(s, ts)
    ensures AreExact(s, UpdatedAll(s.glob, f, ts))
  {
    hide Matches;
  }

  /** A station's packet under way is an entry of its log. */
  lemma {:induction false} WayIsNumbered(s: Site, x: string, l: Lane, first: First)
    requires LaneInv(s, x, l, first) && l.way != []
    ensures Seen(s, l.way[0]).seqnum == Some(SeqOf(s, l.way[0]))
  {
    assert l.way[0] == l.log[l.base + |l.got|];
  }

  lemma {:induction false} ReadPacketKeeps(s: Site, w: World, firsts: seq<First>)
    requires Inv(s, w, firsts) && Enabled(s, w, Read)
    requires NextItem(s.ms, s.version, w.buffered, Eof).item.Packet?
    requires !React(NextItem(s.ms, s.version, w.buffered, Eof).item).Closes?
    ensures Inv(s, Do(s, w, Read), firsts)
  {
    hide SeqOf, LaneInv, IsLog, WireInv, Matches, LaneOf, NextItem, Seen;
    HeadOfUnread(s, w);
    var step := NextItem(s.ms, s.version, w.buffered, Eof);
    var f, m := step.item.frame, w.unread[0];
    assert React(step.item) == if IsData(s, m) then Yields(f) else Skips;
    var w1 := w.(buffered := step.rest, unread := w.unread[1..],
                 yielded := if IsData(s, m) then w.yielded + [f] else w.yielded,
                 streams := if IsData(s, m) then UpdatedAll(s.glob, f, w.streams) else w.streams);
    assert Do(s, w, Read) == w1;
    hide Do, Enabled, IsData, React;
    assert WireInv(s, w1) by { WireShrinks(s, w, w1); }
    StillExact(s, w.streams, f);
    assert w1.connected;
    forall i | 0 <= i < |firsts|
      ensures LaneInv(s, w1.streams[i].config.id, LaneOf(s, w1, w1.streams[i]), firsts[i])
    {
      ReadLane(s, w, w1, f, firsts, i);
    }
  }

  lemma {:induction false} WireShrinks(s: Site, w: World, w1: World)
    requires WireInv(s, w) && w.unread != [] && w1.unread == w.unread[1..]
    requires w1.trailer == w.trailer
    requires w1.buffered + w1.inFlight == WireAll(s.ms, s.version, w.unread[1..]) + w.trailer
    ensures WireInv(s, w1)
  {
    hide WireAll, IsWellFormed;
  }

  lemma {:induction false} ReadLane(s: Site, w: World, w1: World, f: Frame, firsts: seq<First>, i: nat)
    requires AreExact(s, w.streams) && |w.streams| == |firsts| && i < |firsts|
    requires LaneInv(s, w.streams[i].config.id, LaneOf(s, w, w.streams[i]), firsts[i])
    requires w.unread != [] && f == Seen(s, w.unread[0])
    requires
      var data := IsData(s, w.unread[0]);
      w1 == w.(buffered := w1.buffered, unread := w.unread[1..],
               yielded := if data then w.yielded + [f] else w.yielded,
               streams := if data then UpdatedAll(s.glob, f, w.streams) else w.streams)
    ensures LaneInv(s, w1.streams[i].config.id, LaneOf(s, w1, w1.streams[i]), firsts[i])
  {
    hide SeqOf, LaneInv, Matches, LaneOf, Seen, IsData;
    var t, m := w.streams[i], w.unread[0];
    var x := t.config.id;
    var l := LaneOf(s, w, t);
    LaneHead(s, w, t);
    if IsData(s, m) && f.station == x {
      WayIsNumbered(s, x, l, firsts[i]);
      ExactUpdate(s, w, f, i);
      ConsumeLane(s, w, w1, t, w1.streams[i]);
      LaneRead(s, x, l, firsts[i]);
    } else {
      UnmovedStream(s, w, f, i);
      ConsumeLane(s, w, w1, t, w1.streams[i]);
    }
  }

  lemma {:induction false} LaneHead(s: Site, w: World, t: Tracked)
    requires w.unread != []
    ensures var m := w.unread[0];
            IsData(s, m) && Seen(s, m).station == t.config.id ==> LaneOf(s, w, t).way != [] && LaneOf(s, w, t).way[0] == m
  {
    hide IsData, Seen;
  }

  lemma {:induction false} UnmovedStream(s: Site, w: World, f: Frame, i: nat)
    requires AreExact(s, w.streams) && i < |w.streams|
    ensures f.station != w.streams[i].config.id ==> Updated(s.glob, f, w.streams[i]) == w.streams[i]
  {
  }

  // -------------------------------------------------------------- reconnecting

  lemma {:induction false} RequestForSplit(a: seq<Sub>, b: seq<Sub>, x: string)
    ensures RequestFor(a + b, x) == if RequestFor(a, x).Some? then RequestFor(a, x) else RequestFor(b, x)
  {
    if a == [] {
      assert a + b == b;
    } else {
      assert (a + b)[1..] == a[1..] + b;
      RequestForSplit(a[1..], b, x);
    }
  }

  lemma {:induction false} RequestedHasRequest(subs: seq<Sub>, x: string)
    ensures x in Requested(subs) <==> RequestFor(subs, x).Some?
  {
    if subs != [] {
      RequestedHasRequest(subs[1..], x);
    }
  }

  /** Every request the server granted is the one some configured stream wanted. */
  lemma {:induction false} GrantedRequest(o: Options, iso: IsoReader, cs: seq<Config>, lines: seq<string>, x: string) returns (c: Config)
    requires RequestFor(Granted(o, iso, cs, lines), x).Some?
    ensures c in cs && c.id == x && RequestFor(Granted(o, iso, cs, lines), x) == Some(Wanted(o, iso, c))
    decreases |cs|
  {
    hide Wanted, LineOk, Kept;
    var head := GrantedStation(o, iso, cs[0], lines);
    var rest := DropLines(lines, Answered(o, cs[0], lines));
    RequestForSplit(head, Granted(o, iso, cs[1..], rest), x);
    if RequestFor(head, x).Some? {
      c := cs[0];
      assert head[1..] == [];
    } else {
      c := GrantedRequest(o, iso, cs[1..], rest, x);
    }
  }

  lemma {:induction false} ConfigsAreStreams(s: Site, w: World, c: Config) returns (i: nat)
    requires c in Configs(s, w)
    ensures i < |w.streams| && c == Planned(s.times, s.version.V3?, w.streams[i]).config
  {
    var cs := ConfigsOf(PlannedAll(s.times, s.version.V3?, w.streams));
    SortStreamsCorrect(cs, "");
    i :| 0 <= i < |cs| && cs[i] == c;
  }

  lemma {:induction false} ConfigSpeakable(s: Site, w: World, batch: bool, i: nat)
    requires AreExact(s, w.streams) && i < |w.streams|
    ensures IsSpeakable(OptionsOf(s, batch), Planned(s.times, s.version.V3?, w.streams[i]).config)
  {
    hide IsPattern, IsWord, AllWords, HasNetAndSta;
    assert IsSpeakable(OptionsOf(s, false), w.streams[i].config);
  }

  lemma {:induction false} ConfigsSpeakable(s: Site, w: World, batch: bool)
    requires AreExact(s, w.streams)
    ensures AllSpeakable(OptionsOf(s, batch), Configs(s, w)) && |Configs(s, w)| == |w.streams|
  {
    SortStreamsCorrect(ConfigsOf(PlannedAll(s.times, s.version.V3?, w.streams)), "");
    var cs := Configs(s, w);
    assert |cs| == |w.streams|;
    hide IsSpeakable, AreExact, Configs;
    forall k | 0 <= k < |cs| ensures IsSpeakable(OptionsOf(s, batch), cs[k]) {
      assert cs[k] in cs;
      var i := ConfigsAreStreams(s, w, cs[k]);
      ConfigSpeakable(s, w, batch, i);
    }
  }

  /** The server starts a stream that holds a number right behind that number. */
  lemma {:induction false} ResumePoint(s: Site, w: World, batch: bool, lines: seq<string>, i: nat, chosen: nat)
    requires AreExact(s, w.streams) && i < |w.streams|
    requires CanReconnect(s, w, batch, lines)
    requires RequestFor(SubsAfter(s, w, batch, lines), w.streams[i].config.id).Some?
    ensures
      var r := RequestFor(SubsAfter(s, w, batch, lines), w.streams[i].config.id).value;
      var n := w.streams[i].config.seqnum;
      forall log :: n.Some? ==> StartIndex(s, log, r, chosen) == After(s, log, n.value)
  {
    hide Serve, RunWalk, Plan, Granted, Configured, AllSendable, SeqOf, LineOk, IsSpeakable, IsPattern;
    var o := OptionsOf(s, batch);
    var x := w.streams[i].config.id;
    ConfigsSpeakable(s, w, batch);
    Subscribed(o, s.iso, Configs(s, w), lines);
    var c := GrantedRequest(o, s.iso, Configs(s, w), lines, x);
    var j := ConfigsAreStreams(s, w, c);
    assert w.streams[j].config.id == x;
    assert i == j;
  }

  lemma {:induction false} ReconnectDoes(s: Site, w: World, batch: bool, lines: seq<string>, starts: map<string, nat>)
    requires Enabled(s, w, Reconnect(batch, lines, starts))
    ensures !w.connected && CanReconnect(s, w, batch, lines)
    ensures
      var cursors := CursorsAfter(s, w, SubsAfter(s, w, batch, lines), starts);
      Do(s, w, Reconnect(batch, lines, starts))
        == w.(connected := true, cursors := cursors, streams := PlannedAll(s.times, s.version.V3?, w.streams), base := BasesAfter(w, cursors))
  {
    hide SubsAfter, CursorsAfter, BasesAfter, Negotiated, AllSendable, Plan;
  }

  lemma {:induction false} ReconnectedLane(s: Site, w: World, w1: World, t: Tracked, t1: Tracked)
    requires w.cursors == map[] && w1.base == BasesAfter(w, w1.cursors)
    requires w1.logs == w.logs && w1.yielded == w.yielded && w1.unread == w.unread
    requires t1.config.id == t.config.id && t1.config.seqnum == t.config.seqnum
    ensures
      var x, l := t.config.id, LaneOf(s, w, t);
      LaneOf(s, w1, t1)
        == if x in w1.cursors then l.(cursor := Some(w1.cursors[x]), base := if l.got == [] then w1.cursors[x] else l.base) else l
  {
    hide FramesOf, OfStation;
  }

  lemma {:induction false} ReconnectKeeps(s: Site, w: World, batch: bool, lines: seq<string>, starts: map<string, nat>, firsts: seq<First>)
    requires Inv(s, w, firsts) && Enabled(s, w, Reconnect(batch, lines, starts))
    ensures Inv(s, Do(s, w, Reconnect(batch, lines, starts)), firsts)
  {
    ReconnectDoes(s, w, batch, lines, starts);
    hide SubsAfter, SeqOf, IsLog, LaneInv, LogsInv, WireInv, AreExact, StartIndex, After, Enabled, Do, LaneOf, BasesAfter;
    var subs := SubsAfter(s, w, batch, lines);
    var w1 := Do(s, w, Reconnect(batch, lines, starts));
    PlanningKeepsStreams(s, w.streams);
    assert WireInv(s, w1) by { SameWires(s, w, w1); }
    assert LogsInv(s, w1) by { SameLogs(s, w, w1); }
    forall i | 0 <= i < |firsts|
      ensures LaneInv(s, w1.streams[i].config.id, LaneOf(s, w1, w1.streams[i]), firsts[i])
    {
      ReconnectedLane(s, w, w1, w.streams[i], w1.streams[i]);
      ReconnectKeepsLane(s, w, w1, batch, lines, starts, firsts, i);
    }
  }

  lemma {:induction false} ReconnectKeepsLane(
    s: Site, w: World, w1: World, batch: bool, lines: seq<string>, starts: map<string, nat>, firsts: seq<First>, i: nat)
    requires AreExact(s, w.streams) && |w.streams| == |firsts| && i < |firsts| && w.cursors == map[]
    requires CanReconnect(s, w, batch, lines)
    requires LaneInv(s, w.streams[i].config.id, LaneOf(s, w, w.streams[i]), firsts[i])
    requires w1.cursors == CursorsAfter(s, w, SubsAfter(s, w, batch, lines), starts)
    requires |w1.streams| == |w.streams| && w1.streams[i].config.id == w.streams[i].config.id
    requires
      var x, l := w.streams[i].config.id, LaneOf(s, w, w.streams[i]);
      LaneOf(s, w1, w1.streams[i])
        == if x in w1.cursors then l.(cursor := Some(w1.cursors[x]), base := if l.got == [] then w1.cursors[x] else l.base) else l
    ensures LaneInv(s, w1.streams[i].config.id, LaneOf(s, w1, w1.streams[i]), firsts[i])
  {
    hide SubsAfter, SeqOf, IsLog, LaneInv, AreExact, StartIndex, After, Enabled;
    var x := w.streams[i].config.id;
    var subs := SubsAfter(s, w, batch, lines);
    RequestedHasRequest(subs, x);
    if x in w1.cursors {
      ResumePoint(s, w, batch, lines, i, if x in starts then starts[x] else 0);
      LaneConnect(s, x, LaneOf(s, w, w.streams[i]), firsts[i], w1.cursors[x]);
    }
  }

  lemma {:induction false} PlanningKeepsStreams(s: Site, ts: seq<Tracked>)
    requires AreExact(s, ts)
    ensures
      var r := PlannedAll(s.times, s.version.V3?, ts);
      AreExact(s, r)
      && forall i :: 0 <= i < |ts| ==> r[i].config.id == ts[i].config.id && r[i].config.seqnum == ts[i].config.seqnum
  {
    hide AreExact;
    var r := PlannedAll(s.times, s.version.V3?, ts);
    forall i | 0 <= i < |ts| ensures r[i].config.(timestamp := None) == ts[i].config.(timestamp := None) {
      assert r[i] == Planned(s.times, s.version.V3?, ts[i]);
    }
    SameButTimes(s, ts, r);
  }

  lemma {:induction false} SameButTimes(s: Site, ts: seq<Tracked>, r: seq<Tracked>)
    requires AreExact(s, ts) && |r| == |ts|
    requires forall i :: 0 <= i < |ts| ==> r[i].config.(timestamp := None) == ts[i].config.(timestamp := None)
    ensures AreExact(s, r)
    ensures forall i :: 0 <= i < |ts| ==> r[i].config.id == ts[i].config.id && r[i].config.seqnum == ts[i].config.seqnum
  {
    hide IsPattern, IsWord, AllWords, HasNetAndSta;
    assert forall i :: 0 <= i < |ts| ==> r[i].config.id == ts[i].config.id && r[i].config.selectors == ts[i].config.selectors;
  }

  // -------------------------------------------------------------- whole runs

  lemma {:induction false} ActionKeeps(s: Site, w: World, a: Action, firsts: seq<First>)
    requires Inv(s, w, firsts) && Enabled(s, w, a)
    ensures Inv(s, Do(s, w, a), firsts)
  {
    hide Inv, Do, Enabled;
    match a {
      case Append(x, m) => AppendKeeps(s, w, x, m, firsts);
      case Send(x) => SendKeeps(s, w, x, firsts);
      case SendOther(m) => SendOtherKeeps(s, w, m, firsts);
      case SendLast(text) => SendLastKeeps(s, w, text, firsts);
      case Arrive(count) => ArriveKeeps(s, w, count, firsts);
      case Read => ReadKeeps(s, w, firsts);
      case Drop => DropKeeps(s, w, firsts);
      case SaveState => SaveKeeps(s, w, firsts);
      case FailedTry => FailedTryKeeps(s, w, firsts);
      case Reconnect(batch, lines, starts) => ReconnectKeeps(s, w, batch, lines, starts, firsts);
    }
  }

  lemma {:induction false} SaveKeeps(s: Site, w: World, firsts: seq<First>)
    requires Inv(s, w, firsts)
    ensures Inv(s, Do(s, w, SaveState), firsts)
  {
    hide LaneInv, WireInv, LogsInv, AreExact, LaneOf;
    var w1 := w.(streams := SettledAll(s.times, w.streams));
    SavingKeepsStreams(s, w.streams);
    assert WireInv(s, w1) by { SameWires(s, w, w1); }
    assert LogsInv(s, w1) by { SameLogs(s, w, w1); }
    forall i | 0 <= i < |firsts|
      ensures LaneInv(s, w1.streams[i].config.id, LaneOf(s, w1, w1.streams[i]), firsts[i])
    {
      SavedLane(s, w, w1, w.streams[i], w1.streams[i]);
    }
  }

  lemma {:induction false} FailedTryKeeps(s: Site, w: World, firsts: seq<First>)
    requires Inv(s, w, firsts) && Enabled(s, w, FailedTry)
    ensures Inv(s, Do(s, w, FailedTry), firsts)
  {
    hide LaneInv, WireInv, LogsInv, AreExact, LaneOf;
    var w1 := w.(streams := PlannedAll(s.times, s.version.V3?, w.streams));
    assert Do(s, w, FailedTry) == w1;
    hide Do, Enabled;
    PlanningKeepsStreams(s, w.streams);
    assert WireInv(s, w1) by { SameWires(s, w, w1); }
    assert LogsInv(s, w1) by { SameLogs(s, w, w1); }
    forall i | 0 <= i < |firsts|
      ensures LaneInv(s, w1.streams[i].config.id, LaneOf(s, w1, w1.streams[i]), firsts[i])
    {
      SavedLane(s, w, w1, w.streams[i], w1.streams[i]);
    }
  }

  lemma {:induction false} SavedLane(s: Site, w: World, w1: World, t: Tracked, t1: Tracked)
    requires w1 == w.(streams := w1.streams)
    requires t1.config.id == t.config.id && t1.config.seqnum == t.config.seqnum
    ensures LaneOf(s, w1, t1) == LaneOf(s, w, t)
  {
    hide FramesOf, OfStation;
  }

  lemma {:induction false} SavingKeepsStreams(s: Site, ts: seq<Tracked>)
    requires AreExact(s, ts)
    ensures
      var r := SettledAll(s.times, ts);
      AreExact(s, r)
      && forall i :: 0 <= i < |ts| ==> r[i].config.id == ts[i].config.id && r[i].config.seqnum == ts[i].config.seqnum
  {
    hide AreExact;
    var r := SettledAll(s.times, ts);
    forall i | 0 <= i < |ts| ensures r[i].config.(timestamp := None) == ts[i].config.(timestamp := None) {
      assert r[i] == Settled(s.times, ts[i]);
    }
    SameButTimes(s, ts, r);
  }

  lemma {:induction false} DropKeeps(s: Site, w: World, firsts: seq<First>)
    requires Inv(s, w, firsts) && Enabled(s, w, Drop)
    ensures Inv(s, Do(s, w, Drop), firsts)
  {
    hide Inv;
    ClosedKeeps(s, w, firsts);
  }

  lemma {:induction false} ReadKeeps(s: Site, w: World, firsts: seq<First>)
    requires Inv(s, w, firsts) && Enabled(s, w, Read)
    ensures Inv(s, Do(s, w, Read), firsts)
  {
    hide Inv, NextItem;
    var item := NextItem(s.ms, s.version, w.buffered, Eof).item;
    if item.Packet? && !React(item).Closes? {
      ReadPacketKeeps(s, w, firsts);
    } else {
      ClosedKeeps(s, w, firsts);
    }
  }

  lemma {:induction false} RunKeeps(s: Site, w: World, actions: seq<Action>, firsts: seq<First>)
    requires Inv(s, w, firsts) && Final(s, w, actions).Some?
    ensures Inv(s, Final(s, w, actions).value, firsts)
    decreases |actions|
  {
    hide Inv, Do, Enabled;
    if actions != [] {
      ActionKeeps(s, w, actions[0], firsts);
      RunKeeps(s, Do(s, w, actions[0]), actions[1..], firsts);
    }
  }

  /** A client that has not connected yet: exact stations, nothing handed out. Its
      streams may start with any sequence number or none. */
  predicate IsStart(s: Site, w: World) {
    && LogsInv(s, w) && AreExact(s, w.streams)
    && !w.connected && !w.over && w.yielded == []
    && w.cursors == map[] && w.inFlight == [] && w.buffered == [] && w.unread == [] && w.trailer == []
  }

  function FirstOf(s: Site, w: World, t: Tracked): First {
    First(t.config.seqnum, StillHeld(s, LogOf(w, t.config.id), t.config.seqnum))
  }

  function Firsts(s: Site, w: World, ts: seq<Tracked>): (r: seq<First>)
    ensures |r| == |ts|
    ensures forall i :: 0 <= i < |ts| ==> r[i] == FirstOf(s, w, ts[i])
  {
    if ts == [] then [] else [FirstOf(s, w, ts[0])] + Firsts(s, w, ts[1..])
  }

  lemma {:induction false} StartInv(s: Site, w: World)
    requires IsStart(s, w)
    ensures Inv(s, w, Firsts(s, w, w.streams))
  {
    hide AreExact, IsLog, SeqOf;
    assert IsLog(s, "", []) by { EmptyLog(s, ""); }
    forall i | 0 <= i < |w.streams|
      ensures LaneInv(s, w.streams[i].config.id, LaneOf(s, w, w.streams[i]), FirstOf(s, w, w.streams[i]))
    {
      EmptyLog(s, w.streams[i].config.id);
    }
    assert AllWellFormed(s.ms, s.version, []);
  }

  /** What a stream that started with `first` was delivered: the piece of its
      station's log from index `b` on, in log order, nothing skipped, repeated or
      reordered. A stream that started with a number its log had reached was
      delivered what follows that number, and every stream holds the number of its
      last packet. */
  predicate Delivered(s: Site, w: World, t: Tracked, first: First, b: nat) {
    var got, log := FramesOf(t.config.id, w.yielded), LogOf(w, t.config.id);
    && IsPiece(s, log, b, got)
    && (got != [] && first.Known().Some? ==> b == After(s, log, first.number.value))
    && t.config.seqnum == if got == [] then first.number else Some(SeqOf(s, log[b + |got| - 1]))
  }

  /** In every run, over any number of drops, idle timeouts, server errors and
      reconnections, what was handed out for each stream is one contiguous piece
      of its station's log, whatever number it started with. */
  lemma {:induction false} ContiguousDelivery(s: Site, w: World, actions: seq<Action>, i: nat) returns (b: nat)
    requires IsStart(s, w) && Final(s, w, actions).Some? && i < |w.streams|
    ensures
      var w1 := Final(s, w, actions).value;
      && |w1.streams| == |w.streams| && w1.streams[i].config.id == w.streams[i].config.id
      && Delivered(s, w1, w1.streams[i], FirstOf(s, w, w.streams[i]), b)
  {
    FinalLane(s, w, actions, i);
    hide IsStart, Final, LaneInv, Delivered;
    var w1 := Final(s, w, actions).value;
    b := LaneGives(s, w1, w1.streams[i], FirstOf(s, w, w.streams[i]));
  }

  lemma {:induction false} FinalLane(s: Site, w: World, actions: seq<Action>, i: nat)
    requires IsStart(s, w) && Final(s, w, actions).Some? && i < |w.streams|
    ensures
      var w1 := Final(s, w, actions).value;
      |w1.streams| == |w.streams| && w1.streams[i].config.id == w.streams[i].config.id
      && LaneInv(s, w.streams[i].config.id, LaneOf(s, w1, w1.streams[i]), FirstOf(s, w, w.streams[i]))
  {
    hide Enabled, Do, AreExact, WireInv, LogsInv, LaneInv, LaneOf, IsStart, Final;
    StartInv(s, w);
    RunKeeps(s, w, actions, Firsts(s, w, w.streams));
    SameIds(s, w, actions, i);
  }

  lemma {:induction false} LaneGives(s: Site, w: World, t: Tracked, first: First) returns (b: nat)
    requires LaneInv(s, t.config.id, LaneOf(s, w, t), first)
    ensures Delivered(s, w, t, first, b)
  {
    hide IsLog, SeqOf, After, Seen, FramesOf, LogOf, OfStation;
    var l := LaneOf(s, w, t);
    b := if l.got == [] then 0 else l.base;
    assert l.log[0..0] == [];
  }

  lemma {:induction false} SameIds(s: Site, w: World, actions: seq<Action>, i: nat)
    requires Final(s, w, actions).Some? && i < |w.streams|
    ensures
      var w1 := Final(s, w, actions).value;
      |w1.streams| == |w.streams| && w1.streams[i].config.id == w.streams[i].config.id
    decreases |actions|
  {
    if actions != [] {
      OneActionSameIds(s, w, actions[0], i);
      hide Enabled, Do;
      SameIds(s, Do(s, w, actions[0]), actions[1..], i);
    }
  }

  lemma {:induction false} OneActionSameIds(s: Site, w: World, a: Action, i: nat)
    requires Enabled(s, w, a) && i < |w.streams|
    ensures |Do(s, w, a).streams| == |w.streams| && Do(s, w, a).streams[i].config.id == w.streams[i].config.id
  {
    hide NextItem, Wire, IsWellFormed, Negotiated, Plan, AllSendable, SubsAfter, CursorsAfter, BasesAfter, LastBytes, LogOf;
  }
}
