/** The runs the delivery theorem is about do get somewhere: a server that refuses
    nothing lets every negotiation through, and the next packet of a station can
    then be handed out in three steps. */
module Progress {
  import opened Text
  import opened Protocol
  import opened Framing
  import opened Streams
  import opened Times
  import opened Commands
  import opened Negotiation
  import opened Servers
  import opened Subscription
  import opened Selections
  import opened Delivery

  /** The replies of a server that refuses nothing. */
  function Oks(n: nat): (lines: seq<string>)
    ensures |lines| == n && forall i :: 0 <= i < n ==> lines[i] == "OK"
  {
    seq(n, _ => "OK")
  }

  lemma {:induction false} OkIsOk()
    ensures LineOk("OK")
  {
    assert StripLineEnd("OK") == "OK";
    assert Partition("OK", '\r') == ("OK", false, "");
    assert StripLeft("OK") == "OK";
    WordLengthOfPrefix("OK", "");
    assert "OK" + "" == "OK" && "OK"[..2] == "OK";
  }

  lemma {:induction false} OksAreOk(n: nat)
    ensures AllOk(Oks(n), n)
  {
    OkIsOk();
    hide LineOk;
  }

  lemma {:induction false} SuppressedExchange(o: Options, iso: IsoReader, cs: seq<Config>, lines: seq<string>)
    requires Suppressed(o)
    ensures StationExchange(o, iso, cs, lines).used == 0 && StationExchange(o, iso, cs, lines).accepted == |cs|
  {
    hide Block;
    if cs != [] {
      SuppressedExchange(o, iso, cs[1..], lines);
      assert lines[0..] == lines;
    }
  }

  lemma {:induction false} NoRefusal(n: nat)
    ensures FirstRefusal(Oks(n), n) == n
  {
    OksAreOk(n);
    FirstRefusalIsFirst(Oks(n), n);
    hide LineOk;
  }

  lemma {:induction false} UnrefusedStrict(o: Options, iso: IsoReader, cs: seq<Config>)
    requires o.version.V4? && AllSendable(Plan(o, iso, cs).value)
    ensures RunWalk(FreshWalk, Plan(o, iso, cs).value, Oks(|Blocks(o, iso, cs)|)).outcome == Accepted
  {
    hide LineOk, RunWalk, Blocks, AllSendable, FirstRefusal;
    NoRefusal(|Blocks(o, iso, cs)|);
    StrictNegotiation(o, iso, cs, Oks(|Blocks(o, iso, cs)|));
  }

  lemma {:induction false} UnrefusedStations(o: Options, iso: IsoReader, cs: seq<Config>)
    requires o.version.V3? && o.multistation && cs != [] && AllSendable(Plan(o, iso, cs).value)
    ensures RunWalk(FreshWalk, Plan(o, iso, cs).value, Oks(|Blocks(o, iso, cs)|)).outcome == Accepted
  {
    hide LineOk, RunWalk, Blocks, AllSendable, Encoded, StationExchange, Plan;
    var lines := Oks(|Blocks(o, iso, cs)|);
    OksAreOk(|lines|);
    MultiStationNegotiation(o, iso, cs, lines);
    if Suppressed(o) {
      SuppressedExchange(o, iso, cs, lines);
    } else {
      AllOkExchange(o, iso, cs, lines);
    }
  }

  lemma {:induction false} ConfiguredIsRequested(o: Options, iso: IsoReader, cs: seq<Config>, k: nat)
    requires k < |cs|
    ensures cs[k].id in Requested(Configured(o, iso, cs))
  {
    hide Wanted, WireSelectors;
    if k > 0 {
      ConfiguredIsRequested(o, iso, cs[1..], k - 1);
    }
  }

  lemma {:induction false} StreamIsConfigured(s: Site, w: World, i: nat) returns (k: nat)
    requires i < |w.streams|
    ensures k < |Configs(s, w)| && Configs(s, w)[k].id == w.streams[i].config.id
  {
    var cs := ConfigsOf(PlannedAll(s.times, s.version.V3?, w.streams));
    SortStreamsCorrect(cs, "");
    assert cs[i] in cs && cs[i].id == w.streams[i].config.id;
    k :| 0 <= k < |SortStreams(cs)| && SortStreams(cs)[k] == cs[i];
  }

  /** A client that lost its connection can reconnect, and then has a request in
      place for every one of its streams. */
  lemma {:induction false} CanComeBack(s: Site, w: World, batch: bool, i: nat)
    requires AreExact(s, w.streams) && !w.connected && !w.over && i < |w.streams|
    requires AllSendable(Plan(OptionsOf(s, batch), s.iso, Configs(s, w)).value)
    ensures
      var lines := Oks(|Blocks(OptionsOf(s, batch), s.iso, Configs(s, w))|);
      CanReconnect(s, w, batch, lines) && w.streams[i].config.id in Requested(SubsAfter(s, w, batch, lines))
  {
    var o, cs := OptionsOf(s, batch), Configs(s, w);
    var lines := Oks(|Blocks(o, s.iso, cs)|);
    ConfigsSpeakable(s, w, batch);
    hide RunWalk, Blocks, AllSendable, Serve, Granted, Configured, LineOk, AllSpeakable, AreExact, Configs;
    if o.version.V4? {
      UnrefusedStrict(o, s.iso, cs);
    } else {
      UnrefusedStations(o, s.iso, cs);
    }
    OksAreOk(|Blocks(o, s.iso, cs)|);
    Subscribed(o, s.iso, cs, lines);
    AllGranted(o, s.iso, cs, lines);
    var k := StreamIsConfigured(s, w, i);
    ConfiguredIsRequested(o, s.iso, cs, k);
  }

  lemma {:induction false} ReadsWhole(s: Site, m: Message)
    requires IsWellFormed(s.ms, s.version, m)
    ensures NextItem(s.ms, s.version, Wire(s.ms, s.version, m), Eof) == Got(Packet(Seen(s, m)), [])
  {
    hide NextItem, Wire, IsWellFormed, Meaning;
    PacketRoundTrip(s.ms, s.version, m, [], Eof);
    assert Wire(s.ms, s.version, m) + [] == Wire(s.ms, s.version, m);
  }

  lemma {:induction false} ReadDoes(s: Site, w: World, m: Message)
    requires w.connected && !w.over && IsWellFormed(s.ms, s.version, m) && IsData(s, m) && w.buffered == Wire(s.ms, s.version, m)
    ensures Enabled(s, w, Read) && Do(s, w, Read).yielded == w.yielded + [Seen(s, m)]
  {
    ReadsWhole(s, m);
    hide NextItem, Wire, IsWellFormed, CanReconnect, IsEntry, Seen, UpdatedAll;
  }

  /** A packet in flight arrives in two pieces cut anywhere and is handed out. */
  lemma {:induction false} PacketArrives(s: Site, w: World, m: Message, cut: nat)
    requires w.connected && !w.over && IsWellFormed(s.ms, s.version, m) && IsData(s, m)
    requires w.buffered == [] && w.inFlight == Wire(s.ms, s.version, m) && cut <= |w.inFlight|
    ensures
      var end := Final(s, w, [Arrive(cut)] + ([Arrive(|w.inFlight| - cut)] + ([Read] + [])));
      end.Some? && end.value.yielded == w.yielded + [Seen(s, m)]
  {
    hide Enabled, Do, Wire, IsWellFormed, IsData, Seen;
    var wire := w.inFlight;
    ArriveDoes(s, w, cut);
    var w2 := w.(inFlight := wire[cut..], buffered := [] + wire[..cut]);
    ArriveDoes(s, w2, |wire| - cut);
    var w3 := w2.(inFlight := wire[cut..][|wire| - cut..], buffered := w2.buffered + wire[cut..][..|wire| - cut]);
    assert w3.buffered == wire;
    ReadDoes(s, w3, m);
    FirstStep(s, w, Arrive(cut), [Arrive(|wire| - cut)] + ([Read] + []));
    FirstStep(s, w2, Arrive(|wire| - cut), [Read] + []);
    FirstStep(s, w3, Read, []);
  }

  lemma {:induction false} IdleWires(s: Site, w: World)
    requires WireInv(s, w) && w.unread == [] && w.trailer == []
    ensures w.buffered == [] && w.inFlight == []
  {
    assert w.buffered + w.inFlight == WireAll(s.ms, s.version, []) + [];
  }

  /** An idle connection whose next packet for station `x` is `m`. */
  predicate IsNext(s: Site, w: World, x: string, m: Message) {
    && LogsInv(s, w) && WireInv(s, w) && Enabled(s, w, Send(x)) && !w.over && w.unread == []
    && LogOf(w, x)[w.cursors[x]] == m
  }

  /** Sending a packet, letting it arrive in two pieces cut anywhere, reading it. */
  function HandOver(s: Site, x: string, m: Message, cut: nat): seq<Action>
    requires IsWellFormed(s.ms, s.version, m) && cut <= |Wire(s.ms, s.version, m)|
  {
    [Send(x)] + ([Arrive(cut)] + ([Arrive(|Wire(s.ms, s.version, m)| - cut)] + ([Read] + [])))
  }

  /** These actions can be taken, and hand out `m` and nothing else. */
  predicate HandsOut(s: Site, w: World, actions: seq<Action>, m: Message) {
    Final(s, w, actions).Some? && Final(s, w, actions).value.yielded == w.yielded + [Seen(s, m)]
  }

  /** On an idle connection a subscribed station's next packet can be handed out. */
  lemma {:induction false} NextPacketComes(s: Site, w: World, x: string, m: Message, cut: nat)
    requires IsNext(s, w, x, m)
    ensures IsWellFormed(s.ms, s.version, m) && (cut <= |Wire(s.ms, s.version, m)| ==> HandsOut(s, w, HandOver(s, x, m, cut), m))
  {
    SendDoes(s, w, x);
    IdleWires(s, w);
    hide LogsInv, WireInv, Enabled, Do, Wire, IsWellFormed, IsData, Seen, Final;
    var wire := Wire(s.ms, s.version, m);
    if cut <= |wire| {
      var w1 := Do(s, w, Send(x));
      assert w1.inFlight == wire;
      PacketArrives(s, w1, m, cut);
      FirstStep(s, w, Send(x), [Arrive(cut)] + ([Arrive(|wire| - cut)] + ([Read] + [])));
    }
  }

  /** The packet a stream resumes with: the one right behind its number. */
  function NextFor(s: Site, w: World, t: Tracked): Option<Message> {
    var log := LogOf(w, t.config.id);
    if t.config.seqnum.Some? && After(s, log, t.config.seqnum.value) < |log|
    then Some(log[After(s, log, t.config.seqnum.value)]) else None
  }

  lemma {:induction false} CursorAt(s: Site, w: World, subs: seq<Sub>, x: string)
    requires x in Requested(subs)
    ensures RequestFor(subs, x).Some?
    ensures var cursors := CursorsAfter(s, w, subs, map[]);
            x in cursors && cursors[x] == StartIndex(s, LogOf(w, x), RequestFor(subs, x).value, 0)
  {
    RequestedHasRequest(subs, x);
  }

  lemma {:induction false} ResumeCursor(s: Site, w: World, batch: bool, lines: seq<string>, i: nat)
    requires AreExact(s, w.streams) && CanReconnect(s, w, batch, lines) && i < |w.streams| && w.streams[i].config.seqnum.Some?
    requires w.streams[i].config.id in Requested(SubsAfter(s, w, batch, lines))
    ensures
      var x := w.streams[i].config.id;
      var cursors := CursorsAfter(s, w, SubsAfter(s, w, batch, lines), map[]);
      x in cursors && cursors[x] == After(s, LogOf(w, x), w.streams[i].config.seqnum.value)
  {
    hide SubsAfter, CanReconnect, AreExact, StartIndex, After, CursorsAfter, LogOf, Requested, RequestFor;
    CursorAt(s, w, SubsAfter(s, w, batch, lines), w.streams[i].config.id);
    ResumePoint(s, w, batch, lines, i, 0);
  }

  lemma {:induction false} IsReady(s: Site, w: World, w1: World, x: string, m: Message)
    requires LogsInv(s, w) && WireInv(s, w) && !w.over && w.unread == [] && w.trailer == []
    requires w1 == w.(connected := true, cursors := w1.cursors, streams := w1.streams, base := w1.base)
    requires x in w1.cursors && w1.cursors[x] < |LogOf(w, x)| && LogOf(w, x)[w1.cursors[x]] == m
    ensures IsNext(s, w1, x, m)
  {
    assert WireInv(s, w1) by { SameWires(s, w, w1); }
    assert LogsInv(s, w1) by { SameLogs(s, w, w1); }
    hide LogsInv, WireInv, CanReconnect, NextItem, IsEntry;
  }

  lemma {:induction false} ReconnectEnabled(s: Site, w: World, batch: bool, lines: seq<string>)
    requires CanReconnect(s, w, batch, lines)
    ensures Enabled(s, w, Reconnect(batch, lines, map[])) && !w.connected && !w.over
  {
    hide Plan, AllSendable, Negotiated, Configs;
  }

  lemma {:induction false} ResumesThere(s: Site, w: World, firsts: seq<First>, batch: bool, lines: seq<string>, i: nat)
    requires Inv(s, w, firsts) && CanReconnect(s, w, batch, lines) && i < |w.streams|
    requires w.streams[i].config.id in Requested(SubsAfter(s, w, batch, lines)) && NextFor(s, w, w.streams[i]).Some?
    ensures
      var back := Reconnect(batch, lines, map[]);
      && Enabled(s, w, back) && Do(s, w, back).yielded == w.yielded
      && IsNext(s, Do(s, w, back), w.streams[i].config.id, NextFor(s, w, w.streams[i]).value)
  {
    ReconnectEnabled(s, w, batch, lines);
    hide Enabled, CanReconnect;
    ReconnectDoes(s, w, batch, lines, map[]);
    hide Enabled, Do, SubsAfter, CanReconnect, LogsInv, WireInv, AreExact, LaneInv, LaneOf, After, BasesAfter, CursorsAfter, LogOf, IsNext, Requested;
    ResumeCursor(s, w, batch, lines, i);
    IsReady(s, w, Do(s, w, Reconnect(batch, lines, map[])), w.streams[i].config.id, NextFor(s, w, w.streams[i]).value);
  }

  /** After any drop, a stream that holds a number can be handed the packet right
      behind it: reconnect against a server that refuses nothing, then send, arrive
      and read. */
  lemma {:induction false} ResumedPacketComes(s: Site, w: World, firsts: seq<First>, batch: bool, i: nat, cut: nat)
    requires Inv(s, w, firsts) && !w.connected && !w.over && i < |w.streams|
    requires AllSendable(Plan(OptionsOf(s, batch), s.iso, Configs(s, w)).value)
    requires NextFor(s, w, w.streams[i]).Some?
    ensures
      var m := NextFor(s, w, w.streams[i]).value;
      var back := Reconnect(batch, Oks(|Blocks(OptionsOf(s, batch), s.iso, Configs(s, w))|), map[]);
      IsWellFormed(s.ms, s.version, m)
      && (cut <= |Wire(s.ms, s.version, m)| ==> HandsOut(s, w, [back] + HandOver(s, w.streams[i].config.id, m, cut), m))
  {
    var lines := Oks(|Blocks(OptionsOf(s, batch), s.iso, Configs(s, w))|);
    var back := Reconnect(batch, lines, map[]);
    var x, m := w.streams[i].config.id, NextFor(s, w, w.streams[i]).value;
    CanComeBack(s, w, batch, i);
    ResumesThere(s, w, firsts, batch, lines, i);
    hide Inv, Enabled, Do, CanReconnect, Wire, IsWellFormed, Seen, Final, SubsAfter, Configs, Plan, AllSendable, Blocks, NextFor, IsNext, HandOver;
    NextPacketComes(s, Do(s, w, back), x, m, cut);
    if cut <= |Wire(s.ms, s.version, m)| {
      FirstStep(s, w, back, HandOver(s, x, m, cut));
    }
  }
}
