/** What `collect()` does, told by the bytes it reads and the clock: when it ends,
    what becomes of each kind of message, what it asks for, and when it gives up. */
module Outcomes {
  import opened Text
  import opened Protocol
  import opened Streams
  import opened Times
  import opened Commands
  import opened Negotiation
  import opened Exchange
  import opened Servers
  import opened Subscription
  import opened Handshakes
  import opened Connections
  import opened Selections
  import opened Collect
  import opened Sessions
  import opened Clients

  // ------------------------------------------------------------- when it ends

  /** What a pass met that ends the generator: on an open connection that is not
      idle for too long, END or bytes that cannot be decoded; without `reconnect`
      whatever else takes the connection away, or that there is none. */
  predicate EndsAt(p: Profile, c: State, m: Moment, t: Tick) {
    var idle := m.now - c.lastData > p.settings.idleTimeout;
    var taking := c.link.Some? && !idle && t.readable;
    || (taking && t.read in {Ok(EndOfStream), Err(DecodeFailed)})
    || (!p.settings.reconnect
        && (c.link.None? || idle
            || (taking && (t.read.Err? || t.read.value.Reply?
                          || (t.read.value.Packet? && t.read.value.frame.format == 'J' && t.read.value.frame.subformat == 'E')))))
  }

  lemma {:induction false} PassEnds(p: Profile, c: State, m: Moment, r: Record)
    requires IsPass(p, c, m, r)
    ensures Continues(p.settings, WhatOf(p, c, r)) <==> !EndsAt(p, c, m, r.tick)
  {
    hide ComeBack, NextOf, IsReadOf;
  }

  /** A history ends the generator exactly with a pass that met such a thing, and
      goes on over every other, reconnections included. */
  lemma {:induction false} EndsExactly(p: Profile, c: State, ms: seq<Moment>, h: seq<Record>, i: nat)
    requires IsHistory(p, c, ms, h) && i < |h|
    ensures i < |ms|
    ensures EndsAt(p, EndOf(p, c, ms, h[..i]), ms[i], h[i].tick) <==> i == |h| - 1 && !StillGoing(p, c, h)
    decreases |h|
  {
    hide IsPass, StateAfter, WhatOf, Continues, EndsAt;
    var c1 := StateAfter(p, c, ms[0], h[0]);
    PassEnds(p, c, ms[0], h[0]);
    GoingOn(p, c, ms, h);
    if i > 0 {
      EndsExactly(p, c1, ms[1..], h[1..], i - 1);
      assert h[..i][1..] == h[1..][..i - 1];
    }
  }

  lemma {:induction false} GoingOn(p: Profile, c: State, ms: seq<Moment>, h: seq<Record>)
    requires IsHistory(p, c, ms, h) && h != []
    ensures
      StillGoing(p, c, h) <==> Continues(p.settings, WhatOf(p, c, h[0])) && StillGoing(p, StateAfter(p, c, ms[0], h[0]), h[1..])
  {
    PassIsLoop(p, c, ms[0], h[0]);
    hide IsPass, StateAfter, Continues, PassWhat, PassLoop, LoopOf;
    assert Ticks(h)[1..] == Ticks(h[1..]);
  }

  /** The last pass of a history. */
  predicate EndedBy(p: Profile, c: State, ms: seq<Moment>, h: seq<Record>) {
    h != [] && |h| <= |ms| && EndsAt(p, EndOf(p, c, ms, h[..|h| - 1]), ms[|h| - 1], h[|h| - 1].tick)
  }

  /** `collect()` reports its end exactly when its last pass met one. With
      `reconnect`, and retries that come to something, it lasts over all the moments
      it is given, or until it reads END or what it cannot decode. */
  lemma {:induction false} CollectEnds(
    p: Profile, c: State, ms: seq<Moment>, got: seq<Frame>, halt: Halt, h: seq<Record>, now: State)
    requires IsCollected(p, c, ms, got, halt, h, now)
    ensures halt.Ended? <==> EndedBy(p, c, ms, h)
    ensures p.settings.reconnect && (halt.OutOfMoments? || halt.Ended?) ==>
      |h| == |ms| || (h != [] && h[|h| - 1].tick.read in {Ok(EndOfStream), Err(DecodeFailed)})
  {
    hide IsHistory, EndOf, StillGoing, Given, IsStuck;
    if h != [] {
      EndsExactly(p, c, ms, h, |h| - 1);
    }
  }

  // ------------------------------------------------- what becomes of a message

  /** The connection's bytes begin with these. */
  predicate Offers(c: State, head: seq<byte>, rest: seq<byte>) {
    c.link.Some? && c.link.value.s == head + rest
  }

  /** A pass that reads: data is there and the connection not idle for too long. */
  predicate Reads(p: Profile, c: State, m: Moment, r: Record) {
    c.link.Some? && IsPass(p, c, m, r) && r.tick.readable && m.now - c.lastData <= p.settings.idleTimeout
  }

  /** What the client is and has handed out after the pass. */
  predicate ComesTo(p: Profile, c: State, m: Moment, r: Record, c1: State, given: seq<Frame>) {
    StateAfter(p, c, m, r) == c1 && YieldOf(WhatOf(p, c, r)) == given
  }

  function Past(c: State, rest: seq<byte>): Option<Link> {
    if c.link.Some? then Some(c.link.value.(s := rest)) else None
  }

  lemma {:induction false} PassReads(p: Profile, c: State, m: Moment, r: Record, item: Item, rest: seq<byte>)
    requires Reads(p, c, m, r) && NextOf(p, c.link.value) == Got(item, rest)
    ensures
      var reaction := React(item);
      ComesTo(p, c, m, r,
              c.(link := LinkActed(reaction, c.link.value.(s := rest)), lastData := if reaction.Yields? then m.after else c.lastData,
                 sel := Handed(p.glob, reaction, c.sel)),
              if reaction.Yields? then [reaction.frame] else [])
  {
    hide NextOf, Handed, React, ComeBack;
  }

  /** The replies to INFO: 3.x INFO packets, XML, and JSON of the INFO kind. */
  predicate IsInfoMessage(msg: Message) {
    msg.InfoV3? || (msg.DataV4? && (msg.frame.format == 'X' || (msg.frame.format == 'J' && msg.frame.subformat == 'I')))
  }

  predicate IsErrorMessage(msg: Message) {
    msg.DataV4? && msg.frame.format == 'J' && msg.frame.subformat == 'E'
  }

  lemma {:induction false} MessageRead(p: Profile, c: State, msg: Message, rest: seq<byte>)
    requires c.link.Some? && IsWellFormed(p.ms, c.link.value.version, msg)
    requires Offers(c, Wire(p.ms, c.link.value.version, msg), rest)
    ensures NextOf(p, c.link.value) == Got(Packet(Meaning(p.ms, c.link.value.version, msg)), rest)
  {
    hide NextItem, Wire, IsWellFormed;
    PacketRoundTrip(p.ms, c.link.value.version, msg, rest, c.link.value.fate);
  }

  /** The bytes of an INFO reply are taken off the connection and change nothing
      else: nothing is handed out, and the idle clock runs on. */
  lemma {:induction false} InfoIsConsumed(p: Profile, c: State, m: Moment, r: Record, msg: Message, rest: seq<byte>)
    requires Reads(p, c, m, r) && IsWellFormed(p.ms, c.link.value.version, msg) && IsInfoMessage(msg)
    requires Offers(c, Wire(p.ms, c.link.value.version, msg), rest)
    ensures ComesTo(p, c, m, r, c.(link := Past(c, rest)), [])
  {
    MessageRead(p, c, msg, rest);
    PassReads(p, c, m, r, Packet(Meaning(p.ms, c.link.value.version, msg)), rest);
    hide Reads, Offers, Wire, IsWellFormed, ComesTo;
  }

  /** The bytes of any other packet but a JSON error are handed out as the packet
      they are, restart the idle clock, and give the matching streams its number. */
  lemma {:induction false} DataIsYielded(p: Profile, c: State, m: Moment, r: Record, msg: Message, rest: seq<byte>)
    requires Reads(p, c, m, r) && IsWellFormed(p.ms, c.link.value.version, msg) && !IsInfoMessage(msg) && !IsErrorMessage(msg)
    requires Offers(c, Wire(p.ms, c.link.value.version, msg), rest)
    ensures
      var f := if msg.DataV4? then msg.frame
               else Frame(p.ms.station(msg.record).value, Some(msg.seqnum), '2', 'D', msg.record, false);
      ComesTo(p, c, m, r,
              c.(link := Past(c, rest), lastData := m.after, sel := c.sel.(streams := UpdatedAll(p.glob, f, c.sel.streams))), [f])
  {
    MessageRead(p, c, msg, rest);
    PassReads(p, c, m, r, Packet(Meaning(p.ms, c.link.value.version, msg)), rest);
    hide Reads, Offers, Wire, ComesTo;
  }

  /** The bytes of a JSON error, of an ERROR line and of END: the first two close the
      connection, the last ends the streaming; nothing is handed out. */
  lemma {:induction false} JsonErrorCloses(p: Profile, c: State, m: Moment, r: Record, msg: Message, rest: seq<byte>)
    requires Reads(p, c, m, r) && IsWellFormed(p.ms, c.link.value.version, msg) && IsErrorMessage(msg)
    requires Offers(c, Wire(p.ms, c.link.value.version, msg), rest)
    ensures ComesTo(p, c, m, r, c.(link := None), [])
  {
    MessageRead(p, c, msg, rest);
    PassReads(p, c, m, r, Packet(Meaning(p.ms, c.link.value.version, msg)), rest);
    hide Reads, Offers, Wire, IsWellFormed, ComesTo;
  }

  lemma {:induction false} ErrorLineRead(ms: Mseed, version: Version, text: string, rest: seq<byte>, fate: Fate)
    requires IsReplyText(text) && "ERROR" <= text
    ensures NextItem(ms, version, EncodeLine(text) + rest, fate) == Got(Reply(ParseReply(text)), rest)
  {
    var s := EncodeLine(text) + rest;
    LineRoundTrip(text, rest, fate);
    assert s[..5] == Encode("ERROR") by {
      assert forall i :: 0 <= i < 5 ==> s[i] == text[i] as int && text[i] == "ERROR"[i];
    }
    ErrorClassified(s, fate);
    hide Classify, NextLine, ParseReply;
  }

  lemma {:induction false} ErrorClassified(s: seq<byte>, fate: Fate)
    requires |s| >= 5 && s[..5] == Encode("ERROR")
    ensures Classify(s, fate) == Ok(ErrorEvent)
  {
    assert s[0] == Encode("ERROR")[0] == 'E' as int && s[1] == Encode("ERROR")[1] == 'R' as int && s[2] == Encode("ERROR")[2] == 'R' as int;
    assert Encode("END")[1] == 'N' as int;
    assert s[..5][0] == s[0];
  }

  lemma {:induction false} ErrorLineCloses(p: Profile, c: State, m: Moment, r: Record, text: string, rest: seq<byte>)
    requires Reads(p, c, m, r) && IsReplyText(text) && "ERROR" <= text && Offers(c, EncodeLine(text), rest)
    ensures ComesTo(p, c, m, r, c.(link := None), [])
  {
    var k := c.link.value;
    ErrorLineRead(p.ms, k.version, text, rest, k.fate);
    hide NextItem, ParseReply, Reads, ComesTo;
    PassReads(p, c, m, r, Reply(ParseReply(text)), rest);
  }

  lemma {:induction false} EndRead(ms: Mseed, version: Version, rest: seq<byte>, fate: Fate)
    ensures NextItem(ms, version, Encode("END") + rest, fate) == Got(EndOfStream, rest)
  {
    var s := Encode("END") + rest;
    assert s[0] == Encode("END")[0] == 'E' as int && s[1] == Encode("END")[1] == 'N' as int && s[2] == Encode("END")[2] == 'D' as int;
    assert s[3..] == rest && s[..3] == Encode("END");
  }

  lemma {:induction false} EndFinishes(p: Profile, c: State, m: Moment, r: Record, rest: seq<byte>)
    requires Reads(p, c, m, r) && Offers(c, Encode("END"), rest)
    ensures ComesTo(p, c, m, r, c.(link := Some(c.link.value.(s := rest, streaming := false))), [])
  {
    var k := c.link.value;
    EndRead(p.ms, k.version, rest, k.fate);
    hide NextItem, Reads, ComesTo;
    PassReads(p, c, m, r, EndOfStream, rest);
  }

  // ------------------------------------------------------------ when it gives up

  /** A try stops the retries for a login exactly when the server refused it: AUTH
      was the last thing the handshake said and its answer is no yes. */
  lemma {:induction false} BarredForLogin(p: Profile, sel: SelState, a: Attempt, luck: Luck)
    requires forall x, y :: p.me.hello(x, y) != Err(AuthRejected)
    ensures
      var t := Try(p, sel, a, luck);
      IsFatal(t.ending) && t.ending.error == AuthRejected <==> IsLoginRefused(MeetingOf(p, a, luck).talk)
  {
    hide Ready, Negotiating, IsLoginRefused;
    LoginRefusals(p.me, Flatten(a.net), a.fate, a.budget, luck.hello, luck.handshake);
    UnheardIsNoLogin(p.me, Flatten(a.net), a.fate, a.budget, luck.hello, luck.handshake);
    hide Meet;
    var met := MeetingOf(p, a, luck);
    NegotiatingIsNoLogin(p, LinkMet(a, met), Ready(p, met.version, sel), luck.plan);
  }

  lemma {:induction false} UnheardIsNoLogin(me: Identity, s: seq<byte>, fate: Fate, budget: nat, luck: nat, luck2: nat)
    ensures Meet(me, s, fate, budget, luck, luck2).talk.ending != Unheard(AuthRejected)
  {
    hide FindCrlf, Converse, PlanHandshake, BatchAgreed;
    match Hail(me.hello, s, fate, budget, luck) {
      case Unmet(_) =>
      case Greeted(version, cap, _, rest) =>
        var plan := PlanHandshake(version, cap, me.agent, me.auth, me.wantBatch);
        if plan.Ok? {
          NeverUnheardLogin(FreshWalk, plan.value, rest, fate, if budget > 0 then budget - 1 else 0, luck2);
        }
    }
  }

  lemma {:induction false} NeverUnheardLogin(w: Walk, plan: seq<Command>, s: seq<byte>, fate: Fate, budget: nat, luck: nat)
    ensures Converse(w, plan, s, fate, budget, luck).ending != Unheard(AuthRejected)
    decreases |plan|
  {
    hide Hear, Interpret, Encoded;
    if plan != [] {
      var cmd, w1 := plan[0], Noted(w, plan[0]);
      MuteIsNoRefusal(s, fate, luck);
      if !Sends(w, cmd) {
        NeverUnheardLogin(w1, plan[1..], s, fate, budget, luck);
      } else if Encoded(cmd).Ok? && budget > 0 {
        if cmd.parse.NoReply? {
          NeverUnheardLogin(Recorded(w1, cmd, None), plan[1..], s, fate, budget - 1, luck);
        } else if Hear(s, fate, luck).Text? && Interpret(cmd.parse, Hear(s, fate, luck).line).Ok? {
          var h := Hear(s, fate, luck);
          NeverUnheardLogin(Recorded(w1, cmd, Some(Interpret(cmd.parse, h.line).value)), plan[1..], h.rest, fate, budget - 1, h.luck);
        }
      }
    }
  }

  /** A conversation stops over a command that is not ASCII only where its plan holds
      one. */
  lemma {:induction false} NotAsciiPlanned(w: Walk, plan: seq<Command>, s: seq<byte>, fate: Fate, budget: nat, luck: nat)
    requires Converse(w, plan, s, fate, budget, luck).ending in {Declined(EncodeFailed), Unheard(EncodeFailed)}
    ensures Converse(w, plan, s, fate, budget, luck).ending.Declined? && exists cmd :: cmd in plan && !IsAsciiText(cmd.text)
    decreases |plan|
  {
    hide ParseReply, Hear;
    if plan != [] {
      var cmd, w1 := plan[0], Noted(w, plan[0]);
      MuteIsNoRefusal(s, fate, luck);
      if !Sends(w, cmd) {
        NotAsciiPlanned(w1, plan[1..], s, fate, budget, luck);
      } else if Encoded(cmd).Err? {
        assert cmd in plan;
      } else if budget > 0 {
        if cmd.parse.NoReply? {
          NotAsciiPlanned(Recorded(w1, cmd, None), plan[1..], s, fate, budget - 1, luck);
        } else if Hear(s, fate, luck).Text? && Interpret(cmd.parse, Hear(s, fate, luck).line).Ok? {
          var h := Hear(s, fate, luck);
          NotAsciiPlanned(Recorded(w1, cmd, Some(Interpret(cmd.parse, h.line).value)), plan[1..], h.rest, fate, budget - 1, h.luck);
        }
      }
    }
  }

  /** What a try has to say once it is connected. */
  function ToSay(p: Profile, sel: SelState, a: Attempt, luck: Luck): seq<Command> {
    var met := MeetingOf(p, a, luck);
    var plan := PlanFor(p, met.version, met.batch, Ready(p, met.version, sel));
    if plan.Ok? then plan.value else []
  }

  /** Once connected, a negotiation stops the retries exactly when it comes to a
      command that is not ASCII; every other failure is tried again. */
  lemma {:induction false} BarredForText(p: Profile, sel: SelState, a: Attempt, luck: Luck)
    requires MeetingOf(p, a, luck).talk.ending.Welcomed?
    ensures
      var t := Try(p, sel, a, luck);
      && (IsFatal(t.ending) <==> t.ending == Declined(EncodeFailed))
      && (IsFatal(t.ending) ==> exists cmd :: cmd in ToSay(p, sel, a, luck) && !IsAsciiText(cmd.text))
  {
    hide Ready, Converse, Meet, Plan;
    var met := MeetingOf(p, a, luck);
    var k, ready := LinkMet(a, met), Ready(p, met.version, sel);
    NegotiatingIsNoLogin(p, k, ready, luck.plan);
    var plan := PlanFor(p, k.version, k.batch, ready);
    if plan.Ok? {
      if Converse(FreshWalk, plan.value, k.s, k.fate, k.budget, luck.plan).ending in {Declined(EncodeFailed), Unheard(EncodeFailed)} {
        NotAsciiPlanned(FreshWalk, plan.value, k.s, k.fate, k.budget, luck.plan);
      }
    } else {
      PlanErrors(OptionsFor(p, k.version, k.batch, ready), p.iso, SortStreams(ConfigsOf(ready.streams)));
    }
  }

  lemma {:induction false} PlanErrors(o: Options, iso: IsoReader, cs: seq<Config>)
    ensures Plan(o, iso, cs).Err? ==> Plan(o, iso, cs).error == NotOneStream
  {
  }

  // --------------------------------------------------------- what it asks for

  /** The window the client was set up with, in the words of the version. */
  function WindowOf(p: Profile, version: Version): Request
    requires p.start.Some?
  {
    if version.V4? then Window(Earliest, ToIso(p.start.value), if p.end.Some? then Some(ToIso(p.end.value)) else None)
    else Window(Next, ToComma(p.start.value), if p.end.Some? then Some(ToComma(p.end.value)) else None)
  }

  predicate AsksFor(subs: seq<Sub>, request: Request) {
    forall i :: 0 <= i < |subs| ==> subs[i].request in {None, Some(request)}
  }

  lemma {:induction false} GrantedWindow(p: Profile, version: Version, batch: bool, sel: SelState, cs: seq<Config>, lines: seq<string>)
    requires p.start.Some?
    ensures AsksFor(Granted(OptionsFor(p, version, batch, sel), p.iso, cs, lines), WindowOf(p, version))
    decreases |cs|
  {
    var o := OptionsFor(p, version, batch, sel);
    hide LineOk, Kept, ToIso, ToComma, ResumeTimestamp;
    if cs != [] {
      assert Wanted(o, p.iso, cs[0]) == WindowOf(p, version);
      GrantedWindow(p, version, batch, sel, cs[1..], DropLines(lines, Answered(o, cs[0], lines)));
    }
  }

  /** With a start time set, whatever numbers the streams hold: a negotiation that
      was welcomed leaves no station streaming anything but that window. */
  lemma {:induction false} WindowIsRequested(p: Profile, k: Link, ready: SelState, luck: nat)
    requires p.start.Some? && ready.streams != [] && (k.version.V4? || ready.multistation)
    requires
      var o := OptionsFor(p, k.version, k.batch, ready);
      var cs := SortStreams(ConfigsOf(ready.streams));
      AllSpeakable(o, cs) && PlanFor(p, k.version, k.batch, ready).Ok? && AllSendable(PlanFor(p, k.version, k.batch, ready).value)
    requires Negotiating(p, k, ready, luck).ending.Welcomed?
    ensures
      var t := Negotiating(p, k, ready, luck);
      AsksFor(Serve(NewServer(k.version, k.batch), t.sent, t.heard).server.subs, WindowOf(p, k.version))
  {
    hide Converse, RunWalk, Serve, Granted, Configured, IsSpeakable, Encoded, WindowOf, Plan, Ready, AllSendable, AllSpeakable, SortStreams;
    var o, cs := OptionsFor(p, k.version, k.batch, ready), SortStreams(ConfigsOf(ready.streams));
    var plan := PlanFor(p, k.version, k.batch, ready).value;
    SortStreamsCorrect(ConfigsOf(ready.streams), "");
    ConverseIsRun(FreshWalk, plan, k.s, k.fate, k.budget, luck);
    Subscribed(o, p.iso, cs, Negotiating(p, k, ready, luck).heard);
    GrantedWindow(p, k.version, k.batch, ready, cs, Negotiating(p, k, ready, luck).heard);
  }

  /** A client set up for all stations of a 3.x server names none: the server streams
      what it has, with the selectors it accepted, from the position configured. */
  lemma {:induction false} AllStationsRequested(p: Profile, k: Link, ready: SelState, luck: nat)
    requires k.version.V3? && !ready.multistation && |ready.streams| == 1 && AllWords(ready.streams[0].config.selectors)
    requires PlanFor(p, V3, k.batch, ready).Ok? ==> AllSendable(PlanFor(p, V3, k.batch, ready).value)
    requires Negotiating(p, k, ready, luck).ending.Welcomed?
    ensures
      var t, c := Negotiating(p, k, ready, luck), ready.streams[0].config;
      var o := OptionsFor(p, V3, k.batch, ready);
      Serve(NewServer(V3, k.batch), t.sent, t.heard).server
      == Server(V3, k.batch, false, [Sub("*", Kept(o, c.selectors, t.heard), Some(Wanted(o, p.iso, c)))], true, p.dialup && p.start.None?)
  {
    hide Converse, RunWalk, Serve, Kept, Wanted, Encoded, Selects, Data, AllSendable, IsWord;
    var o, c, t := OptionsFor(p, V3, k.batch, ready), ready.streams[0].config, Negotiating(p, k, ready, luck);
    var cs := ConfigsOf(ready.streams);
    SortOne(c);
    assert cs == [c];
    ConverseIsRun(FreshWalk, PlanFor(p, V3, k.batch, ready).value, k.s, k.fate, k.budget, luck);
    SubscribedUni(o, p.iso, c, t.heard);
  }

  lemma {:induction false} SortOne(c: Config)
    ensures SortStreams([c]) == [c]
  {
    assert [c][1..] == [];
  }
}
