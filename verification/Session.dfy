/** A client as a value: what connecting, negotiating, reconnecting and one pass of
    `collect()` make of the bytes a connection offers, and the histories those
    passes add up to. `Clients` proves the client to be this. */
module Sessions {
  import opened Text
  import opened Protocol
  import opened Framing
  import opened Streams
  import opened Times
  import opened Commands
  import opened Exchange
  import opened Connections
  import opened Selections
  import opened Collect

  /** What a client is set up with. */
  datatype Profile = Profile(
    ms: Mseed, me: Identity, glob: Glob, iso: IsoReader, times: StartTimes, settings: Settings, dialup: bool,
    start: Option<DateTime>, end: Option<DateTime>)

  /** An open connection: what was agreed on it, every byte it has still to offer,
      what follows them, how many commands it takes, and whether it streams. */
  datatype Link = Link(version: Version, batch: bool, s: seq<byte>, fate: Fate, budget: nat, streaming: bool)

  /** A client. `sent` is every command it has handed to a socket so far. */
  datatype State = State(
    link: Option<Link>, lastData: real, nextKeepalive: Option<real>, sel: SelState, sent: seq<seq<byte>>)

  function LoopOf(c: State): Loop {
    Loop(c.link.Some?, c.lastData, c.nextKeepalive)
  }

  // ------------------------------------------------------------- connecting

  function OptionsFor(p: Profile, version: Version, batch: bool, sel: SelState): Options {
    Options(version, p.dialup, sel.multistation, true, true, batch, p.start, p.end)
  }

  /** The selection as planning leaves it. */
  function Ready(p: Profile, version: Version, sel: SelState): SelState {
    Prepared(p.times, version.V3? && p.start.None?, sel)
  }

  function PlanFor(p: Profile, version: Version, batch: bool, ready: SelState): Result<seq<Command>, Error> {
    Plan(OptionsFor(p, version, batch, ready), p.iso, SortStreams(ConfigsOf(ready.streams)))
  }

  /** `negotiate()` on a connection, its streams ready. */
  function Negotiating(p: Profile, k: Link, ready: SelState, luck: nat): Talk {
    match PlanFor(p, k.version, k.batch, ready)
    case Err(e) => Talk([], [], k.s, Declined(e))
    case Ok(plan) => Converse(FreshWalk, plan, k.s, k.fate, k.budget, luck)
  }

  lemma {:induction false} NegotiatingIsNoLogin(p: Profile, k: Link, ready: SelState, luck: nat)
    ensures Negotiating(p, k, ready, luck).ending !in {Declined(AuthRejected), Unheard(AuthRejected)}
  {
    hide Converse, SortStreams, ConfigsOf;
    var plan := PlanFor(p, k.version, k.batch, ready);
    if plan.Ok? {
      PlanIsNoLogin(OptionsFor(p, k.version, k.batch, ready), p.iso, SortStreams(ConfigsOf(ready.streams)));
      NoLoginRefused(FreshWalk, plan.value, k.s, k.fate, k.budget, luck);
    }
  }

  function LinkAfter(k: Link, t: Talk): Link {
    k.(s := t.rest, budget := if |t.sent| <= k.budget then k.budget - |t.sent| else 0)
  }

  /** A connection whose negotiation was welcomed. */
  function LinkWelcomed(k: Link, t: Talk): Link {
    LinkAfter(k, t).(streaming := true)
  }

  /** The connection a negotiation leaves; an answer that never came whole may or
      may not have closed it. */
  function LinkLeft(k: Link, t: Talk): Option<Link> {
    match t.ending
    case Welcomed => Some(LinkWelcomed(k, t))
    case Declined(_) => Some(LinkAfter(k, t))
    case _ => None
  }

  /** The lines past the limit that happen to be taken, while greeting, in the
      handshake and while negotiating. */
  datatype Luck = Luck(hello: nat, handshake: nat, plan: nat)

  /** One try at being back: connect, then negotiate. */
  datatype Tried = Tried(ending: Ending, link: Option<Link>, sel: SelState)

  function LinkMet(a: Attempt, met: Meeting): Link {
    LinkAfter(Link(met.version, met.batch, Flatten(a.net), a.fate, a.budget, false), met.talk)
  }

  function MeetingOf(p: Profile, a: Attempt, luck: Luck): Meeting {
    Meet(p.me, Flatten(a.net), a.fate, a.budget, luck.hello, luck.handshake)
  }

  /** The client that met a server, or was turned away. */
  function Connected(c: State, a: Attempt, met: Meeting): State {
    c.(link := if met.talk.ending.Welcomed? then Some(LinkMet(a, met)) else None, sent := c.sent + Wires(met.talk.sent))
  }

  function Try(p: Profile, sel: SelState, a: Attempt, luck: Luck): Tried {
    var met := MeetingOf(p, a, luck);
    if !met.talk.ending.Welcomed? then Tried(met.talk.ending, None, sel)
    else
      var ready := Ready(p, met.version, sel);
      var k := LinkMet(a, met);
      var t := Negotiating(p, k, ready, luck.plan);
      Tried(t.ending, if t.ending.Welcomed? then Some(LinkWelcomed(k, t)) else None, ready)
  }

  /** What a try hands to its socket. */
  function SentTrying(p: Profile, sel: SelState, a: Attempt, luck: Luck): seq<seq<byte>> {
    var met := MeetingOf(p, a, luck);
    Wires(met.talk.sent)
    + if met.talk.ending.Welcomed? then Wires(Negotiating(p, LinkMet(a, met), Ready(p, met.version, sel), luck.plan).sent) else []
  }

  /** What the branches of a try do, `sent` having been sent before. */
  lemma {:induction false} TryDoes(p: Profile, sel: SelState, sent: seq<seq<byte>>, a: Attempt, luck: Luck)
    ensures
      var met, t, out := MeetingOf(p, a, luck), Try(p, sel, a, luck), sent + SentTrying(p, sel, a, luck);
      var ready := Ready(p, met.version, sel);
      var n := Negotiating(p, LinkMet(a, met), ready, luck.plan);
      LinkMet(a, met).version == met.version
      && if !met.talk.ending.Welcomed? then t == Tried(met.talk.ending, None, sel) && out == sent + Wires(met.talk.sent)
      else
        && t == Tried(n.ending, if n.ending.Welcomed? then Some(LinkWelcomed(LinkMet(a, met), n)) else None, ready)
        && out == sent + Wires(met.talk.sent) + Wires(n.sent)
  {
    hide Meet, Negotiating, Ready, Wires;
  }

  /** What ends the retries: rejected credentials, and a command that is not ASCII. */
  predicate IsFatal(ending: Ending) {
    (ending.Declined? || ending.Unheard?) && ending.error in {AuthRejected, EncodeFailed}
  }

  datatype Return = Back(link: Link, sel: SelState) | Barred(error: Error, sel: SelState) | Away(sel: SelState)

  function LuckOf(lucks: seq<Luck>): Luck {
    if lucks == [] then Luck(0, 0, 0) else lucks[0]
  }

  function LaterLucks(lucks: seq<Luck>): seq<Luck> {
    if lucks == [] then [] else lucks[1..]
  }

  /** The retries, until one succeeds, one is fatal or there are no more. */
  function ComeBack(p: Profile, sel: SelState, tries: seq<Attempt>, lucks: seq<Luck>): Return
    decreases |tries|
  {
    if tries == [] then Away(sel)
    else
      var t := Try(p, sel, tries[0], LuckOf(lucks));
      if t.link.Some? then Back(t.link.value, t.sel)
      else if IsFatal(t.ending) then Barred(t.ending.error, t.sel)
      else ComeBack(p, t.sel, tries[1..], LaterLucks(lucks))
  }

  /** What the retries hand to their sockets. */
  function SentComingBack(p: Profile, sel: SelState, tries: seq<Attempt>, lucks: seq<Luck>): seq<seq<byte>>
    decreases |tries|
  {
    if tries == [] then []
    else
      var t := Try(p, sel, tries[0], LuckOf(lucks));
      SentTrying(p, sel, tries[0], LuckOf(lucks))
      + if t.link.Some? || IsFatal(t.ending) then [] else SentComingBack(p, t.sel, tries[1..], LaterLucks(lucks))
  }

  // -------------------------------------------------------------- first of all

  /** `collect()` negotiates unless the connection streams already. */
  datatype Opening = Streaming(now: State) | Unopened(ending: Ending, left: Option<Link>, sent: seq<seq<byte>>)

  function Opened(p: Profile, c: State, luck: nat): Opening {
    if c.link.None? then Unopened(Declined(NotConnected), None, [])
    else if c.link.value.streaming then Streaming(c)
    else
      var k := c.link.value;
      var ready := Ready(p, k.version, c.sel);
      var t := Negotiating(p, k, ready, luck);
      if t.ending.Welcomed? then Streaming(c.(link := Some(LinkWelcomed(k, t)), sel := ready, sent := c.sent + Wires(t.sent)))
      else Unopened(t.ending, LinkLeft(k, t), Wires(t.sent))
  }

  /** The loop with its clocks set. */
  function Begun(c: State, g: Settings, begin: real): State {
    c.(lastData := begin, nextKeepalive := KeepaliveFrom(g, begin))
  }

  /** Connecting and then collecting opens the very connection a try at coming back
      does, with the same streams and the same commands sent. */
  lemma {:induction false} OpenedIsTry(p: Profile, c: State, a: Attempt, luck: Luck)
    requires MeetingOf(p, a, luck).talk.ending.Welcomed?
    ensures
      var t := Try(p, c.sel, a, luck);
      match Opened(p, Connected(c, a, MeetingOf(p, a, luck)), luck.plan)
      case Streaming(now) => t.link.Some? && now == c.(link := t.link, sel := t.sel, sent := c.sent + SentTrying(p, c.sel, a, luck))
      case Unopened(ending, _, sent) =>
        t.link.None? && ending == t.ending && Wires(MeetingOf(p, a, luck).talk.sent) + sent == SentTrying(p, c.sel, a, luck)
  {
    hide Meet, Negotiating, Ready, Wires;
    var met := MeetingOf(p, a, luck);
    var n := Negotiating(p, LinkMet(a, met), Ready(p, met.version, c.sel), luck.plan);
    assert c.sent + Wires(met.talk.sent) + Wires(n.sent) == c.sent + (Wires(met.talk.sent) + Wires(n.sent));
  }

  // ------------------------------------------------------------------ passes

  predicate AreAttempts(tries: seq<Attempt>) {
    forall i :: 0 <= i < |tries| ==> IsAttempt(tries[i])
  }

  /** What one pass of the loop meets outside the connection: the clock before
      and after it waits, whether the socket turned readable, and the tries at
      reconnecting the network grants. */
  datatype Moment = Moment(now: real, after: real, ready: bool, tries: seq<Attempt>)

  /** What reading gives, as the stream parser has it. An ERROR line longer than
      the limit is taken or refused depending on how it arrives. */
  predicate IsReadOf(read: Result<Item, Error>, step: Step) {
    match step
    case Got(item, _) => read == Ok(item)
    case Failed(e) => read == Err(e)
    case Ambiguous(line) => read in {Ok(Reply(ParseReply(line))), Err(LineTooLong), Err(NotAscii)}
  }

  function ReadOf(step: Step): (read: Result<Item, Error>)
    ensures IsReadOf(read, step)
  {
    match step
    case Got(item, _) => Ok(item)
    case Failed(e) => Err(e)
    case Ambiguous(line) => Err(LineTooLong)
  }

  function NextOf(p: Profile, k: Link): Step {
    NextItem(p.ms, k.version, k.s, k.fate)
  }

  /** What a pass from `c` meets: it reads the clock of its moment, finds data where
      the socket is readable or bytes are buffered, can send while the connection
      takes commands, and reads the next item of the connection's bytes. */
  predicate Meets(p: Profile, c: State, m: Moment, t: Tick) {
    && t.now == m.now && t.after == m.after
    && (c.link.Some? ==>
          && (m.ready ==> t.readable) && (t.readable && !m.ready ==> c.link.value.s != [])
          && t.sendOk == (c.link.value.budget > 0)
          && IsReadOf(t.read, NextOf(p, c.link.value)))
  }

  /** A connection once its next item was read. */
  function LinkRead(p: Profile, k: Link): Link {
    if NextOf(p, k).Got? then k.(s := NextOf(p, k).rest) else k
  }

  function LinkSpent(k: Link): Link {
    k.(budget := if k.budget > 0 then k.budget - 1 else 0)
  }

  /** The connection after the loop acted on an item. */
  function LinkActed(reaction: Reaction, k: Link): Option<Link> {
    match reaction
    case Closes => None
    case Finishes => Some(k.(streaming := false))
    case _ => Some(k)
  }

  /** The selection after the loop acted on an item. */
  function Handed(glob: Glob, reaction: Reaction, s: SelState): SelState {
    if reaction.Yields? then s.(streams := UpdatedAll(glob, reaction.frame, s.streams)) else s
  }

  /** A pass: what it met, and the luck of its retries. */
  datatype Record = Record(tick: Tick, lucks: seq<Luck>)

  function WhatOf(p: Profile, c: State, r: Record): What {
    PassWhat(p.settings, LoopOf(c), r.tick)
  }

  /** What a heartbeat hands to the socket. */
  function Heartbeat(sent: bool): seq<seq<byte>> {
    if sent then [EncodeLine("INFO ID")] else []
  }

  /** The client after a pass. A plain decode error ends the loop and leaves the
      connection as it was, the packet unread. */
  function StateAfter(p: Profile, c: State, m: Moment, r: Record): State {
    var what := WhatOf(p, c, r);
    if what.Reconnected? then
      var back := ComeBack(p, c.sel, m.tries, r.lucks);
      State(if back.Back? then Some(back.link) else None, m.after, KeepaliveFrom(p.settings, m.after), back.sel,
            c.sent + SentComingBack(p, c.sel, m.tries, r.lucks))
    else if c.link.None? then c
    else
      var k := c.link.value;
      match what
      case Expired => c.(link := None)
      case KeptAlive(sent) =>
        c.(link := if sent then Some(LinkSpent(k)) else None, nextKeepalive := KeepaliveFrom(p.settings, m.after),
           sent := c.sent + Heartbeat(sent))
      case Took(reaction) =>
        c.(link := LinkActed(reaction, LinkRead(p, k)), lastData := if reaction.Yields? then m.after else c.lastData,
           sel := Handed(p.glob, reaction, c.sel))
      case ReadFailed(e) => if e.DecodeFailed? then c else c.(link := None)
      case _ => c
  }

  /** A pass that happened: it met what there was, and any reconnection succeeded. */
  predicate IsPass(p: Profile, c: State, m: Moment, r: Record) {
    Meets(p, c, m, r.tick) && (WhatOf(p, c, r).Reconnected? ==> ComeBack(p, c.sel, m.tries, r.lucks).Back?)
  }

  /** What the branches of a pass on an open connection do. */
  lemma {:induction false} OpenPassDoes(p: Profile, c: State, m: Moment, t: Tick)
    requires c.link.Some? && Meets(p, c, m, t)
    ensures
      var r := Record(t, []);
      var what, after, k := WhatOf(p, c, r), StateAfter(p, c, m, r), c.link.value;
      && IsPass(p, c, m, r)
      && if m.now - c.lastData > p.settings.idleTimeout then what == Expired && after == c.(link := None)
         else if !t.readable then
           if c.nextKeepalive == None || m.after < c.nextKeepalive.value then what == Waited && after == c
           else
             what == KeptAlive(k.budget > 0)
             && after == c.(link := if k.budget > 0 then Some(LinkSpent(k)) else None, nextKeepalive := KeepaliveFrom(p.settings, m.after),
                            sent := c.sent + Heartbeat(k.budget > 0))
         else if t.read.Err? then
           what == ReadFailed(t.read.error) && after == if t.read.error.DecodeFailed? then c else c.(link := None)
         else
           var reaction := React(t.read.value);
           && what == Took(reaction)
           && after == c.(link := LinkActed(reaction, LinkRead(p, k)), lastData := if reaction.Yields? then m.after else c.lastData,
                          sel := Handed(p.glob, reaction, c.sel))
  {
    hide NextOf, LinkRead, Handed, React, ComeBack, Heartbeat;
  }

  // --------------------------------------------------------------- histories

  /** Passes one after the other, each but the last letting the generator go on. */
  predicate IsHistory(p: Profile, c: State, ms: seq<Moment>, h: seq<Record>)
    decreases |h|
  {
    h == []
    || (ms != [] && IsPass(p, c, ms[0], h[0]) && (|h| > 1 ==> Continues(p.settings, WhatOf(p, c, h[0])))
        && IsHistory(p, StateAfter(p, c, ms[0], h[0]), ms[1..], h[1..]))
  }

  function EndOf(p: Profile, c: State, ms: seq<Moment>, h: seq<Record>): State
    decreases |h|
  {
    if h == [] || ms == [] then c else EndOf(p, StateAfter(p, c, ms[0], h[0]), ms[1..], h[1..])
  }

  function Ticks(h: seq<Record>): (ts: seq<Tick>)
    ensures |ts| == |h|
  {
    if h == [] then [] else [h[0].tick] + Ticks(h[1..])
  }

  function YieldOf(what: What): seq<Frame> {
    if what.Took? && what.reaction.Yields? then [what.reaction.frame] else []
  }

  /** The packets a history hands out. */
  function Given(p: Profile, c: State, h: seq<Record>): seq<Frame> {
    YieldsOf(Passes(p.settings, LoopOf(c), Ticks(h)))
  }

  predicate StillGoing(p: Profile, c: State, h: seq<Record>) {
    GoesOn(p.settings, LoopOf(c), Ticks(h))
  }

  /** The loop state after a pass is what the clock machine says. */
  lemma {:induction false} PassIsLoop(p: Profile, c: State, m: Moment, r: Record)
    requires IsPass(p, c, m, r)
    ensures LoopOf(StateAfter(p, c, m, r)) == PassLoop(p.settings, LoopOf(c), r.tick)
  {
    hide ComeBack, SentComingBack, NextOf, Handed, React;
  }

  lemma {:induction false} TicksSnoc(h: seq<Record>, r: Record)
    ensures Ticks(h + [r]) == Ticks(h) + [r.tick]
  {
    if h == [] {
      assert [r][1..] == [];
    } else {
      assert (h + [r])[1..] == h[1..] + [r];
      TicksSnoc(h[1..], r);
    }
  }

  /** One more pass of a history that still goes on. */
  lemma {:induction false} HistorySnoc(p: Profile, c: State, ms: seq<Moment>, h: seq<Record>, r: Record)
    requires IsHistory(p, c, ms, h) && StillGoing(p, c, h) && |h| < |ms|
    requires IsPass(p, EndOf(p, c, ms, h), ms[|h|], r)
    ensures IsHistory(p, c, ms, h + [r])
    ensures EndOf(p, c, ms, h + [r]) == StateAfter(p, EndOf(p, c, ms, h), ms[|h|], r)
    ensures LoopOf(EndOf(p, c, ms, h)) == LoopAfter(p.settings, LoopOf(c), Ticks(h))
    decreases |h|
  {
    hide IsPass, StateAfter, PassWhat, PassLoop, LoopOf;
    if h == [] {
      assert [r][1..] == [];
      assert EndOf(p, StateAfter(p, c, ms[0], r), ms[1..], []) == StateAfter(p, c, ms[0], r);
    } else {
      assert (h + [r])[1..] == h[1..] + [r];
      assert Continues(p.settings, WhatOf(p, c, h[0]));
      PassIsLoop(p, c, ms[0], h[0]);
      HistorySnoc(p, StateAfter(p, c, ms[0], h[0]), ms[1..], h[1..], r);
    }
  }

  /** What one more pass hands out, and whether the generator then goes on. */
  lemma {:induction false} GivenSnoc(p: Profile, c: State, ms: seq<Moment>, h: seq<Record>, r: Record)
    requires IsHistory(p, c, ms, h) && StillGoing(p, c, h) && |h| < |ms|
    requires IsPass(p, EndOf(p, c, ms, h), ms[|h|], r)
    ensures
      var what := WhatOf(p, EndOf(p, c, ms, h), r);
      && Given(p, c, h + [r]) == Given(p, c, h) + YieldOf(what)
      && (StillGoing(p, c, h + [r]) <==> Continues(p.settings, what))
  {
    hide IsPass, StateAfter, PassWhat, PassLoop, Continues, IsHistory, EndOf, Passes, GoesOn, LoopAfter;
    HistorySnoc(p, c, ms, h, r);
    TicksSnoc(h, r);
    OneMorePass(p.settings, LoopOf(c), Ticks(h), r.tick);
    var was := Passes(p.settings, LoopOf(c), Ticks(h));
    var what := WhatOf(p, EndOf(p, c, ms, h), r);
    assert (was + [Passing(r.tick, what)])[..|was|] == was;
  }

  /** A history under way: the generator goes on, from `now`, having handed out `got`. */
  predicate IsUnderWay(p: Profile, c: State, ms: seq<Moment>, h: seq<Record>, now: State, got: seq<Frame>) {
    && |h| <= |ms| && IsHistory(p, c, ms, h) && StillGoing(p, c, h)
    && now == EndOf(p, c, ms, h) && got == Given(p, c, h)
  }

  lemma {:induction false} NoPassYet(p: Profile, c: State, ms: seq<Moment>)
    ensures IsUnderWay(p, c, ms, [], c, [])
  {
  }

  lemma {:induction false} OnePassMore(p: Profile, c: State, ms: seq<Moment>, h: seq<Record>, now: State, got: seq<Frame>, r: Record)
    requires IsUnderWay(p, c, ms, h, now, got) && |h| < |ms| && IsPass(p, now, ms[|h|], r)
    ensures
      var what, given := WhatOf(p, now, r), got + YieldOf(WhatOf(p, now, r));
      if Continues(p.settings, what) then IsUnderWay(p, c, ms, h + [r], StateAfter(p, now, ms[|h|], r), given)
      else
        && |h + [r]| <= |ms| && IsHistory(p, c, ms, h + [r]) && given == Given(p, c, h + [r]) && !StillGoing(p, c, h + [r])
        && EndOf(p, c, ms, h + [r]) == StateAfter(p, now, ms[|h|], r)
  {
    hide IsPass, StateAfter, WhatOf, Continues, IsHistory, EndOf, Given, StillGoing;
    HistorySnoc(p, c, ms, h, r);
    GivenSnoc(p, c, ms, h, r);
  }

  // -------------------------------------------- one connection, one byte stream

  function DataOf(fs: seq<Frame>): seq<Frame> {
    if fs == [] then []
    else (if React(Packet(fs[0])).Yields? then [fs[0]] else []) + DataOf(fs[1..])
  }

  lemma {:induction false} YieldsOfCons(e: Passing, events: seq<Passing>)
    ensures YieldsOf([e] + events) == YieldOf(e.what) + YieldsOf(events)
  {
    if events == [] {
      assert [e] + events == [e] && [e][..0] == [];
    } else {
      var n := |events|;
      assert ([e] + events)[..n] == [e] + events[..n - 1];
      YieldsOfCons(e, events[..n - 1]);
    }
  }

  lemma {:induction false} GivenCons(p: Profile, c: State, ms: seq<Moment>, h: seq<Record>)
    requires IsHistory(p, c, ms, h) && h != []
    ensures Given(p, c, h) == YieldOf(WhatOf(p, c, h[0])) + Given(p, StateAfter(p, c, ms[0], h[0]), h[1..])
  {
    hide IsPass, StateAfter, PassWhat, LoopOf, YieldsOf;
    var what, c1 := WhatOf(p, c, h[0]), StateAfter(p, c, ms[0], h[0]);
    var later := if Continues(p.settings, what) then Passes(p.settings, PassLoop(p.settings, LoopOf(c), h[0].tick), Ticks(h)[1..]) else [];
    YieldsOfCons(Passing(h[0].tick, what), later);
    assert Ticks(h)[1..] == Ticks(h[1..]);
    if |h| > 1 {
      PassIsLoop(p, c, ms[0], h[0]);
    } else {
      assert Ticks(h[1..]) == [];
    }
    assert YieldsOf([]) == [] by { NoYields(); }
  }

  lemma {:induction false} NoYields()
    ensures YieldsOf([]) == []
  {
  }

  predicate NeverReconnects(p: Profile, c: State, ms: seq<Moment>, h: seq<Record>)
    decreases |h|
  {
    h == [] || ms == []
    || (!WhatOf(p, c, h[0]).Reconnected? && NeverReconnects(p, StateAfter(p, c, ms[0], h[0]), ms[1..], h[1..]))
  }

  lemma {:induction false} NothingWithoutLink(p: Profile, c: State, ms: seq<Moment>, h: seq<Record>)
    requires IsHistory(p, c, ms, h) && c.link.None? && NeverReconnects(p, c, ms, h)
    ensures Given(p, c, h) == []
    decreases |h|
  {
    hide ComeBack, SentComingBack, NextOf, Handed, YieldsOf;
    if h == [] {
      NoYields();
    } else {
      GivenCons(p, c, ms, h);
      NothingWithoutLink(p, StateAfter(p, c, ms[0], h[0]), ms[1..], h[1..]);
    }
  }

  /** As long as the client does not reconnect, what it hands out is the data among
      the first `n` packets of the one byte stream it reads. */
  lemma {:induction false} OneStream(p: Profile, c: State, ms: seq<Moment>, h: seq<Record>) returns (n: nat)
    requires IsHistory(p, c, ms, h) && c.link.Some? && NeverReconnects(p, c, ms, h)
    ensures
      var frames := FramesLeft(p, c.link.value);
      n <= |frames| && Given(p, c, h) == DataOf(frames[..n])
    decreases |h|
  {
    hide IsPass, StateAfter, WhatOf, Given, DataOf, LinkRead, NextOf, Continues;
    n := 0;
    NothingGiven(p, c);
    NoData(FramesLeft(p, c.link.value));
    if h != [] {
      var c1 := StateAfter(p, c, ms[0], h[0]);
      GivenCons(p, c, ms, h);
      if c1.link.None? {
        ClosingYieldsNothing(p, c, ms[0], h[0]);
        NothingWithoutLink(p, c1, ms[1..], h[1..]);
        assert Given(p, c, h) == [];
      } else {
        OneStreamStep(p, c, ms[0], h[0]);
        if WhatOf(p, c, h[0]) == Took(Finishes) {
          FinishedIsLast(p, c, ms, h);
          NothingGiven(p, c1);
          assert Given(p, c, h) == [];
        } else {
          var m := OneStream(p, c1, ms[1..], h[1..]);
          n := OneFrameMore(FramesLeft(p, c.link.value), FramesLeft(p, c1.link.value), YieldOf(WhatOf(p, c, h[0])), m);
          assert Given(p, c, h) == DataOf(FramesLeft(p, c.link.value)[..n]);
        }
      }
    }
  }

  function FramesLeft(p: Profile, k: Link): seq<Frame> {
    ReadSession(p.ms, k.version, k.s, k.fate).frames
  }

  lemma {:induction false} NoData(frames: seq<Frame>)
    ensures DataOf(frames[..0]) == []
  {
  }

  lemma {:induction false} FinishedIsLast(p: Profile, c: State, ms: seq<Moment>, h: seq<Record>)
    requires IsHistory(p, c, ms, h) && h != [] && WhatOf(p, c, h[0]) == Took(Finishes)
    ensures h[1..] == []
  {
    hide WhatOf, StateAfter, IsPass;
  }

  lemma {:induction false} OneFrameMore(frames: seq<Frame>, later: seq<Frame>, yielded: seq<Frame>, m: nat) returns (n: nat)
    requires (frames == later && yielded == []) || (frames != [] && frames[1..] == later && yielded == DataOf([frames[0]]))
    requires m <= |later|
    ensures n <= |frames| && DataOf(frames[..n]) == yielded + DataOf(later[..m])
  {
    if frames == later && yielded == [] {
      n := m;
    } else {
      n := m + 1;
      assert frames[..n][1..] == later[..m] && [frames[0]][1..] == [];
    }
  }

  lemma {:induction false} NothingGiven(p: Profile, c: State)
    ensures Given(p, c, []) == []
  {
  }

  lemma {:induction false} ClosingYieldsNothing(p: Profile, c: State, m: Moment, r: Record)
    requires IsPass(p, c, m, r) && c.link.Some? && StateAfter(p, c, m, r).link.None?
    ensures YieldOf(WhatOf(p, c, r)) == []
  {
    hide ComeBack, SentComingBack, NextOf, Handed;
  }

  /** A pass that keeps the connection takes the next packet off its stream, ends
      at END, or reads nothing. */
  lemma {:induction false} OneStreamStep(p: Profile, c: State, m: Moment, r: Record)
    requires IsPass(p, c, m, r) && c.link.Some? && StateAfter(p, c, m, r).link.Some?
    ensures
      var k, k1, what := c.link.value, StateAfter(p, c, m, r).link.value, WhatOf(p, c, r);
      || (what == Took(Finishes) && YieldOf(what) == [])
      || (FramesLeft(p, k) == FramesLeft(p, k1) && YieldOf(what) == [])
      || (FramesLeft(p, k) != [] && FramesLeft(p, k)[1..] == FramesLeft(p, k1) && YieldOf(what) == DataOf([FramesLeft(p, k)[0]]))
  {
    hide ComeBack, SentComingBack, NextItem, Handed;
    OneItem(p.ms, c.link.value.version, c.link.value.s, c.link.value.fate);
    hide ReadSession;
    var k, k1, what := c.link.value, StateAfter(p, c, m, r).link.value, WhatOf(p, c, r);
    if what.Took? && NextOf(p, k).Got? && NextOf(p, k).item.Packet? {
      var f := NextOf(p, k).item.frame;
      assert FramesLeft(p, k) == [f] + FramesLeft(p, k1);
      assert [f][1..] == [];
    }
  }

  // ------------------------------------------------------ the streams' numbers

  /** A stream's ID and resume number: all that decides where it resumes. */
  function Numbers(ts: seq<Tracked>): (r: seq<(string, Option<int>)>)
    ensures |r| == |ts|
    ensures forall i :: 0 <= i < |ts| ==> r[i] == (ts[i].config.id, ts[i].config.seqnum)
  {
    if ts == [] then [] else [(ts[0].config.id, ts[0].config.seqnum)] + Numbers(ts[1..])
  }

  /** The number of the last numbered packet that matches a stream, else its own. */
  function LastNumber(glob: Glob, id: string, own: Option<int>, fs: seq<Frame>): Option<int> {
    if fs == [] then own
    else
      var f := fs[|fs| - 1];
      if f.seqnum.Some? && Matches(glob, id, f.station) then f.seqnum else LastNumber(glob, id, own, fs[..|fs| - 1])
  }

  predicate AreCurrent(glob: Glob, before: seq<(string, Option<int>)>, now: seq<(string, Option<int>)>, got: seq<Frame>) {
    && |now| == |before|
    && forall i :: 0 <= i < |now| ==> now[i] == (before[i].0, LastNumber(glob, before[i].0, before[i].1, got))
  }

  lemma {:induction false} ReadyKeepsNumbers(p: Profile, version: Version, sel: SelState)
    requires sel.streams != []
    ensures Ready(p, version, sel).streams != [] && Numbers(Ready(p, version, sel).streams) == Numbers(sel.streams)
  {
    hide OverlayAll, FreshAll;
  }

  /** However many tries it takes, every stream keeps its ID and its number. */
  lemma {:induction false} ComeBackKeepsNumbers(p: Profile, sel: SelState, tries: seq<Attempt>, lucks: seq<Luck>)
    requires sel.streams != []
    ensures
      var back := ComeBack(p, sel, tries, lucks);
      back.sel.streams != [] && Numbers(back.sel.streams) == Numbers(sel.streams)
    decreases |tries|
  {
    hide Meet, Negotiating, LinkMet, Ready, Numbers;
    if tries != [] {
      ReadyKeepsNumbers(p, MeetingOf(p, tries[0], LuckOf(lucks)).version, sel);
      ComeBackKeepsNumbers(p, Try(p, sel, tries[0], LuckOf(lucks)).sel, tries[1..], LaterLucks(lucks));
    }
  }

  lemma {:induction false} LastNumberCons(glob: Glob, id: string, own: Option<int>, f: Frame, fs: seq<Frame>)
    ensures LastNumber(glob, id, own, [f] + fs) == LastNumber(glob, id, LastNumber(glob, id, own, [f]), fs)
  {
    hide Matches;
    if fs == [] {
      assert [f] + fs == [f];
    } else {
      assert ([f] + fs)[..|fs|] == [f] + fs[..|fs| - 1];
      LastNumberCons(glob, id, own, f, fs[..|fs| - 1]);
    }
  }

  lemma {:induction false} PassNumbers(p: Profile, c: State, m: Moment, r: Record)
    requires c.sel.streams != []
    ensures
      var c1 := StateAfter(p, c, m, r);
      c1.sel.streams != [] && AreCurrent(p.glob, Numbers(c.sel.streams), Numbers(c1.sel.streams), YieldOf(WhatOf(p, c, r)))
  {
    hide Matches, ComeBack, SentComingBack, NextOf, React;
    ComeBackKeepsNumbers(p, c.sel, m.tries, r.lucks);
    NumbersAsTheyWere(p.glob, Numbers(c.sel.streams));
    hide AreCurrent, Numbers;
    var what := WhatOf(p, c, r);
    if what.Took? && what.reaction.Yields? {
      FrameNumbers(p.glob, what.reaction.frame, c.sel.streams);
    }
  }

  lemma {:induction false} FrameNumbers(glob: Glob, f: Frame, ts: seq<Tracked>)
    ensures AreCurrent(glob, Numbers(ts), Numbers(UpdatedAll(glob, f, ts)), [f])
  {
    hide Matches;
    assert [f][..0] == [];
    forall i | 0 <= i < |ts|
      ensures Numbers(UpdatedAll(glob, f, ts))[i] == (ts[i].config.id, LastNumber(glob, ts[i].config.id, ts[i].config.seqnum, [f]))
    {
      assert UpdatedAll(glob, f, ts)[i] == Updated(glob, f, ts[i]);
      assert LastNumber(glob, ts[i].config.id, ts[i].config.seqnum, []) == ts[i].config.seqnum;
    }
  }

  lemma {:induction false} CurrentTwice(
    glob: Glob, a: seq<(string, Option<int>)>, b: seq<(string, Option<int>)>, c: seq<(string, Option<int>)>, fs: seq<Frame>, gs: seq<Frame>)
    requires |fs| <= 1 && AreCurrent(glob, a, b, fs) && AreCurrent(glob, b, c, gs)
    ensures AreCurrent(glob, a, c, fs + gs)
  {
    hide Matches;
    if fs == [] {
      assert fs + gs == gs;
    } else {
      assert fs == [fs[0]];
      forall i | 0 <= i < |c| ensures c[i] == (a[i].0, LastNumber(glob, a[i].0, a[i].1, fs + gs)) {
        LastNumberCons(glob, a[i].0, a[i].1, fs[0], gs);
      }
    }
  }

  /** After any history, over any reconnections, each stream holds the number of the
      last matching packet handed out, else the one it began with. */
  lemma {:induction false} NumbersAreCurrent(p: Profile, c: State, ms: seq<Moment>, h: seq<Record>)
    requires IsHistory(p, c, ms, h) && c.sel.streams != []
    ensures AreCurrent(p.glob, Numbers(c.sel.streams), Numbers(EndOf(p, c, ms, h).sel.streams), Given(p, c, h))
    decreases |h|
  {
    hide IsPass, StateAfter, WhatOf, Given, Numbers, AreCurrent, Continues;
    if h == [] {
      NothingGiven(p, c);
      NumbersAsTheyWere(p.glob, Numbers(c.sel.streams));
    } else {
      var c1 := StateAfter(p, c, ms[0], h[0]);
      PassNumbers(p, c, ms[0], h[0]);
      GivenCons(p, c, ms, h);
      NumbersAreCurrent(p, c1, ms[1..], h[1..]);
      CurrentTwice(p.glob, Numbers(c.sel.streams), Numbers(c1.sel.streams), Numbers(EndOf(p, c1, ms[1..], h[1..]).sel.streams),
                   YieldOf(WhatOf(p, c, h[0])), Given(p, c1, h[1..]));
    }
  }

  lemma {:induction false} NumbersAsTheyWere(glob: Glob, ns: seq<(string, Option<int>)>)
    ensures AreCurrent(glob, ns, ns, [])
  {
  }
}
