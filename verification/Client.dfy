/** The synchronous client: connecting, negotiating and the loop of `collect()`, on
    top of its connection and its stream selection. Every method is exactly what
    `Sessions` says of the client as a value. */
module Clients {
  import opened Text
  import opened Protocol
  import opened Streams
  import opened Times
  import opened Commands
  import opened Exchange
  import opened Connections
  import opened Selections
  import opened Collect
  import opened Sessions

  /** Why the loop stopped: the moments ran out, the generator ended, no try at
      reconnecting has succeeded yet, or one was refused for good. */
  datatype Halt = OutOfMoments | Ended | Waiting | Shut(error: Error)

  class Client {
    const conn: Connection
    const sel: Selection
    const settings: Settings
    const iso: IsoReader
    const times: StartTimes
    const me: Identity
    const dialup: bool
    var startTime: Option<DateTime>
    var endTime: Option<DateTime>
    var lastData: real
    var nextKeepalive: Option<real>

    constructor (ms: Mseed, glob: Glob, settings: Settings, iso: IsoReader, times: StartTimes, me: Identity, dialup: bool)
      ensures Valid() && !conn.connected && sel.View() == NothingSelected && fresh(conn) && fresh(conn.buf) && fresh(sel)
    {
      this.settings, this.iso, this.times, this.me, this.dialup := settings, iso, times, me, dialup;
      startTime, endTime, lastData, nextKeepalive := None, None, 0.0, None;
      conn := new Connection(ms);
      sel := new Selection(glob);
    }

    /** In every state of the client a 4.0 connection's buffer is smaller than twice
        the longest frame. */
    ghost predicate Valid()
      reads this, conn, sel, sel.streams
    {
      conn.Valid() && sel.Valid() && (conn.connected && conn.version.V4? ==> conn.buf.Length < 2 * MAX_FRAME)
    }

    ghost function Me(): Profile
      reads this
    {
      Profile(conn.ms, me, sel.glob, iso, times, settings, dialup, startTime, endTime)
    }

    ghost function LinkNow(): Option<Link>
      reads conn, conn.buf
      requires conn.Valid()
    {
      if conn.connected then Some(Link(conn.version, conn.batchActive, conn.Stream(), conn.fate, conn.sendBudget, conn.streaming)) else None
    }

    /** The client as a value. */
    ghost function Now(): State
      reads this, conn, conn.buf, sel, sel.streams
      requires conn.Valid()
    {
      State(LinkNow(), lastData, nextKeepalive, sel.View(), conn.sent)
    }

    twostate predicate KeepsStreams()
      reads sel
    {
      sel.streams == old(sel.streams) || (old(sel.streams) == [] && |sel.streams| == 1 && fresh(sel.streams[0]))
    }

    twostate predicate KeepsBuffer()
      reads conn
    {
      conn.buf == old(conn.buf) || fresh(conn.buf)
    }

    // ------------------------------------------------------------ connecting

    /** `connect()`: the client has met the server, or was turned away. Only a
        command that is not ASCII may leave it connected all the same. */
    method Connect(a: Attempt) returns (r: Result<(), Error>, ghost luck: nat, ghost luck2: nat)
      requires Valid() && IsAttempt(a)
      modifies conn, conn.buf
      ensures Valid() && KeepsBuffer()
      ensures old(conn.connected) ==> r == Err(AlreadyConnected) && Now() == old(Now())
      ensures !old(conn.connected) ==>
        var met := Meet(me, Flatten(a.net), a.fate, a.budget, luck, luck2);
        && Tells(met.talk.ending, r) && (LinkNow().Some? ==> !LinkNow().value.streaming)
        && Now() == Connected(old(Now()), a, met).(link := LinkNow())
        && (r != Err(EncodeFailed) ==> LinkNow() == Connected(old(Now()), a, met).link)
    {
      hide Flatten, Meet, Views, AllDistinct, IsCoherent, Ids, Wires;
      r, luck, luck2 := conn.Connect(a, me);
    }

    // ----------------------------------------------------------- negotiating

    /** The plan of a negotiation, the streams made ready for it. It always
        exists: uni-station mode never holds more than the one stream it needs. */
    method MakePlan() returns (plan: seq<Command>)
      requires Valid()
      modifies sel, sel.streams
      ensures Valid() && KeepsStreams() && sel.View() == Ready(Me(), conn.version, old(sel.View()))
      ensures PlanFor(Me(), conn.version, conn.batchActive, sel.View()) == Ok(plan)
    {
      hide Plan, SortStreams, PlannedAll, Flatten, Prepared, ConfigsOf, AllDistinct, IsCoherent, Ids, Views, Called;
      var cs := sel.PrepareStreams(times, conn.version == V3 && startTime == None);
      var o := Options(conn.version, dialup, sel.multistation, true, true, conn.batchActive, startTime, endTime);
      PlanExists(o, iso, cs);
      var r := PlanNegotiation(o, iso, SortStreams(cs));
      plan := r.value;
    }

    /** The send loop: the connection is left as the conversation leaves it. */
    method Send(plan: seq<Command>) returns (r: Result<(), Error>, ghost luck: nat)
      requires Valid() && conn.connected
      modifies conn`buf, conn`start, conn`end, conn`connected, conn`streaming, conn`batchActive, conn`chunks, conn`moved, conn`sent, conn`sendBudget, conn.buf
      ensures Valid() && KeepsBuffer()
      ensures
        var k := old(LinkNow().value);
        var t := Converse(FreshWalk, plan, k.s, k.fate, k.budget, luck);
        && Tells(t.ending, r) && conn.sent == old(conn.sent) + Wires(t.sent)
        && (!t.ending.Unheard? ==> LinkNow() == LinkLeft(k, t))
        && (conn.streaming <==> t.ending.Welcomed? || (old(conn.streaming) && conn.connected))
    {
      hide Converse, Flatten, AllDistinct, IsCoherent, Ids, Views, Wires;
      r, luck := conn.SendPlan(plan);
    }

    /** `negotiate()`: the streams are made ready and exactly the negotiation over
        their plan takes place; streaming begins exactly when it is welcomed. */
    method Negotiate() returns (r: Result<(), Error>, ghost luck: nat)
      requires Valid()
      modifies conn`buf, conn`start, conn`end, conn`connected, conn`streaming, conn`batchActive, conn`chunks, conn`moved, conn`sent, conn`sendBudget, conn.buf, sel, sel.streams
      ensures Valid() && KeepsBuffer() && KeepsStreams()
      ensures sel.View() == Ready(Me(), conn.version, old(sel.View()))
      ensures !old(conn.connected) ==> r == Err(NotConnected) && LinkNow() == None && conn.sent == old(conn.sent)
      ensures old(conn.connected) ==>
        var t := Negotiating(Me(), old(LinkNow().value), sel.View(), luck);
        && Tells(t.ending, r) && conn.sent == old(conn.sent) + Wires(t.sent)
        && (!t.ending.Unheard? ==> LinkNow() == LinkLeft(old(LinkNow().value), t))
        && (conn.streaming <==> t.ending.Welcomed? || (old(conn.streaming) && conn.connected))
    {
      hide Plan, Converse, SortStreams, Flatten, Prepared, ConfigsOf, AllDistinct, IsCoherent, Ids, Views, Ready, Wires, LinkLeft;
      ghost var s := conn.Stream();
      luck := 0;
      var plan := MakePlan();
      assert conn.Stream() == s;
      if !conn.connected {
        return Err(NotConnected), 0;
      }
      r, luck := Send(plan);
    }

    /** One try at being back where the streams resume. */
    method Retry(a: Attempt) returns (r: Result<(), Error>, ghost luck: Luck)
      requires Valid() && !conn.connected && IsAttempt(a)
      modifies conn, conn.buf, sel, sel.streams
      ensures Valid() && KeepsBuffer() && KeepsStreams()
      ensures
        var t := Try(Me(), old(sel.View()), a, luck);
        && Tells(t.ending, r) && sel.View() == t.sel && conn.sent == old(conn.sent) + SentTrying(Me(), old(sel.View()), a, luck)
        && (if t.link.Some? then LinkNow() == t.link else !conn.streaming && (r == Err(AuthRejected) ==> LinkNow() == None))
    {
      hide Flatten, Meet, Negotiating, Ready, Views, AllDistinct, IsCoherent, Ids, Wires, LinkMet, LinkWelcomed, LinkAfter, Try, SentTrying;
      ghost var greeting, handshake, negotiation := 0, 0, 0;
      r, greeting, handshake := Connect(a);
      ghost var met := MeetingOf(Me(), a, Luck(greeting, handshake, 0));
      ghost var out := conn.sent;
      assert out == old(conn.sent) + Wires(met.talk.sent);
      if r.Ok? {
        assert LinkNow() == Some(LinkMet(a, met));
        ghost var k, ready := LinkNow().value, Ready(Me(), conn.version, sel.View());
        r, negotiation := Negotiate();
        NegotiatingIsNoLogin(Me(), k, ready, negotiation);
      }
      luck := Luck(greeting, handshake, negotiation);
      TryDoes(Me(), old(sel.View()), old(conn.sent), a, luck);
    }

    /** The client the retries leave, and what they told the loop. */
    ghost predicate CameTo(back: Return, r: Result<bool, Error>)
      reads this, conn, conn.buf, sel, sel.streams
      requires Valid()
    {
      && sel.View() == back.sel
      && match back
         case Back(link, _) => r == Ok(true) && LinkNow() == Some(link)
         case Barred(e, _) => r == Err(e) && !conn.streaming && (e == AuthRejected ==> LinkNow() == None)
         case Away(_) => r == Ok(false) && LinkNow() == None
    }

    /** The reconnection loop, over the tries the network grants: exactly
        `ComeBack`. It waits on only when every try so far has failed. */
    method ReconnectAfterDelay(tries: seq<Attempt>) returns (r: Result<bool, Error>, ghost lucks: seq<Luck>)
      requires Valid() && !conn.connected && AreAttempts(tries)
      modifies conn, conn.buf, sel, sel.streams
      ensures Valid() && KeepsBuffer() && KeepsStreams()
      ensures conn.sent == old(conn.sent) + SentComingBack(Me(), old(sel.View()), tries, lucks)
      ensures CameTo(ComeBack(Me(), old(sel.View()), tries, lucks), r)
    {
      hide Flatten, Views, IsAttempt, AllDistinct, IsCoherent, Ids, Try, ComeBack, TriedSo, SentTrying, SentComingBack, Tells, Me;
      lucks := [];
      ghost var s0, sent0 := sel.View(), conn.sent;
      NoTriesYet(Me(), s0, sent0, tries);
      for i := 0 to |tries|
        invariant Valid() && !conn.connected && KeepsBuffer() && KeepsStreams()
        invariant TriedSo(Me(), s0, sent0, tries, lucks, sel.View(), conn.sent, tries[i..])
      {
        ghost var s, sent := sel.View(), conn.sent;
        assert tries[i..] == [tries[i]] + tries[i + 1..];
        var done;
        ghost var luck;
        done, luck := Retry(tries[i]);
        OneTry(Me(), s0, sent0, tries, lucks, s, sent, tries[i], tries[i + 1..], luck, done);
        lucks := lucks + [luck];
        if done.Ok? {
          return Ok(true), lucks;
        }
        if done.error in {AuthRejected, EncodeFailed} {
          return Err(done.error), lucks;
        }
        conn.Close();
      }
      assert tries[|tries|..] == [];
      AllTried(Me(), s0, sent0, tries, lucks, sel.View(), conn.sent);
      return Ok(false), lucks;
    }

    // ------------------------------------------------------------ collecting

    /** What the loop does with an item it has read. */
    method Consume(item: Item, after: real)
      requires Valid() && conn.connected
      modifies this`lastData, conn`buf, conn`start, conn`end, conn`connected, conn`streaming, conn`batchActive, conn`chunks, sel, sel.streams
      ensures Valid() && KeepsBuffer() && sel.streams == old(sel.streams)
      ensures lastData == if React(item).Yields? then after else old(lastData)
      ensures LinkNow() == LinkActed(React(item), old(LinkNow().value))
      ensures sel.View() == Handed(sel.glob, React(item), old(sel.View()))
    {
      hide UpdatedAll, Flatten, Matches, AllDistinct, IsCoherent, Ids, Views;
      match React(item) {
        case Finishes => conn.streaming := false;
        case Closes => conn.Close();
        case Skips =>
        case Yields(f) =>
          lastData := after;
          ghost var s := conn.Stream();
          sel.UpdateStreamState(f);
          assert conn.Stream() == s;
      }
    }

    /** A heartbeat: INFO ID, whose reply comes as a packet. */
    method SendHeartbeat() returns (sent: bool)
      requires Valid() && conn.connected
      modifies conn`buf, conn`start, conn`end, conn`connected, conn`streaming, conn`batchActive, conn`chunks, conn`moved, conn`sent, conn`sendBudget, conn.buf
      ensures Valid() && KeepsBuffer()
      ensures sent == (old(conn.sendBudget) > 0)
      ensures LinkNow() == if sent then Some(LinkSpent(old(LinkNow().value))) else None
      ensures conn.sent == old(conn.sent) + Heartbeat(sent)
    {
      hide Flatten, AllDistinct, IsCoherent, Ids, Views, NextLine, Hear;
      var r, _ := conn.SendCommand(Generic("INFO ID", NoReply));
      if r.Err? {
        conn.Close();
      }
      return r.Ok?;
    }

    /** The pass of a readable socket: read the stream's next item, then act on it. */
    method TakeItem(after: real) returns (read: Result<Item, Error>)
      requires Valid() && conn.connected
      modifies this`lastData, conn`buf, conn`start, conn`end, conn`connected, conn`streaming, conn`batchActive, conn`chunks, conn`moved, conn.buf, sel, sel.streams
      ensures Valid() && KeepsBuffer() && sel.streams == old(sel.streams)
      ensures IsReadOf(read, NextOf(Me(), old(LinkNow().value)))
      ensures read.Err? ==>
        && lastData == old(lastData) && sel.View() == old(sel.View())
        && LinkNow() == if read.error.DecodeFailed? then old(LinkNow()) else None
      ensures read.Ok? ==>
        && lastData == (if React(read.value).Yields? then after else old(lastData))
        && LinkNow() == LinkActed(React(read.value), LinkRead(Me(), old(LinkNow().value)))
        && sel.View() == Handed(sel.glob, React(read.value), old(sel.View()))
    {
      hide NextItem, Flatten, UpdatedAll, ParseReply, AllDistinct, IsCoherent, Ids, Views;
      read := conn.RecvFrame();
      if read.Ok? {
        Consume(read.value, after);
      } else if read.error != DecodeFailed {
        conn.Close();
      }
    }

    /** The pass of a connection with nothing to read: a heartbeat if one is due. */
    method KeepAlive(after: real) returns (what: What)
      requires Valid() && conn.connected
      modifies this`nextKeepalive, conn`buf, conn`start, conn`end, conn`connected, conn`streaming, conn`batchActive, conn`chunks, conn`moved, conn`sent, conn`sendBudget, conn.buf
      ensures Valid() && KeepsBuffer()
      ensures
        var k := old(LinkNow().value);
        if old(nextKeepalive) == None || after < old(nextKeepalive.value) then what == Waited && Now() == old(Now())
        else
          && what == KeptAlive(k.budget > 0)
          && Now() == old(Now()).(link := if k.budget > 0 then Some(LinkSpent(k)) else None,
                                  nextKeepalive := KeepaliveFrom(settings, after), sent := old(conn.sent) + Heartbeat(k.budget > 0))
    {
      hide Flatten, Views, AllDistinct, IsCoherent, Ids, Heartbeat;
      if nextKeepalive == None || after < nextKeepalive.value {
        return Waited;
      }
      nextKeepalive := KeepaliveFrom(settings, after);
      var sent := SendHeartbeat();
      return KeptAlive(sent);
    }

    /** The client went through a pass of `Sessions` and is what that pass leaves. */
    twostate predicate Passed(m: Moment, r: Record, what: What)
      reads this, conn, conn.buf, sel, sel.streams
      requires old(Valid()) && Valid()
    {
      && IsPass(Me(), old(Now()), m, r) && what == WhatOf(Me(), old(Now()), r)
      && Now() == StateAfter(Me(), old(Now()), m, r)
    }

    /** A pass of `collect()` on an open connection. `t` records what it met. */
    method OpenPass(m: Moment) returns (what: What, ghost t: Tick)
      requires Valid() && conn.connected
      modifies this`lastData, this`nextKeepalive, conn, conn.buf, sel, sel.streams
      ensures Valid() && KeepsBuffer() && sel.streams == old(sel.streams)
      ensures t.readable == (old(conn.Pending()) != [] || m.ready)
      ensures Passed(m, Record(t, []), what)
    {
      hide NextItem, Flatten, UpdatedAll, React, IsReadOf, Handed, AllDistinct, IsCoherent, Ids, Views, WhatOf, StateAfter, IsPass, NextOf, LinkActed, LinkRead, LinkSpent, Heartbeat;
      assert conn.Pending() != [] ==> conn.Stream() != [];
      ghost var p, c := Me(), Now();
      t := Tick(m.now, m.after, conn.start != conn.end || m.ready, conn.sendBudget > 0, ReadOf(NextOf(p, c.link.value)));
      assert Meets(p, c, m, t);
      if m.now - lastData > settings.idleTimeout {
        OpenPassDoes(p, c, m, t);
        conn.Close();
        return Expired, t;
      }
      if conn.start == conn.end && !m.ready {
        OpenPassDoes(p, c, m, t);
        what := KeepAlive(m.after);
        return;
      }
      var read := TakeItem(m.after);
      t := t.(read := read);
      OpenPassDoes(p, c, m, t);
      return if read.Ok? then Took(React(read.value)) else ReadFailed(read.error), t;
    }

    /** One pass of `collect()`. None: no try at reconnecting has succeeded; an
        error: one was refused for good. */
    method Pass(m: Moment) returns (what: Result<Option<What>, Error>, ghost r: Record)
      requires Valid() && AreAttempts(m.tries)
      modifies this`lastData, this`nextKeepalive, conn, conn.buf, sel, sel.streams
      ensures Valid() && KeepsBuffer() && KeepsStreams() && Me() == old(Me())
      ensures old(conn.connected) ==> r.tick.readable == (old(conn.Pending()) != [] || m.ready)
      ensures what.Ok? && what.value.Some? ==> Passed(m, r, what.value.value)
      ensures what.Err? || what.value.None? ==>
        settings.reconnect && IsStuck(Me(), old(Now()), m, r, if what.Ok? then Waiting else Shut(what.error), Now())
    {
      hide NextItem, Flatten, UpdatedAll, React, IsReadOf, Handed, Views, AllDistinct, IsCoherent, Ids, ComeBack;
      if conn.connected {
        var w;
        ghost var t;
        w, t := OpenPass(m);
        return Ok(Some(w)), Record(t, []);
      }
      r := Record(Tick(m.now, m.after, false, false, Ok(EndOfStream)), []);
      if !settings.reconnect {
        return Ok(Some(Stopped)), r;
      }
      var back;
      ghost var lucks;
      back, lucks := ReconnectAfterDelay(m.tries);
      r := r.(lucks := lucks);
      if back.Err? {
        return Err(back.error), r;
      }
      if !back.value {
        return Ok(None), r;
      }
      lastData, nextKeepalive := m.after, KeepaliveFrom(settings, m.after);
      return Ok(Some(Reconnected)), r;
    }

    /** The clocks of the loop, on entry. */
    method SetClocks(begin: real)
      requires Valid()
      modifies this`lastData, this`nextKeepalive
      ensures Valid() && Me() == old(Me()) && Now() == Begun(old(Now()), settings, begin)
    {
      lastData, nextKeepalive := begin, KeepaliveFrom(settings, begin);
    }

    /** The loop of `collect()`, for as long as the moments last, until the
        generator ends or until reconnecting fails. What it does is a history, what
        it hands out is exactly what that history gives, and it is left where that
        history leads: its connection, clocks, streams and the commands sent. */
    method CollectStreaming(begin: real, moments: seq<Moment>) returns (got: seq<Frame>, halt: Halt, ghost h: seq<Record>)
      requires Valid() && forall i :: 0 <= i < |moments| ==> AreAttempts(moments[i].tries)
      modifies this`lastData, this`nextKeepalive, conn, conn.buf, sel, sel.streams
      ensures Valid() && KeepsBuffer() && KeepsStreams()
      ensures IsCollected(Me(), Begun(old(Now()), settings, begin), moments, got, halt, h, Now())
    {
      hide IsUnderWay, IsHistory, EndOf, Given, StillGoing, IsPass, WhatOf, StateAfter, Continues, Flatten, Views, AllDistinct, IsCoherent, Ids, AreAttempts, IsStuck, IsCollected;
      got, h := [], [];
      SetClocks(begin);
      ghost var p, c := Me(), Now();
      assert p.settings == settings;
      hide Me, Now, LinkNow;
      NoPassYet(p, c, moments);
      for i := 0 to |moments|
        invariant Valid() && KeepsBuffer() && KeepsStreams()
        invariant Me() == p && |h| == i && IsUnderWay(p, c, moments, h, Now(), got)
      {
        ghost var now := Now();
        var what;
        ghost var r;
        what, r := Pass(moments[i]);
        if what.Err? {
          StuckThere(p, c, moments, h, now, got, r, Shut(what.error), Now());
          return got, Shut(what.error), h;
        }
        if what.value == None {
          StuckThere(p, c, moments, h, now, got, r, Waiting, Now());
          return got, Waiting, h;
        }
        OnePassMore(p, c, moments, h, now, got, r);
        h := h + [r];
        if what.value.value.Took? && what.value.value.reaction.Yields? {
          got := got + [what.value.value.reaction.frame];
        } else {
          assert got + [] == got;
        }
        if !Continues(settings, what.value.value) {
          AtAnEnd(p, c, moments, h, Now(), got);
          return got, Ended, h;
        }
      }
      AllMet(p, c, moments, h, Now(), got);
      return got, OutOfMoments, h;
    }

    /** `collect()` up to its loop: negotiates unless the connection streams already.
        When that fails, the streams have been made ready and the conversation was
        held; nothing else is done. */
    method Open() returns (r: Result<(), Error>, ghost luck: nat)
      requires Valid()
      modifies conn`buf, conn`start, conn`end, conn`connected, conn`streaming, conn`batchActive, conn`chunks, conn`moved, conn`sent, conn`sendBudget, conn.buf, sel, sel.streams
      ensures Valid() && KeepsBuffer() && KeepsStreams()
      ensures
        match Opened(Me(), old(Now()), luck)
        case Streaming(c) => r.Ok? && Now() == c
        case Unopened(ending, left, sent) =>
          && r.Err? && Tells(ending, r) && !conn.streaming && (!ending.Unheard? ==> LinkNow() == left)
          && Now() == old(Now()).(link := LinkNow(), sel := Ready(Me(), conn.version, old(sel.View())), sent := old(conn.sent) + sent)
    {
      hide Flatten, Views, Ready, Negotiating, AllDistinct, IsCoherent, Ids, Wires;
      if conn.streaming {
        return Ok(()), 0;
      }
      r, luck := Negotiate();
    }

    /** `collect()`: opens first, then loops. */
    method Collect(begin: real, moments: seq<Moment>)
      returns (r: Result<seq<Frame>, Error>, halt: Halt, ghost luck: nat, ghost h: seq<Record>)
      requires Valid() && forall i :: 0 <= i < |moments| ==> AreAttempts(moments[i].tries)
      modifies this`lastData, this`nextKeepalive, conn, conn.buf, sel, sel.streams
      ensures Valid()
      ensures
        match Opened(Me(), old(Now()), luck)
        case Streaming(c) => r.Ok? && IsCollected(Me(), Begun(c, settings, begin), moments, r.value, halt, h, Now())
        case Unopened(ending, left, sent) =>
          && r.Err? && Tells(ending, Err(r.error)) && !conn.streaming && (!ending.Unheard? ==> LinkNow() == left)
          && Now() == old(Now()).(link := LinkNow(), sel := Ready(Me(), conn.version, old(sel.View())), sent := old(conn.sent) + sent)
    {
      hide IsCollected, Opened, Flatten, Views, Ready, Negotiating, AllDistinct, IsCoherent, Ids, AreAttempts, Wires;
      h, halt := [], Ended;
      var open;
      open, luck := Open();
      if open.Err? {
        return Err(open.error), halt, luck, h;
      }
      var got;
      got, halt, h := CollectStreaming(begin, moments);
      r := Ok(got);
    }
  }

  // -------------------------------------------------------------- the contract

  /** The loop stands without a connection: its retries have all failed, or one was
      refused for good, and this is the client they leave. */
  predicate IsStuck(p: Profile, c: State, m: Moment, r: Record, halt: Halt, now: State) {
    var back := ComeBack(p, c.sel, m.tries, r.lucks);
    && c.link.None?
    && now == c.(link := now.link, sel := back.sel, sent := c.sent + SentComingBack(p, c.sel, m.tries, r.lucks))
    && match back
       case Back(_, _) => false
       case Barred(e, _) => halt == Shut(e) && (now.link.Some? ==> e != AuthRejected && !now.link.value.streaming)
       case Away(_) => halt == Waiting && now.link.None?
  }

  /** What was handed out is what a history of the moments gives. The history is
      all of them unless its last pass ended the generator, or the pass after it
      is stuck reconnecting. `now` is the client it leaves. */
  ghost predicate IsCollected(p: Profile, c: State, ms: seq<Moment>, got: seq<Frame>, halt: Halt, h: seq<Record>, now: State) {
    && |h| <= |ms| && IsHistory(p, c, ms, h) && got == Given(p, c, h)
    && match halt
       case OutOfMoments => |h| == |ms| && StillGoing(p, c, h) && now == EndOf(p, c, ms, h)
       case Ended => h != [] && !StillGoing(p, c, h) && now == EndOf(p, c, ms, h)
       case _ =>
         |h| < |ms| && StillGoing(p, c, h) && p.settings.reconnect && IsStuckAt(p, EndOf(p, c, ms, h), ms[|h|], halt, now)
  }

  ghost predicate IsStuckAt(p: Profile, c: State, m: Moment, halt: Halt, now: State) {
    exists r :: IsStuck(p, c, m, r, halt, now)
  }

  lemma {:induction false} StuckThere(
    p: Profile, c: State, ms: seq<Moment>, h: seq<Record>, before: State, got: seq<Frame>, r: Record, halt: Halt, now: State)
    requires IsUnderWay(p, c, ms, h, before, got) && |h| < |ms| && p.settings.reconnect && IsStuck(p, before, ms[|h|], r, halt, now)
    requires halt.Waiting? || halt.Shut?
    ensures IsCollected(p, c, ms, got, halt, h, now)
  {
    hide IsHistory, EndOf, Given, StillGoing, IsStuck;
  }

  lemma {:induction false} AtAnEnd(p: Profile, c: State, ms: seq<Moment>, h: seq<Record>, now: State, got: seq<Frame>)
    requires h != [] && |h| <= |ms| && IsHistory(p, c, ms, h) && got == Given(p, c, h) && !StillGoing(p, c, h)
    requires now == EndOf(p, c, ms, h)
    ensures IsCollected(p, c, ms, got, Ended, h, now)
  {
  }

  lemma {:induction false} AllMet(p: Profile, c: State, ms: seq<Moment>, h: seq<Record>, now: State, got: seq<Frame>)
    requires IsUnderWay(p, c, ms, h, now, got) && |h| == |ms|
    ensures IsCollected(p, c, ms, got, OutOfMoments, h, now)
  {
  }

  /** With at least one stream, and only one in uni-station mode, planning succeeds. */
  lemma {:induction false} PlanExists(o: Options, iso: IsoReader, cs: seq<Config>)
    requires cs != [] && (!o.multistation ==> |cs| <= 1)
    ensures Plan(o, iso, SortStreams(cs)).Ok?
  {
    SortStreamsCorrect(cs, "");
  }

  // --------------------------------------------------------------- the retries

  /** Whatever luck the rest of the tries have, all of them come to what they do
      from here, and hand to their sockets, in all, `sent` and then what they do
      from here. */
  ghost predicate TriedSo(
    p: Profile, s0: SelState, sent0: seq<seq<byte>>, tries: seq<Attempt>, lucks: seq<Luck>,
    s: SelState, sent: seq<seq<byte>>, rest: seq<Attempt>)
  {
    forall more: seq<Luck> {:trigger ComeBack(p, s, rest, more)} ::
      && ComeBack(p, s0, tries, lucks + more) == ComeBack(p, s, rest, more)
      && sent0 + SentComingBack(p, s0, tries, lucks + more) == sent + SentComingBack(p, s, rest, more)
  }

  lemma {:induction false} NoTriesYet(p: Profile, s0: SelState, sent0: seq<seq<byte>>, tries: seq<Attempt>)
    ensures TriedSo(p, s0, sent0, tries, [], s0, sent0, tries[0..])
  {
    hide ComeBack, SentComingBack;
    assert tries[0..] == tries;
    forall more: seq<Luck> {:trigger ComeBack(p, s0, tries, more)}
      ensures ComeBack(p, s0, tries, [] + more) == ComeBack(p, s0, tries, more)
      ensures SentComingBack(p, s0, tries, [] + more) == SentComingBack(p, s0, tries, more)
    {
      assert [] + more == more;
    }
  }

  lemma {:induction false} FirstTry(p: Profile, s: SelState, a: Attempt, rest: seq<Attempt>, luck: Luck, more: seq<Luck>)
    ensures
      var t, back, sent := Try(p, s, a, luck), ComeBack(p, s, [a] + rest, [luck] + more), SentComingBack(p, s, [a] + rest, [luck] + more);
      && (t.link.Some? <==> t.ending.Welcomed?)
      && back == (if t.link.Some? then Back(t.link.value, t.sel)
                  else if IsFatal(t.ending) then Barred(t.ending.error, t.sel) else ComeBack(p, t.sel, rest, more))
      && sent == SentTrying(p, s, a, luck) + if t.link.Some? || IsFatal(t.ending) then [] else SentComingBack(p, t.sel, rest, more)
  {
    var t := Try(p, s, a, luck);
    assert t.link.Some? <==> t.ending.Welcomed?;
    hide Try, SentTrying;
    assert ([a] + rest)[1..] == rest && ([luck] + more)[1..] == more;
  }

  lemma {:induction false} TriedWith(
    p: Profile, s0: SelState, sent0: seq<seq<byte>>, tries: seq<Attempt>, lucks: seq<Luck>,
    s: SelState, sent: seq<seq<byte>>, rest: seq<Attempt>, more: seq<Luck>)
    requires TriedSo(p, s0, sent0, tries, lucks, s, sent, rest)
    ensures ComeBack(p, s0, tries, lucks + more) == ComeBack(p, s, rest, more)
    ensures sent0 + SentComingBack(p, s0, tries, lucks + more) == sent + SentComingBack(p, s, rest, more)
  {
    hide ComeBack, SentComingBack;
    var back := ComeBack(p, s, rest, more);
  }

  lemma {:induction false} MoreTries(
    p: Profile, s0: SelState, sent0: seq<seq<byte>>, tries: seq<Attempt>, lucks: seq<Luck>,
    s: SelState, sent: seq<seq<byte>>, a: Attempt, rest: seq<Attempt>, luck: Luck, more: seq<Luck>)
    requires TriedSo(p, s0, sent0, tries, lucks, s, sent, [a] + rest)
    requires Try(p, s, a, luck).link.None? && !IsFatal(Try(p, s, a, luck).ending)
    ensures
      var t, out := Try(p, s, a, luck), sent + SentTrying(p, s, a, luck);
      && ComeBack(p, s0, tries, lucks + [luck] + more) == ComeBack(p, t.sel, rest, more)
      && sent0 + SentComingBack(p, s0, tries, lucks + [luck] + more) == out + SentComingBack(p, t.sel, rest, more)
  {
    hide Try, SentTrying, ComeBack, SentComingBack, IsFatal, TriedSo;
    var t := Try(p, s, a, luck);
    FirstTry(p, s, a, rest, luck, more);
    TriedWith(p, s0, sent0, tries, lucks, s, sent, [a] + rest, [luck] + more);
    assert lucks + [luck] + more == lucks + ([luck] + more);
    assert sent + (SentTrying(p, s, a, luck) + SentComingBack(p, t.sel, rest, more))
        == sent + SentTrying(p, s, a, luck) + SentComingBack(p, t.sel, rest, more);
  }

  /** One more try, which told the loop `r`. */
  lemma {:induction false} OneTry(
    p: Profile, s0: SelState, sent0: seq<seq<byte>>, tries: seq<Attempt>, lucks: seq<Luck>,
    s: SelState, sent: seq<seq<byte>>, a: Attempt, rest: seq<Attempt>, luck: Luck, r: Result<(), Error>)
    requires TriedSo(p, s0, sent0, tries, lucks, s, sent, [a] + rest) && Tells(Try(p, s, a, luck).ending, r)
    ensures
      var t, out, over := Try(p, s, a, luck), sent + SentTrying(p, s, a, luck), r.Ok? || r.error in {AuthRejected, EncodeFailed};
      && (t.link.Some? <==> r.Ok?)
      && (over ==> sent0 + SentComingBack(p, s0, tries, lucks + [luck]) == out)
      && if r.Ok? then ComeBack(p, s0, tries, lucks + [luck]) == Back(t.link.value, t.sel)
         else if over then ComeBack(p, s0, tries, lucks + [luck]) == Barred(r.error, t.sel)
         else TriedSo(p, s0, sent0, tries, lucks + [luck], t.sel, out, rest)
  {
    hide Try, SentTrying, ComeBack, SentComingBack;
    var t, out := Try(p, s, a, luck), sent + SentTrying(p, s, a, luck);
    FirstTry(p, s, a, rest, luck, []);
    assert [luck] + [] == [luck];
    TriedWith(p, s0, sent0, tries, lucks, s, sent, [a] + rest, [luck]);
    if t.link.None? && !IsFatal(t.ending) {
      hide IsFatal, Tells;
      forall more: seq<Luck> {:trigger ComeBack(p, t.sel, rest, more)}
        ensures ComeBack(p, s0, tries, lucks + [luck] + more) == ComeBack(p, t.sel, rest, more)
        ensures sent0 + SentComingBack(p, s0, tries, lucks + [luck] + more) == out + SentComingBack(p, t.sel, rest, more)
      {
        MoreTries(p, s0, sent0, tries, lucks, s, sent, a, rest, luck, more);
      }
    }
  }

  lemma {:induction false} AllTried(
    p: Profile, s0: SelState, sent0: seq<seq<byte>>, tries: seq<Attempt>, lucks: seq<Luck>, s: SelState, sent: seq<seq<byte>>)
    requires TriedSo(p, s0, sent0, tries, lucks, s, sent, [])
    ensures ComeBack(p, s0, tries, lucks) == Away(s) && sent0 + SentComingBack(p, s0, tries, lucks) == sent
  {
    assert lucks + [] == lucks && sent + [] == sent;
    TriedWith(p, s0, sent0, tries, lucks, s, sent, [], []);
  }
}
