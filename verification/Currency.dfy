/** What stays current over any history of `collect()`: its two clocks, and the time
    of each stream's last packet. */
module Currency {
  import opened Text
  import opened Protocol
  import opened Exchange
  import opened Connections
  import opened Selections
  import opened Collect
  import opened Sessions

  // ---------------------------------------------------------- one quiet pass

  predicate IsIdle(p: Profile, c: State, m: Moment) {
    m.now - c.lastData > p.settings.idleTimeout
  }

  predicate IsDue(c: State, m: Moment) {
    c.nextKeepalive.Some? && m.after >= c.nextKeepalive.value
  }

  /** The client after a heartbeat, or after one the connection did not take. */
  function HavingBeaten(p: Profile, c: State, at: real): State
    requires c.link.Some?
  {
    var next := if p.settings.keepalive.Some? then Some(at + p.settings.keepalive.value) else None;
    var k := c.link.value;
    if k.budget == 0 then c.(link := None, nextKeepalive := next)
    else c.(link := Some(k.(budget := k.budget - 1)), nextKeepalive := next, sent := c.sent + [EncodeLine("INFO ID")])
  }

  /** A connection idle for longer than the timeout is closed, whatever it offers:
      nothing is read, sent or handed out. */
  lemma {:induction false} IdleIsClosed(p: Profile, c: State, m: Moment, r: Record)
    requires c.link.Some? && IsPass(p, c, m, r) && IsIdle(p, c, m)
    ensures StateAfter(p, c, m, r) == c.(link := None) && YieldOf(WhatOf(p, c, r)) == []
  {
    hide NextOf, ComeBack, Handed;
  }

  /** With nothing to read, a heartbeat is sent when it is due and never else, and
      the next one is due a keepalive interval later. */
  lemma {:induction false} HeartbeatWhenDue(p: Profile, c: State, m: Moment, r: Record)
    requires c.link.Some? && IsPass(p, c, m, r) && !IsIdle(p, c, m) && !r.tick.readable
    ensures YieldOf(WhatOf(p, c, r)) == []
    ensures StateAfter(p, c, m, r) == if IsDue(c, m) then HavingBeaten(p, c, m.after) else c
  {
    hide NextOf, ComeBack, Handed;
    assert c.sent + [] == c.sent;
  }

  // ------------------------------------------------------- clocks over histories

  /** When data last came or a connection was last made. */
  function LastHeard(p: Profile, c: State, ms: seq<Moment>, h: seq<Record>): real
    decreases |h|
  {
    if h == [] || ms == [] then c.lastData
    else
      var c1 := StateAfter(p, c, ms[0], h[0]);
      var heard := (c.link.None? && p.settings.reconnect) || YieldOf(WhatOf(p, c, h[0])) != [];
      LastHeard(p, c1.(lastData := if heard then ms[0].after else c.lastData), ms[1..], h[1..])
  }

  /** When a heartbeat was last tried or a connection last made; `k` is the
      interval. */
  function LastBeat(p: Profile, c: State, ms: seq<Moment>, h: seq<Record>, last: real, k: real): real
    decreases |h|
  {
    if h == [] || ms == [] then last
    else
      var m := ms[0];
      var beat := if c.link.None? then p.settings.reconnect else !IsIdle(p, c, m) && !h[0].tick.readable && m.after - last >= k;
      LastBeat(p, StateAfter(p, c, m, h[0]), ms[1..], h[1..], if beat then m.after else last, k)
  }

  lemma {:induction false} PassClocks(p: Profile, c: State, m: Moment, r: Record, k: real, last: real)
    requires IsPass(p, c, m, r) && p.settings.keepalive == Some(k) && c.nextKeepalive == Some(last + k)
    ensures
      var beat := if c.link.None? then p.settings.reconnect else !IsIdle(p, c, m) && !r.tick.readable && m.after - last >= k;
      StateAfter(p, c, m, r).nextKeepalive == Some((if beat then m.after else last) + k)
  {
    hide NextOf, ComeBack, Handed, React, Heartbeat;
  }

  lemma {:induction false} PassHeard(p: Profile, c: State, m: Moment, r: Record)
    requires IsPass(p, c, m, r)
    ensures
      var heard := (c.link.None? && p.settings.reconnect) || YieldOf(WhatOf(p, c, r)) != [];
      StateAfter(p, c, m, r).lastData == if heard then m.after else c.lastData
  {
    hide NextOf, ComeBack, Handed, React, Heartbeat;
  }

  /** After any history the idle clock stands at the last data or connection, however
      many INFO replies came since. */
  lemma {:induction false} IdleClockIsTrue(p: Profile, c: State, ms: seq<Moment>, h: seq<Record>)
    requires IsHistory(p, c, ms, h)
    ensures EndOf(p, c, ms, h).lastData == LastHeard(p, c, ms, h)
    decreases |h|
  {
    hide IsPass, StateAfter, WhatOf, Continues, YieldOf;
    if h != [] {
      var c1 := StateAfter(p, c, ms[0], h[0]);
      PassHeard(p, c, ms[0], h[0]);
      IdleClockIsTrue(p, c1, ms[1..], h[1..]);
      assert c1.(lastData := c1.lastData) == c1;
    }
  }

  /** After any history the next heartbeat is due exactly a keepalive interval after
      the last one, or the last connection. */
  lemma {:induction false} KeepaliveIsTrue(p: Profile, c: State, ms: seq<Moment>, h: seq<Record>, k: real, last: real)
    requires IsHistory(p, c, ms, h) && p.settings.keepalive == Some(k) && c.nextKeepalive == Some(last + k)
    ensures EndOf(p, c, ms, h).nextKeepalive == Some(LastBeat(p, c, ms, h, last, k) + k)
    decreases |h|
  {
    hide IsPass, StateAfter, WhatOf, Continues, IsIdle;
    if h != [] {
      var m := ms[0];
      var beat := if c.link.None? then p.settings.reconnect else !IsIdle(p, c, m) && !h[0].tick.readable && m.after - last >= k;
      PassClocks(p, c, m, h[0], k, last);
      KeepaliveIsTrue(p, StateAfter(p, c, m, h[0]), ms[1..], h[1..], k, if beat then m.after else last);
    }
  }

  /** The loop begins with both clocks at its start. */
  lemma {:induction false} ClocksBegin(c: State, g: Settings, begin: real)
    ensures Begun(c, g, begin).lastData == begin
    ensures g.keepalive.Some? ==> Begun(c, g, begin).nextKeepalive == Some(begin + g.keepalive.value)
    ensures g.keepalive.None? ==> Begun(c, g, begin).nextKeepalive.None?
  {
  }

  // ------------------------------------------------- the time of the last packet

  /** The time a stream would save now. */
  function Stamp(times: StartTimes, t: Tracked): Option<string> {
    if t.pending.Some? && times(t.pending.value).Some? then times(t.pending.value) else t.config.timestamp
  }

  function Stamps(times: StartTimes, ts: seq<Tracked>): (r: seq<(string, Option<string>)>)
    ensures |r| == |ts|
    ensures forall i :: 0 <= i < |ts| ==> r[i] == (ts[i].config.id, Stamp(times, ts[i]))
  {
    if ts == [] then [] else [(ts[0].config.id, Stamp(times, ts[0]))] + Stamps(times, ts[1..])
  }

  /** The last numbered packet that matches a stream. */
  function LastFrame(glob: Glob, id: string, fs: seq<Frame>): Option<Frame> {
    if fs == [] then None
    else
      var f := fs[|fs| - 1];
      if f.seqnum.Some? && Matches(glob, id, f.station) then Some(f) else LastFrame(glob, id, fs[..|fs| - 1])
  }

  /** Each stream has the start time of the last packet handed out for it, when that
      can be read, and its own while there was none. */
  predicate AreStamped(p: Profile, before: seq<(string, Option<string>)>, now: seq<(string, Option<string>)>, got: seq<Frame>) {
    && |now| == |before|
    && forall i :: 0 <= i < |now| ==>
         && now[i].0 == before[i].0
         && match LastFrame(p.glob, before[i].0, got)
            case None => now[i].1 == before[i].1
            case Some(f) => p.times(f.payload).Some? ==> now[i].1 == p.times(f.payload)
  }

  lemma {:induction false} LastFrameCons(glob: Glob, id: string, f: Frame, fs: seq<Frame>)
    ensures LastFrame(glob, id, [f] + fs) == if LastFrame(glob, id, fs).Some? then LastFrame(glob, id, fs) else LastFrame(glob, id, [f])
  {
    hide Matches;
    if fs == [] {
      assert [f] + fs == [f];
    } else {
      assert ([f] + fs)[..|fs|] == [f] + fs[..|fs| - 1];
      LastFrameCons(glob, id, f, fs[..|fs| - 1]);
    }
  }

  lemma {:induction false} StampedTwice(
    p: Profile, a: seq<(string, Option<string>)>, b: seq<(string, Option<string>)>, c: seq<(string, Option<string>)>, fs: seq<Frame>, gs: seq<Frame>)
    requires |fs| <= 1 && AreStamped(p, a, b, fs) && AreStamped(p, b, c, gs)
    ensures AreStamped(p, a, c, fs + gs)
  {
    hide Matches, LastFrame;
    if fs == [] {
      assert fs + gs == gs;
      NoFrame();
    } else {
      assert fs == [fs[0]];
      forall i | 0 <= i < |c|
        ensures
          LastFrame(p.glob, a[i].0, fs + gs)
          == if LastFrame(p.glob, a[i].0, gs).Some? then LastFrame(p.glob, a[i].0, gs) else LastFrame(p.glob, a[i].0, fs)
      {
        LastFrameCons(p.glob, a[i].0, fs[0], gs);
      }
    }
  }

  lemma {:induction false} NoFrame()
    ensures forall glob: Glob, id :: LastFrame(glob, id, []) == None
  {
  }

  lemma {:induction false} SettlingKeepsStamp(times: StartTimes, t: Tracked)
    ensures Stamp(times, Settled(times, t)) == Stamp(times, t)
    ensures Settled(times, t).config.timestamp == Stamp(times, t) && Settled(times, t).config.id == t.config.id
  {
  }

  lemma {:induction false} ReadyKeepsStamps(p: Profile, version: Version, sel: SelState)
    requires sel.streams != []
    ensures Ready(p, version, sel).streams != [] && Stamps(p.times, Ready(p, version, sel).streams) == Stamps(p.times, sel.streams)
  {
    hide OverlayAll, FreshAll, Stamp;
    var needs := version.V3? && p.start.None?;
    assert Ready(p, version, sel).streams == PlannedAll(p.times, needs, sel.streams);
    forall i | 0 <= i < |sel.streams|
      ensures
        var t := Planned(p.times, needs, sel.streams[i]);
        t.config.id == sel.streams[i].config.id && Stamp(p.times, t) == Stamp(p.times, sel.streams[i])
    {
      SettlingKeepsStamp(p.times, sel.streams[i]);
    }
  }

  lemma {:induction false} ComeBackKeepsStamps(p: Profile, sel: SelState, tries: seq<Attempt>, lucks: seq<Luck>)
    requires sel.streams != []
    ensures
      var back := ComeBack(p, sel, tries, lucks);
      back.sel.streams != [] && Stamps(p.times, back.sel.streams) == Stamps(p.times, sel.streams)
    decreases |tries|
  {
    hide Meet, Negotiating, LinkMet, Ready, Stamps;
    if tries != [] {
      ReadyKeepsStamps(p, MeetingOf(p, tries[0], LuckOf(lucks)).version, sel);
      ComeBackKeepsStamps(p, Try(p, sel, tries[0], LuckOf(lucks)).sel, tries[1..], LaterLucks(lucks));
    }
  }

  lemma {:induction false} FrameStamps(p: Profile, f: Frame, ts: seq<Tracked>)
    ensures AreStamped(p, Stamps(p.times, ts), Stamps(p.times, UpdatedAll(p.glob, f, ts)), [f])
  {
    hide Matches;
    assert [f][..0] == [];
    NoFrame();
    forall i | 0 <= i < |ts|
      ensures
        var now := Stamps(p.times, UpdatedAll(p.glob, f, ts))[i];
        && now.0 == ts[i].config.id
        && match LastFrame(p.glob, ts[i].config.id, [f])
           case None => now.1 == Stamp(p.times, ts[i])
           case Some(g) => p.times(g.payload).Some? ==> now.1 == p.times(g.payload)
    {
      assert UpdatedAll(p.glob, f, ts)[i] == Updated(p.glob, f, ts[i]);
    }
  }

  lemma {:induction false} StampsAsTheyWere(p: Profile, stamps: seq<(string, Option<string>)>)
    ensures AreStamped(p, stamps, stamps, [])
  {
  }

  lemma {:induction false} PassStamps(p: Profile, c: State, m: Moment, r: Record)
    requires c.sel.streams != []
    ensures
      var c1 := StateAfter(p, c, m, r);
      c1.sel.streams != [] && AreStamped(p, Stamps(p.times, c.sel.streams), Stamps(p.times, c1.sel.streams), YieldOf(WhatOf(p, c, r)))
  {
    hide Matches, ComeBack, SentComingBack, NextOf, React;
    ComeBackKeepsStamps(p, c.sel, m.tries, r.lucks);
    StampsAsTheyWere(p, Stamps(p.times, c.sel.streams));
    hide AreStamped, Stamps;
    var what := WhatOf(p, c, r);
    if what.Took? && what.reaction.Yields? {
      FrameStamps(p, what.reaction.frame, c.sel.streams);
    }
  }

  /** After any history, over any reconnections, what a stream would save as its time
      is the start of the last packet handed out for it. */
  lemma {:induction false} StampsAreCurrent(p: Profile, c: State, ms: seq<Moment>, h: seq<Record>)
    requires IsHistory(p, c, ms, h) && c.sel.streams != []
    ensures AreStamped(p, Stamps(p.times, c.sel.streams), Stamps(p.times, EndOf(p, c, ms, h).sel.streams), Given(p, c, h))
    decreases |h|
  {
    hide IsPass, StateAfter, WhatOf, Given, Stamps, AreStamped, Continues;
    if h == [] {
      NothingGiven(p, c);
      StampsAsTheyWere(p, Stamps(p.times, c.sel.streams));
    } else {
      var c1 := StateAfter(p, c, ms[0], h[0]);
      PassStamps(p, c, ms[0], h[0]);
      GivenCons(p, c, ms, h);
      StampsAreCurrent(p, c1, ms[1..], h[1..]);
      OneYield(WhatOf(p, c, h[0]));
      StampedTwice(p, Stamps(p.times, c.sel.streams), Stamps(p.times, c1.sel.streams), Stamps(p.times, EndOf(p, c1, ms[1..], h[1..]).sel.streams),
                   YieldOf(WhatOf(p, c, h[0])), Given(p, c1, h[1..]));
    }
  }

  lemma {:induction false} OneYield(what: What)
    ensures |YieldOf(what)| <= 1
  {
  }

  /** Saving writes that time, and so does the DATA of 3.x when it resumes by number. */
  lemma {:induction false} StampIsUsed(p: Profile, sel: SelState, i: nat)
    requires i < |sel.streams|
    ensures SettledAll(p.times, sel.streams)[i].config.timestamp == Stamp(p.times, sel.streams[i])
    ensures |Ready(p, V3, sel).streams| == |sel.streams|
    ensures p.start.None? && sel.streams[i].config.seqnum.Some? ==>
      Ready(p, V3, sel).streams[i].config.timestamp == Stamp(p.times, sel.streams[i])
  {
    SettlingKeepsStamp(p.times, sel.streams[i]);
    hide OverlayAll, FreshAll, Stamp, Settled;
  }
}
