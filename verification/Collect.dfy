/** One pass of the loop in `collect()`: what it does with the item it reads, and
    its idle and keepalive clocks. */
module Collect {
  import opened Text
  import opened Protocol

  // ------------------------------------------------------------- what is read

  predicate IsInfo(f: Frame) {
    f.format == 'X' || (f.format == 'J' && f.subformat == 'I')
  }

  predicate IsJsonError(f: Frame) {
    f.format == 'J' && f.subformat == 'E'
  }

  /** What the loop does with an item: hand it to the caller, drop it, give up
      the connection, or end the iteration. */
  datatype Reaction = Yields(frame: Frame) | Skips | Closes | Finishes

  function React(item: Item): Reaction {
    match item
    case EndOfStream => Finishes
    case Reply(_) => Closes
    case Packet(f) => if IsJsonError(f) then Closes else if IsInfo(f) then Skips else Yields(f)
  }

  // ------------------------------------------------------------------ one pass

  /** `keepalive` is None when heartbeats are disabled. */
  datatype Settings = Settings(keepalive: Option<real>, idleTimeout: real, reconnect: bool)

  /** What the loop meets in one pass: the clock on entry and after waiting,
      whether the socket was readable, whether a heartbeat could be sent, and
      what reading an item gave. */
  datatype Tick = Tick(now: real, after: real, readable: bool, sendOk: bool, read: Result<Item, Error>)

  datatype Loop = Loop(connected: bool, lastData: real, nextKeepalive: Option<real>)

  datatype What =
    | Reconnected | Expired | KeptAlive(sent: bool) | Waited | Took(reaction: Reaction) | ReadFailed(error: Error) | Stopped

  function KeepaliveFrom(g: Settings, t: real): Option<real> {
    if g.keepalive.Some? then Some(t + g.keepalive.value) else None
  }

  predicate IsExpired(g: Settings, l: Loop, now: real) {
    now - l.lastData > g.idleTimeout
  }

  /** What the pass does; without `reconnect`, closing ends the iteration instead. */
  function PassWhat(g: Settings, l: Loop, t: Tick): What {
    if !l.connected then (if g.reconnect then Reconnected else Stopped)
    else if IsExpired(g, l, t.now) then Expired
    else if !t.readable then
      if l.nextKeepalive.Some? && t.after >= l.nextKeepalive.value then KeptAlive(t.sendOk) else Waited
    else
      match t.read
      case Err(e) => ReadFailed(e)
      case Ok(item) => Took(React(item))
  }

  function PassLoop(g: Settings, l: Loop, t: Tick): Loop {
    match PassWhat(g, l, t)
    case Reconnected => Loop(true, t.after, KeepaliveFrom(g, t.after))
    case Expired => l.(connected := false)
    case KeptAlive(sent) => l.(connected := sent, nextKeepalive := KeepaliveFrom(g, t.after))
    case Waited => l
    case Took(Yields(_)) => l.(lastData := t.after)
    case Took(Skips) => l
    case Took(Closes) => l.(connected := false)
    case Took(Finishes) => l
    case ReadFailed(e) => if e in {DecodeFailed} then l else l.(connected := false)
    case Stopped => l
  }

  /** Whether the generator goes on after the pass. */
  predicate Continues(g: Settings, what: What) {
    match what
    case Stopped => false
    case Took(Finishes) => false
    case Took(Closes) => g.reconnect
    case Expired => g.reconnect
    case ReadFailed(e) => g.reconnect && e != DecodeFailed
    case _ => true
  }

  // ------------------------------------------------------------- runs of passes

  datatype Passing = Passing(tick: Tick, what: What)

  function Passes(g: Settings, l: Loop, ticks: seq<Tick>): seq<Passing>
    decreases |ticks|
  {
    if ticks == [] then []
    else
      var what := PassWhat(g, l, ticks[0]);
      [Passing(ticks[0], what)]
      + if Continues(g, what) then Passes(g, PassLoop(g, l, ticks[0]), ticks[1..]) else []
  }

  /** The loop after passes that each let the generator go on. */
  function LoopAfter(g: Settings, l: Loop, ticks: seq<Tick>): Loop
    decreases |ticks|
  {
    if ticks == [] then l else LoopAfter(g, PassLoop(g, l, ticks[0]), ticks[1..])
  }

  predicate GoesOn(g: Settings, l: Loop, ticks: seq<Tick>)
    decreases |ticks|
  {
    ticks == [] || (Continues(g, PassWhat(g, l, ticks[0])) && GoesOn(g, PassLoop(g, l, ticks[0]), ticks[1..]))
  }

  lemma {:induction false} OneMorePass(g: Settings, l: Loop, ticks: seq<Tick>, t: Tick)
    requires GoesOn(g, l, ticks)
    ensures
      var what := PassWhat(g, LoopAfter(g, l, ticks), t);
      && Passes(g, l, ticks + [t]) == Passes(g, l, ticks) + [Passing(t, what)]
      && LoopAfter(g, l, ticks + [t]) == PassLoop(g, LoopAfter(g, l, ticks), t)
      && (GoesOn(g, l, ticks + [t]) <==> Continues(g, what))
    decreases |ticks|
  {
    hide PassWhat, PassLoop, Continues;
    if ticks == [] {
      assert ([] + [t])[1..] == [];
    } else {
      assert (ticks + [t])[1..] == ticks[1..] + [t];
      OneMorePass(g, PassLoop(g, l, ticks[0]), ticks[1..], t);
    }
  }

  /** The packets the passes hand to the caller. */
  function YieldsOf(events: seq<Passing>): seq<Frame> {
    if events == [] then []
    else
      var what := events[|events| - 1].what;
      YieldsOf(events[..|events| - 1]) + if what.Took? && what.reaction.Yields? then [what.reaction.frame] else []
  }

  /** The clock never runs backwards. */
  predicate InOrder(since: real, ticks: seq<Tick>)
    decreases |ticks|
  {
    ticks == [] || (since <= ticks[0].now <= ticks[0].after && InOrder(ticks[0].after, ticks[1..]))
  }

  /** The loop as `collect()` starts it at time `t`. */
  function StartLoop(g: Settings, t: real): Loop {
    Loop(true, t, KeepaliveFrom(g, t))
  }

  /** When data last arrived or a connection was last made; INFO does not count. */
  function LastActivity(start: real, events: seq<Passing>): real {
    if events == [] then start
    else
      var e := events[|events| - 1];
      if e.what.Reconnected? || (e.what.Took? && e.what.reaction.Yields?) then e.tick.after
      else LastActivity(start, events[..|events| - 1])
  }

  predicate IsRead(what: What) { what.Took? || what.ReadFailed? }

  lemma {:induction false} LastActivityFrom(start: real, e: Passing, events: seq<Passing>)
    ensures LastActivity(start, [e] + events) ==
            LastActivity(if e.what.Reconnected? || (e.what.Took? && e.what.reaction.Yields?) then e.tick.after else start, events)
  {
    if events == [] {
      assert [e] + events == [e] && [e][..0] == [];
    } else {
      var n := |events|;
      assert ([e] + events)[..n] == [e] + events[..n - 1];
      LastActivityFrom(start, e, events[..n - 1]);
    }
  }

  /** No frame is read in a pass that begins more than `idleTimeout` after the
      last data or reconnection, however much INFO traffic there was. */
  lemma {:induction false} NoReadAfterExpiry(g: Settings, l: Loop, ticks: seq<Tick>, i: nat)
    requires i < |Passes(g, l, ticks)| && IsRead(Passes(g, l, ticks)[i].what)
    ensures var events := Passes(g, l, ticks);
            events[i].tick.now - LastActivity(l.lastData, events[..i]) <= g.idleTimeout
    decreases i
  {
    var events := Passes(g, l, ticks);
    if i > 0 {
      var l1 := PassLoop(g, l, ticks[0]);
      NoReadAfterExpiry(g, l1, ticks[1..], i - 1);
      assert events[..i] == [events[0]] + events[1..][..i - 1];
      LastActivityFrom(l.lastData, events[0], events[1..][..i - 1]);
    }
  }

  lemma {:induction false} NoHeartbeatBefore(g: Settings, l: Loop, since: real, ticks: seq<Tick>, j: nat)
    requires g.keepalive.Some? && g.keepalive.value >= 0.0 && InOrder(since, ticks)
    requires l.nextKeepalive.Some? && l.nextKeepalive.value <= since + g.keepalive.value
    requires j < |Passes(g, l, ticks)| && Passes(g, l, ticks)[j].what.KeptAlive?
    ensures Passes(g, l, ticks)[j].tick.after >= l.nextKeepalive.value
    decreases j
  {
    if j > 0 {
      NoHeartbeatBefore(g, PassLoop(g, l, ticks[0]), ticks[0].after, ticks[1..], j - 1);
    }
  }

  lemma {:induction false} SpacedFrom(g: Settings, l: Loop, since: real, ticks: seq<Tick>, i: nat, j: nat)
    requires g.keepalive.Some? && g.keepalive.value >= 0.0 && InOrder(since, ticks)
    requires l.nextKeepalive.Some? && l.nextKeepalive.value <= since + g.keepalive.value
    requires i < j < |Passes(g, l, ticks)|
    requires Passes(g, l, ticks)[i].what.KeptAlive? && Passes(g, l, ticks)[j].what.KeptAlive?
    ensures Passes(g, l, ticks)[j].tick.after - Passes(g, l, ticks)[i].tick.after >= g.keepalive.value
    decreases i
  {
    var l1 := PassLoop(g, l, ticks[0]);
    if i == 0 {
      NoHeartbeatBefore(g, l1, ticks[0].after, ticks[1..], j - 1);
    } else {
      SpacedFrom(g, l1, ticks[0].after, ticks[1..], i - 1, j - 1);
    }
  }

  /** In every run any two heartbeats are at least `keepalive` apart, even across
      reconnections, and the first comes no sooner than that after the start. */
  lemma {:induction false} HeartbeatsSpaced(g: Settings, t: real, ticks: seq<Tick>, i: nat, j: nat)
    requires g.keepalive.Some? && g.keepalive.value >= 0.0 && InOrder(t, ticks)
    requires i <= j < |Passes(g, StartLoop(g, t), ticks)|
    requires Passes(g, StartLoop(g, t), ticks)[i].what.KeptAlive? && Passes(g, StartLoop(g, t), ticks)[j].what.KeptAlive?
    ensures var events := Passes(g, StartLoop(g, t), ticks);
            events[j].tick.after - (if i == j then t else events[i].tick.after) >= g.keepalive.value
  {
    if i == j {
      NoHeartbeatBefore(g, StartLoop(g, t), t, ticks, j);
    } else {
      SpacedFrom(g, StartLoop(g, t), t, ticks, i, j);
    }
  }
}
