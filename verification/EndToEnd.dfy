/** The client of `Clients`, as the value `Sessions` makes of it, in the world of
    `Delivery`: every step it takes there is a step of that world, so what `collect()`
    hands out is what the delivery theorem is about. */
module EndToEnd {
  import opened Text
  import opened Protocol
  import opened Framing
  import opened Streams
  import opened Commands
  import opened Negotiation
  import opened Servers
  import opened Exchange
  import opened Connections
  import opened Selections
  import opened Collect
  import opened Sessions
  import opened Delivery
  import Restart

  /** A client set up for the site, with no time window. */
  ghost predicate Suits(s: Site, p: Profile) {
    && p.ms == s.ms && p.glob == s.glob && p.iso == s.iso && p.times == s.times && p.dialup == s.dialup
    && p.start.None? && p.end.None?
  }

  /** The client holds the world's streams, is connected when the world is, and what
      the world has sent and not yet consumed is the beginning of what its
      connection has to offer. */
  predicate Mirrors(s: Site, w: World, c: State) {
    && c.sel.streams == w.streams && w.streams != [] && c.sel.multistation
    && (!w.over ==> (c.link.Some? <==> w.connected))
    && (!w.connected ==> w.buffered == [] && w.inFlight == [])
    && (!w.over && w.connected ==> c.link.value.version == s.version && w.buffered + w.inFlight <= c.link.value.s)
  }

  // ------------------------------------------------------------------- reading

  lemma {:induction false} ReadTakes(s: Site, w: World)
    requires w.connected && !w.over && NextItem(s.ms, s.version, w.buffered, Eof).Got?
    ensures
      var step := NextItem(s.ms, s.version, w.buffered, Eof);
      Enabled(s, w, Read) && Do(s, w, Read) == AfterRead(s, w, step.item, step.rest)
  {
    hide NextItem, CanReconnect, IsEntry, AfterRead;
  }

  lemma {:induction false} ReadLink(s: Site, p: Profile, w: World, c: State)
    requires Suits(s, p) && Mirrors(s, w, c) && w.connected && !w.over
    requires NextItem(s.ms, s.version, w.buffered, Eof).Got?
    ensures
      var step, k := NextItem(s.ms, s.version, w.buffered, Eof), c.link.value;
      && NextOf(p, k).Got? && NextOf(p, k).item == step.item && step.rest + w.inFlight <= NextOf(p, k).rest
  {
    var k := c.link.value;
    var later := k.s[|w.buffered|..];
    assert k.s == w.buffered + later;
    assert w.inFlight <= later by {
      assert (w.buffered + w.inFlight)[|w.buffered|..] == w.inFlight;
    }
    ItemStable(s.ms, s.version, w.buffered, later, Eof, k.fate);
  }

  /** An item that has arrived whole is the item the client takes: its pass is the
      world's step. */
  lemma {:induction false} TakingIsRead(s: Site, p: Profile, w: World, c: State, m: Moment, r: Record)
    requires Suits(s, p) && Mirrors(s, w, c) && !w.over && IsPass(p, c, m, r) && WhatOf(p, c, r).Took?
    requires NextItem(s.ms, s.version, w.buffered, Eof).Got?
    ensures
      && Enabled(s, w, Read) && Mirrors(s, Do(s, w, Read), StateAfter(p, c, m, r))
      && Do(s, w, Read).yielded == w.yielded + YieldOf(WhatOf(p, c, r))
  {
    hide ComeBack, NextItem, UpdatedAll;
    assert w.connected;
    ReadLink(s, p, w, c);
    ReadTakes(s, w);
    hide Enabled, Do;
    assert w.yielded + [] == w.yielded;
  }

  // ----------------------------------------------- giving up, waiting, saving

  lemma {:induction false} DropDoes(s: Site, w: World)
    requires w.connected && !w.over
    ensures Enabled(s, w, Drop) && Do(s, w, Drop) == Closed(w)
  {
    hide NextItem, CanReconnect, IsEntry;
  }

  lemma {:induction false} ClosingIsDrop(s: Site, w: World, c: State, c1: State)
    requires Mirrors(s, w, c) && w.connected && !w.over && c1.link.None? && c1.sel == c.sel
    ensures Enabled(s, w, Drop) && Mirrors(s, Do(s, w, Drop), c1) && Do(s, w, Drop).yielded == w.yielded
  {
    DropDoes(s, w);
    hide Enabled, Do;
  }

  lemma {:induction false} SavingIsSave(s: Site, w: World, c: State)
    requires Mirrors(s, w, c)
    ensures Enabled(s, w, SaveState)
    ensures Mirrors(s, Do(s, w, SaveState), c.(sel := c.sel.(streams := SettledAll(s.times, c.sel.streams))))
    ensures Do(s, w, SaveState).yielded == w.yielded
  {
    hide NextItem, CanReconnect, IsEntry;
  }

  // -------------------------------------------------------------- reconnecting

  /** Every request of a negotiation fits a command line. */
  predicate IsSendable(s: Site, w: World) {
    && AllSendable(Plan(OptionsOf(s, false), s.iso, Configs(s, w)).value)
    && AllSendable(Plan(OptionsOf(s, true), s.iso, Configs(s, w)).value)
  }

  predicate IsLost(s: Site, w: World, sel: SelState) {
    && !w.connected && !w.over && w.buffered == [] && w.inFlight == []
    && sel.streams == w.streams && w.streams != [] && sel.multistation
  }

  /** Whoever answers speaks the site's version. */
  predicate Speaks(p: Profile, version: Version, tries: seq<Attempt>, lucks: seq<Luck>)
    decreases |tries|
  {
    tries == []
    || ((MeetingOf(p, tries[0], LuckOf(lucks)).talk.ending.Welcomed? ==> MeetingOf(p, tries[0], LuckOf(lucks)).version == version)
        && Speaks(p, version, tries[1..], LaterLucks(lucks)))
  }

  /** The replies a try's negotiation heard. */
  function HeardBy(p: Profile, sel: SelState, a: Attempt, luck: Luck): seq<string> {
    var met := MeetingOf(p, a, luck);
    Negotiating(p, LinkMet(a, met), Ready(p, met.version, sel), luck.plan).heard
  }

  /** The world's steps behind one try. */
  function TryActions(p: Profile, sel: SelState, a: Attempt, luck: Luck, starts: map<string, nat>): seq<Action> {
    var met := MeetingOf(p, a, luck);
    if !met.talk.ending.Welcomed? then []
    else if Try(p, sel, a, luck).link.Some? then [Reconnect(met.batch, HeardBy(p, sel, a, luck), starts)]
    else [FailedTry]
  }

  function ComeBackActions(p: Profile, sel: SelState, tries: seq<Attempt>, lucks: seq<Luck>, starts: map<string, nat>): seq<Action>
    decreases |tries|
  {
    if tries == [] then []
    else
      var t := Try(p, sel, tries[0], LuckOf(lucks));
      TryActions(p, sel, tries[0], LuckOf(lucks), starts)
      + if t.link.Some? then [] else ComeBackActions(p, t.sel, tries[1..], LaterLucks(lucks), starts)
  }

  lemma {:induction false} ReadyIsPlanned(s: Site, p: Profile, w: World, sel: SelState)
    requires Suits(s, p) && IsLost(s, w, sel)
    ensures Ready(p, s.version, sel) == sel.(streams := PlannedAll(s.times, s.version.V3?, w.streams))
    ensures PlanFor(p, s.version, false, Ready(p, s.version, sel)) == Plan(OptionsOf(s, false), s.iso, Configs(s, w))
    ensures PlanFor(p, s.version, true, Ready(p, s.version, sel)) == Plan(OptionsOf(s, true), s.iso, Configs(s, w))
  {
    hide OverlayAll, FreshAll, PlannedAll, SortStreams, Plan, ConfigsOf;
  }

  /** A successful try is a reconnection of the world, with the replies it heard. */
  lemma {:induction false} WelcomeIsReconnect(s: Site, p: Profile, w: World, sel: SelState, a: Attempt, luck: Luck)
    requires Suits(s, p) && IsLost(s, w, sel) && IsSendable(s, w)
    requires Try(p, sel, a, luck).link.Some? && MeetingOf(p, a, luck).version == s.version
    ensures CanReconnect(s, w, MeetingOf(p, a, luck).batch, HeardBy(p, sel, a, luck))
    ensures Try(p, sel, a, luck).sel == sel.(streams := PlannedAll(s.times, s.version.V3?, w.streams))
    ensures Try(p, sel, a, luck).link.value.version == s.version
  {
    ReadyIsPlanned(s, p, w, sel);
    var met := MeetingOf(p, a, luck);
    hide Meet, Ready, PlanFor, AllSendable, Plan, Converse, RunWalk, Configs, OptionsOf, PlannedAll;
    var ready := Ready(p, s.version, sel);
    var k := LinkMet(a, met);
    assert met.batch == true || met.batch == false;
    ConverseIsRun(FreshWalk, PlanFor(p, s.version, met.batch, ready).value, k.s, k.fate, k.budget, luck.plan);
  }

  lemma {:induction false} PlannedTwice(s: Site, ts: seq<Tracked>)
    ensures PlannedAll(s.times, s.version.V3?, PlannedAll(s.times, s.version.V3?, ts)) == PlannedAll(s.times, s.version.V3?, ts)
  {
    var once := PlannedAll(s.times, s.version.V3?, ts);
    forall i | 0 <= i < |ts| ensures Planned(s.times, s.version.V3?, once[i]) == once[i] {
      assert once[i] == Planned(s.times, s.version.V3?, ts[i]);
    }
  }

  lemma {:induction false} FailedTryDoes(s: Site, w: World)
    requires !w.connected && !w.over
    ensures Enabled(s, w, FailedTry) && Do(s, w, FailedTry) == w.(streams := PlannedAll(s.times, s.version.V3?, w.streams))
  {
    hide NextItem, CanReconnect, IsEntry;
  }

  /** A try that fails leaves the world where it was, its streams perhaps planned. */
  lemma {:induction false} FailureIsFailedTry(s: Site, p: Profile, w: World, sel: SelState, a: Attempt, luck: Luck, starts: map<string, nat>) returns (w1: World)
    requires Suits(s, p) && IsLost(s, w, sel) && IsSendable(s, w) && Try(p, sel, a, luck).link.None?
    requires MeetingOf(p, a, luck).talk.ending.Welcomed? ==> MeetingOf(p, a, luck).version == s.version
    ensures Final(s, w, TryActions(p, sel, a, luck, starts)) == Some(w1)
    ensures IsLost(s, w1, Try(p, sel, a, luck).sel) && IsSendable(s, w1) && w1.yielded == w.yielded
  {
    ReadyIsPlanned(s, p, w, sel);
    hide Meet, Ready, PlanFor, AllSendable, Plan, Negotiating, OptionsOf, PlannedAll;
    var met := MeetingOf(p, a, luck);
    if met.talk.ending.Welcomed? {
      w1 := w.(streams := PlannedAll(s.times, s.version.V3?, w.streams));
      FailedTryDoes(s, w);
      PlannedTwice(s, w.streams);
      PlannedLength(s, w.streams);
      hide Enabled, Do;
      FirstStep(s, w, FailedTry, []);
      assert [FailedTry] + [] == [FailedTry];
      assert Configs(s, w1) == Configs(s, w);
      EmptyRun(s, w1);
    } else {
      w1 := w;
      EmptyRun(s, w);
    }
  }

  lemma {:induction false} PlannedLength(s: Site, ts: seq<Tracked>)
    ensures |PlannedAll(s.times, s.version.V3?, ts)| == |ts|
  {
  }

  /** Coming back after any number of failed tries is a run of the world that ends
      with its reconnection. */
  lemma {:induction false} ComingBackIsReconnect(
    s: Site, p: Profile, w: World, sel: SelState, tries: seq<Attempt>, lucks: seq<Luck>, starts: map<string, nat>)
    requires Suits(s, p) && IsLost(s, w, sel) && IsSendable(s, w) && Speaks(p, s.version, tries, lucks)
    requires ComeBack(p, sel, tries, lucks).Back?
    ensures
      var end, back := Final(s, w, ComeBackActions(p, sel, tries, lucks, starts)), ComeBack(p, sel, tries, lucks);
      && end.Some? && end.value.connected && !end.value.over && end.value.buffered == [] && end.value.inFlight == []
      && end.value.streams == back.sel.streams && end.value.streams != [] && back.sel.multistation
      && back.link.version == s.version && end.value.yielded == w.yielded
    decreases |tries|
  {
    hide Meet, Try, IsSendable, Final, Enabled, Do, CanReconnect, HeardBy, PlannedAll;
    var luck := LuckOf(lucks);
    var t := Try(p, sel, tries[0], luck);
    var later := LaterLucks(lucks);
    if t.link.Some? {
      WelcomedTry(p, sel, tries[0], luck);
      WelcomeIsReconnect(s, p, w, sel, tries[0], luck);
      ReconnectRuns(s, w, MeetingOf(p, tries[0], luck).batch, HeardBy(p, sel, tries[0], luck), starts);
      var one := [Reconnect(MeetingOf(p, tries[0], luck).batch, HeardBy(p, sel, tries[0], luck), starts)];
      assert one + [] == one;
    } else {
      var w1 := FailureIsFailedTry(s, p, w, sel, tries[0], luck, starts);
      ComingBackIsReconnect(s, p, w1, t.sel, tries[1..], later, starts);
      Restart.FinalJoin(s, w, TryActions(p, sel, tries[0], luck, starts), ComeBackActions(p, t.sel, tries[1..], later, starts));
    }
  }

  lemma {:induction false} WelcomedTry(p: Profile, sel: SelState, a: Attempt, luck: Luck)
    requires Try(p, sel, a, luck).link.Some?
    ensures MeetingOf(p, a, luck).talk.ending.Welcomed?
  {
  }

  lemma {:induction false} ReconnectRuns(s: Site, w: World, batch: bool, lines: seq<string>, starts: map<string, nat>)
    requires CanReconnect(s, w, batch, lines)
    requires w.buffered == [] && w.inFlight == []
    ensures
      var end := Final(s, w, [Reconnect(batch, lines, starts)]);
      && end.Some? && end.value.connected && end.value.over == w.over && end.value.buffered == [] && end.value.inFlight == []
      && end.value.streams == PlannedAll(s.times, s.version.V3?, w.streams) && end.value.yielded == w.yielded
      && !w.over && |end.value.streams| == |w.streams|
  {
    EnabledReconnect(s, w, batch, lines, starts);
    ReconnectDoes(s, w, batch, lines, starts);
    PlannedLength(s, w.streams);
    hide Enabled, Do, CanReconnect, PlannedAll;
    FirstStep(s, w, Reconnect(batch, lines, starts), []);
    EmptyRun(s, Do(s, w, Reconnect(batch, lines, starts)));
    assert [Reconnect(batch, lines, starts)] + [] == [Reconnect(batch, lines, starts)];
  }

  lemma {:induction false} EnabledReconnect(s: Site, w: World, batch: bool, lines: seq<string>, starts: map<string, nat>)
    requires CanReconnect(s, w, batch, lines)
    ensures Enabled(s, w, Reconnect(batch, lines, starts)) && !w.over
  {
    hide Plan, AllSendable, Negotiated, Configs;
  }

  // ---------------------------------------------------------------- joint runs

  /** A step of the two together: the server or the network moves, the client makes
      a pass (`starts` is where a server puts requests without a number), or saves
      its state. */
  datatype Joint = Net(action: Action) | Pass(m: Moment, r: Record, starts: map<string, nat>) | Save

  predicate IsNetwork(a: Action) {
    a.Append? || a.Send? || a.SendOther? || a.SendLast? || a.Arrive?
  }

  /** What ties the two: a connection offers the client what the server sends on it,
      and nothing else; an item is read once it has arrived; whoever answers a
      reconnection speaks the site's version, and requests fit a command line. */
  predicate CanJoin(s: Site, p: Profile, w: World, c: State, j: Joint) {
    match j
    case Net(a) =>
      && IsNetwork(a) && Enabled(s, w, a)
      && (w.connected && c.link.Some? ==> Do(s, w, a).buffered + Do(s, w, a).inFlight <= c.link.value.s)
    case Save => true
    case Pass(m, r, _) =>
      && !w.over && IsPass(p, c, m, r)
      && (WhatOf(p, c, r).Took? && c.link.Some? && NextOf(p, c.link.value).Got? ==> NextItem(s.ms, s.version, w.buffered, Eof).Got?)
      && (WhatOf(p, c, r).Reconnected? ==> Speaks(p, s.version, m.tries, r.lucks) && IsSendable(s, w))
  }

  function StateJoined(p: Profile, c: State, j: Joint): State {
    match j
    case Net(_) => c
    case Save => c.(sel := c.sel.(streams := SettledAll(p.times, c.sel.streams)))
    case Pass(m, r, _) => StateAfter(p, c, m, r)
  }

  /** The world's steps behind a step. */
  function ActionsOf(p: Profile, c: State, j: Joint): seq<Action> {
    match j
    case Net(a) => [a]
    case Save => [SaveState]
    case Pass(m, r, starts) =>
      match WhatOf(p, c, r)
      case Took(_) => if c.link.Some? && NextOf(p, c.link.value).Got? then [Read] else [Drop]
      case Reconnected => ComeBackActions(p, c.sel, m.tries, r.lucks, starts)
      case Expired => [Drop]
      case ReadFailed(e) => if e.DecodeFailed? then [] else [Drop]
      case KeptAlive(sent) => if sent then [] else [Drop]
      case _ => []
  }

  function GivenBy(p: Profile, c: State, j: Joint): seq<Frame> {
    if j.Pass? then YieldOf(WhatOf(p, c, j.r)) else []
  }

  /** The world after some steps, the client's state with it, and the next step. */
  predicate IsStep(s: Site, p: Profile, w: World, c: State, j: Joint) {
    && Final(s, w, ActionsOf(p, c, j)).Some?
    && Mirrors(s, Final(s, w, ActionsOf(p, c, j)).value, StateJoined(p, c, j))
    && Final(s, w, ActionsOf(p, c, j)).value.yielded == w.yielded + GivenBy(p, c, j)
  }

  lemma {:induction false} SingleAction(s: Site, w: World, a: Action)
    requires Enabled(s, w, a)
    ensures Final(s, w, [a]) == Some(Do(s, w, a))
  {
    hide Enabled, Do;
    FirstStep(s, w, a, []);
    EmptyRun(s, Do(s, w, a));
    assert [a] + [] == [a];
  }

  lemma {:induction false} NetworkKeepsClient(s: Site, w: World, c: State, a: Action)
    requires Mirrors(s, w, c) && IsNetwork(a) && Enabled(s, w, a)
    requires w.connected && c.link.Some? ==> Do(s, w, a).buffered + Do(s, w, a).inFlight <= c.link.value.s
    ensures Mirrors(s, Do(s, w, a), c) && Do(s, w, a).yielded == w.yielded
  {
    hide NextItem, CanReconnect, IsEntry, Wire, IsWellFormed, LastBytes;
  }

  lemma {:induction false} TookStep(s: Site, p: Profile, w: World, c: State, m: Moment, r: Record, starts: map<string, nat>)
    requires Suits(s, p) && Mirrors(s, w, c) && CanJoin(s, p, w, c, Pass(m, r, starts)) && WhatOf(p, c, r).Took?
    ensures IsStep(s, p, w, c, Pass(m, r, starts))
  {
    PassJoins(s, p, w, c, m, r, starts);
    hide CanJoin, StateAfter, WhatOf, NextOf, Final, Enabled, Do, Mirrors, IsPass, NextItem;
    TookOpen(p, c, m, r);
    if NextOf(p, c.link.value).Got? {
      TakingIsRead(s, p, w, c, m, r);
      SingleAction(s, w, Read);
    } else {
      MirroredLink(s, w, c);
      ClosingIsDrop(s, w, c, StateAfter(p, c, m, r));
      SingleAction(s, w, Drop);
      NoYieldOf(Closes);
      assert w.yielded + [] == w.yielded;
    }
  }

  lemma {:induction false} NoYieldOf(reaction: Reaction)
    requires !reaction.Yields?
    ensures YieldOf(Took(reaction)) == []
  {
  }

  lemma {:induction false} PassJoins(s: Site, p: Profile, w: World, c: State, m: Moment, r: Record, starts: map<string, nat>)
    requires CanJoin(s, p, w, c, Pass(m, r, starts))
    ensures !w.over && IsPass(p, c, m, r)
    ensures WhatOf(p, c, r).Took? && c.link.Some? && NextOf(p, c.link.value).Got? ==>
      NextItem(s.ms, s.version, w.buffered, Eof).Got?
  {
    hide IsPass, NextItem, WhatOf, NextOf;
  }

  lemma {:induction false} MirroredLink(s: Site, w: World, c: State)
    requires Mirrors(s, w, c) && !w.over
    ensures c.link.Some? <==> w.connected
  {
  }

  lemma {:induction false} TookOpen(p: Profile, c: State, m: Moment, r: Record)
    requires IsPass(p, c, m, r) && WhatOf(p, c, r).Took?
    ensures c.link.Some?
    ensures !NextOf(p, c.link.value).Got? ==>
      WhatOf(p, c, r) == Took(Closes) && StateAfter(p, c, m, r).link.None? && StateAfter(p, c, m, r).sel == c.sel
  {
    hide NextItem, ParseReply, ComeBack;
  }

  lemma {:induction false} ReconnectedStep(s: Site, p: Profile, w: World, c: State, m: Moment, r: Record, starts: map<string, nat>)
    requires Suits(s, p) && Mirrors(s, w, c) && CanJoin(s, p, w, c, Pass(m, r, starts)) && WhatOf(p, c, r).Reconnected?
    ensures IsStep(s, p, w, c, Pass(m, r, starts))
  {
    hide ComeBack, Speaks, IsSendable, ComeBackActions, Final, NextItem, Meets;
    assert c.link.None?;
    ComingBackIsReconnect(s, p, w, c.sel, m.tries, r.lucks, starts);
    assert w.yielded + [] == w.yielded;
  }

  lemma {:induction false} QuietStep(s: Site, p: Profile, w: World, c: State, m: Moment, r: Record, starts: map<string, nat>)
    requires Suits(s, p) && Mirrors(s, w, c) && CanJoin(s, p, w, c, Pass(m, r, starts))
    requires !WhatOf(p, c, r).Took? && !WhatOf(p, c, r).Reconnected?
    ensures IsStep(s, p, w, c, Pass(m, r, starts))
  {
    hide ComeBack, Enabled, Do, Final, NextItem, Meets;
    var c1 := StateAfter(p, c, m, r);
    assert w.yielded + [] == w.yielded;
    if ActionsOf(p, c, Pass(m, r, starts)) == [] {
      EmptyRun(s, w);
    } else {
      ClosingIsDrop(s, w, c, c1);
      SingleAction(s, w, Drop);
    }
  }

  /** Every step the two take together is a run of the world, and leaves the client
      where the world is. */
  lemma {:induction false} JointStep(s: Site, p: Profile, w: World, c: State, j: Joint)
    requires Suits(s, p) && Mirrors(s, w, c) && CanJoin(s, p, w, c, j)
    ensures IsStep(s, p, w, c, j)
  {
    hide Mirrors, Final, Enabled, Do, WhatOf, StateAfter, IsPass;
    assert w.yielded + [] == w.yielded;
    match j {
      case Net(a) =>
        NetworkKeepsClient(s, w, c, a);
        SingleAction(s, w, a);
      case Save =>
        SavingIsSave(s, w, c);
        SingleAction(s, w, SaveState);
      case Pass(m, r, starts) =>
        if WhatOf(p, c, r).Took? {
          TookStep(s, p, w, c, m, r, starts);
        } else if WhatOf(p, c, r).Reconnected? {
          ReconnectedStep(s, p, w, c, m, r, starts);
        } else {
          QuietStep(s, p, w, c, m, r, starts);
        }
    }
  }

  /** The steps that were possible, one after the other, as actions of the world. */
  function Joined(s: Site, p: Profile, w: World, c: State, js: seq<Joint>): Option<seq<Action>>
    decreases |js|
  {
    if js == [] then Some([])
    else if !CanJoin(s, p, w, c, js[0]) || Final(s, w, ActionsOf(p, c, js[0])).None? then None
    else
      match Joined(s, p, Final(s, w, ActionsOf(p, c, js[0])).value, StateJoined(p, c, js[0]), js[1..])
      case None => None
      case Some(later) => Some(ActionsOf(p, c, js[0]) + later)
  }

  function StateAt(p: Profile, c: State, js: seq<Joint>): State
    decreases |js|
  {
    if js == [] then c else StateAt(p, StateJoined(p, c, js[0]), js[1..])
  }

  function GivenAll(p: Profile, c: State, js: seq<Joint>): seq<Frame>
    decreases |js|
  {
    if js == [] then [] else GivenBy(p, c, js[0]) + GivenAll(p, StateJoined(p, c, js[0]), js[1..])
  }

  /** A joint run is a run of the world: it ends with the client where the world is,
      and the world has handed out what the client has. */
  lemma {:induction false} JointRun(s: Site, p: Profile, w: World, c: State, js: seq<Joint>)
    requires Suits(s, p) && Mirrors(s, w, c) && Joined(s, p, w, c, js).Some?
    ensures
      var end := Final(s, w, Joined(s, p, w, c, js).value);
      && end.Some? && Mirrors(s, end.value, StateAt(p, c, js)) && end.value.yielded == w.yielded + GivenAll(p, c, js)
    decreases |js|
  {
    hide Mirrors, Final, CanJoin, StateJoined, ActionsOf, GivenBy;
    if js == [] {
      EmptyRun(s, w);
      assert w.yielded + [] == w.yielded;
    } else {
      JointStep(s, p, w, c, js[0]);
      var a := ActionsOf(p, c, js[0]);
      var w1, c1 := Final(s, w, a).value, StateJoined(p, c, js[0]);
      JointRun(s, p, w1, c1, js[1..]);
      Restart.FinalJoin(s, w, a, Joined(s, p, w1, c1, js[1..]).value);
    }
  }

  // -------------------------------------------------------- what collect() does

  /** The client's part of the steps is this history, its state saved at no time
      between. */
  predicate IsPartOf(js: seq<Joint>, ms: seq<Moment>, h: seq<Record>)
    decreases |js|
  {
    if js == [] then h == []
    else
      match js[0]
      case Net(_) => IsPartOf(js[1..], ms, h)
      case Save => false
      case Pass(m, r, _) => ms != [] && h != [] && m == ms[0] && r == h[0] && IsPartOf(js[1..], ms[1..], h[1..])
  }

  lemma {:induction false} HistoryGives(p: Profile, c: State, ms: seq<Moment>, h: seq<Record>, js: seq<Joint>)
    requires IsHistory(p, c, ms, h) && IsPartOf(js, ms, h)
    ensures GivenAll(p, c, js) == Given(p, c, h) && StateAt(p, c, js) == EndOf(p, c, ms, h)
    decreases |js|
  {
    hide IsPass, StateAfter, WhatOf, Given, YieldOf, Continues;
    if js == [] {
      NothingGiven(p, c);
    } else if js[0].Net? {
      HistoryGives(p, c, ms, h, js[1..]);
      assert [] + GivenAll(p, c, js[1..]) == GivenAll(p, c, js[1..]);
    } else {
      GivenCons(p, c, ms, h);
      HistoryGives(p, StateAfter(p, c, ms[0], h[0]), ms[1..], h[1..], js[1..]);
    }
  }

  /** Whatever `collect()` does from a state the world can be in, over a server and a
      network that move as they like in between: it hands out, after what was
      handed out before, exactly what the world then has, and for each stream that
      is one contiguous piece of its station's log. */
  lemma {:induction false} CollectDelivers(
    s: Site, p: Profile, w0: World, before: seq<Action>, c: State, ms: seq<Moment>, h: seq<Record>, js: seq<Joint>, i: nat)
    returns (end: World, b: nat)
    requires IsStart(s, w0) && Final(s, w0, before).Some? && i < |w0.streams|
    requires Suits(s, p) && Mirrors(s, Final(s, w0, before).value, c)
    requires IsHistory(p, c, ms, h) && IsPartOf(js, ms, h) && Joined(s, p, Final(s, w0, before).value, c, js).Some?
    ensures end.yielded == Final(s, w0, before).value.yielded + Given(p, c, h)
    ensures end.streams == EndOf(p, c, ms, h).sel.streams && |end.streams| == |w0.streams|
    ensures end.streams[i].config.id == w0.streams[i].config.id
    ensures Delivered(s, end, end.streams[i], FirstOf(s, w0, w0.streams[i]), b)
  {
    var w := Final(s, w0, before).value;
    JointRun(s, p, w, c, js);
    HistoryGives(p, c, ms, h, js);
    var later := Joined(s, p, w, c, js).value;
    end := Final(s, w, later).value;
    Restart.FinalJoin(s, w0, before, later);
    MirroredStreams(s, end, EndOf(p, c, ms, h));
    hide IsStart, Final, Delivered, Mirrors, Joined, IsHistory, IsPartOf, FirstOf;
    b := ContiguousDelivery(s, w0, before + later, i);
  }

  lemma {:induction false} MirroredStreams(s: Site, w: World, c: State)
    requires Mirrors(s, w, c)
    ensures c.sel.streams == w.streams
  {
  }

  /** What a connection offers behind the server's answers to a negotiation is what
      the client's link begins with. */
  lemma {:induction false} LinkBeginsWithData(
    p: Profile, sel: SelState, a: Attempt, luck: Luck, answers: seq<string>, data: seq<byte>)
    requires Try(p, sel, a, luck).link.Some? && AreReplies(answers)
    requires MeetingOf(p, a, luck).talk.rest == EncodeLines(answers) + data
    requires
      var met := MeetingOf(p, a, luck);
      var t := Negotiating(p, LinkMet(a, met), Ready(p, met.version, sel), luck.plan);
      Serve(NewServer(met.version, met.batch), t.sent, answers).answered == |answers|
    ensures Try(p, sel, a, luck).link.value.s == data && HeardBy(p, sel, a, luck) == answers
  {
    var met := MeetingOf(p, a, luck);
    var ready := Ready(p, met.version, sel);
    hide Meet, Ready, Plan, Converse, EncodeLines, AreReplies, Serve, SortStreams, ConfigsOf;
    var k := LinkMet(a, met);
    NothingLeftUnread(OptionsFor(p, met.version, met.batch, ready), p.iso, SortStreams(ConfigsOf(ready.streams)),
                      answers, data, k.fate, k.budget, luck.plan);
  }

  /** A connection that offers the greeting, the handshake answers, the server's
      answers to the negotiation and then its data: a try over it ends with a link
      that begins with that data, byte for byte. */
  lemma {:induction false} AttemptBeginsWithData(
    p: Profile, sel: SelState, a: Attempt, luck: nat, line1: string, line2: string, version: Version, cap: bool,
    cmds: seq<Command>, replies: seq<string>, answers: seq<string>, data: seq<byte>)
    requires IsReplyText(line1) && IsReplyText(line2) && p.me.hello(line1, line2) == Ok((version, cap))
    requires PlanHandshake(version, cap, p.me.agent, p.me.auth, p.me.wantBatch) == Ok(cmds)
    requires AreReplies(replies) && AreReplies(answers)
    requires var run := RunWalk(FreshWalk, cmds, replies); run.outcome == Accepted && run.used == |replies| && |run.sent| < a.budget
    requires Flatten(a.net) == EncodeLine(line1) + (EncodeLine(line2) + (EncodeLines(replies) + (EncodeLines(answers) + data)))
    requires Try(p, sel, a, Luck(0, 0, luck)).link.Some?
    requires
      var met := MeetingOf(p, a, Luck(0, 0, luck));
      var t := Negotiating(p, LinkMet(a, met), Ready(p, met.version, sel), luck);
      Serve(NewServer(met.version, met.batch), t.sent, answers).answered == |answers|
    ensures Try(p, sel, a, Luck(0, 0, luck)).link.value.s == data
    ensures Try(p, sel, a, Luck(0, 0, luck)).link.value.version == version
    ensures HeardBy(p, sel, a, Luck(0, 0, luck)) == answers
  {
    hide Meet, PlanHandshake, RunWalk, EncodeLines, AreReplies, Serve, Negotiating, Ready, Flatten, IsReplyText, BatchAgreed, Try;
    HandshakeHeard(p.me, line1, line2, version, cap, cmds, replies, EncodeLines(answers) + data, a.fate, a.budget);
    LinkBeginsWithData(p, sel, a, Luck(0, 0, luck), answers, data);
    TryDoes(p, sel, [], a, Luck(0, 0, luck));
  }

  // -------------------------------------------------------------- from the start

  /** A first connection: connecting and negotiating from the start of the world. */
  lemma {:induction false} OpeningIsReconnect(s: Site, p: Profile, w: World, c: State, a: Attempt, luck: Luck, starts: map<string, nat>)
    requires Suits(s, p) && Mirrors(s, w, c) && !w.connected && !w.over && IsSendable(s, w)
    requires Try(p, c.sel, a, luck).link.Some? && MeetingOf(p, a, luck).version == s.version
    ensures
      var t := Try(p, c.sel, a, luck);
      var end := Final(s, w, TryActions(p, c.sel, a, luck, starts));
      end.Some? && end.value.yielded == w.yielded
      && forall c1: State :: c1.link == t.link && c1.sel == t.sel ==> Mirrors(s, end.value, c1)
  {
    hide Meet, Try, IsSendable, Final, Enabled, Do, CanReconnect, HeardBy, PlannedAll;
    WelcomedTry(p, c.sel, a, luck);
    WelcomeIsReconnect(s, p, w, c.sel, a, luck);
    ReconnectRuns(s, w, MeetingOf(p, a, luck).batch, HeardBy(p, c.sel, a, luck), starts);
  }

  /** A client that connects and then collects, from before its first connection:
      how it opens, and where its loop begins. */
  predicate BeginsAt(p: Profile, c0: State, a: Attempt, luck: Luck, begin: real, c: State) {
    var opening := Opened(p, Connected(c0, a, MeetingOf(p, a, luck)), luck.plan);
    && MeetingOf(p, a, luck).talk.ending.Welcomed? && opening.Streaming? && c == Begun(opening.now, p.settings, begin)
  }

  /** From the very start: a fresh client connects and collects, over a server and a
      network that move as they like. All it hands out, over any reconnections, is
      the world's, and for each stream one contiguous piece of its station's log. */
  lemma {:induction false} FirstCollectDelivers(
    s: Site, p: Profile, w0: World, c0: State, a: Attempt, luck: Luck, starts: map<string, nat>, begin: real, c: State,
    ms: seq<Moment>, h: seq<Record>, js: seq<Joint>, i: nat) returns (end: World, b: nat)
    requires IsStart(s, w0) && i < |w0.streams| && Suits(s, p) && Mirrors(s, w0, c0) && IsSendable(s, w0)
    requires BeginsAt(p, c0, a, luck, begin, c) && MeetingOf(p, a, luck).version == s.version
    requires IsHistory(p, c, ms, h) && IsPartOf(js, ms, h)
    requires
      var opening := Final(s, w0, TryActions(p, c0.sel, a, luck, starts));
      opening.Some? ==> Joined(s, p, opening.value, c, js).Some?
    ensures end.yielded == Given(p, c, h)
    ensures end.streams == EndOf(p, c, ms, h).sel.streams && |end.streams| == |w0.streams|
    ensures end.streams[i].config.id == w0.streams[i].config.id
    ensures Delivered(s, end, end.streams[i], FirstOf(s, w0, w0.streams[i]), b)
  {
    StartsUnconnected(s, w0);
    hide IsStart, Meet, Try, TryActions, IsSendable, Final, Mirrors, Suits, IsHistory, IsPartOf, Joined, EndOf, Given, Delivered, FirstOf;
    OpenedIsTry(p, c0, a, luck);
    OpeningIsReconnect(s, p, w0, c0, a, luck, starts);
    assert [] + Given(p, c, h) == Given(p, c, h);
    end, b := CollectDelivers(s, p, w0, TryActions(p, c0.sel, a, luck, starts), c, ms, h, js, i);
  }

  lemma {:induction false} StartsUnconnected(s: Site, w: World)
    requires IsStart(s, w)
    ensures !w.connected && !w.over && w.yielded == []
  {
  }
}
