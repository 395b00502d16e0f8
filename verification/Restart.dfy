/** Resuming in a new process: save the state, lose the process, load the state
    into a fresh client and go on. */
module Restart {
  import opened Text
  import opened Protocol
  import opened Streams
  import opened Selections
  import opened StateFile
  import opened Subscription
  import opened Delivery

  /** What is in the file when the client of world `w` saves its state. */
  function SavedFile(s: Site, w: World): string {
    Save(ConfigsOf(SettledAll(s.times, w.streams)))
  }

  /** The server as `w` left it, met by a new client with these streams. */
  function NewProcess(w: World, streams: seq<Tracked>): World {
    World(w.logs, map[], [], [], false, false, streams, [], [], [], map[])
  }

  /** A fresh client set up with `cs`, its saved state loaded before or after. */
  ghost predicate IsSetUp(ts: seq<Tracked>, cs: seq<Config>, saved: Saved) {
    exists ops :: Setups(ops) == [AddList(cs)] && Loads(ops) == [saved] && ts == AllCalled(NothingSelected, ops).streams
  }

  lemma {:induction false} SetUpIsOverlay(ts: seq<Tracked>, cs: seq<Config>, saved: Saved)
    requires IsSetUp(ts, cs, saved)
    ensures ts == OverlayAll(saved, FreshAll(cs))
  {
    var ops :| Setups(ops) == [AddList(cs)] && Loads(ops) == [saved] && ts == AllCalled(NothingSelected, ops).streams;
    RecoverCommutes(ops);
    assert [AddList(cs)][1..] == [] && [saved][1..] == [];
    assert Merged(map[], [saved]) == map[] + saved == saved;
    OverlayNothing(FreshAll(cs));
    assert AllCalled(NothingSelected, [AddList(cs)]) == AllCalled(Called(NothingSelected, AddList(cs)), []);
    assert [] + FreshAll(cs) == FreshAll(cs);
  }

  // ------------------------------------------------------------ runs only grow

  lemma {:induction false} LogsAndYieldsGrow(s: Site, w: World, actions: seq<Action>, x: string)
    requires Final(s, w, actions).Some?
    ensures LogOf(w, x) <= LogOf(Final(s, w, actions).value, x)
    ensures w.yielded <= Final(s, w, actions).value.yielded
    decreases |actions|
  {
    if actions != [] {
      OneActionGrows(s, w, actions[0], x);
      hide Enabled, Do;
      LogsAndYieldsGrow(s, Do(s, w, actions[0]), actions[1..], x);
    }
  }

  lemma {:induction false} OneActionGrows(s: Site, w: World, a: Action, x: string)
    requires Enabled(s, w, a)
    ensures LogOf(w, x) <= LogOf(Do(s, w, a), x) && w.yielded <= Do(s, w, a).yielded
  {
    hide Wire, IsWellFormed, NextItem;
  }

  lemma {:induction false} FramesOfGrows(x: string, a: seq<Frame>, b: seq<Frame>)
    requires a <= b
    ensures FramesOf(x, a) <= FramesOf(x, b)
    decreases |b|
  {
    if |a| < |b| {
      assert a <= b[..|b| - 1];
      FramesOfGrows(x, a, b[..|b| - 1]);
    } else {
      assert a == b;
    }
  }

  lemma {:induction false} FinalJoin(s: Site, w: World, a: seq<Action>, b: seq<Action>)
    requires Final(s, w, a).Some?
    ensures Final(s, w, a + b) == Final(s, Final(s, w, a).value, b)
    decreases |a|
  {
    hide Enabled, Do;
    if a == [] {
      assert a + b == b;
    } else {
      assert (a + b)[0] == a[0] && (a + b)[1..] == a[1..] + b;
      FinalJoin(s, Do(s, w, a[0]), a[1..], b);
    }
  }

  // ----------------------------------------------------------- the loaded state

  /** Entries are never numbered -1, which the state file keeps for "unset". */
  lemma {:induction false} EntryNumber(s: Site, x: string, m: Message)
    requires IsEntry(s, x, m)
    ensures SeqOf(s, m) >= 0
  {
  }

  /** A log has reached the number of each of its entries. */
  lemma {:induction false} EntryIsHeld(s: Site, x: string, log: seq<Message>, k: nat)
    requires IsLog(s, x, log) && k < |log|
    ensures StillHeld(s, log, Some(SeqOf(s, log[k]))) && SeqOf(s, log[k]) >= 0
  {
    EntryNumber(s, x, log[k]);
    hide IsEntry, SeqOf;
    if k < |log| - 1 {
      assert SeqOf(s, log[k]) < SeqOf(s, log[|log| - 1]);
    }
  }

  lemma {:induction false} OnlyIds(s: Site, ts: seq<Tracked>, cs: seq<Config>)
    requires AreExact(s, ts) && |cs| == |ts| && forall j :: 0 <= j < |cs| ==> cs[j].id == ts[j].config.id
    ensures forall j, k :: 0 <= j < k < |cs| ==> cs[j].id != cs[k].id
  {
    hide IsSpeakable, IsPattern;
  }

  lemma {:induction false} SettledNumbers(s: Site, ts: seq<Tracked>)
    ensures |ConfigsOf(SettledAll(s.times, ts))| == |ts|
    ensures forall j :: 0 <= j < |ts| ==>
      ConfigsOf(SettledAll(s.times, ts))[j].id == ts[j].config.id && ConfigsOf(SettledAll(s.times, ts))[j].seqnum == ts[j].config.seqnum
  {
  }

  /** A re-added stream starts with the saved number, whatever its own is. */
  lemma {:induction false} LoadedStream(s: Site, w: World, c: Config, k: nat)
    requires AreExact(s, w.streams) && k < |w.streams| && AllSavable(ConfigsOf(SettledAll(s.times, w.streams)))
    requires c.id == w.streams[k].config.id && w.streams[k].config.seqnum != Some(-1)
    ensures Overlay(Load(SavedFile(s, w)), Tracked(c, None)).config.seqnum == w.streams[k].config.seqnum
  {
    hide AreExact, AllSavable, Load, LastEntries, Save;
    var cs := ConfigsOf(SettledAll(s.times, w.streams));
    StateRoundTrip(cs);
    SettledNumbers(s, w.streams);
    OnlyIds(s, w.streams, cs);
    EntryOf(cs, map[], k);
  }

  lemma {:induction false} RestartIsStart(s: Site, w: World, streams: seq<Tracked>)
    requires LogsInv(s, w) && AreExact(s, streams)
    ensures IsStart(s, NewProcess(w, streams))
  {
    hide AreExact, LogsInv;
    assert LogsInv(s, NewProcess(w, streams)) by { SameLogs(s, w, NewProcess(w, streams)); }
  }

  lemma {:induction false} LogIsLog(s: Site, w: World, x: string)
    requires LogsInv(s, w)
    ensures IsLog(s, x, LogOf(w, x))
  {
    EmptyLog(s, x);
  }

  // -------------------------------------------------------------- the theorem

  /** Where a packet sits in a log determines its index. */
  lemma {:induction false} SameBase(s: Site, x: string, log: seq<Message>, b: nat, c: nat)
    requires IsLog(s, x, log) && b < |log| && c < |log| && Seen(s, log[b]) == Seen(s, log[c])
    ensures b == c
  {
    hide IsEntry, Seen;
    assert SeqOf(s, log[b]) == SeqOf(s, log[c]);
  }

  lemma {:induction false} PieceLonger(s: Site, log: seq<Message>, longer: seq<Message>, lo: nat, fs: seq<Frame>)
    requires IsPiece(s, log, lo, fs) && log <= longer
    ensures IsPiece(s, longer, lo, fs)
  {
    hide Seen;
    assert longer[lo..lo + |fs|] == log[lo..lo + |fs|];
  }

  lemma {:induction false} PieceAt(s: Site, log: seq<Message>, lo: nat, fs: seq<Frame>, k: nat)
    requires IsPiece(s, log, lo, fs) && k < |fs|
    ensures fs[k] == Seen(s, log[lo + k])
  {
    hide Seen;
    assert log[lo..lo + |fs|][k] == log[lo + k];
  }

  lemma {:induction false} EmptyPiece(s: Site, log: seq<Message>, lo: nat)
    requires lo <= |log|
    ensures IsPiece(s, log, lo, [])
  {
    assert log[lo..lo] == [];
  }

  /** A longer log has the same entries up to a number it had reached. */
  lemma {:induction false} AfterLonger(s: Site, x: string, log: seq<Message>, longer: seq<Message>, n: int)
    requires IsLog(s, x, longer) && log <= longer && StillHeld(s, log, Some(n))
    ensures After(s, longer, n) == After(s, log, n)
    decreases |longer|
  {
    hide IsEntry, SeqOf;
    if |log| < |longer| {
      var m := |longer| - 1;
      assert longer == longer[..m] + [longer[m]] && log <= longer[..m];
      assert SeqOf(s, longer[|log| - 1]) < SeqOf(s, longer[m]);
      AfterAppend(s, longer[..m], longer[m], n);
      AfterLonger(s, x, log, longer[..m], n);
    } else {
      assert log == longer;
    }
  }

  lemma {:induction false} HeldLonger(s: Site, x: string, log: seq<Message>, longer: seq<Message>, n: Option<int>)
    requires log <= longer && IsLog(s, x, longer) && StillHeld(s, log, n)
    ensures StillHeld(s, longer, n)
  {
    hide IsEntry, SeqOf;
    if n.Some? && |log| < |longer| {
      assert SeqOf(s, longer[|log| - 1]) < SeqOf(s, longer[|longer| - 1]);
    }
  }

  /** What a save is worth for a stream: it holds a number, not -1, which the file
      cannot carry. It either handed out a packet since its process began, or it
      began with a number its log had reached. An UNSET entry promises nothing. */
  predicate IsResumable(s: Site, w: World, saved: World, i: nat)
    requires i < |w.streams| == |saved.streams|
  {
    && saved.streams[i].config.seqnum.Some? && saved.streams[i].config.seqnum != Some(-1)
    && (FramesOf(w.streams[i].config.id, saved.yielded) == [] ==> FirstOf(s, w, w.streams[i]).held)
  }

  /** State is saved when `before` is done, the process dies after `later` (which
      the save itself opens), and a new one is set up with the same station at
      `j`, its streams added with any arguments, and loads the file. */
  ghost predicate IsRestart(
    s: Site, w: World, before: seq<Action>, later: seq<Action>, streams: seq<Tracked>, cs: seq<Config>, i: nat, j: nat)
  {
    && IsStart(s, w) && Final(s, w, before).Some? && Final(s, w, before + later).Some? && i < |w.streams|
    && later != [] && later[0] == SaveState
    && (var saved := Final(s, w, before).value;
        && AllSavable(ConfigsOf(SettledAll(s.times, saved.streams)))
        && IsSetUp(streams, cs, Load(SavedFile(s, saved))) && AreExact(s, streams)
        && |saved.streams| == |w.streams| && IsResumable(s, w, saved, i))
    && j < |cs| == |streams| && cs[j].id == w.streams[i].config.id
  }

  lemma {:induction false} Overlap(s: Site, log: seq<Message>, b: nat, n: nat, first: seq<Frame>, second: seq<Frame>)
    requires IsPiece(s, log, b, first) && IsPiece(s, log, b + n, second)
    ensures forall k :: 0 <= k < |second| && n + k < |first| ==> second[k] == first[n + k]
  {
    hide IsPiece, Seen;
    forall k | 0 <= k < |second| && n + k < |first| ensures second[k] == first[n + k] {
      PieceAt(s, log, b, first, n + k);
      PieceAt(s, log, b + n, second, k);
    }
  }

  lemma {:induction false} SameLogOf(w: World, w2: World, x: string)
    requires w.logs == w2.logs
    ensures LogOf(w, x) == LogOf(w2, x)
  {
  }

  lemma {:induction false} EndIsLog(s: Site, w: World, actions: seq<Action>, x: string)
    requires IsStart(s, w) && Final(s, w, actions).Some?
    ensures IsLog(s, x, LogOf(Final(s, w, actions).value, x))
  {
    hide Final, IsLog, AreExact, LaneInv;
    StartInv(s, w);
    RunKeeps(s, w, actions, Firsts(s, w, w.streams));
    LogIsLog(s, Final(s, w, actions).value, x);
  }

  // ------------------------------------------------------------- one process

  /** A run of one process, from log index `b` on: exactly its piece of the log. A
      stream that started with a number its log had reached was handed what follows
      that number, if anything. */
  lemma {:induction false} OneRun(s: Site, w: World, actions: seq<Action>, i: nat) returns (b: nat)
    requires IsStart(s, w) && Final(s, w, actions).Some? && i < |w.streams|
    ensures
      var x, end, first := w.streams[i].config.id, Final(s, w, actions).value, FirstOf(s, w, w.streams[i]);
      && IsPiece(s, LogOf(end, x), b, FramesOf(x, end.yielded))
      && (first.Known().Some? ==> b == After(s, LogOf(end, x), first.number.value))
      && |end.streams| == |w.streams|
      && end.streams[i].config.seqnum
           == if FramesOf(x, end.yielded) == [] then first.number else Some(SeqOf(s, LogOf(end, x)[b + |FramesOf(x, end.yielded)| - 1]))
  {
    hide IsStart, Final, SeqOf, After, FramesOf, LogOf, FirstOf, Seen;
    var c := ContiguousDelivery(s, w, actions, i);
    var x, end, first := w.streams[i].config.id, Final(s, w, actions).value, FirstOf(s, w, w.streams[i]);
    b := c;
    if FramesOf(x, end.yielded) == [] {
      b := if first.Known().Some? then After(s, LogOf(end, x), first.number.value) else 0;
      EmptyPiece(s, LogOf(end, x), b);
    }
  }

  lemma {:induction false} SavedThenDead(s: Site, w: World, before: seq<Action>, later: seq<Action>, x: string)
    requires IsStart(s, w) && Final(s, w, before).Some? && Final(s, w, before + later).Some?
    ensures
      var saved, dead := Final(s, w, before).value, Final(s, w, before + later).value;
      && LogOf(w, x) <= LogOf(saved, x) <= LogOf(dead, x) && FramesOf(x, saved.yielded) <= FramesOf(x, dead.yielded)
      && IsLog(s, x, LogOf(saved, x)) && IsLog(s, x, LogOf(dead, x))
  {
    hide IsStart, Final, FramesOf, LogOf, IsLog;
    var saved, dead := Final(s, w, before).value, Final(s, w, before + later).value;
    EndIsLog(s, w, before + later, x);
    EndIsLog(s, w, before, x);
    FinalJoin(s, w, before, later);
    LogsAndYieldsGrow(s, w, before, x);
    LogsAndYieldsGrow(s, saved, later, x);
    FramesOfGrows(x, saved.yielded, dead.yielded);
  }

  /** A process up to its save and on to its death: both are pieces from one index
      on, and the saved number marks where the first of them ends. */
  lemma {:induction false} OneLife(s: Site, w: World, before: seq<Action>, later: seq<Action>, i: nat) returns (b: nat)
    requires IsStart(s, w) && Final(s, w, before).Some? && Final(s, w, before + later).Some?
    requires i < |w.streams| == |Final(s, w, before).value.streams| && IsResumable(s, w, Final(s, w, before).value, i)
    ensures
      var x, first := w.streams[i].config.id, FirstOf(s, w, w.streams[i]);
      var saved, dead := Final(s, w, before).value, Final(s, w, before + later).value;
      var n, number, log := |FramesOf(x, saved.yielded)|, saved.streams[i].config.seqnum, LogOf(dead, x);
      && n <= |FramesOf(x, dead.yielded)| && IsPiece(s, log, b, FramesOf(x, dead.yielded))
      && StillHeld(s, log, number) && After(s, log, number.value) == b + n
      && (first.Known().Some? ==> b == After(s, log, first.number.value))
  {
    hide IsStart, Final, SeqOf, After, FramesOf, LogOf, Seen, IsLog, IsPiece;
    var x, first := w.streams[i].config.id, FirstOf(s, w, w.streams[i]);
    var saved, dead := Final(s, w, before).value, Final(s, w, before + later).value;
    SavedThenDead(s, w, before, later, x);
    var a := OneRun(s, w, before, i);
    b := OneRun(s, w, before + later, i);
    var got, log := FramesOf(x, saved.yielded), LogOf(dead, x);
    if got == [] {
      HeldLonger(s, x, LogOf(w, x), log, first.number);
    } else {
      SameStart(s, x, LogOf(saved, x), log, a, b, got, FramesOf(x, dead.yielded));
      EntryIsHeld(s, x, log, b + |got| - 1);
      AfterEntry(s, x, log, b + |got| - 1);
    }
  }

  /** Two pieces of one log that begin alike begin at one index. */
  lemma {:induction false} SameStart(
    s: Site, x: string, log: seq<Message>, longer: seq<Message>, a: nat, b: nat, fs: seq<Frame>, more: seq<Frame>)
    requires IsLog(s, x, longer) && log <= longer && fs != [] && fs <= more
    requires IsPiece(s, log, a, fs) && IsPiece(s, longer, b, more)
    ensures a == b && a + |fs| <= |log| && log[a + |fs| - 1] == longer[b + |fs| - 1]
  {
    hide Seen, IsLog;
    PieceAt(s, log, a, fs, 0);
    PieceAt(s, longer, b, more, 0);
    assert fs[0] == more[0] && log[a] == longer[a];
    SameBase(s, x, longer, a, b);
  }

  /** The new process starts properly, with the saved number, which its log has reached. */
  lemma {:induction false} NextLife(
    s: Site, w: World, before: seq<Action>, later: seq<Action>, streams: seq<Tracked>, cs: seq<Config>, i: nat, j: nat) returns (b: nat)
    requires IsRestart(s, w, before, later, streams, cs, i, j)
    ensures
      var x, first := w.streams[i].config.id, FirstOf(s, w, w.streams[i]);
      var saved, dead := Final(s, w, before).value, Final(s, w, before + later).value;
      var n, number, log := |FramesOf(x, saved.yielded)|, saved.streams[i].config.seqnum, LogOf(dead, x);
      && n <= |FramesOf(x, dead.yielded)| && IsPiece(s, log, b, FramesOf(x, dead.yielded))
      && StillHeld(s, log, number) && number.Some? && After(s, log, number.value) == b + n
      && (first.Known().Some? ==> b == After(s, log, first.number.value))
      && IsStart(s, NewProcess(dead, streams)) && streams[j].config.id == x && streams[j].config.seqnum == number
      && FirstOf(s, NewProcess(dead, streams), streams[j]) == First(number, true)
  {
    hide Inv, IsStart, AreExact, Final, SeqOf, Seen, IsLog, AllSavable, After, IsSetUp, Load, SavedFile, LogsInv, SeenAll, LogOf, FramesOf, IsPiece, StillHeld;
    var saved, dead := Final(s, w, before).value, Final(s, w, before + later).value;
    StartInv(s, w);
    RunKeeps(s, w, before, Firsts(s, w, w.streams));
    StreamsStayExact(s, saved, Firsts(s, w, w.streams));
    SameIds(s, w, before, i);
    SetUpIsOverlay(streams, cs, Load(SavedFile(s, saved)));
    EndLogs(s, w, before + later);
    RestartIsStart(s, dead, streams);
    LoadedStream(s, saved, cs[j], i);
    SameLogOf(dead, NewProcess(dead, streams), w.streams[i].config.id);
    b := OneLife(s, w, before, later, i);
  }

  // -------------------------------------------------------------- the theorems

  /** Two processes hand out one contiguous piece of a station's log, from index
      `b` on: the second goes on right behind what the first had handed out when it
      saved, so nothing is lost, and what it repeats is exactly what the first
      handed out after the save. */
  predicate Covers(s: Site, x: string, saved: World, dead: World, end: World, b: nat) {
    var n := |FramesOf(x, saved.yielded)|;
    var first, second := FramesOf(x, dead.yielded), FramesOf(x, end.yielded);
    && n <= |first|
    && IsPiece(s, LogOf(end, x), b, first) && IsPiece(s, LogOf(end, x), b + n, second)
    && forall k :: 0 <= k < |second| && n + k < |first| ==> second[k] == first[n + k]
  }

  /** The new process resumes against the server the old one left. */
  lemma {:induction false} RestartCovers(
    s: Site, w: World, before: seq<Action>, later: seq<Action>, streams: seq<Tracked>, cs: seq<Config>,
    i: nat, j: nat, resumed: seq<Action>) returns (b: nat)
    requires IsRestart(s, w, before, later, streams, cs, i, j)
    requires Final(s, NewProcess(Final(s, w, before + later).value, streams), resumed).Some?
    ensures
      var dead := Final(s, w, before + later).value;
      Covers(s, w.streams[i].config.id, Final(s, w, before).value, dead,
             Final(s, NewProcess(dead, streams), resumed).value, b)
  {
    hide IsStart, Final, SeqOf, Seen, IsPiece, FramesOf, LogOf, AreExact, IsSetUp, AllSavable, Load, SavedFile, IsLog, After, StillHeld, FirstOf;
    var x := w.streams[i].config.id;
    b := NextLife(s, w, before, later, streams, cs, i, j);
    var saved, dead := Final(s, w, before).value, Final(s, w, before + later).value;
    var w2 := NewProcess(dead, streams);
    var end := Final(s, w2, resumed).value;
    var c := OneRun(s, w2, resumed, j);
    SameLogOf(dead, w2, x);
    LogsAndYieldsGrow(s, w2, resumed, x);
    EndIsLog(s, w2, resumed, x);
    AfterLonger(s, x, LogOf(dead, x), LogOf(end, x), saved.streams[i].config.seqnum.value);
    PieceLonger(s, LogOf(dead, x), LogOf(end, x), b, FramesOf(x, dead.yielded));
    Overlap(s, LogOf(end, x), b, |FramesOf(x, saved.yielded)|, FramesOf(x, dead.yielded), FramesOf(x, end.yielded));
  }

  // ---------------------------------------------------- any number of restarts

  /** A restart: what the process does before its save and from it on, and what the
      next one is set up with, the station at `index`. */
  datatype Rebirth = Rebirth(before: seq<Action>, later: seq<Action>, streams: seq<Tracked>, cs: seq<Config>, index: nat)

  function Reborn(s: Site, w: World, r: Rebirth): World {
    var dead := Final(s, w, r.before + r.later);
    if dead.Some? then NewProcess(dead.value, r.streams) else w
  }

  ghost predicate AreRestarts(s: Site, w: World, i: nat, rs: seq<Rebirth>)
    decreases |rs|
  {
    rs == []
    || (IsRestart(s, w, rs[0].before, rs[0].later, rs[0].streams, rs[0].cs, i, rs[0].index)
        && AreRestarts(s, Reborn(s, w, rs[0]), rs[0].index, rs[1..]))
  }

  function LastBorn(s: Site, w: World, rs: seq<Rebirth>): World
    decreases |rs|
  {
    if rs == [] then w else LastBorn(s, Reborn(s, w, rs[0]), rs[1..])
  }

  /** What one process handed out for a station, and how much of it before its save. */
  datatype Share = Share(got: seq<Frame>, kept: nat)

  function SharesOf(s: Site, w: World, x: string, rs: seq<Rebirth>, last: seq<Action>): seq<Share>
    decreases |rs|
  {
    if rs == [] then (if Final(s, w, last).Some? then [Share(FramesOf(x, Final(s, w, last).value.yielded), 0)] else [])
    else
      var saved, dead := Final(s, w, rs[0].before), Final(s, w, rs[0].before + rs[0].later);
      (if saved.Some? && dead.Some? then [Share(FramesOf(x, dead.value.yielded), |FramesOf(x, saved.value.yielded)|)] else [])
      + SharesOf(s, Reborn(s, w, rs[0]), x, rs[1..], last)
  }

  /** Each share is a piece of the log, and begins right behind what the one before
      had handed out when it saved. */
  predicate AreLinked(s: Site, log: seq<Message>, shares: seq<Share>, b: nat)
    decreases |shares|
  {
    shares == []
    || (IsPiece(s, log, b, shares[0].got) && shares[0].kept <= |shares[0].got| && AreLinked(s, log, shares[1..], b + shares[0].kept))
  }

  /** Where the shares reach to. */
  function Reach(shares: seq<Share>, b: nat): nat
    decreases |shares|
  {
    if shares == [] then b
    else
      var later := Reach(shares[1..], b + shares[0].kept);
      if later > b + |shares[0].got| then later else b + |shares[0].got|
  }

  /** Linked shares miss nothing: every entry from `b` to where they reach was
      handed out by some process. */
  lemma {:induction false} NothingMissing(s: Site, log: seq<Message>, shares: seq<Share>, b: nat, k: nat) returns (g: nat, d: nat)
    requires AreLinked(s, log, shares, b) && b <= k < Reach(shares, b)
    ensures k < |log| && g < |shares| && d < |shares[g].got| && shares[g].got[d] == Seen(s, log[k])
    decreases |shares|
  {
    hide Seen, IsPiece;
    if k < b + |shares[0].got| {
      g, d := 0, k - b;
      PieceAt(s, log, b, shares[0].got, d);
      PieceInside(s, log, b, shares[0].got);
    } else {
      g, d := NothingMissing(s, log, shares[1..], b + shares[0].kept, k);
      g := g + 1;
    }
  }

  lemma {:induction false} PieceInside(s: Site, log: seq<Message>, lo: nat, fs: seq<Frame>)
    requires IsPiece(s, log, lo, fs)
    ensures lo + |fs| <= |log|
  {
  }

  /** And repeat only what was unsaved: each process repeats of the one before
      exactly what that one handed out after its save. */
  lemma {:induction false} OnlyUnsavedRepeats(s: Site, log: seq<Message>, shares: seq<Share>, b: nat, g: nat)
    requires AreLinked(s, log, shares, b) && g + 1 < |shares|
    ensures
      var n, first, second := shares[g].kept, shares[g].got, shares[g + 1].got;
      n <= |first| && forall k :: 0 <= k < |second| && n + k < |first| ==> second[k] == first[n + k]
    decreases g
  {
    hide Seen, IsPiece;
    if g == 0 {
      assert shares[1..][0] == shares[1];
      Overlap(s, log, b, shares[0].kept, shares[0].got, shares[1].got);
    } else {
      OnlyUnsavedRepeats(s, log, shares[1..], b + shares[0].kept, g - 1);
    }
  }

  lemma {:induction false} GrowsOver(s: Site, w: World, i: nat, rs: seq<Rebirth>, last: seq<Action>, x: string)
    requires AreRestarts(s, w, i, rs) && Final(s, LastBorn(s, w, rs), last).Some?
    ensures LogOf(w, x) <= LogOf(Final(s, LastBorn(s, w, rs), last).value, x)
    decreases |rs|
  {
    hide Final, LogOf, IsStart, AreExact, IsSetUp, AllSavable, Load, SavedFile, IsResumable;
    if rs == [] {
      LogsAndYieldsGrow(s, w, last, x);
    } else {
      LogsAndYieldsGrow(s, w, rs[0].before + rs[0].later, x);
      SameLogOf(Final(s, w, rs[0].before + rs[0].later).value, Reborn(s, w, rs[0]), x);
      GrowsOver(s, Reborn(s, w, rs[0]), rs[0].index, rs[1..], last, x);
    }
  }

  lemma {:induction false} LongerShares(s: Site, log: seq<Message>, share: Share, shares: seq<Share>, b: nat)
    requires IsPiece(s, log, b, share.got) && share.kept <= |share.got| && AreLinked(s, log, shares, b + share.kept)
    ensures AreLinked(s, log, [share] + shares, b)
  {
    hide Seen, IsPiece;
    assert ([share] + shares)[1..] == shares;
  }

  /** All the processes together: their shares are linked pieces of the log from `b`
      on, behind the number the first of them held, if its log had reached it. */
  predicate IsHandedOn(s: Site, w: World, i: nat, log: seq<Message>, shares: seq<Share>, b: nat)
    requires i < |w.streams|
  {
    && AreLinked(s, log, shares, b) && IsLog(s, w.streams[i].config.id, log)
    && (FirstOf(s, w, w.streams[i]).Known().Some? ==> b == After(s, log, FirstOf(s, w, w.streams[i]).number.value))
  }

  /** Over any number of restarts, each after any run, save and loss of the process:
      the shares of all the processes are linked pieces of the station's log. */
  lemma {:induction false} RestartsCover(s: Site, w: World, i: nat, rs: seq<Rebirth>, last: seq<Action>) returns (b: nat)
    requires IsStart(s, w) && i < |w.streams| && AreRestarts(s, w, i, rs) && Final(s, LastBorn(s, w, rs), last).Some?
    ensures IsHandedOn(s, w, i, LogOf(Final(s, LastBorn(s, w, rs), last).value, w.streams[i].config.id),
                       SharesOf(s, w, w.streams[i].config.id, rs, last), b)
    decreases |rs|
  {
    var x := w.streams[i].config.id;
    hide IsStart, Final, SeqOf, Seen, IsPiece, FramesOf, LogOf, IsLog, After, StillHeld, IsRestart, FirstOf;
    if rs == [] {
      b := OneRun(s, w, last, i);
      EndIsLog(s, w, last, x);
      LongerShares(s, LogOf(Final(s, w, last).value, x), Share(FramesOf(x, Final(s, w, last).value.yielded), 0), [], b);
      assert [Share(FramesOf(x, Final(s, w, last).value.yielded), 0)] + [] == SharesOf(s, w, x, rs, last);
    } else {
      b := OneMoreLife(s, w, i, rs, last);
    }
  }

  lemma {:induction false} OneMoreLife(s: Site, w: World, i: nat, rs: seq<Rebirth>, last: seq<Action>) returns (b: nat)
    requires IsStart(s, w) && i < |w.streams| && rs != [] && AreRestarts(s, w, i, rs) && Final(s, LastBorn(s, w, rs), last).Some?
    ensures IsHandedOn(s, w, i, LogOf(Final(s, LastBorn(s, w, rs), last).value, w.streams[i].config.id),
                       SharesOf(s, w, w.streams[i].config.id, rs, last), b)
    decreases |rs|, 0
  {
    hide IsStart, Final, SeqOf, Seen, IsPiece, FramesOf, LogOf, IsLog, After, IsRestart, AreLinked, SharesOf, LastBorn, AreRestarts, StillHeld, FirstOf;
    var x, r := w.streams[i].config.id, rs[0];
    FirstRestart(s, w, i, rs, x, last);
    var saved, dead := Final(s, w, r.before).value, Final(s, w, r.before + r.later).value;
    var w2 := NewProcess(dead, r.streams);
    var log := LogOf(Final(s, LastBorn(s, w, rs), last).value, x);
    b := NextLife(s, w, r.before, r.later, r.streams, r.cs, i, r.index);
    var c := RestartsCover(s, w2, r.index, rs[1..], last);
    GrowsOver(s, w2, r.index, rs[1..], last, x);
    LogsAndYieldsGrow(s, w, r.before + r.later, x);
    EndIsLog(s, w, r.before + r.later, x);
    SameLogOf(dead, w2, x);
    AfterLonger(s, x, LogOf(dead, x), log, saved.streams[i].config.seqnum.value);
    PieceLonger(s, LogOf(dead, x), log, b, FramesOf(x, dead.yielded));
    LongerShares(s, log, Share(FramesOf(x, dead.yielded), |FramesOf(x, saved.yielded)|), SharesOf(s, w2, x, rs[1..], last), b);
    KnownStays(s, w, i, LogOf(dead, x), log);
  }

  /** Where a stream starts in its log does not change as the log grows. */
  lemma {:induction false} KnownStays(s: Site, w: World, i: nat, log: seq<Message>, longer: seq<Message>)
    requires i < |w.streams| && LogOf(w, w.streams[i].config.id) <= log <= longer
    requires IsLog(s, w.streams[i].config.id, log) && IsLog(s, w.streams[i].config.id, longer)
    ensures
      var first := FirstOf(s, w, w.streams[i]);
      first.Known().Some? ==> After(s, log, first.number.value) == After(s, longer, first.number.value)
  {
    hide IsLog, After, SeqOf, LogOf;
    var x, first := w.streams[i].config.id, FirstOf(s, w, w.streams[i]);
    if first.Known().Some? {
      AfterLonger(s, x, LogOf(w, x), longer, first.number.value);
      AfterLonger(s, x, LogOf(w, x), log, first.number.value);
    }
  }

  /** The first of several restarts, and what is left to come. */
  lemma {:induction false} FirstRestart(s: Site, w: World, i: nat, rs: seq<Rebirth>, x: string, last: seq<Action>)
    requires rs != [] && AreRestarts(s, w, i, rs)
    ensures
      var r, saved, dead := rs[0], Final(s, w, rs[0].before), Final(s, w, rs[0].before + rs[0].later);
      && IsRestart(s, w, r.before, r.later, r.streams, r.cs, i, r.index) && saved.Some? && dead.Some?
      && r.index < |r.streams| && |saved.value.streams| == |w.streams|
      && (var w2 := NewProcess(dead.value, r.streams);
          && LastBorn(s, w, rs) == LastBorn(s, w2, rs[1..]) && AreRestarts(s, w2, r.index, rs[1..])
          && SharesOf(s, w, x, rs, last)
               == [Share(FramesOf(x, dead.value.yielded), |FramesOf(x, saved.value.yielded)|)] + SharesOf(s, w2, x, rs[1..], last))
  {
    RestartRuns(s, w, i, rs[0]);
    hide IsRestart, Final, FramesOf;
  }

  lemma {:induction false} RestartRuns(s: Site, w: World, i: nat, r: Rebirth)
    requires IsRestart(s, w, r.before, r.later, r.streams, r.cs, i, r.index)
    ensures Final(s, w, r.before).Some? && Final(s, w, r.before + r.later).Some?
    ensures Reborn(s, w, r) == NewProcess(Final(s, w, r.before + r.later).value, r.streams)
    ensures r.index < |r.streams| && |Final(s, w, r.before).value.streams| == |w.streams|
  {
    hide Final, IsStart, AreExact, IsSetUp, AllSavable, Load, SavedFile, IsResumable;
  }

  lemma {:induction false} StreamsStayExact(s: Site, w: World, firsts: seq<First>)
    requires Inv(s, w, firsts)
    ensures AreExact(s, w.streams)
  {
  }

  lemma {:induction false} EndLogs(s: Site, w: World, actions: seq<Action>)
    requires IsStart(s, w) && Final(s, w, actions).Some?
    ensures LogsInv(s, Final(s, w, actions).value)
  {
    hide Final, LogsInv, AreExact, LaneInv;
    StartInv(s, w);
    RunKeeps(s, w, actions, Firsts(s, w, w.streams));
  }
}
