/** Stream selection as objects: the stream list the caller builds up, the state
    recovered for it, and the per-station match cache over it. */
module Selections {
  import opened Text
  import opened Protocol
  import opened Streams
  import opened StateFile

  /** What pymseed says about a packet's start time; None when it is no record. */
  type StartTimes = seq<byte> -> Option<string>

  /** How a pattern with wildcards is matched against a station ID. */
  type Glob = (string, string) -> bool

  predicate IsPattern(pattern: string) {
    '*' in pattern || '?' in pattern || '[' in pattern
  }

  predicate Matches(glob: Glob, pattern: string, id: string) {
    if IsPattern(pattern) then glob(pattern, id) else id == pattern
  }

  // -------------------------------------------------------------- as values

  /** A stream's stored fields and the packet whose start time is still unread. */
  datatype Tracked = Tracked(config: Config, pending: Option<seq<byte>>)

  function Resolved(times: StartTimes, t: Tracked): Config {
    if t.pending.Some? && times(t.pending.value).Some?
    then t.config.(timestamp := times(t.pending.value)) else t.config
  }

  /** A stream once the start time of its last packet has been read. */
  function Settled(times: StartTimes, t: Tracked): Tracked {
    Tracked(Resolved(times, t), None)
  }

  function SettledAll(times: StartTimes, ts: seq<Tracked>): (r: seq<Tracked>)
    ensures |r| == |ts|
    ensures forall i :: 0 <= i < |ts| ==> r[i] == Settled(times, ts[i])
  {
    if ts == [] then [] else [Settled(times, ts[0])] + SettledAll(times, ts[1..])
  }

  /** What planning a negotiation does to a stream: 3.x resumption by number reads
      the start time of the last packet. */
  function Planned(times: StartTimes, needsTime: bool, t: Tracked): Tracked {
    if needsTime && t.config.seqnum.Some? then Settled(times, t) else t
  }

  function PlannedAll(times: StartTimes, needsTime: bool, ts: seq<Tracked>): (r: seq<Tracked>)
    ensures |r| == |ts|
    ensures forall i :: 0 <= i < |ts| ==> r[i] == Planned(times, needsTime, ts[i])
  {
    if ts == [] then [] else [Planned(times, needsTime, ts[0])] + PlannedAll(times, needsTime, ts[1..])
  }

  function Prepared(times: StartTimes, needsTime: bool, s: SelState): SelState {
    var ready := Called(s, EnsureDefault);
    ready.(streams := PlannedAll(times, needsTime, ready.streams))
  }

  function ConfigsOf(ts: seq<Tracked>): (cs: seq<Config>)
    ensures |cs| == |ts|
    ensures forall i :: 0 <= i < |ts| ==> cs[i] == ts[i].config
  {
    if ts == [] then [] else [ts[0].config] + ConfigsOf(ts[1..])
  }

  function Overlay(saved: Saved, t: Tracked): Tracked {
    if t.config.id in saved then
      t.(config := t.config.(seqnum := saved[t.config.id].0, timestamp := saved[t.config.id].1))
    else t
  }

  function OverlayAll(saved: Saved, ts: seq<Tracked>): (r: seq<Tracked>)
    ensures |r| == |ts|
    ensures forall i :: 0 <= i < |ts| ==> r[i] == Overlay(saved, ts[i])
  {
    if ts == [] then [] else [Overlay(saved, ts[0])] + OverlayAll(saved, ts[1..])
  }

  function Updated(glob: Glob, f: Frame, t: Tracked): Tracked {
    if f.seqnum.Some? && Matches(glob, t.config.id, f.station)
    then Tracked(t.config.(seqnum := f.seqnum), Some(f.payload)) else t
  }

  function UpdatedAll(glob: Glob, f: Frame, ts: seq<Tracked>): (r: seq<Tracked>)
    ensures |r| == |ts|
    ensures forall i :: 0 <= i < |ts| ==> r[i] == Updated(glob, f, ts[i])
  {
    if ts == [] then [] else [Updated(glob, f, ts[0])] + UpdatedAll(glob, f, ts[1..])
  }

  function FreshAll(cs: seq<Config>): (r: seq<Tracked>)
    ensures |r| == |cs|
    ensures forall i :: 0 <= i < |cs| ==> r[i] == Tracked(cs[i], None)
  {
    if cs == [] then [] else [Tracked(cs[0], None)] + FreshAll(cs[1..])
  }

  datatype SelState = SelState(streams: seq<Tracked>, recovered: Saved, multistation: bool, allStations: bool)

  const NothingSelected := SelState([], map[], false, false)
  const DefaultStream := Config("*", [], None, false, None)

  /** The public calls that shape the selection. AddList stands for add_stream,
      add_streamlist and add_streamlist_file alike. */
  datatype Op = AddList(cs: seq<Config>) | SetAll(c: Config) | Recover(saved: Saved) | EnsureDefault

  predicate Allowed(s: SelState, op: Op) {
    match op
    case AddList(_) => !s.allStations
    case SetAll(_) => !s.allStations && s.streams == []
    case _ => true
  }

  /** One call; a call that raises changes nothing. */
  function Called(s: SelState, op: Op): SelState {
    if !Allowed(s, op) then s
    else
      match op
      case AddList(cs) =>
        s.(streams := s.streams + OverlayAll(s.recovered, FreshAll(cs)), multistation := true)
      case SetAll(c) =>
        s.(streams := OverlayAll(s.recovered, FreshAll([c.(id := "*")])), multistation := false, allStations := true)
      case Recover(saved) =>
        s.(recovered := s.recovered + saved, streams := OverlayAll(s.recovered + saved, s.streams))
      case EnsureDefault =>
        if s.streams == [] then s.(streams := OverlayAll(s.recovered, FreshAll([DefaultStream]))) else s
  }

  lemma {:induction false} CalledAddList(s: SelState, cs: seq<Config>)
    ensures Called(s, AddList(cs)) == if s.allStations then s else
            SelState(s.streams + OverlayAll(s.recovered, FreshAll(cs)), s.recovered, true, s.allStations)
  {
  }

  lemma {:induction false} CalledRecover(s: SelState, saved: Saved)
    ensures Called(s, Recover(saved)) ==
            SelState(OverlayAll(s.recovered + saved, s.streams), s.recovered + saved, s.multistation, s.allStations)
  {
  }

  function AllCalled(s: SelState, ops: seq<Op>): SelState
    decreases |ops|
  {
    if ops == [] then s else AllCalled(Called(s, ops[0]), ops[1..])
  }

  /** The setup calls alone, and the loads alone merged in order. */
  function Setups(ops: seq<Op>): seq<Op> {
    if ops == [] then [] else (if ops[0].Recover? then [] else [ops[0]]) + Setups(ops[1..])
  }

  function Loads(ops: seq<Op>): seq<Saved> {
    if ops == [] then [] else (if ops[0].Recover? then [ops[0].saved] else []) + Loads(ops[1..])
  }

  function Merged(m: Saved, loads: seq<Saved>): Saved
    decreases |loads|
  {
    if loads == [] then m else Merged(m + loads[0], loads[1..])
  }

  lemma {:induction false} OverlayTwice(m: Saved, later: Saved, ts: seq<Tracked>)
    ensures OverlayAll(m + later, OverlayAll(m, ts)) == OverlayAll(m + later, ts)
  {
    assert forall i :: 0 <= i < |ts| ==> Overlay(m + later, Overlay(m, ts[i])) == Overlay(m + later, ts[i]);
  }

  lemma {:induction false} OverlayParts(m: Saved, a: seq<Tracked>, b: seq<Tracked>)
    ensures OverlayAll(m, a + b) == OverlayAll(m, a) + OverlayAll(m, b)
  {
  }

  lemma {:induction false} OverlayNothing(ts: seq<Tracked>)
    ensures OverlayAll(map[], ts) == ts
  {
  }

  /** One state is another with the recovered entries laid over its streams. */
  predicate IsOverlaid(s: SelState, bare: SelState) {
    && bare.recovered == map[] && s.streams == OverlayAll(s.recovered, bare.streams)
    && s.multistation == bare.multistation && s.allStations == bare.allStations
  }

  lemma {:induction false} CallOverlaid(s: SelState, bare: SelState, op: Op)
    requires IsOverlaid(s, bare)
    ensures IsOverlaid(Called(s, op), if op.Recover? then bare else Called(bare, op))
    ensures Called(s, op).recovered == if op.Recover? then s.recovered + op.saved else s.recovered
  {
    assert s.streams == [] <==> bare.streams == [];
    match op {
      case AddList(cs) =>
        OverlayNothing(FreshAll(cs));
        OverlayParts(s.recovered, bare.streams, FreshAll(cs));
      case SetAll(c) => OverlayNothing(FreshAll([c.(id := "*")]));
      case Recover(saved) => OverlayTwice(s.recovered, saved, bare.streams);
      case EnsureDefault => OverlayNothing(FreshAll([DefaultStream]));
    }
  }

  lemma {:induction false} CallsOverlaid(s: SelState, bare: SelState, ops: seq<Op>)
    requires IsOverlaid(s, bare)
    ensures IsOverlaid(AllCalled(s, ops), AllCalled(bare, Setups(ops)))
    ensures AllCalled(s, ops).recovered == Merged(s.recovered, Loads(ops))
    decreases |ops|
  {
    if ops != [] {
      hide Called, IsOverlaid;
      CallOverlaid(s, bare, ops[0]);
      var bare1 := if ops[0].Recover? then bare else Called(bare, ops[0]);
      CallsOverlaid(Called(s, ops[0]), bare1, ops[1..]);
      if ops[0].Recover? {
        assert [] + Setups(ops[1..]) == Setups(ops[1..]);
        assert ([ops[0].saved] + Loads(ops[1..]))[1..] == Loads(ops[1..]);
      } else {
        assert ([ops[0]] + Setups(ops[1..]))[1..] == Setups(ops[1..]);
        assert [] + Loads(ops[1..]) == Loads(ops[1..]);
      }
    }
  }

  /** However loads and setup calls interleave, each stream ends with the latest
      entry loaded for its ID, else with its own arguments. */
  lemma {:induction false} RecoverCommutes(ops: seq<Op>)
    ensures AllCalled(NothingSelected, ops).streams
         == OverlayAll(Merged(map[], Loads(ops)), AllCalled(NothingSelected, Setups(ops)).streams)
    ensures AllCalled(NothingSelected, ops).multistation == AllCalled(NothingSelected, Setups(ops)).multistation
  {
    OverlayNothing([]);
    CallsOverlaid(NothingSelected, NothingSelected, ops);
  }

  /** Whatever is called in whatever order: all-stations mode is one `*` stream in
      uni-station mode, and there is never more than one stream outside multi-station
      mode. */
  lemma {:induction false} ModesHold(ops: seq<Op>)
    ensures
      var s := AllCalled(NothingSelected, ops);
      && (s.allStations ==> |s.streams| == 1 && s.streams[0].config.id == "*" && !s.multistation)
      && (!s.multistation ==> |s.streams| <= 1)
  {
    ModesKept(NothingSelected, ops);
  }

  lemma {:induction false} ModesKept(s: SelState, ops: seq<Op>)
    requires s.allStations ==> |s.streams| == 1 && s.streams[0].config.id == "*" && !s.multistation
    requires !s.multistation ==> |s.streams| <= 1
    ensures
      var s1 := AllCalled(s, ops);
      && (s1.allStations ==> |s1.streams| == 1 && s1.streams[0].config.id == "*" && !s1.multistation)
      && (!s1.multistation ==> |s1.streams| <= 1)
    decreases |ops|
  {
    if ops != [] {
      ModesKept(Called(s, ops[0]), ops[1..]);
    }
  }

  /** With nothing loaded: streams come in the order and with the arguments given,
      all stations are one `*` stream with the arguments given, and nothing selected
      is every station from the next packet on. */
  lemma {:induction false} SetUpAsGiven(cs: seq<Config>, more: seq<Config>, c: Config)
    ensures AllCalled(NothingSelected, [AddList(cs), AddList(more)]).streams == FreshAll(cs + more)
    ensures AllCalled(NothingSelected, [SetAll(c)]).streams == [Tracked(Config("*", c.selectors, c.seqnum, c.allData, c.timestamp), None)]
    ensures AllCalled(NothingSelected, [EnsureDefault]).streams == [Tracked(Config("*", [], None, false, None), None)]
  {
    hide Called;
    var first := Called(NothingSelected, AddList(cs));
    assert [AddList(cs), AddList(more)][1..] == [AddList(more)] && [AddList(more)][1..] == [];
    assert AllCalled(first, [AddList(more)]) == Called(first, AddList(more));
    assert [SetAll(c)][1..] == [] && [EnsureDefault][1..] == [];
    AddedAsGiven(cs, more);
    OneAsGiven(c);
  }

  lemma {:induction false} AddedAsGiven(cs: seq<Config>, more: seq<Config>)
    ensures Called(Called(NothingSelected, AddList(cs)), AddList(more)).streams == FreshAll(cs + more)
  {
    hide OverlayAll, Called, FreshAll;
    OverlayNothing(FreshAll(cs));
    OverlayNothing(FreshAll(more));
    CalledAddList(NothingSelected, cs);
    var first := SelState(FreshAll(cs), map[], true, false);
    assert [] + FreshAll(cs) == FreshAll(cs);
    assert Called(NothingSelected, AddList(cs)) == first;
    CalledAddList(first, more);
    FreshTogether(cs, more);
  }

  lemma {:induction false} FreshTogether(cs: seq<Config>, more: seq<Config>)
    ensures FreshAll(cs) + FreshAll(more) == FreshAll(cs + more)
  {
    hide FreshAll;
  }

  lemma {:induction false} OneAsGiven(c: Config)
    ensures Called(NothingSelected, SetAll(c)).streams == [Tracked(Config("*", c.selectors, c.seqnum, c.allData, c.timestamp), None)]
    ensures Called(NothingSelected, EnsureDefault).streams == [Tracked(Config("*", [], None, false, None), None)]
  {
    OverlayNothing(FreshAll([c.(id := "*")]));
    OverlayNothing(FreshAll([DefaultStream]));
    hide OverlayAll;
    assert FreshAll([c.(id := "*")]) == [Tracked(c.(id := "*"), None)] && FreshAll([DefaultStream]) == [Tracked(DefaultStream, None)];
  }

  /** A pattern with a wildcard is matched as one; without, an ID matches itself. */
  lemma {:induction false} WildcardsMatch(glob: Glob, a: string, c: char, b: string, id: string)
    requires c in "*?["
    ensures Matches(glob, a + [c] + b, id) == glob(a + [c] + b, id)
  {
    assert (a + [c] + b)[|a|] == c;
  }

  /** Field by field: a stream whose ID was loaded holds the number and the timestamp
      of the last entry loaded for it, one whose ID was not its own; everything else
      is as it was set up. */
  lemma {:induction false} RecoveredFields(ops: seq<Op>, i: nat)
    requires i < |AllCalled(NothingSelected, ops).streams|
    ensures |AllCalled(NothingSelected, Setups(ops)).streams| == |AllCalled(NothingSelected, ops).streams|
    ensures
      var c, own := AllCalled(NothingSelected, ops).streams[i].config, AllCalled(NothingSelected, Setups(ops)).streams[i].config;
      var loaded := LastLoaded(Loads(ops), own.id);
      && c.id == own.id && c.selectors == own.selectors && c.allData == own.allData
      && (c.seqnum, c.timestamp) == if loaded.Some? then loaded.value else (own.seqnum, own.timestamp)
  {
    RecoverCommutes(ops);
    MergedIsLast(map[], Loads(ops), AllCalled(NothingSelected, Setups(ops)).streams[i].config.id);
    hide AllCalled, Merged, LastLoaded;
  }

  /** The entry of the last load that has one for the ID. */
  function LastLoaded(loads: seq<Saved>, id: string): Option<Entry> {
    if loads == [] then None
    else if id in loads[|loads| - 1] then Some(loads[|loads| - 1][id])
    else LastLoaded(loads[..|loads| - 1], id)
  }

  lemma {:induction false} MergedSnoc(m: Saved, loads: seq<Saved>, last: Saved)
    ensures Merged(m, loads + [last]) == Merged(m, loads) + last
    decreases |loads|
  {
    if loads == [] {
      assert ([] + [last])[1..] == [];
    } else {
      assert (loads + [last])[1..] == loads[1..] + [last];
      MergedSnoc(m + loads[0], loads[1..], last);
    }
  }

  lemma {:induction false} MergedIsLast(m: Saved, loads: seq<Saved>, id: string)
    ensures
      var merged, last := Merged(m, loads), LastLoaded(loads, id);
      && (id in merged <==> last.Some? || id in m)
      && (id in merged ==> merged[id] == if last.Some? then last.value else m[id])
    decreases |loads|
  {
    if loads != [] {
      var n := |loads| - 1;
      assert loads == loads[..n] + [loads[n]];
      MergedSnoc(m, loads[..n], loads[n]);
      MergedIsLast(m, loads[..n], id);
    }
  }

  // ------------------------------------------------------------- as objects

  class Stream {
    var stationId: string
    var selectors: seq<string>
    var seqnum: Option<int>
    var allData: bool
    var timestamp: Option<string>
    var pending: Option<seq<byte>>
    /** The pattern the cached regular expression was compiled from. */
    var compiledFor: Option<string>

    ghost function View(): Tracked
      reads `stationId, `selectors, `seqnum, `allData, `timestamp, `pending
    {
      Tracked(Config(stationId, selectors, seqnum, allData, timestamp), pending)
    }

    constructor (c: Config)
      ensures View() == Tracked(c, None)
    {
      stationId, selectors, seqnum, allData, timestamp := c.id, c.selectors, c.seqnum, c.allData, c.timestamp;
      pending, compiledFor := None, None;
    }

    method MatchesId(glob: Glob, id: string) returns (r: bool)
      modifies this`compiledFor
      ensures r == Matches(glob, stationId, id)
    {
      var pattern := stationId;
      if !IsPattern(pattern) {
        return id == pattern;
      }
      if compiledFor == None || compiledFor.value != pattern {
        compiledFor := Some(pattern);
      }
      return glob(compiledFor.value, id);
    }

    /** Reads the pending packet's start time at most once; what it resolves to
        does not depend on when it is asked for. */
    method ResolveTimestamp(times: StartTimes) returns (t: Option<string>)
      modifies this`pending, this`timestamp
      ensures View() == Settled(times, old(View())) && t == View().config.timestamp
    {
      if pending.Some? {
        var start := times(pending.value);
        pending := None;
        if start.Some? {
          timestamp := start;
        }
      }
      return timestamp;
    }
  }

  ghost function Views(ss: seq<Stream>): (r: seq<Tracked>)
    reads ss`stationId, ss`selectors, ss`seqnum, ss`allData, ss`timestamp, ss`pending
    ensures |r| == |ss|
    ensures forall i :: 0 <= i < |ss| ==> r[i] == ss[i].View()
  {
    if ss == [] then [] else [ss[0].View()] + Views(ss[1..])
  }

  ghost function Ids(ss: seq<Stream>): (r: seq<string>)
    reads ss`stationId
    ensures |r| == |ss|
    ensures forall i :: 0 <= i < |ss| ==> r[i] == ss[i].stationId
  {
    if ss == [] then [] else [ss[0].stationId] + Ids(ss[1..])
  }

  /** The streams whose pattern matches, in list order: a fresh filter. */
  ghost function Matching(glob: Glob, ss: seq<Stream>, ids: seq<string>, id: string): (r: seq<Stream>)
    requires |ss| == |ids|
    ensures forall i :: 0 <= i < |r| ==> r[i] in ss
  {
    if ss == [] then []
    else (if Matches(glob, ids[0], id) then [ss[0]] else []) + Matching(glob, ss[1..], ids[1..], id)
  }

  lemma {:induction false} MatchingSnoc(glob: Glob, ss: seq<Stream>, ids: seq<string>, s: Stream, pattern: string, id: string)
    requires |ss| == |ids|
    ensures Matching(glob, ss + [s], ids + [pattern], id)
         == Matching(glob, ss, ids, id) + if Matches(glob, pattern, id) then [s] else []
  {
    if ss == [] {
      assert ([] + [s])[1..] == [] && ([] + [pattern])[1..] == [];
    } else {
      assert (ss + [s])[1..] == ss[1..] + [s] && (ids + [pattern])[1..] == ids[1..] + [pattern];
      MatchingSnoc(glob, ss[1..], ids[1..], s, pattern, id);
    }
  }

  lemma {:induction false} InMatching(glob: Glob, ss: seq<Stream>, ids: seq<string>, id: string, i: nat)
    requires i < |ss| == |ids| && AllDistinct(ss)
    ensures ss[i] in Matching(glob, ss, ids, id) <==> Matches(glob, ids[i], id)
  {
    assert forall k :: 0 <= k < |ss| - 1 ==> ss[1..][k] != ss[0];
    if i > 0 {
      InMatching(glob, ss[1..], ids[1..], id, i - 1);
    }
  }

  predicate AllDistinct(ss: seq<Stream>) {
    forall i, j :: 0 <= i < j < |ss| ==> ss[i] != ss[j]
  }

  lemma {:induction false} DistinctTogether(a: seq<Stream>, b: seq<Stream>)
    requires AllDistinct(a) && AllDistinct(b) && forall i :: 0 <= i < |b| ==> b[i] !in a
    ensures AllDistinct(a + b)
  {
  }

  lemma {:induction false} ViewsTogether(a: seq<Stream>, b: seq<Stream>)
    ensures Views(a + b) == Views(a) + Views(b)
  {
  }

  /** Every cache entry is what a fresh filter would give. */
  ghost predicate IsCoherent(glob: Glob, cache: map<string, seq<Stream>>, ss: seq<Stream>, ids: seq<string>)
    requires |ss| == |ids|
  {
    forall id :: id in cache ==> cache[id] == Matching(glob, ss, ids, id)
  }

  lemma {:induction false} EmptyCacheIsCoherent(glob: Glob, ss: seq<Stream>)
    ensures IsCoherent(glob, map[], ss, Ids(ss))
  {
  }

  class Selection {
    const glob: Glob
    var streams: seq<Stream>
    var matchCache: map<string, seq<Stream>>
    var recovered: Saved
    var multistation: bool
    var allStations: bool

    /** Streams are distinct objects, the match cache is coherent, and
        uni-station mode never holds more than one stream. */
    ghost predicate Valid()
      reads this, streams
    {
      && AllDistinct(streams)
      && IsCoherent(glob, matchCache, streams, Ids(streams))
      && (!multistation ==> |streams| <= 1)
      && (allStations ==> !multistation && |streams| == 1)
    }

    ghost function View(): SelState
      reads this, streams
    {
      SelState(Views(streams), recovered, multistation, allStations)
    }

    constructor (glob: Glob)
      ensures Valid() && View() == NothingSelected && this.glob == glob
    {
      this.glob := glob;
      streams, matchCache, recovered, multistation, allStations := [], map[], map[], false, false;
    }

    /** Overlay the recovered entry, if any, on one stream. */
    method ApplyRecovered(s: Stream)
      modifies s`seqnum, s`timestamp
      ensures s.View() == Overlay(recovered, old(s.View()))
    {
      if s.stationId in recovered {
        s.seqnum, s.timestamp := recovered[s.stationId].0, recovered[s.stationId].1;
      }
    }

    /** add_stream and the stream-list variants. */
    method AddStreams(cs: seq<Config>) returns (ok: bool)
      requires Valid()
      modifies this`streams, this`multistation, this`matchCache
      ensures Valid() && ok == Allowed(old(View()), AddList(cs)) && View() == Called(old(View()), AddList(cs))
    {
      CalledAddList(View(), cs);
      hide Called, AllDistinct, OverlayAll, FreshAll, Matching, Views, Ids, IsCoherent, Overlay;
      if allStations {
        return false;
      }
      var added := NewStreams(cs);
      DistinctTogether(streams, added);
      ViewsTogether(streams, added);
      streams := streams + added;
      multistation, matchCache := true, map[];
      EmptyCacheIsCoherent(glob, streams);
      return true;
    }

    method NewStreams(cs: seq<Config>) returns (added: seq<Stream>)
      ensures AllDistinct(added) && Views(added) == OverlayAll(recovered, FreshAll(cs))
      ensures forall i :: 0 <= i < |added| ==> fresh(added[i])
    {
      added := [];
      for i := 0 to |cs|
        invariant |added| == i && AllDistinct(added)
        invariant forall k :: 0 <= k < i ==> fresh(added[k]) && added[k].View() == Overlay(recovered, Tracked(cs[k], None))
      {
        var s := new Stream(cs[i]);
        ApplyRecovered(s);
        added := added + [s];
      }
    }

    method SetAllStations(c: Config) returns (ok: bool)
      requires Valid()
      modifies this`streams, this`multistation, this`allStations, this`matchCache
      ensures Valid() && ok == Allowed(old(View()), SetAll(c)) && View() == Called(old(View()), SetAll(c))
    {
      if allStations || streams != [] {
        return false;
      }
      var s := new Stream(c.(id := "*"));
      ApplyRecovered(s);
      streams, multistation, allStations, matchCache := [s], false, true, map[];
      return true;
    }

    method EnsureDefaultStream()
      requires Valid() && matchCache == map[]
      modifies this`streams
      ensures Valid() && View() == Called(old(View()), EnsureDefault) && streams != []
      ensures if old(streams) == [] then |streams| == 1 && fresh(streams[0]) else streams == old(streams)
    {
      if streams == [] {
        var s := new Stream(DefaultStream);
        ApplyRecovered(s);
        streams := [s];
      }
    }

    method ClearCache()
      requires Valid()
      modifies this`matchCache
      ensures Valid() && View() == old(View()) && matchCache == map[]
    {
      matchCache := map[];
    }

    method RecoverState(saved: Saved)
      requires Valid()
      modifies this`recovered, streams
      ensures Valid() && View() == Called(old(View()), Recover(saved))
    {
      CalledRecover(View(), saved);
      hide Called, IsCoherent, OverlayAll, Views, Ids;
      recovered := recovered + saved;
      for i := 0 to |streams|
        invariant recovered == old(recovered) + saved
        invariant forall s :: s in streams ==> s.stationId == old(s.stationId)
        invariant forall k :: 0 <= k < i ==> streams[k].View() == Overlay(recovered, old(streams[k].View()))
        invariant forall k :: i <= k < |streams| ==> streams[k].View() == old(streams[k].View())
      {
        ApplyRecovered(streams[i]);
      }
      assert Ids(streams) == old(Ids(streams));
    }

    method FilterStreams(id: string) returns (found: seq<Stream>)
      modifies streams`compiledFor
      ensures found == Matching(glob, streams, Ids(streams), id)
    {
      found := [];
      ghost var ids := Ids(streams);
      for i := 0 to |streams|
        invariant found == Matching(glob, streams[..i], ids[..i], id)
      {
        var s := streams[i];
        var matches := s.MatchesId(glob, id);
        MatchingSnoc(glob, streams[..i], ids[..i], s, ids[i], id);
        assert streams[..i + 1] == streams[..i] + [s] && ids[..i + 1] == ids[..i] + [ids[i]];
        if matches {
          found := found + [s];
        }
      }
      assert streams[..|streams|] == streams && ids[..|ids|] == ids;
    }

    method StreamsMatching(id: string) returns (found: seq<Stream>)
      requires Valid()
      modifies this`matchCache, streams`compiledFor
      ensures Valid() && View() == old(View())
      ensures found == Matching(glob, streams, Ids(streams), id)
    {
      hide AllDistinct, Matching, Matches;
      if id in matchCache {
        return matchCache[id];
      }
      found := FilterStreams(id);
      matchCache := matchCache[id := found];
    }

    /** Every stream matching the packet's station moves to its sequence number;
        every other stream, and every other field, stays as it is. */
    method UpdateStreamState(f: Frame)
      requires Valid()
      modifies this`matchCache, streams
      ensures Valid() && streams == old(streams)
      ensures View() == old(View()).(streams := UpdatedAll(glob, f, old(View()).streams))
    {
      if f.seqnum == None {
        return;
      }
      hide IsCoherent, Matching, Matches, Ids;
      var found := StreamsMatching(f.station);
      MoveTo(found, f);
      assert Ids(streams) == old(Ids(streams));
      forall i | 0 <= i < |streams| ensures streams[i].View() == Updated(glob, f, old(streams[i].View())) {
        InMatching(glob, streams, Ids(streams), f.station, i);
      }
      hide AllDistinct, Views, UpdatedAll;
    }

    method MoveTo(found: seq<Stream>, f: Frame)
      requires forall i :: 0 <= i < |found| ==> found[i] in streams
      modifies streams`seqnum, streams`pending
      ensures forall s :: s in streams ==>
        s.View() == if s in found then Tracked(old(s.View()).config.(seqnum := f.seqnum), Some(f.payload)) else old(s.View())
    {
      for i := 0 to |found|
        invariant forall s :: s in streams ==>
          s.View() == if s in found[..i] then Tracked(old(s.View()).config.(seqnum := f.seqnum), Some(f.payload)) else old(s.View())
      {
        assert found[..i + 1] == found[..i] + [found[i]];
        found[i].seqnum, found[i].pending := f.seqnum, Some(f.payload);
      }
      assert found[..|found|] == found;
    }

    /** The configurations to negotiate with, in list order. */
    method PlanStreams(times: StartTimes, needsTime: bool) returns (cs: seq<Config>)
      requires Valid()
      modifies streams`pending, streams`timestamp
      ensures Valid() && View() == old(View()).(streams := PlannedAll(times, needsTime, old(View()).streams))
      ensures cs == ConfigsOf(View().streams)
    {
      hide IsCoherent, Matching, Ids;
      cs := [];
      for i := 0 to |streams|
        invariant |cs| == i
        invariant forall k :: 0 <= k < i ==> streams[k].View() == Planned(times, needsTime, old(streams[k].View())) && cs[k] == streams[k].View().config
        invariant forall k :: i <= k < |streams| ==> streams[k].View() == old(streams[k].View())
      {
        var s := streams[i];
        if needsTime && s.seqnum.Some? {
          var _ := s.ResolveTimestamp(times);
        }
        cs := cs + [Config(s.stationId, s.selectors, s.seqnum, s.allData, s.timestamp)];
      }
    }

    /** Writes every stream's number and timestamp, reading start times that are
        still unread. */
    method SaveState(times: StartTimes) returns (text: string)
      requires Valid()
      modifies streams`pending, streams`timestamp
      ensures Valid() && View() == old(View()).(streams := SettledAll(times, old(View()).streams))
      ensures text == Save(ConfigsOf(View().streams))
    {
      hide IsCoherent, Matching, Ids, Save, Settled, SettledAll, ConfigsOf, Views;
      var cs := [];
      for i := 0 to |streams|
        invariant |cs| == i
        invariant forall k :: 0 <= k < i ==> streams[k].View() == Settled(times, old(streams[k].View())) && cs[k] == streams[k].View().config
        invariant forall k :: i <= k < |streams| ==> streams[k].View() == old(streams[k].View())
      {
        var s := streams[i];
        var timestamp := s.ResolveTimestamp(times);
        cs := cs + [Config(s.stationId, s.selectors, s.seqnum, s.allData, timestamp)];
      }
      text := StateFile.SaveState(cs);
      assert cs == ConfigsOf(View().streams);
    }

    /** How `negotiate()` gets its streams ready: cache cleared, a default stream if
        there is none, start times read as the plan needs them. */
    method PrepareStreams(times: StartTimes, needsTime: bool) returns (cs: seq<Config>)
      requires Valid()
      modifies this`matchCache, this`streams, streams`pending, streams`timestamp
      ensures Valid() && View() == Prepared(times, needsTime, old(View())) && cs == ConfigsOf(View().streams)
      ensures cs != [] && |cs| == |streams|
      ensures if old(streams) == [] then |streams| == 1 && fresh(streams[0]) else streams == old(streams)
    {
      hide Called, PlannedAll, IsCoherent, Matching, OverlayAll, ConfigsOf, AllDistinct, Views, Ids;
      ClearCache();
      EnsureDefaultStream();
      cs := PlanStreams(times, needsTime);
    }
  }
}
