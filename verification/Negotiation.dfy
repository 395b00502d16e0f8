/** A negotiation run command by command against a sequence of reply lines, and
    what it sends for every such sequence. */
module Negotiation {
  import opened Text
  import opened Protocol
  import opened Streams
  import opened Times
  import opened Commands

  /** Starved: a reply was due and no line was left. */
  datatype Outcome = Accepted | Refused(error: Error) | Starved

  /** What went out, how many reply lines were read, and how it ended. */
  datatype Run = Run(sent: seq<Command>, used: nat, outcome: Outcome)

  function Prepend(cmds: seq<Command>, used: nat, run: Run): Run {
    Run(cmds + run.sent, used + run.used, run.outcome)
  }

  /** The send loop of `negotiate()`. */
  function RunWalk(w: Walk, plan: seq<Command>, lines: seq<string>): Run
    decreases |plan|
  {
    if plan == [] then
      Run([], 0, if NoneAccepted(w) then Refused(NoStationAccepted) else Accepted)
    else
      var cmd := plan[0];
      var w1 := Noted(w, cmd);
      if !Sends(w, cmd) then RunWalk(w1, plan[1..], lines)
      else if Encoded(cmd).Err? then Run([], 0, Refused(Encoded(cmd).error))
      else if cmd.parse.NoReply? then Prepend([cmd], 0, RunWalk(Recorded(w1, cmd, None), plan[1..], lines))
      else if lines == [] then Run([cmd], 0, Starved)
      else
        match Interpret(cmd.parse, lines[0])
        case Err(e) => Run([cmd], 1, Refused(e))
        case Ok(resp) => Prepend([cmd], 1, RunWalk(Recorded(w1, cmd, Some(resp)), plan[1..], lines[1..]))
  }

  predicate AllSendable(cmds: seq<Command>) {
    forall i :: 0 <= i < |cmds| ==> Encoded(cmds[i]).Ok?
  }

  predicate LineOk(line: string) { ParseReply(line).IsOk() }

  // ------------------------------------------------------- 3.x, many stations

  /** Commands that are skipped or sent together: SELECTs and DATA of one station. */
  predicate IsTail(cmds: seq<Command>, parse: Parse) {
    forall i :: 0 <= i < |cmds| ==> cmds[i].parse == parse && cmds[i].role in {SelectRole, DataRole}
  }

  lemma {:induction false} SkippedTail(w: Walk, cmds: seq<Command>, parse: Parse, rest: seq<Command>, lines: seq<string>)
    requires IsTail(cmds, parse) && w.skip
    ensures RunWalk(w, cmds + rest, lines) == RunWalk(w, rest, lines)
  {
    if cmds == [] {
      assert cmds + rest == rest;
    } else {
      assert (cmds + rest)[1..] == cmds[1..] + rest;
      SkippedTail(w, cmds[1..], parse, rest, lines);
    }
  }

  lemma {:induction false} SentOne(w: Walk, cmd: Command, rest: seq<Command>, lines: seq<string>)
    requires cmd.role in {SelectRole, DataRole} && !w.skip && cmd.parse in {NoReply, AnyReply} && Encoded(cmd).Ok?
    ensures
      var run := RunWalk(w, [cmd] + rest, lines);
      if cmd.parse.NoReply? then run == Prepend([cmd], 0, RunWalk(w, rest, lines))
      else if lines == [] then run == Run([cmd], 0, Starved)
      else run == Prepend([cmd], 1, RunWalk(w, rest, lines[1..]))
  {
    hide Encoded, ParseReply;
    assert ([cmd] + rest)[1..] == rest;
  }

  lemma {:induction false} SentTail(w: Walk, cmds: seq<Command>, parse: Parse, rest: seq<Command>, lines: seq<string>)
    requires IsTail(cmds, parse) && !w.skip && parse in {NoReply, AnyReply} && AllSendable(cmds)
    ensures
      var n := if parse.NoReply? then 0 else |cmds|;
      if n <= |lines| then RunWalk(w, cmds + rest, lines) == Prepend(cmds, n, RunWalk(w, rest, lines[n..]))
      else RunWalk(w, cmds + rest, lines).outcome == Starved
  {
    hide Encoded, RunWalk;
    if cmds == [] {
      assert cmds + rest == rest && lines[0..] == lines;
      assert [] + RunWalk(w, rest, lines).sent == RunWalk(w, rest, lines).sent;
    } else {
      assert cmds + rest == [cmds[0]] + (cmds[1..] + rest);
      SentOne(w, cmds[0], cmds[1..] + rest, lines);
      if parse.NoReply? {
        SentTail(w, cmds[1..], parse, rest, lines);
        PrependTwice([cmds[0]], 0, cmds[1..], 0, RunWalk(w, rest, lines[0..]));
      } else if lines != [] {
        SentTail(w, cmds[1..], parse, rest, lines[1..]);
        if |cmds| <= |lines| {
          assert lines[1..][|cmds| - 1..] == lines[|cmds|..];
          PrependTwice([cmds[0]], 1, cmds[1..], |cmds| - 1, RunWalk(w, rest, lines[|cmds|..]));
        }
      }
      assert [cmds[0]] + cmds[1..] == cmds;
    }
  }

  lemma {:induction false} SelectsAreTail(o: Options, c: Config, ss: seq<string>)
    ensures IsTail(Selects(o, c, ss), if o.version.V4? then ExpectOk else ReplyV3(o))
  {
    if ss != [] {
      SelectsAreTail(o, c, ss[1..]);
    }
  }

  /** BATCH mode: 3.x suppresses every reply. */
  predicate Suppressed(o: Options) { o.version.V3? && o.batchActive }

  /** Station by station: what is sent, how many lines are read, how many
      stations are accepted. A rejected STATION is followed by nothing of its
      own, an accepted one by all its SELECTs and its DATA, FETCH or TIME. */
  datatype Turns = Turns(sent: seq<Command>, used: nat, accepted: nat)

  function StationExchange(o: Options, iso: IsoReader, cs: seq<Config>, lines: seq<string>): Turns {
    if cs == [] then Turns([], 0, 0)
    else
      var ok := Suppressed(o) || (lines != [] && LineOk(lines[0]));
      var sent := if ok then Block(o, iso, cs[0]) else [Station(o, cs[0])];
      var n := if Suppressed(o) then 0 else |sent|;
      var later := StationExchange(o, iso, cs[1..], lines[if n <= |lines| then n else |lines|..]);
      Turns(sent + later.sent, n + later.used, (if ok then 1 else 0) + later.accepted)
  }

  lemma {:induction false} PrependTwice(a: seq<Command>, m: nat, b: seq<Command>, n: nat, run: Run)
    ensures Prepend(a, m, Prepend(b, n, run)) == Prepend(a + b, m + n, run)
  {
    assert a + (b + run.sent) == a + b + run.sent;
  }

  /** One station's turn: its verdict, then either its whole block or nothing more. */
  lemma {:induction false} StationTurn(o: Options, w: Walk, station: Command, tail: seq<Command>, later: seq<Command>, lines: seq<string>)
    requires station.role.StationRole? && station.parse == ReplyV3(o) && Encoded(station).Ok?
    requires IsTail(tail, ReplyV3(o)) && AllSendable(tail)
    ensures
      var ok := o.batchActive || (lines != [] && LineOk(lines[0]));
      var sent := if ok then [station] + tail else [station];
      var n := if o.batchActive then 0 else |sent|;
      var run := RunWalk(w, [station] + (tail + later), lines);
      if n > |lines| then run.outcome == Starved
      else run == Prepend(sent, n, RunWalk(Walk(true, ok || w.acceptedAny, !ok), later, lines[n..]))
  {
    hide Encoded, ParseReply;
    var plan := [station] + (tail + later);
    assert plan[0] == station && plan[1..] == tail + later;
    var w1 := Walk(true, true, false);
    if o.batchActive {
      SentTail(w1, tail, NoReply, later, lines);
      assert RunWalk(w, plan, lines) == Prepend([station], 0, RunWalk(w1, tail + later, lines));
      PrependTwice([station], 0, tail, 0, RunWalk(w1, later, lines[0..]));
    } else if lines != [] && LineOk(lines[0]) {
      SentTail(w1, tail, AnyReply, later, lines[1..]);
      assert RunWalk(w, plan, lines) == Prepend([station], 1, RunWalk(w1, tail + later, lines[1..]));
      if |tail| + 1 <= |lines| {
        assert lines[1..][|tail|..] == lines[|tail| + 1..];
        PrependTwice([station], 1, tail, |tail|, RunWalk(w1, later, lines[|tail| + 1..]));
      }
    } else if lines != [] {
      var w2 := Walk(true, w.acceptedAny, true);
      SkippedTail(w2, tail, AnyReply, later, lines[1..]);
      assert RunWalk(w, plan, lines) == Prepend([station], 1, RunWalk(w2, tail + later, lines[1..]));
    }
  }

  lemma {:induction false} StationBlock(o: Options, iso: IsoReader, c: Config, later: seq<Command>)
    requires AllSendable(Block(o, iso, c) + later)
    ensures Block(o, iso, c) + later == [Station(o, c)] + (Tail(o, iso, c) + later)
    ensures Encoded(Station(o, c)).Ok? && AllSendable(Tail(o, iso, c)) && AllSendable(later)
  {
    hide Encoded, Station, Tail, AllSendable;
    assert Block(o, iso, c) + later == [Station(o, c)] + (Tail(o, iso, c) + later);
    SendableParts([Station(o, c)], Tail(o, iso, c) + later);
    SendableParts(Tail(o, iso, c), later);
    OneSendable([Station(o, c)]);
  }

  lemma {:induction false} TailIsTail(o: Options, iso: IsoReader, c: Config)
    requires o.version.V3? && o.multistation
    ensures IsTail(Tail(o, iso, c), ReplyV3(o))
  {
    hide Selects, JoinWords, DataWordsV3, DataWordsV4;
    SelectsAreTail(o, c, c.selectors);
  }

  lemma {:induction false} SendableParts(a: seq<Command>, b: seq<Command>)
    requires AllSendable(a + b)
    ensures AllSendable(a) && AllSendable(b)
  {
    hide Encoded;
    assert forall i :: 0 <= i < |a| ==> a[i] == (a + b)[i];
    assert forall i :: 0 <= i < |b| ==> b[i] == (a + b)[|a| + i];
  }

  lemma {:induction false} EndOnly(o: Options, lines: seq<string>, w: Walk)
    requires AllSendable([End(o)])
    ensures RunWalk(w, [End(o)], lines) == Run([End(o)], 0, if NoneAccepted(w) then Outcome.Refused(NoStationAccepted) else Accepted)
  {
    hide Encoded;
    OneSendable([End(o)]);
    assert [End(o)][1..] == [];
    assert RunWalk(w, [], lines).sent == [];
  }

  lemma {:induction false} FirstStation(o: Options, iso: IsoReader, cs: seq<Config>, lines: seq<string>, w: Walk)
    requires o.version.V3? && o.multistation && cs != []
    requires AllSendable(Blocks(o, iso, cs) + [End(o)])
    ensures AllSendable(Blocks(o, iso, cs[1..]) + [End(o)])
    ensures
      var ok := Suppressed(o) || (lines != [] && LineOk(lines[0]));
      var sent := if ok then Block(o, iso, cs[0]) else [Station(o, cs[0])];
      var n := if Suppressed(o) then 0 else |sent|;
      var run := RunWalk(w, Blocks(o, iso, cs) + [End(o)], lines);
      if n > |lines| then run.outcome == Starved
      else run == Prepend(sent, n, RunWalk(Walk(true, ok || w.acceptedAny, !ok), Blocks(o, iso, cs[1..]) + [End(o)], lines[n..]))
  {
    hide Encoded, LineOk, AllSendable, IsTail, Tail, RunWalk, Prepend;
    var later := Blocks(o, iso, cs[1..]) + [End(o)];
    assert Blocks(o, iso, cs) + [End(o)] == Block(o, iso, cs[0]) + later;
    StationBlock(o, iso, cs[0], later);
    TailIsTail(o, iso, cs[0]);
    StationTurn(o, w, Station(o, cs[0]), Tail(o, iso, cs[0]), later, lines);
  }

  lemma {:induction false} StationsRun(o: Options, iso: IsoReader, cs: seq<Config>, lines: seq<string>, w: Walk)
    requires o.version.V3? && o.multistation
    requires AllSendable(Blocks(o, iso, cs) + [End(o)])
    ensures
      var x := StationExchange(o, iso, cs, lines);
      var run := RunWalk(w, Blocks(o, iso, cs) + [End(o)], lines);
      if x.used > |lines| then run.outcome == Starved
      else
        run == Run(x.sent + [End(o)], x.used,
                   if (w.seenStation || cs != []) && !w.acceptedAny && x.accepted == 0
                   then Refused(NoStationAccepted) else Accepted)
  {
    hide LineOk, AllSendable, RunWalk, Block, Station;
    if cs == [] {
      assert Blocks(o, iso, cs) + [End(o)] == [End(o)];
      EndOnly(o, lines, w);
    } else {
      FirstStation(o, iso, cs, lines, w);
      var ok := Suppressed(o) || (lines != [] && LineOk(lines[0]));
      var sent := if ok then Block(o, iso, cs[0]) else [Station(o, cs[0])];
      var n := if Suppressed(o) then 0 else |sent|;
      if n <= |lines| {
        StationsRun(o, iso, cs[1..], lines[n..], Walk(true, ok || w.acceptedAny, !ok));
        var x := StationExchange(o, iso, cs[1..], lines[n..]);
        assert sent + (x.sent + [End(o)]) == (sent + x.sent) + [End(o)];
      }
    }
  }

  lemma {:induction false} OneSendable(cmds: seq<Command>)
    requires AllSendable(cmds) && cmds != []
    ensures Encoded(cmds[0]).Ok?
  {
  }

  /** For every reply sequence, 3.x multi-station negotiation sends each
      station's commands as a block cut short only by rejection, then END once,
      and succeeds exactly when some station was accepted. */
  lemma {:induction false} MultiStationNegotiation(o: Options, iso: IsoReader, cs: seq<Config>, lines: seq<string>)
    requires o.version.V3? && o.multistation && cs != []
    requires AllSendable(Plan(o, iso, cs).value)
    ensures
      var x := StationExchange(o, iso, cs, lines);
      var run := RunWalk(FreshWalk, Plan(o, iso, cs).value, lines);
      if x.used > |lines| then run.outcome == Starved
      else run == Run(x.sent + [End(o)], x.used, if x.accepted > 0 then Accepted else Refused(NoStationAccepted))
  {
    StationsRun(o, iso, cs, lines, FreshWalk);
  }

  // ------------------------------------------------------------------------ 4.0

  /** Index of the first of the next `n` lines that is not OK, else `n`. */
  function FirstRefusal(lines: seq<string>, n: nat): (i: nat)
    ensures i <= n
    ensures i < n ==> i < |lines|
  {
    if n == 0 then 0
    else if lines == [] then n
    else if LineOk(lines[0]) then 1 + FirstRefusal(lines[1..], n - 1)
    else 0
  }

  lemma {:induction false} FirstRefusalIsFirst(lines: seq<string>, n: nat)
    ensures
      var i := FirstRefusal(lines, n);
      && (i < n ==> !LineOk(lines[i]))
      && (forall j {:trigger lines[j]} :: 0 <= j < i && j < |lines| ==> LineOk(lines[j]))
  {
    hide ParseReply;
    if n > 0 && lines != [] && LineOk(lines[0]) {
      FirstRefusalIsFirst(lines[1..], n - 1);
    }
  }

  predicate AllExpectOk(cmds: seq<Command>) {
    forall i :: 0 <= i < |cmds| ==> cmds[i].parse.ExpectOk?
  }

  /** One command of a strict negotiation: refused, or on to the next with
      nothing skipped and every station so far accepted. */
  lemma {:induction false} StrictStep(w: Walk, cmd: Command, rest: seq<Command>, lines: seq<string>) returns (w1: Walk)
    requires cmd.parse.ExpectOk? && Encoded(cmd).Ok? && !w.skip
    requires w.seenStation ==> w.acceptedAny
    ensures !w1.skip && (w1.seenStation ==> w1.acceptedAny)
    ensures
      var run := RunWalk(w, [cmd] + rest, lines);
      if lines == [] then run == Run([cmd], 0, Starved)
      else if LineOk(lines[0]) then run == Prepend([cmd], 1, RunWalk(w1, rest, lines[1..]))
      else run == Run([cmd], 1, Outcome.Refused(Refusal(lines[0])))
  {
    hide Encoded, ParseReply;
    assert ([cmd] + rest)[1..] == rest;
    w1 := w;
    if lines != [] && LineOk(lines[0]) {
      w1 := Recorded(Noted(w, cmd), cmd, Some(ParseReply(lines[0])));
    }
  }

  lemma {:induction false} StrictEnd(w: Walk, end: Command, lines: seq<string>)
    requires w.seenStation ==> w.acceptedAny
    requires end.parse.NoReply? && end.role.EndRole? && Encoded(end).Ok?
    ensures RunWalk(w, [end], lines) == Run([end], 0, Accepted)
  {
    hide Encoded;
    assert [end][1..] == [];
    assert RunWalk(w, [], lines) == Run([], 0, Accepted);
  }

  lemma {:induction false} StrictRun(w: Walk, cmds: seq<Command>, end: Command, lines: seq<string>)
    requires AllExpectOk(cmds) && AllSendable(cmds) && !w.skip
    requires w.seenStation ==> w.acceptedAny
    requires end.parse.NoReply? && end.role.EndRole? && Encoded(end).Ok?
    ensures
      var n := |cmds|;
      var i := FirstRefusal(lines, n);
      var run := RunWalk(w, cmds + [end], lines);
      if i < n then
        run == Run(cmds[..i + 1], i + 1, Outcome.Refused(Refusal(lines[i])))
      else if n <= |lines| then run == Run(cmds + [end], n, Accepted)
      else run.outcome == Starved
    decreases |cmds|
  {
    hide Encoded, LineOk, RunWalk, Refusal;
    if cmds == [] {
      assert cmds + [end] == [end];
      StrictEnd(w, end, lines);
    } else {
      assert cmds + [end] == [cmds[0]] + (cmds[1..] + [end]);
      var w1 := StrictStep(w, cmds[0], cmds[1..] + [end], lines);
      if lines != [] && LineOk(lines[0]) {
        StrictRun(w1, cmds[1..], end, lines[1..]);
        FirstRefusalIsFirst(lines, |cmds|);
        var i := FirstRefusal(lines[1..], |cmds| - 1);
        if i < |cmds| - 1 {
          assert [cmds[0]] + cmds[1..][..i + 1] == cmds[..i + 2];
        }
      } else if lines != [] {
        assert [cmds[0]] == cmds[..1];
      }
    }
  }

  lemma {:induction false} BlocksExpectOk(o: Options, iso: IsoReader, cs: seq<Config>)
    requires o.version.V4?
    ensures AllExpectOk(Blocks(o, iso, cs))
  {
    if cs != [] {
      SelectsAreTail(o, cs[0], cs[0].selectors);
      BlocksExpectOk(o, iso, cs[1..]);
    }
  }

  /** 4.0 negotiation sends its plan up to and including the first command that
      is refused and raises there; it succeeds exactly when every reply is OK. */
  lemma {:induction false} StrictNegotiation(o: Options, iso: IsoReader, cs: seq<Config>, lines: seq<string>)
    requires o.version.V4? && AllSendable(Plan(o, iso, cs).value)
    ensures
      var plan := Plan(o, iso, cs).value;
      var n := |plan| - 1;
      var i := FirstRefusal(lines, n);
      var run := RunWalk(FreshWalk, plan, lines);
      if i < n then run == Run(plan[..i + 1], i + 1, Refused(Refusal(lines[i])))
      else if n <= |lines| then run == Run(plan, n, Accepted)
      else run.outcome == Starved
  {
    hide Encoded, ParseReply, Blocks;
    var cmds := Blocks(o, iso, cs);
    var plan := Plan(o, iso, cs).value;
    assert forall i :: 0 <= i < |cmds| ==> cmds[i] == plan[i];
    assert plan[|cmds|] == End(o);
    BlocksExpectOk(o, iso, cs);
    StrictRun(FreshWalk, cmds, End(o), lines);
    var i := FirstRefusal(lines, |cmds|);
    if i < |cmds| {
      assert cmds[..i + 1] == plan[..i + 1];
    }
  }

  // ------------------------------------------------- the walk by stream ID

  /** A walk that goes by each command's own `streamId`: a SELECT or DATA is sent
      exactly when the STATION that named its stream last was accepted, and with
      `strict` not before such a STATION. */
  predicate SendsById(strict: bool, verdicts: map<string, bool>, cmd: Command) {
    cmd.role in {SelectRole, DataRole} ==> if cmd.streamId in verdicts then verdicts[cmd.streamId] else !strict
  }

  function RunById(strict: bool, verdicts: map<string, bool>, seen: bool, any: bool, plan: seq<Command>, lines: seq<string>): Run
    decreases |plan|
  {
    if plan == [] then Run([], 0, if seen && !any then Refused(NoStationAccepted) else Accepted)
    else
      var cmd, rest := plan[0], plan[1..];
      var isStation := cmd.role.StationRole?;
      if !SendsById(strict, verdicts, cmd) then RunById(strict, verdicts, seen, any, rest, lines)
      else if Encoded(cmd).Err? then Run([], 0, Refused(Encoded(cmd).error))
      else if cmd.parse.NoReply? then
        Prepend([cmd], 0, RunById(strict, if isStation then verdicts[cmd.streamId := true] else verdicts,
                                  seen || isStation, any || isStation, rest, lines))
      else if lines == [] then Run([cmd], 0, Starved)
      else
        match Interpret(cmd.parse, lines[0])
        case Err(e) => Run([cmd], 1, Refused(e))
        case Ok(resp) =>
          Prepend([cmd], 1, RunById(strict, if isStation then verdicts[cmd.streamId := resp.IsOk()] else verdicts,
                                    seen || isStation, any || (isStation && resp.IsOk()), rest, lines[1..]))
  }

  /** Every SELECT and DATA belongs to the stream last named. */
  predicate IsGrouped(plan: seq<Command>, current: Option<string>)
    decreases |plan|
  {
    plan == []
    || match plan[0].role
       case StationRole => IsGrouped(plan[1..], Some(plan[0].streamId))
       case SelectRole => current == Some(plan[0].streamId) && IsGrouped(plan[1..], current)
       case DataRole => current == Some(plan[0].streamId) && IsGrouped(plan[1..], current)
       case _ => IsGrouped(plan[1..], current)
  }

  lemma {:induction false} TailIsGrouped(cmds: seq<Command>, rest: seq<Command>, x: string)
    requires forall i :: 0 <= i < |cmds| ==> cmds[i].role in {SelectRole, DataRole} && cmds[i].streamId == x
    requires IsGrouped(rest, Some(x))
    ensures IsGrouped(cmds + rest, Some(x))
  {
    if cmds == [] {
      assert cmds + rest == rest;
    } else {
      assert (cmds + rest)[1..] == cmds[1..] + rest;
      TailIsGrouped(cmds[1..], rest, x);
    }
  }

  lemma {:induction false} TailIds(o: Options, iso: IsoReader, c: Config)
    ensures forall i :: 0 <= i < |Tail(o, iso, c)| ==> Tail(o, iso, c)[i].role in {SelectRole, DataRole} && Tail(o, iso, c)[i].streamId == c.id
  {
    SelectIds(o, c, c.selectors);
    hide Selects, JoinWords, DataWordsV3, DataWordsV4;
  }

  lemma {:induction false} SelectIds(o: Options, c: Config, ss: seq<string>)
    ensures forall i :: 0 <= i < |Selects(o, c, ss)| ==> Selects(o, c, ss)[i].role == SelectRole && Selects(o, c, ss)[i].streamId == c.id
  {
    hide JoinWords, WireSelector;
    if ss != [] {
      SelectIds(o, c, ss[1..]);
    }
  }

  lemma {:induction false} StationIsGrouped(station: Command, rest: seq<Command>, current: Option<string>)
    requires station.role.StationRole? && IsGrouped(rest, Some(station.streamId))
    ensures IsGrouped([station] + rest, current)
  {
    assert ([station] + rest)[1..] == rest;
  }

  lemma {:induction false} Regrouped(a: seq<Command>, b: seq<Command>, c: seq<Command>, d: seq<Command>)
    ensures a + b + c + d == a + (b + (c + d))
  {
  }

  lemma {:induction false} BlocksAreGrouped(o: Options, iso: IsoReader, cs: seq<Config>, current: Option<string>)
    ensures IsGrouped(Blocks(o, iso, cs) + [End(o)], current)
  {
    if cs == [] {
      assert Blocks(o, iso, cs) + [End(o)] == [End(o)] && [End(o)][1..] == [];
    } else {
      var station, tail := Station(o, cs[0]), Tail(o, iso, cs[0]);
      assert station.role.StationRole? && station.streamId == cs[0].id;
      BlocksAreGrouped(o, iso, cs[1..], Some(cs[0].id));
      TailIds(o, iso, cs[0]);
      hide IsGrouped, Station, Tail, End;
      TailIsGrouped(tail, Blocks(o, iso, cs[1..]) + [End(o)], cs[0].id);
      StationIsGrouped(station, tail + (Blocks(o, iso, cs[1..]) + [End(o)]), current);
      Regrouped([station], tail, Blocks(o, iso, cs[1..]), [End(o)]);
    }
  }

  lemma {:induction false} GroupedRun(
    strict: bool, verdicts: map<string, bool>, w: Walk, plan: seq<Command>, current: Option<string>, lines: seq<string>)
    requires IsGrouped(plan, current)
    requires current.Some? ==> if current.value in verdicts then w.skip == !verdicts[current.value] else !strict && !w.skip
    ensures RunWalk(w, plan, lines) == RunById(strict, verdicts, w.seenStation, w.acceptedAny, plan, lines)
    decreases |plan|
  {
    hide Encoded, Interpret;
    if plan != [] {
      var cmd := plan[0];
      var now := if cmd.role.StationRole? then Some(cmd.streamId) else current;
      var w1 := Noted(w, cmd);
      if !Sends(w, cmd) {
        GroupedRun(strict, verdicts, w1, plan[1..], now, lines);
      } else if Encoded(cmd).Ok? {
        if cmd.parse.NoReply? {
          var v1 := if cmd.role.StationRole? then verdicts[cmd.streamId := true] else verdicts;
          GroupedRun(strict, v1, Recorded(w1, cmd, None), plan[1..], now, lines);
        } else if lines != [] && Interpret(cmd.parse, lines[0]).Ok? {
          var resp := Interpret(cmd.parse, lines[0]).value;
          var v1 := if cmd.role.StationRole? then verdicts[cmd.streamId := resp.IsOk()] else verdicts;
          GroupedRun(strict, v1, Recorded(w1, cmd, Some(resp)), plan[1..], now, lines[1..]);
        }
      }
    }
  }

  /** For every plan and all replies the walk's one flag agrees with each command's
      own stream ID: a SELECT or DATA is skipped exactly when the STATION of its
      `streamId` was rejected, and with stations named every one that is sent
      follows the accepted STATION of its own `streamId`. */
  lemma {:induction false} WalkGoesByStreamId(o: Options, iso: IsoReader, cs: seq<Config>, lines: seq<string>)
    requires Plan(o, iso, cs).Ok?
    ensures
      var plan := Plan(o, iso, cs).value;
      RunWalk(FreshWalk, plan, lines) == RunById(!IsUni(o), map[], false, false, plan, lines)
  {
    hide RunWalk, RunById, Blocks;
    var plan := Plan(o, iso, cs).value;
    if IsUni(o) {
      TailIds(o, iso, cs[0]);
      TailIsGrouped(Tail(o, iso, cs[0]), [], cs[0].id);
      assert Tail(o, iso, cs[0]) + [] == plan;
      GroupedRun(false, map[], FreshWalk, plan, Some(cs[0].id), lines);
    } else {
      BlocksAreGrouped(o, iso, cs, None);
      GroupedRun(true, map[], FreshWalk, plan, None, lines);
    }
  }
}
