/** A server that reads command lines as text. It is the partner of the planner:
    it says how many reply lines a negotiation is owed and what subscription the
    command lines amount to. */
module Servers {
  import opened Text
  import opened Protocol
  import opened Streams
  import opened Times
  import opened Commands
  import opened Negotiation
  import opened Exchange

  /** Where a station's packets start: with the next one, with the earliest one
      held, or with the first one numbered `seqnum` or later. */
  datatype From = Next | Earliest | FromSeq(seqnum: int)

  datatype Request = Resume(from: From, lastTime: Option<string>) | Window(from: From, start: string, end: Option<string>)

  /** A station without an accepted request sends nothing. */
  datatype Sub = Sub(station: string, selectors: seq<string>, request: Option<Request>)

  datatype Server = Server(version: Version, batch: bool, multi: bool, subs: seq<Sub>, streaming: bool, fetch: bool)

  function NewServer(version: Version, batch: bool): Server {
    Server(version, batch, false, [], false, false)
  }

  function StationName(version: Version, args: seq<string>): Option<string> {
    if version.V4? then (if |args| == 1 then Some(args[0]) else None)
    else if |args| == 2 then Some(args[1] + "_" + args[0]) else None
  }

  function WindowOrResume(from: From, args: seq<string>): Option<Request> {
    if args == [] then Some(Resume(from, None))
    else if |args| == 1 then Some(Window(from, args[0], None))
    else if |args| == 2 then Some(Window(from, args[0], Some(args[1])))
    else None
  }

  function RequestV4(args: seq<string>): Option<Request> {
    if args == [] then Some(Resume(Next, None))
    else if args[0] == "ALL" then WindowOrResume(Earliest, args[1..])
    else
      match PyInt(args[0], 10)
      case Some(n) => WindowOrResume(FromSeq(n), args[1..])
      case None => None
  }

  function RequestV3(verb: string, args: seq<string>): Option<Request> {
    if verb == "TIME" then (if args == [] then None else WindowOrResume(Next, args))
    else if args == [] then Some(Resume(Next, None))
    else
      match PyInt(args[0], 16)
      case Some(n) =>
        if |args| == 1 then Some(Resume(FromSeq(n), None))
        else if |args| == 2 then Some(Resume(FromSeq(n), Some(args[1])))
        else None
      case None => None
  }

  predicate IsDataVerb(verb: string) { verb in {"DATA", "FETCH", "TIME"} }
  predicate IsEndVerb(verb: string) { verb in {"END", "ENDFETCH"} }

  /** Whether the server answers a command with a line: always in 4.0 up to the
      final END; in 3.x not in BATCH mode, and not when a uni-station DATA, FETCH
      or TIME starts the stream. */
  predicate Answers(v: Server, verb: string) {
    if v.version.V4? then verb in {"STATION", "SELECT", "DATA"}
    else !v.batch && (verb in {"STATION", "SELECT"} || (IsDataVerb(verb) && v.multi))
  }

  function WithSelector(subs: seq<Sub>, selector: string): seq<Sub> {
    if subs == [] then [] else
      var last := subs[|subs| - 1];
      subs[..|subs| - 1] + [last.(selectors := last.selectors + [selector])]
  }

  function WithRequest(subs: seq<Sub>, request: Option<Request>): seq<Sub> {
    if subs == [] then [] else subs[..|subs| - 1] + [subs[|subs| - 1].(request := request)]
  }

  /** The one implicit station of 3.x uni-station mode. */
  function Current(v: Server): seq<Sub> {
    if !v.multi && v.subs == [] then [Sub("*", [], None)] else v.subs
  }

  /** The state after a command that was accepted or not. */
  function Apply(v: Server, words: seq<string>, ok: bool): Server {
    if words == [] then v
    else
      var verb, args := words[0], words[1..];
      if verb == "STATION" then
        var name := StationName(v.version, args);
        v.(multi := true, subs := v.subs + if ok && name.Some? then [Sub(name.value, [], None)] else [])
      else if verb == "SELECT" then
        if ok && |args| == 1 then v.(subs := WithSelector(Current(v), args[0])) else v.(subs := Current(v))
      else if IsDataVerb(verb) then
        var request := if v.version.V4? then RequestV4(args) else RequestV3(verb, args);
        v.(subs := if ok then WithRequest(Current(v), request) else Current(v),
           streaming := v.streaming || !(v.version.V4? || v.multi), fetch := v.fetch || verb == "FETCH")
      else if IsEndVerb(verb) then v.(streaming := true, fetch := v.fetch || verb == "ENDFETCH")
      else v
  }

  function Verb(words: seq<string>): string {
    if words == [] then "" else words[0]
  }

  datatype Served = Served(server: Server, answered: nat)

  /** A whole session of command lines; `lines` are the answers given, in order.
      A command that is not answered is accepted. */
  function Serve(v: Server, cmds: seq<Command>, lines: seq<string>): Served
    decreases |cmds|
  {
    if cmds == [] then Served(v, 0)
    else
      var words := Words(cmds[0].text);
      if Answers(v, Verb(words)) then
        var ok := lines != [] && LineOk(lines[0]);
        var later := Serve(Apply(v, words, ok), cmds[1..], if lines == [] then [] else lines[1..]);
        Served(later.server, later.answered + 1)
      else Serve(Apply(v, words, true), cmds[1..], lines)
  }

  // ------------------------------------------------------------------- in step

  lemma {:induction false} FirstWord(verb: string, rest: seq<string>)
    requires IsWord(verb)
    ensures Verb(Words(JoinWords([verb] + rest))) == verb
  {
    if rest == [] {
      WordsOfPrefix(verb, "");
      assert verb + "" == verb == JoinWords([verb] + rest);
    } else {
      var tail := " " + JoinWords(rest);
      assert ([verb] + rest)[1..] == rest;
      assert JoinWords([verb] + rest) == verb + tail;
      WordsOfPrefix(verb, tail);
    }
  }

  /** What the server's view of a planned command must be for both sides to agree
      on whether a reply follows; `multi` is whether a STATION went before. */
  predicate Agrees(o: Options, cmd: Command, multi: bool) {
    var verb := Verb(Words(cmd.text));
    match cmd.role
    case StationRole => verb == "STATION" && cmd.parse == if o.version.V4? then ExpectOk else ReplyV3(o)
    case SelectRole => verb == "SELECT" && cmd.parse == if o.version.V4? then ExpectOk else ReplyV3(o)
    case DataRole =>
      IsDataVerb(verb) && (o.version.V4? ==> verb == "DATA")
      && cmd.parse == if o.version.V4? then ExpectOk else if multi then ReplyV3(o) else NoReply
    case EndRole => IsEndVerb(verb) && cmd.parse == NoReply
    case GenericRole => false
  }

  predicate PlanAgrees(o: Options, plan: seq<Command>, multi: bool)
    decreases |plan|
  {
    plan == [] || (Agrees(o, plan[0], multi) && PlanAgrees(o, plan[1..], multi || plan[0].role.StationRole?))
  }

  lemma {:induction false} StationVerb(o: Options, c: Config)
    ensures Verb(Words(Station(o, c).text)) == "STATION"
  {
    hide Words, JoinWords, SplitNetSta;
    var (net, sta) := SplitNetSta(c.id);
    var args := if o.version.V4? then [c.id] else [sta, net];
    assert ["STATION"] + args == if o.version.V4? then ["STATION", c.id] else ["STATION", sta, net];
    FirstWord("STATION", args);
  }

  lemma {:induction false} SelectVerb(o: Options, c: Config, s: string)
    ensures Verb(Words(Select(o, c, s).text)) == "SELECT"
  {
    hide Words, JoinWords, WireSelector;
    FirstWord("SELECT", [WireSelector(o.version, s)]);
    assert ["SELECT"] + [WireSelector(o.version, s)] == ["SELECT", WireSelector(o.version, s)];
  }

  lemma {:induction false} EndVerb(o: Options)
    ensures IsEndVerb(Verb(Words(End(o).text)))
  {
    hide Words;
    FirstWord("END", []);
    FirstWord("ENDFETCH", []);
    assert ["END"] + [] == ["END"] && ["ENDFETCH"] + [] == ["ENDFETCH"];
  }

  lemma {:induction false} DataVerb(o: Options, iso: IsoReader, c: Config)
    ensures IsDataVerb(Verb(Words(Data(o, iso, c).text)))
    ensures o.version.V4? ==> Verb(Words(Data(o, iso, c).text)) == "DATA"
  {
    hide Words, JoinWords;
    var words := if o.version.V4? then DataWordsV4(o, c) else DataWordsV3(o, iso, c);
    assert words == [words[0]] + words[1..];
    FirstWord(words[0], words[1..]);
  }

  lemma {:induction false} SelectsAgree(o: Options, c: Config, ss: seq<string>, rest: seq<Command>, multi: bool)
    requires PlanAgrees(o, rest, multi)
    ensures PlanAgrees(o, Selects(o, c, ss) + rest, multi)
  {
    hide Verb, Words, JoinWords, WireSelector;
    if ss == [] {
      assert Selects(o, c, ss) + rest == rest;
    } else {
      SelectVerb(o, c, ss[0]);
      SelectsAgree(o, c, ss[1..], rest, multi);
      var plan := Selects(o, c, ss) + rest;
      assert plan[0] == Select(o, c, ss[0]) && plan[1..] == Selects(o, c, ss[1..]) + rest;
    }
  }

  lemma {:induction false} DataAgrees(o: Options, iso: IsoReader, c: Config, rest: seq<Command>)
    requires PlanAgrees(o, rest, !IsUni(o))
    ensures PlanAgrees(o, [Data(o, iso, c)] + rest, !IsUni(o))
  {
    hide Verb, Words;
    DataVerb(o, iso, c);
    assert ([Data(o, iso, c)] + rest)[1..] == rest;
  }

  lemma {:induction false} BlocksAgree(o: Options, iso: IsoReader, cs: seq<Config>, multi: bool)
    requires !IsUni(o)
    ensures PlanAgrees(o, Blocks(o, iso, cs) + [End(o)], multi)
  {
    hide Verb, Words, Station, Data, Selects;
    var plan := Blocks(o, iso, cs) + [End(o)];
    if cs == [] {
      EndVerb(o);
      assert plan[1..] == [];
    } else {
      var later := Blocks(o, iso, cs[1..]) + [End(o)];
      BlocksAgree(o, iso, cs[1..], true);
      DataAgrees(o, iso, cs[0], later);
      SelectsAgree(o, cs[0], cs[0].selectors, [Data(o, iso, cs[0])] + later, true);
      assert plan[1..] == Selects(o, cs[0], cs[0].selectors) + ([Data(o, iso, cs[0])] + later);
      StationAgrees(o, cs[0], multi);
    }
  }

  lemma {:induction false} StationAgrees(o: Options, c: Config, multi: bool)
    ensures Station(o, c).role.StationRole? && Agrees(o, Station(o, c), multi)
  {
    StationVerb(o, c);
    hide Verb, Words, JoinWords;
  }

  lemma {:induction false} PlanAgreesWithServer(o: Options, iso: IsoReader, cs: seq<Config>)
    requires Plan(o, iso, cs).Ok?
    ensures PlanAgrees(o, Plan(o, iso, cs).value, false)
  {
    if IsUni(o) {
      hide Verb, Words, Data, Selects;
      assert PlanAgrees(o, [], false);
      DataAgrees(o, iso, cs[0], []);
      assert [Data(o, iso, cs[0])] + [] == [Data(o, iso, cs[0])];
      SelectsAgree(o, cs[0], cs[0].selectors, [Data(o, iso, cs[0])], false);
    } else {
      BlocksAgree(o, iso, cs, false);
    }
  }

  lemma {:induction false} ApplyKeeps(v: Server, words: seq<string>, ok: bool)
    ensures Apply(v, words, ok).version == v.version && Apply(v, words, ok).batch == v.batch
    ensures Apply(v, words, ok).multi == (v.multi || Verb(words) == "STATION")
  {
  }

  lemma {:induction false} AgreedAnswer(o: Options, v: Server, cmd: Command)
    requires v.version == o.version && v.batch == o.batchActive && Agrees(o, cmd, v.multi)
    ensures Answers(v, Verb(Words(cmd.text))) <==> !cmd.parse.NoReply?
    ensures Verb(Words(cmd.text)) == "STATION" <==> cmd.role.StationRole?
  {
    hide Words, Verb;
  }

  lemma {:induction false} InStepRun(o: Options, v: Server, w: Walk, plan: seq<Command>, lines: seq<string>)
    requires v.version == o.version && v.batch == o.batchActive && PlanAgrees(o, plan, v.multi)
    ensures var run := RunWalk(w, plan, lines);
            !run.outcome.Starved? ==> Serve(v, run.sent, lines).answered == run.used
    decreases |plan|
  {
    hide Encoded, Interpret, Words, Verb, Apply, Answers;
    if plan != [] {
      var cmd := plan[0];
      var run := RunWalk(w, plan, lines);
      var w1 := Noted(w, cmd);
      if !Sends(w, cmd) {
        InStepRun(o, v, w1, plan[1..], lines);
      } else if Encoded(cmd).Ok? {
        var words := Words(cmd.text);
        AgreedAnswer(o, v, cmd);
        var ok := if cmd.parse.NoReply? then true else lines != [] && LineOk(lines[0]);
        ApplyKeeps(v, words, ok);
        var v1 := Apply(v, words, ok);
        if cmd.parse.NoReply? {
          InStepRun(o, v1, Recorded(w1, cmd, None), plan[1..], lines);
          assert run.sent[0] == cmd && run.sent[1..] == RunWalk(Recorded(w1, cmd, None), plan[1..], lines).sent;
        } else if lines != [] {
          assert run.sent[0] == cmd;
          match Interpret(cmd.parse, lines[0]) {
            case Err(e) =>
              assert run.sent[1..] == [];
            case Ok(resp) =>
              InStepRun(o, v1, Recorded(w1, cmd, Some(resp)), plan[1..], lines[1..]);
              assert run.sent[1..] == RunWalk(Recorded(w1, cmd, Some(resp)), plan[1..], lines[1..]).sent;
          }
        }
      }
    }
  }

  /** For every configuration, shape and reply sequence, the client reads exactly
      as many reply lines as the server answers to the commands it was sent. */
  lemma {:induction false} InStep(o: Options, iso: IsoReader, cs: seq<Config>, lines: seq<string>)
    requires Plan(o, iso, cs).Ok?
    ensures
      var run := RunWalk(FreshWalk, Plan(o, iso, cs).value, lines);
      !run.outcome.Starved? ==> Serve(NewServer(o.version, o.batchActive), run.sent, lines).answered == run.used
  {
    hide Plan;
    PlanAgreesWithServer(o, iso, cs);
    InStepRun(o, NewServer(o.version, o.batchActive), FreshWalk, Plan(o, iso, cs).value, lines);
  }

  /** How many commands are answered does not depend on what the answers say. */
  lemma {:induction false} AnsweredAlike(v: Server, v1: Server, cmds: seq<Command>, a: seq<string>, b: seq<string>)
    requires v1.version == v.version && v1.batch == v.batch && v1.multi == v.multi
    ensures Serve(v, cmds, a).answered == Serve(v1, cmds, b).answered
    decreases |cmds|
  {
    hide Words, Verb, Apply, LineOk;
    if cmds != [] {
      var words := Words(cmds[0].text);
      var answers := Answers(v, Verb(words));
      var okA := !answers || (a != [] && LineOk(a[0]));
      var okB := !answers || (b != [] && LineOk(b[0]));
      ApplyKeeps(v, words, okA);
      ApplyKeeps(v1, words, okB);
      AnsweredAlike(Apply(v, words, okA), Apply(v1, words, okB), cmds[1..],
                    if answers then Rest(a) else a, if answers then Rest(b) else b);
    }
  }

  /** A stream of the server's answers to a negotiation followed by its data:
      a negotiation that succeeded has heard every answer and not a byte of data,
      for every configuration, shape and set of answers. */
  lemma {:induction false} NothingLeftUnread(
    o: Options, iso: IsoReader, cs: seq<Config>, answers: seq<string>, data: seq<byte>, fate: Fate, budget: nat, luck: nat)
    requires Plan(o, iso, cs).Ok? && AreReplies(answers)
    requires
      var t := Converse(FreshWalk, Plan(o, iso, cs).value, EncodeLines(answers) + data, fate, budget, luck);
      t.ending.Welcomed? && Serve(NewServer(o.version, o.batchActive), t.sent, answers).answered == |answers|
    ensures
      var t := Converse(FreshWalk, Plan(o, iso, cs).value, EncodeLines(answers) + data, fate, budget, luck);
      t.heard == answers && t.rest == data
  {
    hide RunWalk, EncodeLines, AreReplies, Serve, Plan, Converse;
    var plan := Plan(o, iso, cs).value;
    var v := NewServer(o.version, o.batchActive);
    var t := Converse(FreshWalk, plan, EncodeLines(answers) + data, fate, budget, luck);
    ConverseIsRun(FreshWalk, plan, EncodeLines(answers) + data, fate, budget, luck);
    InStep(o, iso, cs, t.heard);
    AnsweredAlike(v, v, t.sent, t.heard, answers);
    HeardInOrder(FreshWalk, plan, answers, data, fate, budget, luck);
  }
}
