/** Commands and reply lines on one connection, as a function of the bytes it
    offers: what the send loop of `negotiate()` and the handshake of `connect()`
    send, what they read, and how they end. */
module Exchange {
  import opened Text
  import opened Protocol
  import opened Streams
  import opened Times
  import opened Commands
  import opened Negotiation

  // ----------------------------------------------------------------- lines

  predicate AreReplies(lines: seq<string>) {
    forall i :: 0 <= i < |lines| ==> IsReplyText(lines[i])
  }

  function EncodeLines(lines: seq<string>): seq<byte>
    requires AreReplies(lines)
  {
    if lines == [] then [] else EncodeLine(lines[0]) + EncodeLines(lines[1..])
  }

  /** Reading one line. Whether a line past the limit is taken depends on how its
      bytes arrive: it is while there is `luck` left, the number of such lines
      that happen to be taken. */
  datatype Heard = Text(line: string, rest: seq<byte>, luck: nat) | Mute(error: Error) | TooMuch

  function Hear(s: seq<byte>, fate: Fate, luck: nat): Heard {
    match NextLine(s, fate)
    case Line(t, rest) => Text(t, rest, luck)
    case LineFailed(e) => Mute(e)
    case Overlong(t, rest) => if luck > 0 then Text(t, rest, luck - 1) else TooMuch
  }

  lemma {:induction false} HearReply(t: string, rest: seq<byte>, fate: Fate, luck: nat)
    requires IsReplyText(t)
    ensures Hear(EncodeLine(t) + rest, fate, luck) == Text(t, rest, luck)
  {
    LineRoundTrip(t, rest, fate);
  }

  lemma {:induction false} MoreLuck(s: seq<byte>, fate: Fate, luck: nat, more: nat)
    requires Hear(s, fate, luck).Text?
    ensures Hear(s, fate, luck + more) == Hear(s, fate, luck).(luck := Hear(s, fate, luck).luck + more)
  {
    hide NextLine;
  }

  // ------------------------------------------------------------- conversations

  /** How an exchange ends: everything said and accepted, an error the client
      raises on its own or on what it was told, no line to read, no way to send,
      or a line past the limit refused. */
  datatype Ending = Welcomed | Declined(error: Error) | Unheard(error: Error) | Unsent | Overran

  datatype Talk = Talk(sent: seq<Command>, heard: seq<string>, rest: seq<byte>, ending: Ending)

  function Preceded(cmds: seq<Command>, lines: seq<string>, t: Talk): Talk {
    Talk(cmds + t.sent, lines + t.heard, t.rest, t.ending)
  }

  /** The send loop over `plan` from walk `w`: the stream `s` is all the connection
      will offer, `fate` what comes after it, `budget` how many commands it takes. */
  function Converse(w: Walk, plan: seq<Command>, s: seq<byte>, fate: Fate, budget: nat, luck: nat): Talk
    decreases |plan|
  {
    if plan == [] then Talk([], [], s, if NoneAccepted(w) then Declined(NoStationAccepted) else Welcomed)
    else
      var cmd := plan[0];
      var w1 := Noted(w, cmd);
      if !Sends(w, cmd) then Converse(w1, plan[1..], s, fate, budget, luck)
      else if Encoded(cmd).Err? then Talk([], [], s, Declined(Encoded(cmd).error))
      else if budget == 0 then Talk([], [], s, Unsent)
      else if cmd.parse.NoReply? then
        Preceded([cmd], [], Converse(Recorded(w1, cmd, None), plan[1..], s, fate, budget - 1, luck))
      else
        match Hear(s, fate, luck)
        case Mute(e) => Talk([cmd], [], s, Unheard(e))
        case TooMuch => Talk([cmd], [], s, Overran)
        case Text(line, rest, left) =>
          match Interpret(cmd.parse, line)
          case Err(e) => Talk([cmd], [line], rest, Declined(e))
          case Ok(resp) =>
            Preceded([cmd], [line], Converse(Recorded(w1, cmd, Some(resp)), plan[1..], rest, fate, budget - 1, left))
  }

  /** What the caller of an exchange that ended so is told. */
  predicate Tells(ending: Ending, r: Result<(), Error>) {
    match ending
    case Welcomed => r.Ok?
    case Declined(e) => r == Err(e)
    case Unheard(e) => r == Err(e)
    case Unsent => r == Err(SendFailed)
    case Overran => r in {Err(LineTooLong), Err(NotAscii)}
  }

  /** The bytes of some commands, one entry a command. */
  function Wires(cmds: seq<Command>): seq<seq<byte>> {
    if cmds == [] then []
    else (if Encoded(cmds[0]).Ok? then [Encoded(cmds[0]).value] else []) + Wires(cmds[1..])
  }

  lemma {:induction false} WiresJoin(a: seq<Command>, b: seq<Command>)
    ensures Wires(a + b) == Wires(a) + Wires(b)
  {
    hide Encoded;
    if a == [] {
      assert a + b == b;
    } else {
      assert (a + b)[1..] == a[1..] + b;
      WiresJoin(a[1..], b);
    }
  }

  lemma {:induction false} PrecededTwice(a: seq<Command>, k: seq<string>, b: seq<Command>, l: seq<string>, t: Talk)
    ensures Preceded(a, k, Preceded(b, l, t)) == Preceded(a + b, k + l, t)
  {
    assert a + (b + t.sent) == a + b + t.sent && k + (l + t.heard) == k + l + t.heard;
  }

  /** No more commands are sent than the connection takes. */
  lemma {:induction false} WithinBudget(w: Walk, plan: seq<Command>, s: seq<byte>, fate: Fate, budget: nat, luck: nat)
    ensures |Converse(w, plan, s, fate, budget, luck).sent| <= budget
    decreases |plan|
  {
    hide Encoded, Interpret, Hear;
    if plan != [] {
      var cmd, w1 := plan[0], Noted(w, plan[0]);
      if !Sends(w, cmd) {
        WithinBudget(w1, plan[1..], s, fate, budget, luck);
      } else if Encoded(cmd).Ok? && budget > 0 {
        if cmd.parse.NoReply? {
          WithinBudget(Recorded(w1, cmd, None), plan[1..], s, fate, budget - 1, luck);
        } else if Hear(s, fate, luck).Text? && Interpret(cmd.parse, Hear(s, fate, luck).line).Ok? {
          var h := Hear(s, fate, luck);
          WithinBudget(Recorded(w1, cmd, Some(Interpret(cmd.parse, h.line).value)), plan[1..], h.rest, fate, budget - 1, h.luck);
        }
      }
    }
  }

  lemma {:induction false} PlanIsNoLogin(o: Options, iso: IsoReader, cs: seq<Config>)
    requires Plan(o, iso, cs).Ok?
    ensures forall cmd :: cmd in Plan(o, iso, cs).value ==> !cmd.parse.ExpectAuthOk?
  {
    hide JoinWords, WireSelector, DataWordsV3, DataWordsV4;
    if IsUni(o) {
      SelectsAreTail(o, cs[0], cs[0].selectors);
    } else {
      BlocksAreNoLogin(o, iso, cs);
    }
  }

  lemma {:induction false} BlocksAreNoLogin(o: Options, iso: IsoReader, cs: seq<Config>)
    ensures forall cmd :: cmd in Blocks(o, iso, cs) ==> !cmd.parse.ExpectAuthOk?
  {
    hide JoinWords, DataWordsV3, DataWordsV4;
    if cs != [] {
      SelectsAreTail(o, cs[0], cs[0].selectors);
      BlocksAreNoLogin(o, iso, cs[1..]);
    }
  }

  lemma {:induction false} MuteIsNoRefusal(s: seq<byte>, fate: Fate, luck: nat)
    ensures Hear(s, fate, luck).Mute? ==> Hear(s, fate, luck).error !in {AuthRejected, EncodeFailed}
  {
    hide FindCrlf;
  }

  /** Only AUTH can be refused as a login. */
  lemma {:induction false} NoLoginRefused(w: Walk, plan: seq<Command>, s: seq<byte>, fate: Fate, budget: nat, luck: nat)
    requires forall cmd :: cmd in plan ==> !cmd.parse.ExpectAuthOk?
    ensures Converse(w, plan, s, fate, budget, luck).ending !in {Declined(AuthRejected), Unheard(AuthRejected)}
    decreases |plan|
  {
    hide ParseReply, Hear;
    if plan != [] {
      var cmd, w1 := plan[0], Noted(w, plan[0]);
      assert cmd in plan;
      MuteIsNoRefusal(s, fate, luck);
      if !Sends(w, cmd) {
        NoLoginRefused(w1, plan[1..], s, fate, budget, luck);
      } else if Encoded(cmd).Ok? && budget > 0 {
        if cmd.parse.NoReply? {
          NoLoginRefused(Recorded(w1, cmd, None), plan[1..], s, fate, budget - 1, luck);
        } else if Hear(s, fate, luck).Text? && Interpret(cmd.parse, Hear(s, fate, luck).line).Ok? {
          var h := Hear(s, fate, luck);
          NoLoginRefused(Recorded(w1, cmd, Some(Interpret(cmd.parse, h.line).value)), plan[1..], h.rest, fate, budget - 1, h.luck);
        }
      }
    }
  }

  // ------------------------------------------- what a conversation amounts to

  /** A conversation is a run of the walk over the lines it heard, and sends what
      that run sends; it starves exactly where no line could be read. */
  lemma {:induction false} ConverseIsRun(w: Walk, plan: seq<Command>, s: seq<byte>, fate: Fate, budget: nat, luck: nat)
    ensures
      var t := Converse(w, plan, s, fate, budget, luck);
      var run := RunWalk(w, plan, t.heard);
      && (t.ending.Welcomed? ==> run == Run(t.sent, |t.heard|, Accepted))
      && (t.ending.Declined? ==> run == Run(t.sent, |t.heard|, Refused(t.ending.error)))
      && (t.ending.Unheard? || t.ending.Overran? ==> run == Run(t.sent, |t.heard|, Starved))
    decreases |plan|
  {
    hide Encoded, Interpret, Hear;
    if plan != [] {
      var cmd, w1 := plan[0], Noted(w, plan[0]);
      var t := Converse(w, plan, s, fate, budget, luck);
      if !Sends(w, cmd) {
        ConverseIsRun(w1, plan[1..], s, fate, budget, luck);
      } else if Encoded(cmd).Ok? && budget > 0 {
        if cmd.parse.NoReply? {
          var w2 := Recorded(w1, cmd, None);
          ConverseIsRun(w2, plan[1..], s, fate, budget - 1, luck);
          var t1 := Converse(w2, plan[1..], s, fate, budget - 1, luck);
          assert t == Preceded([cmd], [], t1) && t.heard == t1.heard;
          assert RunWalk(w, plan, t.heard) == Prepend([cmd], 0, RunWalk(w2, plan[1..], t.heard));
        } else if Hear(s, fate, luck).Text? && Interpret(cmd.parse, Hear(s, fate, luck).line).Ok? {
          var h := Hear(s, fate, luck);
          var w2 := Recorded(w1, cmd, Some(Interpret(cmd.parse, h.line).value));
          ConverseIsRun(w2, plan[1..], h.rest, fate, budget - 1, h.luck);
          assert t.heard[1..] == Converse(w2, plan[1..], h.rest, fate, budget - 1, h.luck).heard;
        }
      }
    }
  }

  /** Against these answers on the stream, the conversation hears them. */
  lemma {:induction false} AnswersHeard(
    w: Walk, plan: seq<Command>, answers: seq<string>, data: seq<byte>, fate: Fate, budget: nat, luck: nat)
    requires AreReplies(answers)
    requires var run := RunWalk(w, plan, answers);
             run.outcome == Accepted && run.used == |answers| && |run.sent| <= budget
    ensures Converse(w, plan, EncodeLines(answers) + data, fate, budget, luck)
         == Talk(RunWalk(w, plan, answers).sent, answers, data, Welcomed)
    decreases |plan|
  {
    hide Encoded, Interpret, Hear;
    var s := EncodeLines(answers) + data;
    if plan == [] {
      assert s == data;
    } else {
      var cmd, w1 := plan[0], Noted(w, plan[0]);
      if !Sends(w, cmd) {
        AnswersHeard(w1, plan[1..], answers, data, fate, budget, luck);
      } else if cmd.parse.NoReply? {
        AnswersHeard(Recorded(w1, cmd, None), plan[1..], answers, data, fate, budget - 1, luck);
        assert [] + answers == answers;
      } else {
        var later := EncodeLines(answers[1..]) + data;
        assert s == EncodeLine(answers[0]) + later;
        HearReply(answers[0], later, fate, luck);
        var w2 := Recorded(w1, cmd, Some(Interpret(cmd.parse, answers[0]).value));
        AnswersHeard(w2, plan[1..], answers[1..], data, fate, budget - 1, luck);
        assert [answers[0]] + answers[1..] == answers;
      }
    }
  }

  /** As many lines as there are answers on the stream are those answers, and what
      is left is the data behind them. */
  lemma {:induction false} HeardInOrder(
    w: Walk, plan: seq<Command>, answers: seq<string>, data: seq<byte>, fate: Fate, budget: nat, luck: nat)
    requires AreReplies(answers)
    ensures
      var t := Converse(w, plan, EncodeLines(answers) + data, fate, budget, luck);
      |t.heard| == |answers| ==> t.heard == answers && (t.ending.Welcomed? ==> t.rest == data)
    decreases |plan|
  {
    hide Encoded, Interpret, Hear;
    var s := EncodeLines(answers) + data;
    if plan == [] {
      assert answers == [] ==> s == data;
    } else {
      var cmd, w1 := plan[0], Noted(w, plan[0]);
      if !Sends(w, cmd) {
        HeardInOrder(w1, plan[1..], answers, data, fate, budget, luck);
      } else if Encoded(cmd).Ok? && budget > 0 {
        if cmd.parse.NoReply? {
          HeardInOrder(Recorded(w1, cmd, None), plan[1..], answers, data, fate, budget - 1, luck);
        } else if answers != [] {
          var later := EncodeLines(answers[1..]) + data;
          assert s == EncodeLine(answers[0]) + later;
          HearReply(answers[0], later, fate, luck);
          assert [answers[0]] + answers[1..] == answers;
          if Interpret(cmd.parse, answers[0]).Ok? {
            HeardInOrder(Recorded(w1, cmd, Some(Interpret(cmd.parse, answers[0]).value)), plan[1..], answers[1..], data, fate, budget - 1, luck);
          }
        }
      }
    }
  }

  /** How the bytes arrive matters to nothing but lines past the limit. */
  lemma {:induction false} LuckUnneeded(w: Walk, plan: seq<Command>, s: seq<byte>, fate: Fate, budget: nat, luck: nat)
    requires Converse(w, plan, s, fate, budget, 0).ending != Overran
    ensures Converse(w, plan, s, fate, budget, luck) == Converse(w, plan, s, fate, budget, 0)
    decreases |plan|
  {
    hide Encoded, Interpret, NextLine;
    if plan != [] {
      var cmd, w1 := plan[0], Noted(w, plan[0]);
      if !Sends(w, cmd) {
        LuckUnneeded(w1, plan[1..], s, fate, budget, luck);
      } else if Encoded(cmd).Ok? && budget > 0 {
        if cmd.parse.NoReply? {
          LuckUnneeded(Recorded(w1, cmd, None), plan[1..], s, fate, budget - 1, luck);
        } else if Hear(s, fate, 0).Text? && Interpret(cmd.parse, Hear(s, fate, 0).line).Ok? {
          var h := Hear(s, fate, 0);
          LuckUnneeded(Recorded(w1, cmd, Some(Interpret(cmd.parse, h.line).value)), plan[1..], h.rest, fate, budget - 1, luck);
        }
      }
    }
  }

  // -------------------------------------------------------------- step by step

  /** A send loop under way: where it began, and what it has sent and heard. */
  datatype Log = Log(plan: seq<Command>, s: seq<byte>, fate: Fate, budget: nat, luck: nat, cmds: seq<Command>, lines: seq<string>)

  function Whole(log: Log, extra: nat): Talk {
    Converse(FreshWalk, log.plan, log.s, log.fate, log.budget, log.luck + extra)
  }

  /** The loop stands at `w` with `rest` of the plan, `s` of the stream and `b` of
      the budget: whatever luck it has from here on, the whole conversation is what
      is logged followed by what is left. */
  ghost predicate SoFar(log: Log, w: Walk, rest: seq<Command>, s: seq<byte>, b: nat) {
    forall extra: nat {:trigger Converse(w, rest, s, log.fate, b, extra)} ::
      Whole(log, extra) == Preceded(log.cmds, log.lines, Converse(w, rest, s, log.fate, b, extra))
  }

  lemma {:induction false} StartOfPlan(plan: seq<Command>, s: seq<byte>, fate: Fate, b: nat)
    ensures SoFar(Log(plan, s, fate, b, 0, [], []), FreshWalk, plan[0..], s, b)
  {
    hide Converse;
    assert plan[0..] == plan;
  }

  lemma {:induction false} SkippedCommand(log: Log, w: Walk, cmd: Command, rest: seq<Command>, s: seq<byte>, b: nat)
    requires SoFar(log, w, [cmd] + rest, s, b) && !Sends(w, cmd)
    ensures SoFar(log, Noted(w, cmd), rest, s, b)
  {
    forall extra: nat {:trigger Converse(Noted(w, cmd), rest, s, log.fate, b, extra)}
      ensures Whole(log, extra) == Preceded(log.cmds, log.lines, Converse(Noted(w, cmd), rest, s, log.fate, b, extra))
    {
      assert ([cmd] + rest)[1..] == rest;
      assert Converse(w, [cmd] + rest, s, log.fate, b, extra) == Converse(Noted(w, cmd), rest, s, log.fate, b, extra);
    }
  }

  lemma {:induction false} SilentCommand(log: Log, w: Walk, cmd: Command, rest: seq<Command>, s: seq<byte>, b: nat)
    requires SoFar(log, w, [cmd] + rest, s, b) && Sends(w, cmd) && Encoded(cmd).Ok? && cmd.parse.NoReply? && b > 0
    ensures SoFar(log.(cmds := log.cmds + [cmd]), Recorded(Noted(w, cmd), cmd, None), rest, s, b - 1)
  {
    hide Encoded;
    var w1 := Recorded(Noted(w, cmd), cmd, None);
    forall extra: nat {:trigger Converse(w1, rest, s, log.fate, b - 1, extra)}
      ensures Whole(log, extra) == Preceded(log.cmds + [cmd], log.lines, Converse(w1, rest, s, log.fate, b - 1, extra))
    {
      assert ([cmd] + rest)[1..] == rest;
      assert Converse(w, [cmd] + rest, s, log.fate, b, extra) == Preceded([cmd], [], Converse(w1, rest, s, log.fate, b - 1, extra));
      PrecededTwice(log.cmds, log.lines, [cmd], [], Converse(w1, rest, s, log.fate, b - 1, extra));
      assert log.lines + [] == log.lines;
    }
  }

  /** `luck` is 1 when the line was past the limit and taken, else 0. */
  lemma {:induction false} AnsweredCommand(log: Log, w: Walk, cmd: Command, rest: seq<Command>, s: seq<byte>, b: nat, luck: nat)
    requires SoFar(log, w, [cmd] + rest, s, b) && Sends(w, cmd) && Encoded(cmd).Ok? && !cmd.parse.NoReply? && b > 0
    requires luck == (if NextLine(s, log.fate).Overlong? then 1 else 0)
    requires Hear(s, log.fate, luck).Text? && Interpret(cmd.parse, Hear(s, log.fate, luck).line).Ok?
    ensures
      var h := Hear(s, log.fate, luck);
      SoFar(log.(luck := log.luck + luck, cmds := log.cmds + [cmd], lines := log.lines + [h.line]),
            Recorded(Noted(w, cmd), cmd, Some(Interpret(cmd.parse, h.line).value)), rest, h.rest, b - 1)
  {
    hide Encoded, Interpret, NextLine;
    var h := Hear(s, log.fate, luck);
    var w1 := Recorded(Noted(w, cmd), cmd, Some(Interpret(cmd.parse, h.line).value));
    forall extra: nat {:trigger Converse(w1, rest, h.rest, log.fate, b - 1, extra)}
      ensures Whole(log.(luck := log.luck + luck), extra)
           == Preceded(log.cmds + [cmd], log.lines + [h.line], Converse(w1, rest, h.rest, log.fate, b - 1, extra))
    {
      var later := Converse(w1, rest, h.rest, log.fate, b - 1, extra);
      assert ([cmd] + rest)[1..] == rest;
      assert Hear(s, log.fate, luck + extra) == Text(h.line, h.rest, extra);
      assert Converse(w, [cmd] + rest, s, log.fate, b, luck + extra) == Preceded([cmd], [h.line], later);
      assert Whole(log, luck + extra) == Preceded(log.cmds, log.lines, Converse(w, [cmd] + rest, s, log.fate, b, luck + extra));
      PrecededTwice(log.cmds, log.lines, [cmd], [h.line], later);
    }
  }

  /** The conversation stops at this command, for an error of its own, an answer
      that is refused, or no answer. */
  function StoppedTalk(log: Log, cmd: Command, s: seq<byte>, b: nat, luck: nat): Talk {
    if Encoded(cmd).Err? then Talk(log.cmds, log.lines, s, Declined(Encoded(cmd).error))
    else if b == 0 then Talk(log.cmds, log.lines, s, Unsent)
    else
      match Hear(s, log.fate, luck)
      case Mute(e) => Talk(log.cmds + [cmd], log.lines, s, Unheard(e))
      case TooMuch => Talk(log.cmds + [cmd], log.lines, s, Overran)
      case Text(line, rest, _) =>
        Talk(log.cmds + [cmd], log.lines + [line], rest,
             if Interpret(cmd.parse, line).Err? then Declined(Interpret(cmd.parse, line).error) else Welcomed)
  }

  lemma {:induction false} StoppedCommand(log: Log, w: Walk, cmd: Command, rest: seq<Command>, s: seq<byte>, b: nat, luck: nat)
    requires SoFar(log, w, [cmd] + rest, s, b) && Sends(w, cmd)
    requires Encoded(cmd).Ok? && b > 0 ==>
      !cmd.parse.NoReply? && (Hear(s, log.fate, luck).Text? ==> Interpret(cmd.parse, Hear(s, log.fate, luck).line).Err?)
    ensures Whole(log, luck) == StoppedTalk(log, cmd, s, b, luck)
  {
    hide Encoded, Interpret, Hear;
    assert Whole(log, luck) == Preceded(log.cmds, log.lines, Converse(w, [cmd] + rest, s, log.fate, b, luck));
    assert log.cmds + [] == log.cmds && log.lines + [] == log.lines;
  }

  lemma {:induction false} WholeNow(log: Log)
    ensures Whole(log, 0) == Converse(FreshWalk, log.plan, log.s, log.fate, log.budget, log.luck)
  {
    hide Converse;
  }

  lemma {:induction false} EndOfPlan(log: Log, w: Walk, s: seq<byte>, b: nat)
    requires SoFar(log, w, [], s, b)
    ensures Whole(log, 0) == Talk(log.cmds, log.lines, s, if NoneAccepted(w) then Declined(NoStationAccepted) else Welcomed)
  {
    assert Whole(log, 0) == Preceded(log.cmds, log.lines, Converse(w, [], s, log.fate, b, 0));
    assert log.cmds + [] == log.cmds && log.lines + [] == log.lines;
  }

  // ------------------------------------------------------------------ connecting

  type HelloReader = (string, string) -> Result<(Version, bool), Error>

  /** What the client says of itself in the handshake. */
  datatype Identity = Identity(hello: HelloReader, agent: string, auth: Auth, wantBatch: bool)

  const HELLO := Generic("HELLO", NoReply)

  /** Two lines, or how far that got. */
  datatype Pair = Two(line1: string, line2: string, rest: seq<byte>) | Short(heard: seq<string>, rest: seq<byte>, ending: Ending)

  function HearTwo(s: seq<byte>, fate: Fate, luck: nat): Pair {
    match Hear(s, fate, luck)
    case Mute(e) => Short([], s, Unheard(e))
    case TooMuch => Short([], s, Overran)
    case Text(line1, s1, left) =>
      match Hear(s1, fate, left)
      case Mute(e) => Short([line1], s1, Unheard(e))
      case TooMuch => Short([line1], s1, Overran)
      case Text(line2, s2, _) => Two(line1, line2, s2)
  }

  /** The pair, from the two lines heard each with its own luck. */
  lemma {:induction false} PairHeard(s: seq<byte>, fate: Fate, luck: nat, more: nat)
    requires Hear(s, fate, luck).Text? ==> Hear(s, fate, luck).luck == 0
    ensures
      match Hear(s, fate, luck)
      case Mute(e) => HearTwo(s, fate, luck) == Short([], s, Unheard(e))
      case TooMuch => HearTwo(s, fate, luck) == Short([], s, Overran)
      case Text(line1, s1, _) =>
        HearTwo(s, fate, luck + more) ==
        match Hear(s1, fate, more)
        case Mute(e) => Short([line1], s1, Unheard(e))
        case TooMuch => Short([line1], s1, Overran)
        case Text(line2, s2, _) => Two(line1, line2, s2)
  {
    if Hear(s, fate, luck).Text? {
      MoreLuck(s, fate, luck, more);
    }
    hide Hear;
  }

  /** HELLO and its two lines: the version agreed on and whether the server has
      CAPABILITIES, or how that failed. */
  datatype Greeting = Greeted(version: Version, cap: bool, heard: seq<string>, rest: seq<byte>) | Unmet(talk: Talk)

  function Hail(hello: HelloReader, s: seq<byte>, fate: Fate, budget: nat, luck: nat): Greeting {
    if budget == 0 then Unmet(Talk([], [], s, Unsent))
    else
      match HearTwo(s, fate, luck)
      case Short(lines, rest, ending) => Unmet(Talk([HELLO], lines, rest, ending))
      case Two(line1, line2, rest) =>
        match hello(line1, line2)
        case Err(e) => Unmet(Talk([HELLO], [line1, line2], rest, Declined(e)))
        case Ok((version, cap)) => Greeted(version, cap, [line1, line2], rest)
  }

  /** Whether the last BATCH of a handshake was answered OK. */
  predicate BatchAgreed(plan: seq<Command>, lines: seq<string>)
  {
    var n := |plan|;
    n > 0 && n == |lines| && if plan[n - 1].text == "BATCH" then LineOk(lines[n - 1]) else BatchAgreed(plan[..n - 1], lines[..n - 1])
  }

  lemma {:induction false} BatchAgreedSnoc(cmds: seq<Command>, lines: seq<string>, cmd: Command, line: string)
    requires |cmds| == |lines|
    ensures BatchAgreed(cmds + [cmd], lines + [line]) == if cmd.text == "BATCH" then LineOk(line) else BatchAgreed(cmds, lines)
  {
    hide LineOk;
    assert (cmds + [cmd])[..|cmds|] == cmds && (lines + [line])[..|lines|] == lines;
  }

  lemma {:induction false} HelloWires()
    ensures Encoded(HELLO).Ok? && Wires([HELLO]) == [Encoded(HELLO).value]
  {
    assert [HELLO][1..] == [];
  }

  lemma {:induction false} InterpretedReply(parse: Parse, line: string)
    ensures Interpret(parse, line).Ok? ==> Interpret(parse, line).value == ParseReply(line)
  {
  }

  /** A whole `connect()` on a fresh connection; `version` and `batch` count when
      it is welcomed. */
  datatype Meeting = Meeting(version: Version, batch: bool, talk: Talk)

  function Meet(me: Identity, s: seq<byte>, fate: Fate, budget: nat, luck: nat, luck2: nat): Meeting {
    match Hail(me.hello, s, fate, budget, luck)
    case Unmet(t) => Meeting(V3, false, t)
    case Greeted(version, cap, lines, rest) =>
      match PlanHandshake(version, cap, me.agent, me.auth, me.wantBatch)
      case Err(e) => Meeting(version, false, Talk([HELLO], lines, rest, Declined(e)))
      case Ok(cmds) =>
        var t := Converse(FreshWalk, cmds, rest, fate, if budget > 0 then budget - 1 else 0, luck2);
        Meeting(version, BatchAgreed(cmds, t.heard), Preceded([HELLO], lines, t))
  }

  /** A greeting and a handshake accepted line by line make a connection. */
  lemma {:induction false} HandshakeHeard(
    me: Identity, line1: string, line2: string, version: Version, cap: bool, cmds: seq<Command>, answers: seq<string>,
    data: seq<byte>, fate: Fate, budget: nat)
    requires IsReplyText(line1) && IsReplyText(line2) && me.hello(line1, line2) == Ok((version, cap))
    requires PlanHandshake(version, cap, me.agent, me.auth, me.wantBatch) == Ok(cmds)
    requires AreReplies(answers)
    requires var run := RunWalk(FreshWalk, cmds, answers); run.outcome == Accepted && run.used == |answers| && |run.sent| < budget
    ensures Meet(me, EncodeLine(line1) + (EncodeLine(line2) + (EncodeLines(answers) + data)), fate, budget, 0, 0)
         == Meeting(version, BatchAgreed(cmds, answers),
                    Talk([HELLO] + RunWalk(FreshWalk, cmds, answers).sent, [line1, line2] + answers, data, Welcomed))
  {
    hide PlanHandshake, RunWalk, Converse, Hear, BatchAgreed;
    HearReply(line1, EncodeLine(line2) + (EncodeLines(answers) + data), fate, 0);
    HearReply(line2, EncodeLines(answers) + data, fate, 0);
    AnswersHeard(FreshWalk, cmds, answers, data, fate, budget - 1, 0);
  }
}
