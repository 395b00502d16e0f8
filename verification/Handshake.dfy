/** What a server that reads the handshake as text learns of the client, and what
    becomes of its refusals. */
module Handshakes {
  import opened Text
  import opened Protocol
  import opened Commands
  import opened Negotiation
  import opened Exchange
  import opened CommandLines

  // --------------------------------------------------------------- the server

  datatype Login = Anonymous | Password(user: string, password: string) | WebToken(token: string)

  /** A client as the server knows it. */
  datatype Visitor = Visitor(protocol: Option<string>, agent: Option<string>, login: Login, extReply: bool, batch: bool)

  const Stranger := Visitor(None, None, Anonymous, false, false)

  /** Words are parted by single spaces. USERAGENT and AUTH belong to the protocol
      SLPROTO chose; in BATCH mode CAPABILITIES would go unanswered. */
  function Learns(v: Visitor, text: string): Visitor {
    var (verb, _, rest) := Partition(text, ' ');
    if verb == "SLPROTO" then v.(protocol := Some(rest))
    else if verb == "USERAGENT" && v.protocol.Some? then v.(agent := Some(rest))
    else if verb == "AUTH" && v.protocol.Some? then v.(login := LoginIn(rest))
    else if verb == "CAPABILITIES" && !v.batch then v.(extReply := v.extReply || "EXTREPLY" in Fields(rest, ' '))
    else if text == "BATCH" then v.(batch := true)
    else v
  }

  function LoginIn(text: string): Login {
    var (kind, _, rest) := Partition(text, ' ');
    var parts := Fields(rest, ' ');
    if kind == "JWT" then WebToken(rest)
    else if kind == "USERPASS" && |parts| == 2 then Password(parts[0], parts[1])
    else Anonymous
  }

  function LearnsAll(v: Visitor, texts: seq<string>): Visitor
    decreases |texts|
  {
    if texts == [] then v else LearnsAll(Learns(v, texts[0]), texts[1..])
  }

  /** The login the client is configured with. */
  function LoginOf(auth: Auth): Login {
    match auth
    case NoAuth => Anonymous
    case UserPass(u, p) => Password(u, p)
    case Token(t) => WebToken(t)
  }

  /** A user or password with a space could not be told apart on the line. */
  predicate IsAmbiguous(auth: Auth) {
    auth.UserPass? && (' ' in auth.user || ' ' in auth.password)
  }

  // ------------------------------------------------------------ what it learns

  lemma {:induction false} VerbOf(verb: string, rest: string)
    requires ' ' !in verb
    ensures Partition(verb + " " + rest, ' ') == (verb, true, rest)
  {
    PartitionOfJoin(verb, ' ', rest);
    assert verb + " " + rest == verb + [' '] + rest;
  }

  lemma {:induction false} LoginRead(auth: Auth)
    requires auth.Token? || (auth.UserPass? && !IsAmbiguous(auth))
    ensures
      var text := if auth.Token? then "JWT " + auth.jwt else "USERPASS " + auth.user + " " + auth.password;
      LoginIn(text) == LoginOf(auth)
  {
    hide Partition, Fields;
    if auth.Token? {
      VerbOf("JWT", auth.jwt);
      assert "JWT" + " " + auth.jwt == "JWT " + auth.jwt;
    } else {
      var rest := auth.user + " " + auth.password;
      VerbOf("USERPASS", rest);
      assert "USERPASS" + " " + rest == "USERPASS " + auth.user + " " + auth.password;
      FieldsOfJoin([auth.user, auth.password], ' ');
      assert [auth.user, auth.password][1..] == [auth.password];
      assert JoinFields([auth.user, auth.password], ' ') == rest;
    }
  }

  lemma {:induction false} LearnsOne(v: Visitor, verb: string, rest: string)
    requires ' ' !in verb
    ensures
      Learns(v, verb + " " + rest) ==
      if verb == "SLPROTO" then v.(protocol := Some(rest))
      else if verb == "USERAGENT" && v.protocol.Some? then v.(agent := Some(rest))
      else if verb == "AUTH" && v.protocol.Some? then v.(login := LoginIn(rest))
      else if verb == "CAPABILITIES" && !v.batch then v.(extReply := v.extReply || "EXTREPLY" in Fields(rest, ' '))
      else v
  {
    VerbOf(verb, rest);
    assert (verb + " " + rest)[|verb|] == ' ';
    hide Partition, Fields, LoginIn;
  }

  lemma {:induction false} LearnsAgent(v: Visitor, agent: string)
    requires v.protocol.Some?
    ensures Learns(v, "USERAGENT " + agent) == v.(agent := Some(agent))
  {
    hide Learns;
    LearnsOne(v, "USERAGENT", agent);
    assert "USERAGENT" + " " + agent == "USERAGENT " + agent;
  }

  lemma {:induction false} LearnsLogin(v: Visitor, auth: Auth)
    requires v.protocol.Some? && (auth.Token? || (auth.UserPass? && !IsAmbiguous(auth)))
    ensures
      var text := if auth.Token? then "AUTH JWT " + auth.jwt else "AUTH USERPASS " + auth.user + " " + auth.password;
      Learns(v, text) == v.(login := LoginOf(auth))
  {
    hide Learns, LoginIn;
    LoginRead(auth);
    var rest := if auth.Token? then "JWT " + auth.jwt else "USERPASS " + auth.user + " " + auth.password;
    LearnsOne(v, "AUTH", rest);
    assert "AUTH" + " " + rest == if auth.Token? then "AUTH JWT " + auth.jwt else "AUTH USERPASS " + auth.user + " " + auth.password;
  }

  lemma {:induction false} LearnsProtocol(v: Visitor)
    ensures Learns(v, "SLPROTO 4.0") == v.(protocol := Some("4.0"))
    ensures !v.batch ==> Learns(v, "CAPABILITIES EXTREPLY") == v.(extReply := true)
    ensures Learns(v, "BATCH") == v.(batch := true)
    ensures Learns(v, "HELLO") == v
  {
    hide Learns, LoginIn;
    LearnsOne(v, "SLPROTO", "4.0");
    LearnsOne(v, "CAPABILITIES", "EXTREPLY");
    TwoPartTexts();
    FieldsOfJoin(["EXTREPLY"], ' ');
    LearnsBare(v, "BATCH");
    LearnsBare(v, "HELLO");
  }

  lemma {:induction false} TwoPartTexts()
    ensures "SLPROTO" + " " + "4.0" == "SLPROTO 4.0"
    ensures "CAPABILITIES" + " " + "EXTREPLY" == "CAPABILITIES EXTREPLY"
  {
    assert "CAPABILITIES" + " " == "CAPABILITIES ";
    assert "CAPABILITIES " + "EXTREPLY" == "CAPABILITIES EXTREPLY";
  }

  lemma {:induction false} LearnsBare(v: Visitor, verb: string)
    requires ' ' !in verb && verb in {"BATCH", "HELLO"}
    ensures Learns(v, verb) == if verb == "BATCH" then v.(batch := true) else v
  {
    assert Partition(verb, ' ').0 == verb;
    hide Partition, Fields, LoginIn;
  }

  lemma {:induction false} LearnsStep(v: Visitor, text: string, rest: seq<string>)
    ensures LearnsAll(v, [text] + rest) == LearnsAll(Learns(v, text), rest)
  {
    assert ([text] + rest)[1..] == rest;
  }

  /** What the client is set up to say of itself. */
  function Introduced(version: Version, hasCap: bool, agent: string, auth: Auth, wantBatch: bool): Visitor {
    if version.V4? then Visitor(Some("4.0"), Some(agent), LoginOf(auth), false, false)
    else Visitor(None, None, Anonymous, hasCap, wantBatch)
  }

  /** The handshake exists exactly when the credentials can be told apart, and a
      server that reads it, HELLO before it, knows exactly the client's settings. */
  lemma {:induction false} HandshakeUnderstood(version: Version, hasCap: bool, agent: string, auth: Auth, wantBatch: bool)
    ensures
      match PlanHandshake(version, hasCap, agent, auth, wantBatch)
      case Err(e) => version.V4? && IsAmbiguous(auth) && e == BadCredentials
      case Ok(cmds) =>
        && !(version.V4? && IsAmbiguous(auth))
        && LearnsAll(Stranger, ["HELLO"] + TextsOf(cmds)) == Introduced(version, hasCap, agent, auth, wantBatch)
  {
    var plan := PlanHandshake(version, hasCap, agent, auth, wantBatch);
    if plan.Ok? {
      var texts := TextsOf(plan.value);
      HandshakeTexts(version, hasCap, agent, auth, wantBatch);
      assert !(version.V4? && IsAmbiguous(auth));
      hide PlanHandshake, Learns, LearnsAll, LoginOf, IsAmbiguous;
      LearnsProtocol(Stranger);
      LearnsStep(Stranger, "HELLO", texts);
      if version.V4? {
        UnderstoodV4(agent, auth, texts);
      } else {
        UnderstoodV3(hasCap, wantBatch, texts);
      }
    }
  }

  function LoginTexts(auth: Auth): seq<string> {
    match auth
    case NoAuth => []
    case Token(t) => ["AUTH JWT " + t]
    case UserPass(u, p) => ["AUTH USERPASS " + u + " " + p]
  }

  lemma {:induction false} HandshakeTexts(version: Version, hasCap: bool, agent: string, auth: Auth, wantBatch: bool)
    requires PlanHandshake(version, hasCap, agent, auth, wantBatch).Ok?
    ensures
      var texts := TextsOf(PlanHandshake(version, hasCap, agent, auth, wantBatch).value);
      && (version.V4? ==> texts == ["SLPROTO 4.0"] + (["USERAGENT " + agent] + LoginTexts(auth)))
      && (version.V3? ==> texts == (if hasCap then ["CAPABILITIES EXTREPLY"] else []) + if wantBatch then ["BATCH"] else [])
  {
  }

  lemma {:induction false} UnderstoodV4(agent: string, auth: Auth, texts: seq<string>)
    requires texts == ["SLPROTO 4.0"] + (["USERAGENT " + agent] + LoginTexts(auth)) && !IsAmbiguous(auth)
    ensures LearnsAll(Stranger, texts) == Visitor(Some("4.0"), Some(agent), LoginOf(auth), false, false)
  {
    hide Learns, LearnsAll, LoginOf, LoginTexts, IsAmbiguous;
    var v1 := Stranger.(protocol := Some("4.0"));
    LearnsProtocol(Stranger);
    LearnsStep(Stranger, "SLPROTO 4.0", ["USERAGENT " + agent] + LoginTexts(auth));
    LearnsStep(v1, "USERAGENT " + agent, LoginTexts(auth));
    LearnsAgent(v1, agent);
    LearnsAuth(v1.(agent := Some(agent)), auth, LoginTexts(auth));
  }

  lemma {:induction false} LearnsAuth(v: Visitor, auth: Auth, login: seq<string>)
    requires v.protocol.Some? && v.login == Anonymous && !IsAmbiguous(auth)
    requires login == LoginTexts(auth)
    ensures LearnsAll(v, login) == v.(login := LoginOf(auth))
  {
    if auth != NoAuth {
      LearnsLogin(v, auth);
      hide Learns;
      assert login[1..] == [];
    }
  }

  lemma {:induction false} UnderstoodV3(hasCap: bool, wantBatch: bool, texts: seq<string>)
    requires texts == (if hasCap then ["CAPABILITIES EXTREPLY"] else []) + if wantBatch then ["BATCH"] else []
    ensures LearnsAll(Stranger, texts) == Visitor(None, None, Anonymous, hasCap, wantBatch)
  {
    LearnsProtocol(Stranger);
    LearnsProtocol(Stranger.(extReply := true));
    hide Learns;
    var batch := if wantBatch then ["BATCH"] else [];
    if hasCap {
      LearnsStep(Stranger, "CAPABILITIES EXTREPLY", batch);
    } else {
      assert texts == batch;
    }
    if wantBatch {
      assert batch[1..] == [];
    }
  }

  // ------------------------------------------------------------------ refusals

  predicate IsLoginText(text: string) { "AUTH " <= text }

  /** A handshake command, by its text: a refused login is an authentication error,
      a refused BATCH is nothing, any other refusal an error with its own reason. */
  predicate IsOfHandshake(cmd: Command) {
    && cmd.role.GenericRole?
    && cmd.parse == if IsLoginText(cmd.text) then ExpectAuthOk else if cmd.text == "BATCH" then AnyReply else ExpectOk
  }

  lemma {:induction false} HandshakeCommands(version: Version, hasCap: bool, agent: string, auth: Auth, wantBatch: bool)
    requires PlanHandshake(version, hasCap, agent, auth, wantBatch).Ok?
    ensures forall cmd :: cmd in PlanHandshake(version, hasCap, agent, auth, wantBatch).value ==> IsOfHandshake(cmd)
  {
    assert "USERAGENT "[0] == 'U' && ("USERAGENT " + agent)[0] == 'U' && "SLPROTO 4.0"[0] == 'S' && "AUTH "[0] == 'A';
    assert "BATCH"[0] == 'B' && "CAPABILITIES EXTREPLY"[0] == 'C';
    if auth.Token? {
      assert "AUTH JWT " + auth.jwt == "AUTH " + ("JWT " + auth.jwt);
    }
    if auth.UserPass? {
      assert "AUTH USERPASS " + auth.user + " " + auth.password == "AUTH " + ("USERPASS " + auth.user + " " + auth.password);
    }
  }

  /** The exchange ended on a refusal: the last line heard answers the last command
      sent, and is no yes. */
  predicate EndsRefused(t: Talk) {
    t.sent != [] && |t.heard| == |t.sent| && !LineOk(t.heard[|t.heard| - 1]) && t.sent[|t.sent| - 1].text != "BATCH"
  }

  /** A refused login, and nothing else, is the error that ends the retries; another
      refusal has the reason given. */
  predicate IsToldRight(t: Talk) {
    var n := |t.sent|;
    && (EndsRefused(t) ==>
          t.ending == Declined(
            if IsLoginText(t.sent[n - 1].text) then AuthRejected
            else Rejected(ParseReply(t.heard[n - 1]).code, ParseReply(t.heard[n - 1]).message)))
    && (t.ending == Declined(AuthRejected) ==> EndsRefused(t) && IsLoginText(t.sent[n - 1].text))
  }

  lemma {:induction false} ToldBefore(cmd: Command, line: string, t: Talk)
    requires IsToldRight(t) && |t.heard| <= |t.sent| && (t.sent == [] ==> t.heard == []) && (LineOk(line) || cmd.text == "BATCH")
    ensures IsToldRight(Preceded([cmd], [line], t))
  {
    hide ParseReply, IsLoginText;
    var all := Preceded([cmd], [line], t);
    if t.sent != [] {
      assert all.sent[|all.sent| - 1] == t.sent[|t.sent| - 1];
      if |t.heard| == |t.sent| {
        assert all.heard[|all.heard| - 1] == t.heard[|t.heard| - 1];
      }
    }
  }

  lemma {:induction false} ToldOfOne(cmd: Command, line: string, rest: seq<byte>)
    requires IsOfHandshake(cmd) && Interpret(cmd.parse, line).Err?
    ensures IsToldRight(Talk([cmd], [line], rest, Declined(Interpret(cmd.parse, line).error)))
  {
    InterpretOf(cmd, line);
    hide Interpret, ParseReply, IsLoginText;
  }

  lemma {:induction false} NoMoreHeard(w: Walk, cmds: seq<Command>, s: seq<byte>, fate: Fate, budget: nat, luck: nat)
    requires forall cmd :: cmd in cmds ==> IsOfHandshake(cmd)
    ensures
      var t := Converse(w, cmds, s, fate, budget, luck);
      |t.heard| <= |t.sent| && (t.ending.Welcomed? || t.ending.Declined? ==> |t.heard| == |t.sent|)
      && (t.ending.Welcomed? ==> t.sent == cmds)
      && (t.ending.Unheard? || t.ending.Overran? ==> |t.heard| < |t.sent|)
    decreases |cmds|
  {
    hide Encoded, Interpret, Hear, IsLoginText;
    assert cmds != [] ==> cmds[0] in cmds;
    if cmds != [] && Encoded(cmds[0]).Ok? && budget > 0 {
      var h := Hear(s, fate, luck);
      if h.Text? && Interpret(cmds[0].parse, h.line).Ok? {
        var w1 := Recorded(Noted(w, cmds[0]), cmds[0], Some(Interpret(cmds[0].parse, h.line).value));
        NoMoreHeard(w1, cmds[1..], h.rest, fate, budget - 1, h.luck);
        assert [cmds[0]] + cmds[1..] == cmds;
      }
    }
  }

  lemma {:induction false} InterpretOf(cmd: Command, line: string)
    requires IsOfHandshake(cmd)
    ensures Interpret(cmd.parse, line) ==
      if LineOk(line) || cmd.text == "BATCH" then Ok(ParseReply(line))
      else if IsLoginText(cmd.text) then Err(AuthRejected)
      else Err(Rejected(ParseReply(line).code, ParseReply(line).message))
  {
    hide ParseReply;
    assert "BATCH"[0] == 'B' && "AUTH "[0] == 'A';
  }

  /** How the refusals of a handshake are told. */
  lemma {:induction false} RefusalsTold(w: Walk, cmds: seq<Command>, s: seq<byte>, fate: Fate, budget: nat, luck: nat)
    requires forall cmd :: cmd in cmds ==> IsOfHandshake(cmd)
    ensures IsToldRight(Converse(w, cmds, s, fate, budget, luck))
    decreases |cmds|
  {
    hide Encoded, Interpret, Hear, ParseReply, IsLoginText;
    assert cmds != [] ==> cmds[0] in cmds;
    if cmds != [] && Encoded(cmds[0]).Err? {
      EncodedErrors(cmds[0]);
    } else if cmds != [] && budget > 0 && Hear(s, fate, luck).Text? {
      hide IsToldRight, IsOfHandshake;
      var h, cmd := Hear(s, fate, luck), cmds[0];
      HandshakeSends(w, cmd);
      if Interpret(cmd.parse, h.line).Ok? {
        var w1 := Recorded(Noted(w, cmd), cmd, Some(Interpret(cmd.parse, h.line).value));
        RefusalsTold(w1, cmds[1..], h.rest, fate, budget - 1, h.luck);
        NoMoreHeard(w1, cmds[1..], h.rest, fate, budget - 1, h.luck);
        InterpretOf(cmd, h.line);
        ToldBefore(cmd, h.line, Converse(w1, cmds[1..], h.rest, fate, budget - 1, h.luck));
      } else {
        ToldOfOne(cmd, h.line, h.rest);
      }
    }
  }

  lemma {:induction false} HandshakeSends(w: Walk, cmd: Command)
    requires IsOfHandshake(cmd)
    ensures Sends(w, cmd) && !cmd.parse.NoReply?
  {
  }

  lemma {:induction false} EncodedErrors(cmd: Command)
    requires Encoded(cmd).Err?
    ensures Encoded(cmd).error in {EncodeFailed, CommandTooLong}
  {
  }

  // --------------------------------------------------------------- on the wire

  /** Nothing the client says of itself breaks its line. */
  predicate IsSayable(me: Identity) {
    && IsOneLine(me.agent)
    && match me.auth
       case NoAuth => true
       case Token(t) => IsOneLine(t)
       case UserPass(u, p) => IsOneLine(u) && IsOneLine(p)
  }

  lemma {:induction false} OneLineJoined(a: string, b: string)
    requires IsOneLine(a) && IsOneLine(b)
    ensures IsOneLine(a + b)
  {
  }

  lemma {:induction false} LiteralsAreOneLine()
    ensures IsOneLine("SLPROTO 4.0") && IsOneLine("USERAGENT ") && IsOneLine("AUTH JWT ") && IsOneLine("AUTH USERPASS ")
    ensures IsOneLine(" ") && IsOneLine("CAPABILITIES EXTREPLY") && IsOneLine("BATCH") && IsOneLine("HELLO")
  {
    MoreLiterals();
  }

  lemma {:induction false} MoreLiterals()
    ensures IsOneLine("AUTH JWT ") && IsOneLine("AUTH USERPASS ") && IsOneLine("CAPABILITIES EXTREPLY")
  {
  }

  lemma {:induction false} LoginIsOneLine(auth: Auth)
    requires auth.Token? ==> IsOneLine(auth.jwt)
    requires auth.UserPass? ==> IsOneLine(auth.user) && IsOneLine(auth.password)
    ensures forall text :: text in LoginTexts(auth) ==> IsOneLine(text)
  {
    LiteralsAreOneLine();
    hide IsOneLine;
    match auth {
      case NoAuth =>
      case Token(t) => OneLineJoined("AUTH JWT ", t);
      case UserPass(u, p) =>
        OneLineJoined("AUTH USERPASS ", u);
        OneLineJoined("AUTH USERPASS " + u, " ");
        OneLineJoined("AUTH USERPASS " + u + " ", p);
    }
  }

  lemma {:induction false} HandshakeIsOneLine(me: Identity, version: Version, hasCap: bool)
    requires IsSayable(me) && PlanHandshake(version, hasCap, me.agent, me.auth, me.wantBatch).Ok?
    ensures AreOneLine([HELLO] + PlanHandshake(version, hasCap, me.agent, me.auth, me.wantBatch).value)
  {
    LiteralsAreOneLine();
    HandshakeTexts(version, hasCap, me.agent, me.auth, me.wantBatch);
    LoginIsOneLine(me.auth);
    OneLineJoined("USERAGENT ", me.agent);
    hide IsOneLine, PlanHandshake, LoginTexts;
    var cmds := PlanHandshake(version, hasCap, me.agent, me.auth, me.wantBatch).value;
    forall i | 0 <= i < |cmds| ensures IsOneLine(cmds[i].text) {
      assert cmds[i].text == TextsOf(cmds)[i];
      assert TextsOf(cmds)[i] in TextsOf(cmds);
    }
  }

  lemma {:induction false} ConverseSendable(w: Walk, plan: seq<Command>, s: seq<byte>, fate: Fate, budget: nat, luck: nat)
    ensures AllSendable(Converse(w, plan, s, fate, budget, luck).sent)
    decreases |plan|
  {
    hide Encoded, Interpret, Hear;
    if plan != [] {
      var cmd, w1 := plan[0], Noted(w, plan[0]);
      if !Sends(w, cmd) {
        ConverseSendable(w1, plan[1..], s, fate, budget, luck);
      } else if Encoded(cmd).Ok? && budget > 0 {
        if cmd.parse.NoReply? {
          ConverseSendable(Recorded(w1, cmd, None), plan[1..], s, fate, budget - 1, luck);
        } else if Hear(s, fate, luck).Text? && Interpret(cmd.parse, Hear(s, fate, luck).line).Ok? {
          var h := Hear(s, fate, luck);
          ConverseSendable(Recorded(w1, cmd, Some(Interpret(cmd.parse, h.line).value)), plan[1..], h.rest, fate, budget - 1, h.luck);
        }
      }
    }
  }

  lemma {:induction false} BatchIsLast(version: Version, hasCap: bool, agent: string, auth: Auth, wantBatch: bool, lines: seq<string>)
    requires PlanHandshake(version, hasCap, agent, auth, wantBatch).Ok?
    requires |lines| == |PlanHandshake(version, hasCap, agent, auth, wantBatch).value|
    ensures
      BatchAgreed(PlanHandshake(version, hasCap, agent, auth, wantBatch).value, lines)
      <==> version.V3? && wantBatch && LineOk(lines[|lines| - 1])
  {
    var cmds := PlanHandshake(version, hasCap, agent, auth, wantBatch).value;
    hide LineOk;
    BatchAnswered(cmds, lines);
    NotBatch(agent, auth);
  }

  lemma {:induction false} NoBatchUnsaid(version: Version, hasCap: bool, agent: string, auth: Auth, wantBatch: bool)
    requires PlanHandshake(version, hasCap, agent, auth, wantBatch) == Ok([])
    ensures !wantBatch && version.V3?
  {
  }

  lemma {:induction false} NotBatch(agent: string, auth: Auth)
    ensures "USERAGENT " + agent != "BATCH"
    ensures forall text :: text in LoginTexts(auth) ==> text != "BATCH"
  {
    assert ("USERAGENT " + agent)[0] == 'U' && "BATCH"[0] == 'B';
    assert forall text :: text in LoginTexts(auth) ==> text[0] == 'A';
  }

  /** BATCH stands only at the end of a handshake. */
  lemma {:induction false} BatchAnswered(cmds: seq<Command>, lines: seq<string>)
    requires |lines| == |cmds|
    ensures (forall cmd :: cmd in cmds ==> cmd.text != "BATCH") ==> !BatchAgreed(cmds, lines)
    ensures cmds != [] && cmds[|cmds| - 1].text == "BATCH" ==> (BatchAgreed(cmds, lines) <==> LineOk(lines[|lines| - 1]))
    decreases |cmds|
  {
    hide LineOk;
    if cmds != [] {
      BatchAnswered(cmds[..|cmds| - 1], lines[..|lines| - 1]);
    }
  }

  /** A client that was welcomed has told the server that reads its bytes exactly
      its settings, for the version and capability it read off the greeting; it is
      in BATCH mode exactly when it wanted that of a 3.x server that said yes. */
  lemma {:induction false} MeetingIntroduces(me: Identity, s: seq<byte>, fate: Fate, budget: nat, luck: nat, luck2: nat)
    requires IsSayable(me) && Meet(me, s, fate, budget, luck, luck2).talk.ending.Welcomed?
    ensures
      var met := Meet(me, s, fate, budget, luck, luck2);
      var t := met.talk;
      && |t.heard| >= 2 && me.hello(t.heard[0], t.heard[1]).Ok?
      && (var (version, cap) := me.hello(t.heard[0], t.heard[1]).value;
          && met.version == version
          && LearnsAll(Stranger, ReadCommands(Flatten(Wires(t.sent)))) == Introduced(version, cap, me.agent, me.auth, me.wantBatch)
          && (met.batch <==> version.V3? && me.wantBatch && LineOk(t.heard[|t.heard| - 1])))
  {
    HailGives(me.hello, s, fate, budget, luck);
    hide PlanHandshake, Converse, ReadCommands, LearnsAll, BatchAgreed, Wires, Encoded, Hail, IsSayable, Introduced, LineOk;
    match Hail(me.hello, s, fate, budget, luck) {
      case Unmet(_) =>
      case Greeted(version, cap, lines, rest) =>
        HandshakeUnderstood(version, cap, me.agent, me.auth, me.wantBatch);
        var cmds := PlanHandshake(version, cap, me.agent, me.auth, me.wantBatch).value;
        HandshakeCommands(version, cap, me.agent, me.auth, me.wantBatch);
        HandshakeIsOneLine(me, version, cap);
        var b := if budget > 0 then budget - 1 else 0;
        NoMoreHeard(FreshWalk, cmds, rest, fate, b, luck2);
        ConverseSendable(FreshWalk, cmds, rest, fate, b, luck2);
        var t := Converse(FreshWalk, cmds, rest, fate, b, luck2);
        BatchIsLast(version, cap, me.agent, me.auth, me.wantBatch, t.heard);
        HelloReadBack(cmds);
        assert Meet(me, s, fate, budget, luck, luck2).talk == Preceded([HELLO], lines, t);
        assert (lines + t.heard)[0] == lines[0] && (lines + t.heard)[1] == lines[1];
        assert t.heard != [] ==> (lines + t.heard)[|lines + t.heard| - 1] == t.heard[|t.heard| - 1];
        if cmds == [] {
          NoBatchUnsaid(version, cap, me.agent, me.auth, me.wantBatch);
        }
    }
  }

  lemma {:induction false} HelloReadBack(cmds: seq<Command>)
    requires AllSendable(cmds) && AreOneLine([HELLO] + cmds)
    ensures ReadCommands(Flatten(Wires([HELLO] + cmds))) == ["HELLO"] + TextsOf(cmds)
  {
    HelloWires();
    hide ReadCommands, Wires, Encoded;
    CommandsReadBack([HELLO] + cmds);
    assert TextsOf([HELLO] + cmds) == ["HELLO"] + TextsOf(cmds);
  }

  /** A refused login: AUTH was the last thing said and its answer is no yes. */
  predicate IsLoginRefused(t: Talk) {
    t.sent != [] && |t.heard| == |t.sent| + 1 && IsLoginText(t.sent[|t.sent| - 1].text) && !LineOk(t.heard[|t.heard| - 1])
  }

  /** Connecting ends in the error that stops the retries exactly when the login
      was refused. */
  lemma {:induction false} LoginRefusals(me: Identity, s: seq<byte>, fate: Fate, budget: nat, luck: nat, luck2: nat)
    requires forall a, b :: me.hello(a, b) != Err(AuthRejected)
    ensures
      var t := Meet(me, s, fate, budget, luck, luck2).talk;
      t.ending == Declined(AuthRejected) <==> IsLoginRefused(t)
  {
    hide Converse, ReadCommands, BatchAgreed, Hail, LineOk, IsLoginText, ParseReply;
    HailGives(me.hello, s, fate, budget, luck);
    LoginIsNoBatch();
    match Hail(me.hello, s, fate, budget, luck) {
      case Unmet(t) =>
      case Greeted(version, cap, lines, rest) =>
        HandshakeRefusals(me, version, cap);
        var plan := PlanHandshake(version, cap, me.agent, me.auth, me.wantBatch);
        hide PlanHandshake;
        if plan.Ok? {
          HandshakeCommands(version, cap, me.agent, me.auth, me.wantBatch);
          var b := if budget > 0 then budget - 1 else 0;
          RefusalsTold(FreshWalk, plan.value, rest, fate, b, luck2);
          NoMoreHeard(FreshWalk, plan.value, rest, fate, b, luck2);
          BehindHello(lines, Converse(FreshWalk, plan.value, rest, fate, b, luck2));
        }
    }
  }

  lemma {:induction false} LoginIsNoBatch()
    ensures !IsLoginText("BATCH") && !IsLoginText("HELLO")
  {
    assert "BATCH"[0] == 'B' && "HELLO"[0] == 'H' && "AUTH "[0] == 'A';
  }

  lemma {:induction false} HandshakeRefusals(me: Identity, version: Version, cap: bool)
    ensures
      var plan := PlanHandshake(version, cap, me.agent, me.auth, me.wantBatch);
      plan.Err? ==> plan.error != AuthRejected
  {
  }

  lemma {:induction false} HailGives(hello: HelloReader, s: seq<byte>, fate: Fate, budget: nat, luck: nat)
    ensures
      match Hail(hello, s, fate, budget, luck)
      case Unmet(t) =>
        !t.ending.Welcomed? && !IsLoginRefused(t) && (t.ending == Declined(AuthRejected) ==> exists a, b :: hello(a, b) == Err(AuthRejected))
      case Greeted(version, cap, lines, _) => |lines| == 2 && hello(lines[0], lines[1]) == Ok((version, cap))
  {
    LoginIsNoBatch();
    hide Hear, IsLoginText;
  }

  lemma {:induction false} BehindHello(lines: seq<string>, t: Talk)
    requires |lines| == 2 && |t.heard| <= |t.sent| && IsToldRight(t)
    ensures var all := Preceded([HELLO], lines, t); all.ending == Declined(AuthRejected) <==> IsLoginRefused(all)
  {
    LoginIsNoBatch();
    hide IsLoginText, LineOk, ParseReply;
    var all := Preceded([HELLO], lines, t);
    if t.sent != [] {
      assert all.sent[|all.sent| - 1] == t.sent[|t.sent| - 1];
    }
    if t.heard != [] {
      assert all.heard[|all.heard| - 1] == t.heard[|t.heard| - 1];
    }
  }
}
