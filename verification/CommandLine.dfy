/** Command lines as bytes on the wire: a server that ends a command at CR, with or
    without an LF behind it, reads back the very texts that were sent. */
module CommandLines {
  import opened Text
  import opened Protocol
  import opened Streams
  import opened Times
  import opened Commands
  import opened Negotiation
  import opened Exchange
  import opened Servers
  import opened Subscription

  predicate IsOneLine(text: string) {
    '\r' !in text && '\n' !in text
  }

  predicate AreOneLine(cmds: seq<Command>) {
    forall i :: 0 <= i < |cmds| ==> IsOneLine(cmds[i].text)
  }

  function TextsOf(cmds: seq<Command>): (texts: seq<string>)
    ensures |texts| == |cmds|
    ensures forall i :: 0 <= i < |cmds| ==> texts[i] == cmds[i].text
  {
    if cmds == [] then [] else [cmds[0].text] + TextsOf(cmds[1..])
  }

  // ------------------------------------------------------------------- reading

  /** Where the first CR stands, or the length when there is none. */
  function CrAt(bs: seq<byte>): (n: nat)
    ensures n <= |bs| && (n < |bs| ==> bs[n] == CR)
  {
    if bs == [] || bs[0] == CR then 0 else 1 + CrAt(bs[1..])
  }

  /** The commands in a stream of bytes; one that is not ended yet is none. */
  function ReadCommands(bs: seq<byte>): seq<string>
    decreases |bs|
  {
    var n := CrAt(bs);
    if n == |bs| then []
    else
      var skip := if n + 1 < |bs| && bs[n + 1] == LF then 2 else 1;
      [Decode(bs[..n])] + ReadCommands(bs[n + skip..])
  }

  lemma {:induction false} CrBehind(a: seq<byte>, rest: seq<byte>)
    requires CR !in a && rest != [] && rest[0] == CR
    ensures CrAt(a + rest) == |a|
  {
    if a == [] {
      assert a + rest == rest;
    } else {
      assert (a + rest)[1..] == a[1..] + rest;
      CrBehind(a[1..], rest);
    }
  }

  lemma {:induction false} TextBytes(text: string)
    requires IsAsciiText(text) && IsOneLine(text)
    ensures CR !in Encode(text) && LF !in Encode(text) && Decode(Encode(text)) == text
  {
    DecodeOfEncode(text);
    assert forall i :: 0 <= i < |text| ==> Encode(text)[i] == text[i] as int && text[i] in text;
  }

  /** Either line end closes a command, whatever comes behind. */
  lemma {:induction false} OneCommandRead(text: string, end: seq<byte>, rest: seq<byte>)
    requires IsAsciiText(text) && IsOneLine(text) && (end == [CR] || end == [CR, LF])
    requires end == [CR] && rest != [] ==> rest[0] != LF
    ensures ReadCommands(Encode(text) + end + rest) == [text] + ReadCommands(rest)
  {
    TextBytes(text);
    var bs := Encode(text) + end + rest;
    assert bs == Encode(text) + (end + rest);
    CrBehind(Encode(text), end + rest);
    var n := |text|;
    assert bs[..n] == Encode(text);
    assert bs[n..] == end + rest;
    if end == [CR, LF] {
      assert bs[n + 1] == LF;
      assert bs[n + 2..] == rest;
    } else {
      assert rest != [] ==> bs[n + 1] == rest[0];
      assert bs[n + 1..] == rest;
    }
  }

  predicate StartsNoLf(bs: seq<byte>) { bs != [] ==> bs[0] != LF }

  lemma {:induction false} WireOf(cmd: Command)
    requires Encoded(cmd).Ok? && IsOneLine(cmd.text)
    ensures
      && IsAsciiText(cmd.text)
      && (Encoded(cmd).value == Encode(cmd.text) + [CR] || Encoded(cmd).value == Encode(cmd.text) + [CR, LF])
      && Encoded(cmd).value[0] != LF
  {
    TextBytes(cmd.text);
    if cmd.text != "" {
      assert Encoded(cmd).value[0] == Encode(cmd.text)[0];
    }
  }

  /** A server reads exactly the texts of the commands that were sent, in order,
      however their lines end. */
  lemma {:induction false} CommandsReadBack(cmds: seq<Command>)
    requires AllSendable(cmds) && AreOneLine(cmds)
    ensures ReadCommands(Flatten(Wires(cmds))) == TextsOf(cmds) && StartsNoLf(Flatten(Wires(cmds)))
  {
    if cmds != [] {
      var cmd := cmds[0];
      OneSendable(cmds);
      assert forall i :: 0 <= i < |cmds[1..]| ==> cmds[1..][i] == cmds[i + 1];
      CommandsReadBack(cmds[1..]);
      WireOf(cmd);
      hide Encoded, ReadCommands, IsOneLine;
      var wire, rest := Encoded(cmd).value, Flatten(Wires(cmds[1..]));
      assert ([wire] + Wires(cmds[1..]))[1..] == Wires(cmds[1..]);
      assert Flatten(Wires(cmds)) == wire + rest;
      var end := wire[|cmd.text|..];
      assert wire == Encode(cmd.text) + end;
      OneCommandRead(cmd.text, end, rest);
    }
  }

  // ------------------------------------------------------------------ line ends

  /** STATION, SELECT and DATA of 4.0 end in a bare CR, every other command of a
      negotiation in CRLF. */
  function LineEnd(version: Version, role: Role): seq<byte> {
    if version.V4? && role in {StationRole, SelectRole, DataRole} then [CR] else [CR, LF]
  }

  predicate EndsRight(version: Version, cmd: Command) {
    Encoded(cmd).Ok? ==> IsAsciiText(cmd.text) && Encoded(cmd).value == Encode(cmd.text) + LineEnd(version, cmd.role)
  }

  predicate EndRight(version: Version, cmds: seq<Command>) {
    forall i :: 0 <= i < |cmds| ==> EndsRight(version, cmds[i])
  }

  /** A command goes out exactly when it is ASCII and, line end included, no longer
      than 4096 bytes; what is not ASCII is told from what is too long. */
  lemma {:induction false} SendableWhen(cmd: Command)
    ensures
      var n := |cmd.text| + if cmd.bareCr then 1 else 2;
      && (Encoded(cmd).Ok? <==> IsAsciiText(cmd.text) && n <= 4096)
      && (Encoded(cmd) == Err(EncodeFailed) <==> !IsAsciiText(cmd.text))
      && (Encoded(cmd) == Err(CommandTooLong) <==> IsAsciiText(cmd.text) && n > 4096)
  {
  }

  lemma {:induction false} BareEnds(version: Version, cmd: Command)
    requires cmd.bareCr <==> version.V4? && cmd.role in {StationRole, SelectRole, DataRole}
    ensures EndsRight(version, cmd)
  {
  }

  lemma {:induction false} SelectsEnd(o: Options, c: Config, ss: seq<string>)
    ensures EndRight(o.version, Selects(o, c, ss))
  {
    if ss != [] {
      hide JoinWords, WireSelector;
      BareEnds(o.version, Select(o, c, ss[0]));
      SelectsEnd(o, c, ss[1..]);
      hide EndsRight;
    }
  }

  lemma {:induction false} OnesEnd(o: Options, iso: IsoReader, c: Config)
    ensures EndsRight(o.version, Station(o, c)) && EndsRight(o.version, Data(o, iso, c)) && EndsRight(o.version, End(o))
  {
    hide JoinWords, DataWordsV3, DataWordsV4;
    BareEnds(o.version, Station(o, c));
    BareEnds(o.version, Data(o, iso, c));
    BareEnds(o.version, End(o));
  }

  lemma {:induction false} BlocksEnd(o: Options, iso: IsoReader, cs: seq<Config>)
    ensures EndRight(o.version, Blocks(o, iso, cs))
  {
    if cs != [] {
      OnesEnd(o, iso, cs[0]);
      SelectsEnd(o, cs[0], cs[0].selectors);
      BlocksEnd(o, iso, cs[1..]);
      hide EndsRight, Station, Data, Selects;
    }
  }

  /** Every command of a plan ends its line as its version asks. */
  lemma {:induction false} PlanEndsRight(o: Options, iso: IsoReader, cs: seq<Config>)
    requires Plan(o, iso, cs).Ok?
    ensures EndRight(o.version, Plan(o, iso, cs).value)
  {
    hide EndsRight, Station, Data, Selects;
    if IsUni(o) {
      SelectsEnd(o, cs[0], cs[0].selectors);
      OnesEnd(o, iso, cs[0]);
    } else {
      BlocksEnd(o, iso, cs);
      OnesEnd(o, iso, Config("", [], None, false, None));
    }
  }

  // -------------------------------------------------------- served by the bytes

  /** `Serve` on the texts a server reads. */
  function ServeTexts(v: Server, texts: seq<string>, lines: seq<string>): Served
    decreases |texts|
  {
    if texts == [] then Served(v, 0)
    else
      var words := Words(texts[0]);
      if Answers(v, Verb(words)) then
        var later := ServeTexts(Apply(v, words, lines != [] && LineOk(lines[0])), texts[1..], Rest(lines));
        Served(later.server, later.answered + 1)
      else ServeTexts(Apply(v, words, true), texts[1..], lines)
  }

  lemma {:induction false} ServeIsByText(v: Server, cmds: seq<Command>, lines: seq<string>)
    ensures ServeTexts(v, TextsOf(cmds), lines) == Serve(v, cmds, lines)
    decreases |cmds|
  {
    hide Words, Verb, Apply, LineOk, Answers;
    if cmds != [] {
      var words := Words(cmds[0].text);
      assert TextsOf(cmds)[1..] == TextsOf(cmds[1..]);
      if Answers(v, Verb(words)) {
        ServeIsByText(Apply(v, words, lines != [] && LineOk(lines[0])), cmds[1..], Rest(lines));
      } else {
        ServeIsByText(Apply(v, words, true), cmds[1..], lines);
      }
    }
  }

  lemma {:induction false} SolidIsOneLine(s: string)
    requires NoSpace(s)
    ensures IsOneLine(s)
  {
    assert IsSpace('\r') && IsSpace('\n');
  }

  lemma {:induction false} JoinIsOneLine(ws: seq<string>)
    requires forall i :: 0 <= i < |ws| ==> NoSpace(ws[i])
    ensures IsOneLine(JoinWords(ws))
  {
    if ws != [] {
      SolidIsOneLine(ws[0]);
      JoinIsOneLine(ws[1..]);
    }
  }

  lemma {:induction false} StationIsSolid()
    ensures NoSpace("STATION")
  {
  }

  lemma {:induction false} StationIsOneLine(o: Options, c: Config)
    requires IsWord(c.id)
    ensures IsOneLine(Station(o, c).text)
  {
    hide JoinWords, SplitNetSta, IsSpace;
    var (net, sta) := SplitNetSta(c.id);
    PartsAreSolid(c.id);
    assert NoSpace("STATION") by { StationIsSolid(); }
    hide NoSpace, IsOneLine;
    JoinIsOneLine(if o.version.V4? then ["STATION", c.id] else ["STATION", sta, net]);
  }

  lemma {:induction false} SelectsAreOneLine(o: Options, c: Config, ss: seq<string>)
    requires AllWords(ss)
    ensures AreOneLine(Selects(o, c, ss))
  {
    hide JoinWords, WireSelector, IsOneLine;
    if ss != [] {
      WireSelectorIsWord(o.version, ss[0]);
      assert NoSpace("SELECT");
      JoinIsOneLine(["SELECT", WireSelector(o.version, ss[0])]);
      SelectsAreOneLine(o, c, ss[1..]);
    }
  }

  lemma {:induction false} DataIsOneLine(o: Options, iso: IsoReader, c: Config)
    ensures IsOneLine(Data(o, iso, c).text) && IsOneLine(End(o).text)
  {
    hide JoinWords, DataWordsV3, DataWordsV4;
    DataWordsAreWords(o, iso, c);
    JoinIsOneLine(DataWordsV4(o, c));
    JoinIsOneLine(DataWordsV3(o, iso, c));
  }

  lemma {:induction false} BlocksAreOneLine(o: Options, iso: IsoReader, cs: seq<Config>)
    requires forall i :: 0 <= i < |cs| ==> IsWord(cs[i].id) && AllWords(cs[i].selectors)
    ensures AreOneLine(Blocks(o, iso, cs))
  {
    hide IsOneLine, Station, Data, Selects, IsWord;
    if cs != [] {
      StationIsOneLine(o, cs[0]);
      SelectsAreOneLine(o, cs[0], cs[0].selectors);
      DataIsOneLine(o, iso, cs[0]);
      BlocksAreOneLine(o, iso, cs[1..]);
    }
  }

  /** No command of a plan can be taken for two. */
  lemma {:induction false} PlanIsOneLine(o: Options, iso: IsoReader, cs: seq<Config>)
    requires Plan(o, iso, cs).Ok? && forall i :: 0 <= i < |cs| ==> IsWord(cs[i].id) && AllWords(cs[i].selectors)
    ensures AreOneLine(Plan(o, iso, cs).value)
  {
    hide IsOneLine, Station, Data, Selects, IsWord, End;
    if IsUni(o) {
      SelectsAreOneLine(o, cs[0], cs[0].selectors);
      DataIsOneLine(o, iso, cs[0]);
    } else {
      BlocksAreOneLine(o, iso, cs);
      DataIsOneLine(o, iso, Config("", [], None, false, None));
    }
  }

  /** What a run sends is of its plan, and could be sent. */
  lemma {:induction false} SentIsPlanned(w: Walk, plan: seq<Command>, lines: seq<string>)
    ensures AllSendable(RunWalk(w, plan, lines).sent)
    ensures forall cmd :: cmd in RunWalk(w, plan, lines).sent ==> cmd in plan
    decreases |plan|
  {
    hide Encoded, Interpret;
    if plan != [] {
      var cmd, w1 := plan[0], Noted(w, plan[0]);
      if !Sends(w, cmd) {
        SentIsPlanned(w1, plan[1..], lines);
      } else if Encoded(cmd).Ok? {
        if cmd.parse.NoReply? {
          SentIsPlanned(Recorded(w1, cmd, None), plan[1..], lines);
        } else if lines != [] && Interpret(cmd.parse, lines[0]).Ok? {
          SentIsPlanned(Recorded(w1, cmd, Some(Interpret(cmd.parse, lines[0]).value)), plan[1..], lines[1..]);
        }
      }
    }
  }

  /** Whatever the server replies and however the run ends: reading the bytes that
      went out, it is served exactly the commands that were sent. */
  lemma {:induction false} ServedByBytes(o: Options, iso: IsoReader, cs: seq<Config>, v: Server, lines: seq<string>)
    requires Plan(o, iso, cs).Ok? && forall i :: 0 <= i < |cs| ==> IsWord(cs[i].id) && AllWords(cs[i].selectors)
    ensures
      var run := RunWalk(FreshWalk, Plan(o, iso, cs).value, lines);
      ServeTexts(v, ReadCommands(Flatten(Wires(run.sent))), lines) == Serve(v, run.sent, lines)
  {
    hide Plan, RunWalk, ReadCommands, IsOneLine, Serve, ServeTexts, Wires, AllSendable;
    var plan := Plan(o, iso, cs).value;
    var run := RunWalk(FreshWalk, plan, lines);
    PlanIsOneLine(o, iso, cs);
    SentIsPlanned(FreshWalk, plan, lines);
    forall i | 0 <= i < |run.sent| ensures IsOneLine(run.sent[i].text) {
      assert run.sent[i] in plan;
    }
    CommandsReadBack(run.sent);
    ServeIsByText(v, run.sent, lines);
  }

  /** From the bytes alone: a successful station-by-station negotiation leaves the
      server that reads them streaming what it granted. */
  lemma {:induction false} SubscribedByBytes(o: Options, iso: IsoReader, cs: seq<Config>, lines: seq<string>)
    requires !IsUni(o) && cs != [] && AllSpeakable(o, cs) && AllSendable(Plan(o, iso, cs).value)
    requires RunWalk(FreshWalk, Plan(o, iso, cs).value, lines).outcome == Accepted
    ensures
      var wire := Flatten(Wires(RunWalk(FreshWalk, Plan(o, iso, cs).value, lines).sent));
      ServeTexts(NewServer(o.version, o.batchActive), ReadCommands(wire), lines).server
      == Server(o.version, o.batchActive, true, Granted(o, iso, cs, lines), true, o.dialup && (o.version.V4? || o.start.None?))
  {
    hide RunWalk, ReadCommands, Serve, ServeTexts, Wires, AllSendable, Granted, Blocks;
    Subscribed(o, iso, cs, lines);
    ServedByBytes(o, iso, cs, NewServer(o.version, o.batchActive), lines);
  }
}
