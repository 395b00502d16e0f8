/** Reply lines as a server writes them, and that the client reads them as such. */
module Replies {
  import opened Text
  import opened Protocol
  import opened Streams
  import opened Times
  import opened Commands
  import opened Negotiation

  /** What a server says of a command: yes, or no with the code and message it
      cares to give. With EXTREPLY a message can follow on the same line. */
  datatype Verdict =
    | Yes(message: Option<string>)
    | No(code: Option<string>, message: Option<string>)
    | NoExtended(why: string, behind: string)

  /** A message ends in no line end. */
  predicate IsMessage(m: string) {
    m != "" && m[|m| - 1] != '\r' && m[|m| - 1] != '\n'
  }

  /** A message on the line itself holds no CR and starts with no white space. */
  predicate IsInline(m: string) {
    IsMessage(m) && !IsSpace(m[0]) && '\r' !in m
  }

  predicate IsWritable(v: Verdict) {
    match v
    case Yes(m) => m.Some? ==> IsMessage(m.value)
    case No(None, m) => m.Some? ==> IsMessage(m.value)
    case No(Some(c), m) => IsWord(c) && (m.Some? ==> IsInline(m.value))
    case NoExtended(c, m) => IsWord(c) && IsMessage(m)
  }

  function Written(v: Verdict): string {
    match v
    case Yes(None) => "OK"
    case Yes(Some(m)) => "OK\r" + m
    case No(None, None) => "ERROR"
    case No(None, Some(m)) => "ERROR\r" + m
    case No(Some(c), None) => "ERROR " + c
    case No(Some(c), Some(m)) => "ERROR " + c + " " + m
    case NoExtended(c, m) => "ERROR " + c + "\r" + m
  }

  /** What the client is to make of it. */
  function Told(v: Verdict): Response {
    match v
    case Yes(m) => Response("OK", None, m)
    case No(c, m) => Response("ERROR", c, m)
    case NoExtended(c, m) => Response("ERROR", Some(c), Some(m))
  }

  // ---------------------------------------------------------------- read back

  lemma {:induction false} SplitOnceOf(word: string, rest: string)
    requires IsWord(word) && (rest == "" || IsSpace(rest[0]))
    ensures SplitOnce(word + rest) == (word, StripLeft(rest))
  {
    WordLengthOfPrefix(word, rest);
    assert (word + rest)[0] == word[0];
    assert StripLeft(word + rest) == word + rest;
    assert (word + rest)[..|word|] == word && (word + rest)[|word|..] == rest;
  }

  lemma {:induction false} StripLeftOfSpace(rest: string)
    requires rest == "" || !IsSpace(rest[0])
    ensures StripLeft(" " + rest) == rest
  {
    assert (" " + rest)[1..] == rest;
  }

  /** Line ends behind a line do not matter. */
  lemma {:induction false} LineEndStripped(s: string, ends: string)
    requires s == "" || IsMessage(s)
    requires forall i :: 0 <= i < |ends| ==> ends[i] in "\r\n"
    ensures StripLineEnd(s + ends) == s
  {
    if ends == "" {
      assert s + ends == s;
    } else {
      assert (s + ends)[..|s + ends| - 1] == s + ends[..|ends| - 1];
      LineEndStripped(s, ends[..|ends| - 1]);
    }
  }

  /** The words before the first CR. */
  lemma {:induction false} HeadOf(head: string, extra: Option<string>)
    requires '\r' !in head
    ensures
      var p := Partition(if extra.Some? then head + "\r" + extra.value else head, '\r');
      p.0 == head && p.2 == if extra.Some? then extra.value else ""
  {
    if extra.Some? {
      PartitionOfJoin(head, '\r', extra.value);
      assert head + "\r" + extra.value == head + ['\r'] + extra.value;
    } else {
      var p := Partition(head, '\r');
    }
  }

  lemma {:induction false} WordHasNoCr(w: string)
    requires IsWord(w)
    ensures '\r' !in w && IsMessage(w)
  {
    assert IsSpace('\r') && IsSpace('\n');
  }

  /** What a line comes to, from its first word, the rest of its head and what
      follows the first CR. */
  lemma {:induction false} ReplyParts(line: string, text: string, head: string, extra: Option<string>, status: string, rest: string)
    requires StripLineEnd(line) == text && text == (if extra.Some? then head + "\r" + extra.value else head) && '\r' !in head
    requires SplitOnce(head) == (status, rest) && (extra.Some? ==> extra.value != "")
    requires status in {"OK", "ERROR"}
    ensures ParseReply(line) ==
      if status == "OK" then Response("OK", None, extra)
      else Response("ERROR", NonEmpty(SplitOnce(rest).0), if SplitOnce(rest).1 != "" then Some(SplitOnce(rest).1) else extra)
  {
    HeadOf(head, extra);
    hide Partition, SplitOnce, StripLineEnd;
  }

  /** Every verdict is read as what it says, with or without its line end. */
  lemma {:induction false} VerdictReadBack(v: Verdict, ends: string)
    requires IsWritable(v) && forall i :: 0 <= i < |ends| ==> ends[i] in "\r\n"
    ensures ParseReply(Written(v) + ends) == Told(v)
    ensures LineOk(Written(v) + ends) <==> v.Yes?
  {
    var text := Written(v);
    var line := text + ends;
    hide ParseReply, StripLineEnd, Partition;
    WrittenIsMessage(v);
    LineEndStripped(text, ends);
    SplitOnceOf("OK", "");
    assert "OK" + "" == "OK" && "ERROR" + "" == "ERROR" && SplitOnce("") == ("", "");
    SplitOnceOf("ERROR", "");
    match v {
      case Yes(m) => ReplyParts(line, text, "OK", m, "OK", "");
      case No(None, m) => ReplyParts(line, text, "ERROR", m, "ERROR", "");
      case No(Some(c), None) =>
        assert c + "" == c;
        ErrorWithCode(line, c, "", None);
      case No(Some(c), Some(m)) =>
        assert "ERROR " + c + " " + m == "ERROR " + (c + (" " + m)) && (" " + m)[1..] == m;
        ErrorWithCode(line, c, " " + m, None);
      case NoExtended(c, m) =>
        assert c + "" == c;
        ErrorWithCode(line, c, "", Some(m));
    }
    assert ParseReply(line) == Told(v);
    LineOkIs(line);
  }

  lemma {:induction false} LineOkIs(line: string)
    ensures LineOk(line) <==> ParseReply(line).status == "OK"
  {
  }

  lemma {:induction false} WrittenIsMessage(v: Verdict)
    requires IsWritable(v)
    ensures IsMessage(Written(v))
  {
    if v.No? && v.code.Some? {
      WordHasNoCr(v.code.value);
    }
  }

  lemma {:induction false} ErrorHead(code: string, tail: string)
    requires IsWord(code) && (tail == "" || tail[0] == ' ')
    ensures SplitOnce("ERROR " + (code + tail)) == ("ERROR", code + tail) && SplitOnce(code + tail) == (code, StripLeft(tail))
  {
    SplitOnceOf(code, tail);
    SplitOnceOf("ERROR", " " + (code + tail));
    StripLeftOfSpace(code + tail);
    assert "ERROR " + (code + tail) == "ERROR" + (" " + (code + tail));
  }

  /** A refusal with a code; `tail` is nothing, or a space and the message. */
  lemma {:induction false} ErrorWithCode(line: string, code: string, tail: string, extra: Option<string>)
    requires IsWord(code) && (tail == "" || (tail[0] == ' ' && IsInline(tail[1..]))) && (extra.Some? ==> IsMessage(extra.value))
    requires
      var head := "ERROR " + (code + tail);
      StripLineEnd(line) == if extra.Some? then head + "\r" + extra.value else head
    ensures ParseReply(line) == Response("ERROR", Some(code), if tail == "" then extra else Some(tail[1..]))
  {
    WordHasNoCr(code);
    ErrorHead(code, tail);
    if tail != "" {
      assert tail == " " + tail[1..];
      StripLeftOfSpace(tail[1..]);
    }
    assert "ERROR"[0] == 'E';
    hide ParseReply, StripLineEnd, Partition, SplitOnce, IsWord;
    assert '\r' !in tail;
    ReplyParts(line, StripLineEnd(line), "ERROR " + (code + tail), extra, "ERROR", code + tail);
  }

  /** A line is a yes exactly when the first word before its first CR is OK. */
  lemma {:induction false} OkIsFirstWord(line: string)
    ensures
      var words := Words(Partition(StripLineEnd(line), '\r').0);
      LineOk(line) <==> words != [] && words[0] == "OK"
  {
    var head := Partition(StripLineEnd(line), '\r').0;
    FirstWordOf(head);
    hide Partition, StripLineEnd, Words, SplitOnce;
  }

  lemma {:induction false} FirstWordOf(s: string)
    ensures SplitOnce(s).0 == if Words(s) == [] then "" else Words(s)[0]
    decreases |s|
  {
    if s != "" && IsSpace(s[0]) {
      FirstWordOf(s[1..]);
    }
  }

  // ----------------------------------------------------- negotiating on verdicts

  predicate AreWritable(vs: seq<Verdict>) {
    forall i :: 0 <= i < |vs| ==> IsWritable(vs[i])
  }

  function WrittenAll(vs: seq<Verdict>): (lines: seq<string>)
    ensures |lines| == |vs|
    ensures forall i :: 0 <= i < |vs| ==> lines[i] == Written(vs[i])
  {
    if vs == [] then [] else [Written(vs[0])] + WrittenAll(vs[1..])
  }

  lemma {:induction false} WrittenReadBack(v: Verdict)
    requires IsWritable(v)
    ensures ParseReply(Written(v)) == Told(v) && (LineOk(Written(v)) <==> v.Yes?)
  {
    VerdictReadBack(v, "");
    assert Written(v) + "" == Written(v);
  }

  /** In 4.0 the first `n` verdicts decide: the plan goes out whole if all are yes,
      else up to the command that is refused, and that refusal's code and message
      are raised. */
  lemma {:induction false} StrictOnVerdicts(o: Options, iso: IsoReader, cs: seq<Config>, vs: seq<Verdict>, i: nat)
    requires o.version.V4? && AllSendable(Plan(o, iso, cs).value) && AreWritable(vs)
    requires i < |Plan(o, iso, cs).value| && i <= |vs| && forall j :: 0 <= j < i ==> vs[j].Yes?
    requires i < |Plan(o, iso, cs).value| - 1 ==> i < |vs| && !vs[i].Yes?
    ensures
      var plan := Plan(o, iso, cs).value;
      RunWalk(FreshWalk, plan, WrittenAll(vs)) ==
      if i == |plan| - 1 then Run(plan, i, Accepted)
      else Run(plan[..i + 1], i + 1, Outcome.Refused(Rejected(Told(vs[i]).code, Told(vs[i]).message)))
  {
    hide Blocks, Encoded, RunWalk, ParseReply, Written, Told, IsWritable, LineOk;
    var lines, n := WrittenAll(vs), |Plan(o, iso, cs).value| - 1;
    StrictNegotiation(o, iso, cs, lines);
    FirstRefusalIsFirst(lines, n);
    var k := FirstRefusal(lines, n);
    forall j | 0 <= j < |vs| ensures ParseReply(lines[j]) == Told(vs[j]) && (LineOk(lines[j]) <==> vs[j].Yes?) {
      WrittenReadBack(vs[j]);
    }
    assert i < |vs| && i < n ==> !LineOk(lines[i]);
  }

  /** Station by station, by verdicts. */
  function TurnsOn(o: Options, iso: IsoReader, cs: seq<Config>, vs: seq<Verdict>): Turns {
    if cs == [] then Turns([], 0, 0)
    else
      var ok := Suppressed(o) || (vs != [] && vs[0].Yes?);
      var sent := if ok then Block(o, iso, cs[0]) else [Station(o, cs[0])];
      var n := if Suppressed(o) then 0 else |sent|;
      var later := TurnsOn(o, iso, cs[1..], vs[if n <= |vs| then n else |vs|..]);
      Turns(sent + later.sent, n + later.used, (if ok then 1 else 0) + later.accepted)
  }

  lemma {:induction false} TurnsAgree(o: Options, iso: IsoReader, cs: seq<Config>, vs: seq<Verdict>)
    requires AreWritable(vs)
    ensures StationExchange(o, iso, cs, WrittenAll(vs)) == TurnsOn(o, iso, cs, vs)
  {
    hide ParseReply, Block, Written, IsWritable, Station, LineOk;
    if cs != [] {
      var lines := WrittenAll(vs);
      if vs != [] {
        WrittenReadBack(vs[0]);
      }
      var ok := Suppressed(o) || (vs != [] && vs[0].Yes?);
      var sent := if ok then Block(o, iso, cs[0]) else [Station(o, cs[0])];
      var n := if Suppressed(o) then 0 else |sent|;
      var k := if n <= |vs| then n else |vs|;
      assert WrittenAll(vs[k..]) == lines[k..];
      TurnsAgree(o, iso, cs[1..], vs[k..]);
    }
  }

  /** In 3.x a station told no is sent nothing more, and no station accepted is an
      error. */
  lemma {:induction false} MultiStationOnVerdicts(o: Options, iso: IsoReader, cs: seq<Config>, vs: seq<Verdict>)
    requires o.version.V3? && o.multistation && cs != [] && AreWritable(vs)
    requires AllSendable(Plan(o, iso, cs).value)
    ensures
      var x := TurnsOn(o, iso, cs, vs);
      var run := RunWalk(FreshWalk, Plan(o, iso, cs).value, WrittenAll(vs));
      if x.used > |vs| then run.outcome == Starved
      else run == Run(x.sent + [End(o)], x.used, if x.accepted > 0 then Accepted else Outcome.Refused(NoStationAccepted))
  {
    hide Plan, RunWalk, StationExchange, TurnsOn, Written, AllSendable;
    MultiStationNegotiation(o, iso, cs, WrittenAll(vs));
    TurnsAgree(o, iso, cs, vs);
  }
}
