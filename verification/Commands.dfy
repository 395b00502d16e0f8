/** The command vocabulary, the negotiation planner in its three shapes, and the
    walk that sends a plan while tracking rejected stations. */
module Commands {
  import opened Text
  import opened Protocol
  import opened Streams
  import opened Times

  datatype Role = GenericRole | StationRole | SelectRole | DataRole | EndRole

  /** What becomes of a reply line: none expected, ERROR raises, ERROR of AUTH
      raises, or handed back whatever it says. */
  datatype Parse = NoReply | ExpectOk | ExpectAuthOk | AnyReply

  datatype Command = Command(text: string, parse: Parse, bareCr: bool, role: Role, streamId: string)

  /** The bytes `_send_command` hands to the socket, or why it refuses to. */
  function Encoded(cmd: Command): Result<seq<byte>, Error> {
    if !IsAsciiText(cmd.text) then Err(EncodeFailed)
    else
      var wire := Encode(cmd.text) + if cmd.bareCr then [CR] else [CR, LF];
      if |wire| > MAX_COMMAND_LEN then Err(CommandTooLong) else Ok(wire)
  }

  /** The SeedLinkError an ERROR reply is raised as. */
  function Refusal(line: string): Error {
    Rejected(ParseReply(line).code, ParseReply(line).message)
  }

  function Interpret(parse: Parse, line: string): Result<Response, Error> {
    var resp := ParseReply(line);
    if resp.IsOk() || parse.AnyReply? || parse.NoReply? then Ok(resp)
    else if parse.ExpectAuthOk? then Err(AuthRejected)
    else Err(Refusal(line))
  }

  // ----------------------------------------------------------------- handshake

  datatype Auth = NoAuth | UserPass(user: string, password: string) | Token(jwt: string)

  function Generic(text: string, parse: Parse): Command {
    Command(text, parse, false, GenericRole, "")
  }

  /** `plan_handshake`; `agent` is the USERAGENT text. */
  function PlanHandshake(version: Version, hasCap: bool, agent: string, auth: Auth, wantBatch: bool): Result<seq<Command>, Error> {
    if version.V4? then
      if auth.UserPass? && (' ' in auth.user || ' ' in auth.password) then Err(BadCredentials)
      else
        Ok([Generic("SLPROTO 4.0", ExpectOk), Generic("USERAGENT " + agent, ExpectOk)]
           + match auth
             case NoAuth => []
             case Token(t) => [Generic("AUTH JWT " + t, ExpectAuthOk)]
             case UserPass(u, p) => [Generic("AUTH USERPASS " + u + " " + p, ExpectAuthOk)])
    else
      Ok((if hasCap then [Generic("CAPABILITIES EXTREPLY", ExpectOk)] else [])
         + if wantBatch then [Generic("BATCH", AnyReply)] else [])
  }

  /** Commands outside any station that are owed a reply each. */
  predicate AreGeneric(cmds: seq<Command>) {
    forall i :: 0 <= i < |cmds| ==> cmds[i].role.GenericRole? && !cmds[i].parse.NoReply?
  }

  lemma {:induction false} HandshakeAwaitsReplies(version: Version, hasCap: bool, agent: string, auth: Auth, wantBatch: bool)
    ensures
      var plan := PlanHandshake(version, hasCap, agent, auth, wantBatch);
      plan.Ok? ==> AreGeneric(plan.value)
  {
  }

  // ------------------------------------------------------------------ planning

  datatype Options = Options(
    version: Version, dialup: bool, multistation: bool, resume: bool, lastPacketTime: bool,
    batchActive: bool, start: Option<DateTime>, end: Option<DateTime>)

  /** `_wire_selector`: the other syntax converted, everything else as it is. */
  function WireSelector(version: Version, selector: string): string {
    match if version.V4? then V3ToV4(selector) else V4ToV3(selector)
    case None => selector
    case Some(t) => if t == "" then selector else t
  }

  /** Converting to the negotiated syntax twice is converting once, for every text. */
  lemma {:induction false} WireSelectorIdempotent(version: Version, selector: string)
    ensures WireSelector(version, WireSelector(version, selector)) == WireSelector(version, selector)
  {
    hide V3ToV4, V4ToV3;
    if version.V4? && V3ToV4(selector).Some? {
      V4TextStays(selector);
    } else if version.V3? && V4ToV3(selector).Some? {
      V3TextStays(selector);
    }
  }

  /** A selector as 3.x writes it: `--` for a blank location, none for any. */
  function InV3(location: string, b: char, s: char, u: char, suffix: string): string {
    (if location == "*" then "" else if location == "" then "--" else location) + [b, s, u] + suffix
  }

  function InV4(location: string, b: char, s: char, u: char, suffix: string): string {
    location + "_" + [b] + "_" + [s] + "_" + [u] + suffix
  }

  /** Whichever syntax a selector is configured in, it is requested in that of the
      version spoken: location, band, source and subsource code and type suffix
      stay. */
  lemma {:induction false} WireSelectorSpeaks(version: Version, location: string, b: char, s: char, u: char, suffix: string)
    requires |location| <= 2 && AllCodes(location) && IsCode(b) && IsCode(s) && IsCode(u) && IsSuffix(suffix)
    ensures
      var wire := if version.V4? then InV4(location, b, s, u, suffix) else InV3(location, b, s, u, suffix);
      && WireSelector(version, InV3(location, b, s, u, suffix)) == wire
      && WireSelector(version, InV4(location, b, s, u, suffix)) == wire
  {
    hide V3ToV4, V4ToV3, V4Text;
    var v3, v4 := InV3(location, b, s, u, suffix), InV4(location, b, s, u, suffix);
    V4TextIs(location, b, s, u);
    if location == "" {
      BlankLocationToV4(b, s, u, suffix);
    } else {
      LocationToV4(location, b, s, u, suffix);
    }
    FourPartsToV3(location, b, s, u, suffix);
    if version.V4? {
      V4TextStays(v3);
    } else {
      V3TextStays(v4);
    }
  }

  /** A three-part selector asks 3.x for that channel at any location. */
  lemma {:induction false} ThreePartsOnWire(b: char, s: char, u: char, suffix: string)
    requires IsCode(b) && IsCode(s) && IsCode(u) && IsSuffix(suffix)
    ensures WireSelector(V3, [b] + "_" + [s] + "_" + [u] + suffix) == [b, s, u] + suffix
  {
    hide V4ToV3;
    ThreePartsToV3(b, s, u, suffix);
  }

  function ResumeSeqnum(o: Options, c: Config): Option<int> {
    if o.resume && c.seqnum.Some? then Some(c.seqnum.value + 1) else None
  }

  function ResumeTimestamp(o: Options, iso: IsoReader, c: Config, seqnum: Option<int>): (t: Option<string>)
    ensures t.Some? ==> IsWord(t.value)
  {
    if !(o.lastPacketTime && seqnum.Some?) || c.timestamp in {None, Some("")} then None
    else
      match ParseTime(iso, c.timestamp.value)
      case None => None
      case Some(t) => Some(ToComma(t))
  }

  /** `_split_net_sta`. */
  function SplitNetSta(id: string): (string, string) {
    var p := Partition(id, '_');
    (p.0, p.2)
  }

  function ReplyV3(o: Options): Parse {
    if o.batchActive then NoReply else AnyReply
  }

  function Station(o: Options, c: Config): Command {
    if o.version.V4? then Command(JoinWords(["STATION", c.id]), ExpectOk, true, StationRole, c.id)
    else
      var (net, sta) := SplitNetSta(c.id);
      Command(JoinWords(["STATION", sta, net]), ReplyV3(o), false, StationRole, c.id)
  }

  function Select(o: Options, c: Config, selector: string): Command {
    Command(JoinWords(["SELECT", WireSelector(o.version, selector)]),
            if o.version.V4? then ExpectOk else ReplyV3(o), o.version.V4?, SelectRole, c.id)
  }

  function Selects(o: Options, c: Config, selectors: seq<string>): (cmds: seq<Command>)
    ensures |cmds| == |selectors|
  {
    if selectors == [] then [] else [Select(o, c, selectors[0])] + Selects(o, c, selectors[1..])
  }

  /** The words of `data_v4`. */
  function DataWordsV4(o: Options, c: Config): seq<string> {
    var seqnum := if o.start.Some? then None else ResumeSeqnum(o, c);
    ["DATA"]
    + (if seqnum.Some? then [FormatInt(seqnum.value, 10)]
       else if c.allData || o.start.Some? then ["ALL"] else [])
    + (if o.start.Some? then [ToIso(o.start.value)] + (if o.end.Some? then [ToIso(o.end.value)] else []) else [])
  }

  /** The words of `time_v3` when a window is set, else of `data_v3`. */
  function DataWordsV3(o: Options, iso: IsoReader, c: Config): seq<string> {
    if o.start.Some? then
      ["TIME", ToComma(o.start.value)] + (if o.end.Some? then [ToComma(o.end.value)] else [])
    else
      var seqnum := ResumeSeqnum(o, c);
      var timestamp := ResumeTimestamp(o, iso, c, seqnum);
      [if o.dialup then "FETCH" else "DATA"]
      + (if seqnum.Some? then [FormatInt(seqnum.value, 16)] + (if timestamp.Some? then [timestamp.value] else [])
         else [])
  }

  /** DATA, FETCH or TIME. In uni-station mode it starts the stream and is never replied to. */
  function Data(o: Options, iso: IsoReader, c: Config): Command {
    if o.version.V4? then Command(JoinWords(DataWordsV4(o, c)), ExpectOk, true, DataRole, c.id)
    else Command(JoinWords(DataWordsV3(o, iso, c)), if o.multistation then ReplyV3(o) else NoReply, false, DataRole, c.id)
  }

  function End(o: Options): Command {
    Command(if o.version.V4? && o.dialup then "ENDFETCH" else "END", NoReply, false, EndRole, "")
  }

  /** What follows a station's STATION command. */
  function Tail(o: Options, iso: IsoReader, c: Config): (cmds: seq<Command>)
    ensures |cmds| == |c.selectors| + 1
  {
    Selects(o, c, c.selectors) + [Data(o, iso, c)]
  }

  function Block(o: Options, iso: IsoReader, c: Config): (cmds: seq<Command>)
    ensures |cmds| == |c.selectors| + 2
  {
    [Station(o, c)] + Tail(o, iso, c)
  }

  function Blocks(o: Options, iso: IsoReader, cs: seq<Config>): seq<Command> {
    if cs == [] then [] else Block(o, iso, cs[0]) + Blocks(o, iso, cs[1..])
  }

  predicate IsUni(o: Options) { o.version.V3? && !o.multistation }

  /** `plan_negotiation`. */
  function Plan(o: Options, iso: IsoReader, cs: seq<Config>): Result<seq<Command>, Error> {
    if !IsUni(o) then Ok(Blocks(o, iso, cs) + [End(o)])
    else if |cs| != 1 then Err(NotOneStream)
    else Ok(Selects(o, cs[0], cs[0].selectors) + [Data(o, iso, cs[0])])
  }

  lemma {:induction false} BlocksSnoc(o: Options, iso: IsoReader, cs: seq<Config>, c: Config)
    ensures Blocks(o, iso, cs + [c]) == Blocks(o, iso, cs) + Block(o, iso, c)
  {
    if cs == [] {
      assert ([] + [c])[1..] == [];
    } else {
      assert (cs + [c])[1..] == cs[1..] + [c];
      BlocksSnoc(o, iso, cs[1..], c);
    }
  }

  lemma {:induction false} SelectsSnoc(o: Options, c: Config, ss: seq<string>, s: string)
    ensures Selects(o, c, ss + [s]) == Selects(o, c, ss) + [Select(o, c, s)]
  {
    if ss == [] {
      assert ([] + [s])[1..] == [];
    } else {
      assert (ss + [s])[1..] == ss[1..] + [s];
      SelectsSnoc(o, c, ss[1..], s);
    }
  }

  method PlanNegotiation(o: Options, iso: IsoReader, cs: seq<Config>) returns (r: Result<seq<Command>, Error>)
    ensures r == Plan(o, iso, cs)
  {
    if IsUni(o) {
      if |cs| != 1 {
        return Err(NotOneStream);
      }
      var selects := PlanSelects(o, cs[0]);
      return Ok(selects + [Data(o, iso, cs[0])]);
    }
    var commands := [];
    for i := 0 to |cs|
      invariant commands == Blocks(o, iso, cs[..i])
    {
      var selects := PlanSelects(o, cs[i]);
      BlocksSnoc(o, iso, cs[..i], cs[i]);
      assert cs[..i + 1] == cs[..i] + [cs[i]];
      commands := commands + ([Station(o, cs[i])] + (selects + [Data(o, iso, cs[i])]));
    }
    assert cs[..|cs|] == cs;
    return Ok(commands + [End(o)]);
  }

  method PlanSelects(o: Options, c: Config) returns (commands: seq<Command>)
    ensures commands == Selects(o, c, c.selectors)
  {
    commands := [];
    for i := 0 to |c.selectors|
      invariant commands == Selects(o, c, c.selectors[..i])
    {
      SelectsSnoc(o, c, c.selectors[..i], c.selectors[i]);
      assert c.selectors[..i + 1] == c.selectors[..i] + [c.selectors[i]];
      commands := commands + [Select(o, c, c.selectors[i])];
    }
    assert c.selectors[..|c.selectors|] == c.selectors;
  }

  // ---------------------------------------------------------------------- walk

  /** The flags of a walk, as a value. */
  datatype Walk = Walk(seenStation: bool, acceptedAny: bool, skip: bool)

  const FreshWalk := Walk(false, false, false)

  predicate Sends(w: Walk, cmd: Command) {
    cmd.role.StationRole? || !(w.skip && cmd.role in {SelectRole, DataRole})
  }

  function Noted(w: Walk, cmd: Command): Walk {
    if cmd.role.StationRole? then w.(seenStation := true, skip := false) else w
  }

  function Recorded(w: Walk, cmd: Command, resp: Option<Response>): Walk {
    if !cmd.role.StationRole? then w
    else if resp.Some? && !resp.value.IsOk() then w.(skip := true)
    else w.(acceptedAny := true)
  }

  predicate NoneAccepted(w: Walk) { w.seenStation && !w.acceptedAny }

  class NegotiationWalk {
    var seenStationRole: bool
    var acceptedAnyStation: bool
    var skipStream: bool

    ghost function View(): Walk
      reads this
    {
      Walk(seenStationRole, acceptedAnyStation, skipStream)
    }

    constructor ()
      ensures View() == FreshWalk
    {
      seenStationRole, acceptedAnyStation, skipStream := false, false, false;
    }

    method ShouldSend(cmd: Command) returns (send: bool)
      modifies this
      ensures send == Sends(old(View()), cmd) && View() == Noted(old(View()), cmd)
    {
      if cmd.role == StationRole {
        seenStationRole, skipStream := true, false;
        return true;
      }
      return !(skipStream && cmd.role in {SelectRole, DataRole});
    }

    method Record(cmd: Command, resp: Option<Response>)
      modifies this
      ensures View() == Recorded(old(View()), cmd, resp)
    {
      if cmd.role == StationRole {
        if resp.Some? && !resp.value.IsOk() {
          skipStream := true;
          return;
        }
        acceptedAnyStation := true;
      }
    }

    method Finish() returns (r: Result<(), Error>)
      ensures r == if NoneAccepted(View()) then Err(NoStationAccepted) else Ok(())
    {
      return if seenStationRole && !acceptedAnyStation then Err(NoStationAccepted) else Ok(());
    }
  }
}
