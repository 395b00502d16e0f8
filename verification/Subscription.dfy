/** What the server ends up holding after a negotiation: exactly what was
    configured, minus what it refused. */
module Subscription {
  import opened Text
  import opened Protocol
  import opened Streams
  import opened Times
  import opened Commands
  import opened Negotiation
  import opened Servers

  /** A station ID 3.x can name: network and station codes around an underscore. */
  predicate HasNetAndSta(id: string) {
    var (net, sta) := SplitNetSta(id);
    net != "" && sta != ""
  }

  /** Names and selectors free of white space, and for 3.x a two-part station ID. */
  predicate IsSpeakable(o: Options, c: Config) {
    IsWord(c.id) && AllWords(c.selectors) && (o.version.V3? && o.multistation ==> HasNetAndSta(c.id))
  }

  /** The position configured for a stream. A window overrides the sequence
      number; a sequence number asks for its successor and overrides `allData`,
      which only 4.0 can express. */
  function Wanted(o: Options, iso: IsoReader, c: Config): Request {
    var next := ResumeSeqnum(o, c);
    if o.version.V4? then
      if o.start.Some? then
        Window(Earliest, ToIso(o.start.value), if o.end.Some? then Some(ToIso(o.end.value)) else None)
      else Resume(if next.Some? then FromSeq(next.value) else if c.allData then Earliest else Next, None)
    else if o.start.Some? then
      Window(Next, ToComma(o.start.value), if o.end.Some? then Some(ToComma(o.end.value)) else None)
    else Resume(if next.Some? then FromSeq(next.value) else Next, ResumeTimestamp(o, iso, c, next))
  }

  // --------------------------------------------------------- texts read back

  /** The 3.x STATION line gives the configured ID back exactly when the ID has
      both a network and a station code. */
  lemma {:induction false} StationNameSurvives(o: Options, c: Config)
    requires o.version.V3? && IsWord(c.id)
    ensures var words := Words(Station(o, c).text);
            words != [] && (StationName(V3, words[1..]) == Some(c.id) <==> HasNetAndSta(c.id))
  {
    var (net, sta) := SplitNetSta(c.id);
    PartsAreSolid(c.id);
    hide IsSpace, NoSpace, Words, WordLength, SplitNetSta;
    StationWords(sta, net);
    TwoWords(sta, net);
    assert Station(o, c).text == JoinWords(["STATION", sta, net]);
    if net == "" || sta == "" {
      assert StationName(V3, Words(sta + " " + net)) == None;
    } else {
      assert StationName(V3, [sta, net]) == Some(net + "_" + sta);
      NetAndSta(c.id);
    }
  }

  lemma {:induction false} NetAndSta(id: string)
    requires SplitNetSta(id).1 != ""
    ensures SplitNetSta(id).0 + "_" + SplitNetSta(id).1 == id
  {
  }

  lemma {:induction false} StationWords(sta: string, net: string)
    ensures Words(JoinWords(["STATION", sta, net])) == ["STATION"] + Words(sta + " " + net)
  {
    var rest := " " + (sta + " " + net);
    WordsOfPrefix("STATION", rest);
    assert rest[1..] == sta + " " + net;
    hide Words, WordLength;
    assert JoinWords([sta, net]) == sta + " " + net by { assert [sta, net][1..] == [net]; }
    assert ["STATION", sta, net][1..] == [sta, net];
    assert JoinWords(["STATION", sta, net]) == "STATION" + rest;
  }

  lemma {:induction false} PartsAreSolid(id: string)
    requires NoSpace(id)
    ensures NoSpace(SplitNetSta(id).0) && NoSpace(SplitNetSta(id).1)
  {
    hide Partition, NoSpace;
    var p := Partition(id, '_');
    SolidSlice(id, 0, |p.0|);
    assert id[0..|p.0|] == p.0;
    if p.1 {
      SolidSlice(id, |p.0| + 1, |id|);
      assert id[|p.0| + 1..|id|] == p.2;
    } else {
      SolidSlice(id, 0, 0);
      assert id[0..0] == p.2;
    }
  }

  lemma {:induction false} TwoWords(a: string, b: string)
    requires NoSpace(a) && NoSpace(b)
    ensures a != "" && b != "" ==> Words(a + " " + b) == [a, b]
    ensures a == "" || b == "" ==> |Words(a + " " + b)| <= 1
  {
    var tail := " " + b;
    assert a + " " + b == a + tail && tail[1..] == b;
    if b != "" {
      WordsOfPrefix(b, "");
      assert b + "" == b;
    }
    if a != "" {
      WordsOfPrefix(a, tail);
    } else {
      assert a + tail == tail;
    }
  }

  lemma {:induction false} SolidJoin(fs: seq<string>, c: char)
    requires fs != [] && !IsSpace(c)
    requires forall i :: 0 <= i < |fs| ==> NoSpace(fs[i])
    ensures NoSpace(JoinFields(fs, c))
  {
    if |fs| > 1 {
      SolidJoin(fs[1..], c);
    }
  }

  lemma {:induction false} SolidSlice(s: string, lo: nat, hi: nat)
    requires NoSpace(s) && lo <= hi <= |s|
    ensures NoSpace(s[lo..hi])
  {
  }

  lemma {:induction false} SuffixIsSolid(s: string)
    requires NoSpace(s)
    ensures NoSpace(SplitSuffix(s).0) && NoSpace(SplitSuffix(s).1)
  {
    var (id, suffix) := SplitSuffix(s);
    SuffixJoins(s);
    SolidSlice(s, 0, |id|);
    SolidSlice(s, |id|, |s|);
    assert s[..|id|] == id && s[|id|..] == suffix;
  }

  lemma {:induction false} DashesSolid(s: string)
    requires NoSpace(s)
    ensures NoSpace(StripDashes(s))
  {
    if s != "" && s[0] == '-' {
      DashesSolid(s[1..]);
    }
  }

  lemma {:induction false} FieldsSolid(s: string, c: char)
    requires NoSpace(s)
    ensures forall i :: 0 <= i < |Fields(s, c)| ==> NoSpace(Fields(s, c)[i])
    decreases |s|
  {
    var p := Partition(s, c);
    SolidSlice(s, 0, |p.0|);
    assert s[..|p.0|] == p.0;
    if p.1 {
      SolidSlice(s, |p.0| + 1, |s|);
      assert s[|p.0| + 1..] == p.2;
      FieldsSolid(p.2, c);
    }
  }

  lemma {:induction false} V4TextIsWord(selector: string)
    requires NoSpace(selector) && V3ToV4(selector).Some?
    ensures IsWord(V3ToV4(selector).value)
  {
    var s := StripDashes(selector);
    DashesSolid(selector);
    SuffixIsSolid(s);
    var (id, suffix) := SplitSuffix(s);
    hide SplitSuffix;
    var n := |id| - 3;
    var loc := if n > 0 then id[..n] else if |s| < |selector| then "" else "*";
    if n > 0 {
      SolidSlice(id, 0, n);
    }
    var fs := [loc, [id[n]], [id[n + 1]], [id[n + 2]]];
    SolidJoin(fs, '_');
    JoinFieldsSplits(fs, '_');
    assert V3ToV4(selector).value == JoinFields(fs, '_') + suffix;
  }

  lemma {:induction false} V3PartsAreWord(location: string, b: string, s: string, u: string, suffix: string)
    requires NoSpace(location) && NoSpace(b) && NoSpace(s) && NoSpace(u) && NoSpace(suffix) && |b| == |s| == |u| == 1
    ensures IsWord(V3Location(location) + [b[0], s[0], u[0]] + suffix)
  {
    assert NoSpace(V3Location(location) + [b[0], s[0], u[0]]);
  }

  lemma {:induction false} V3TextIsWord(selector: string)
    requires NoSpace(selector) && V4ToV3(selector).Some?
    ensures IsWord(V4ToV3(selector).value)
  {
    SuffixIsSolid(selector);
    var (id, suffix) := SplitSuffix(selector);
    FieldsSolid(id, '_');
    hide SplitSuffix, Fields, V3Location, IsSpace;
    var fs := Fields(id, '_');
    var n := |fs| - 3;
    assert NoSpace("*");
    hide NoSpace;
    V3PartsAreWord(if n == 1 then fs[0] else "*", fs[n], fs[n + 1], fs[n + 2], suffix);
  }

  /** A selector free of white space is still one word in the other syntax. */
  lemma {:induction false} WireSelectorIsWord(version: Version, selector: string)
    requires IsWord(selector)
    ensures IsWord(WireSelector(version, selector))
  {
    hide V3ToV4, V4ToV3;
    if version.V4? && V3ToV4(selector).Some? {
      V4TextIsWord(selector);
    } else if version.V3? && V4ToV3(selector).Some? {
      V3TextIsWord(selector);
    }
  }

  lemma {:induction false} SelectReadBack(o: Options, c: Config, s: string)
    requires IsWord(s)
    ensures Words(Select(o, c, s).text) == ["SELECT", WireSelector(o.version, s)]
  {
    hide WireSelector, Words;
    WireSelectorIsWord(o.version, s);
    WordsOfJoin(["SELECT", WireSelector(o.version, s)]);
  }

  lemma {:induction false} StationReadBack(o: Options, c: Config)
    requires IsSpeakable(o, c) && !IsUni(o)
    ensures var words := Words(Station(o, c).text);
            words != [] && words[0] == "STATION" && StationName(o.version, words[1..]) == Some(c.id)
  {
    StationVerb(o, c);
    if o.version.V4? {
      WordsOfJoin(["STATION", c.id]);
    } else {
      StationNameSurvives(o, c);
    }
  }

  lemma {:induction false} DataWordsAreWords(o: Options, iso: IsoReader, c: Config)
    ensures AllWords(DataWordsV4(o, c)) && AllWords(DataWordsV3(o, iso, c))
  {
    hide FormatInt, ToIso, ToComma, ResumeTimestamp;
  }

  lemma {:induction false} NumberIsNotAll(n: int)
    ensures FormatInt(n, 10) != "ALL"
  {
    var first := FormatInt(n, 10)[0];
    assert first == '-' || DigitValue(first) < 10;
    assert "ALL"[0] == 'A';
  }

  lemma {:induction false} RequestV4ReadBack(o: Options, iso: IsoReader, c: Config)
    requires o.version.V4?
    ensures RequestV4(DataWordsV4(o, c)[1..]) == Some(Wanted(o, iso, c))
  {
    var next := if o.start.Some? then None else ResumeSeqnum(o, c);
    if next.Some? {
      NumberIsNotAll(next.value);
      PyIntOfFormat(next.value, 10);
    }
    hide FormatInt, PyInt, ToIso;
    var args := DataWordsV4(o, c)[1..];
    if o.start.Some? {
      assert args[1..] == [ToIso(o.start.value)] + (if o.end.Some? then [ToIso(o.end.value)] else []);
    } else if args != [] {
      assert args[1..] == [];
    }
  }

  lemma {:induction false} RequestV3ReadBack(o: Options, iso: IsoReader, c: Config)
    requires o.version.V3?
    ensures var words := DataWordsV3(o, iso, c);
            RequestV3(words[0], words[1..]) == Some(Wanted(o, iso, c))
  {
    var next := ResumeSeqnum(o, c);
    if next.Some? {
      PyIntOfFormat(next.value, 16);
    }
    hide FormatInt, PyInt, ToComma, ResumeTimestamp;
    var words := DataWordsV3(o, iso, c);
    if o.start.Some? {
      assert words[1..] == [ToComma(o.start.value)] + (if o.end.Some? then [ToComma(o.end.value)] else []);
    }
  }

  /** The DATA, FETCH or TIME line asks for exactly the configured position. */
  lemma {:induction false} RequestReadBack(o: Options, iso: IsoReader, c: Config)
    ensures
      var words := Words(Data(o, iso, c).text);
      && words != [] && IsDataVerb(words[0]) && (words[0] == "FETCH" <==> o.version.V3? && o.dialup && o.start.None?)
      && (if o.version.V4? then RequestV4(words[1..]) else RequestV3(words[0], words[1..])) == Some(Wanted(o, iso, c))
  {
    DataWordsAreWords(o, iso, c);
    if o.version.V4? {
      WordsOfJoin(DataWordsV4(o, c));
      RequestV4ReadBack(o, iso, c);
    } else {
      WordsOfJoin(DataWordsV3(o, iso, c));
      RequestV3ReadBack(o, iso, c);
    }
  }

  /** In 3.x a stream that holds a number and a readable timestamp resumes behind the
      number, and names the time of its last packet to the second. */
  lemma {:induction false} ResumeNamesTime(o: Options, iso: IsoReader, c: Config, t: DateTime)
    requires o.version.V3? && o.start.None? && o.resume && o.lastPacketTime && c.seqnum.Some? && c.timestamp.Some? && c.timestamp != Some("")
    requires ParseTime(iso, c.timestamp.value) == Some(t) && IsDateTime(t)
    ensures
      var words := Words(Data(o, iso, c).text);
      && words != []
      && match RequestV3(words[0], words[1..])
         case Some(Resume(FromSeq(n), Some(time))) => n == c.seqnum.value + 1 && ParseTime(iso, time) == Some(t.(microsecond := 0))
         case _ => false
  {
    RequestReadBack(o, iso, c);
    CommaRoundTrip(iso, t);
    hide Words, Data, RequestV3, ToComma, ParseTime, IsDateTime;
  }

  /** `all_data` is documented as overriding `seqnum`. In 4.0 the request is for the
      earliest data exactly when a window is set, or `all_data` is and there is no
      number to resume from: a known number wins. */
  lemma {:induction false} AllDataYields(o: Options, iso: IsoReader, c: Config)
    requires o.version.V4?
    ensures
      var request := RequestV4(Words(Data(o, iso, c).text)[1..]);
      && request.Some?
      && (request.value.from == Earliest <==> o.start.Some? || (c.allData && !(o.resume && c.seqnum.Some?)))
  {
    RequestReadBack(o, iso, c);
    hide Words, Data, RequestV4, ToIso;
  }

  /** The documented reading fails for a stream with all data and number 41. */
  lemma {:induction false} AllDataIsOverridden(iso: IsoReader, id: string)
    ensures
      var o := Options(V4, false, true, true, true, false, None, None);
      var c := Config(id, [], Some(41), true, None);
      RequestV4(Words(Data(o, iso, c).text)[1..]) == Some(Resume(FromSeq(42), None))
  {
    var o := Options(V4, false, true, true, true, false, None, None);
    RequestReadBack(o, iso, Config(id, [], Some(41), true, None));
    hide Words, Data, RequestV4;
  }

  /** The 3.x resume number is printed in upper-case hexadecimal. */
  lemma {:induction false} ResumeIsUpperCase(n: nat)
    ensures IsUpperHex(FormatInt(n + 1, 16))
  {
    DigitsAreUpper(n + 1, 16);
  }

  /** A 3.x resume number fits the six hexadecimal digits of the protocol exactly
      while the last sequence number is below 0xFFFFFF: there is no wrap. */
  lemma {:induction false} ResumeFitsSixDigits(n: nat)
    ensures |FormatInt(n + 1, 16)| <= 6 <==> n < 0xFFFFFF
  {
    DigitCount(n + 1, 6);
    assert Power(16, 6) == 0x1000000;
  }

  lemma {:induction false} DigitCount(n: nat, k: nat)
    requires k > 0
    ensures |Digits(n, 16)| <= k <==> n < Power(16, k)
  {
    if k == 1 {
      assert Power(16, 1) == 16;
    } else if n >= 16 {
      DigitCount(n / 16, k - 1);
    } else {
      PowerGrows(k);
    }
  }

  lemma {:induction false} PowerGrows(k: nat)
    requires k > 0
    ensures Power(16, k) >= 16
  {
    if k > 1 {
      PowerGrows(k - 1);
    }
  }

  // ------------------------------------------------------------ what is granted

  /** The selectors the server accepts, in order; `lines` are its answers. */
  function Kept(o: Options, ss: seq<string>, lines: seq<string>): seq<string> {
    if ss == [] then []
    else
      var ok := Suppressed(o) || (lines != [] && LineOk(lines[0]));
      (if ok then [WireSelector(o.version, ss[0])] else [])
      + Kept(o, ss[1..], if Suppressed(o) || lines == [] then lines else lines[1..])
  }

  /** How many answers a station takes up. */
  function Answered(o: Options, c: Config, lines: seq<string>): nat {
    if Suppressed(o) then 0
    else if lines != [] && LineOk(lines[0]) then |c.selectors| + 2
    else 1
  }

  /** One station as the server holds it: absent when STATION was rejected, short
      of the selectors that were rejected, idle when its request was rejected. */
  function GrantedStation(o: Options, iso: IsoReader, c: Config, lines: seq<string>): seq<Sub> {
    var n := |c.selectors|;
    if Suppressed(o) then [Sub(c.id, Kept(o, c.selectors, lines), Some(Wanted(o, iso, c)))]
    else if lines != [] && LineOk(lines[0]) then
      [Sub(c.id, Kept(o, c.selectors, lines[1..]),
           if |lines| > n + 1 && LineOk(lines[n + 1]) then Some(Wanted(o, iso, c)) else None)]
    else []
  }

  function DropLines(lines: seq<string>, n: nat): seq<string> {
    if n <= |lines| then lines[n..] else []
  }

  function Granted(o: Options, iso: IsoReader, cs: seq<Config>, lines: seq<string>): seq<Sub> {
    if cs == [] then []
    else GrantedStation(o, iso, cs[0], lines) + Granted(o, iso, cs[1..], DropLines(lines, Answered(o, cs[0], lines)))
  }

  // ----------------------------------------------------------- serving a block

  lemma {:induction false} ServeAppend(v: Server, a: seq<Command>, b: seq<Command>, lines: seq<string>)
    ensures
      var s := Serve(v, a, lines);
      var t := Serve(s.server, b, DropLines(lines, s.answered));
      Serve(v, a + b, lines) == Served(t.server, s.answered + t.answered)
    decreases |a|
  {
    hide Words, Verb, Apply, Answers, ParseReply;
    if a == [] {
      assert a + b == b;
    } else {
      assert (a + b)[0] == a[0] && (a + b)[1..] == a[1..] + b;
      var words := Words(a[0].text);
      if Answers(v, Verb(words)) {
        var ok := lines != [] && LineOk(lines[0]);
        var rest := if lines == [] then [] else lines[1..];
        ServeAppend(Apply(v, words, ok), a[1..], b, rest);
        var n := Serve(Apply(v, words, ok), a[1..], rest).answered;
        assert DropLines(rest, n) == DropLines(lines, n + 1);
      } else {
        ServeAppend(Apply(v, words, true), a[1..], b, lines);
      }
    }
  }

  predicate Fits(v: Server, o: Options) { v.version == o.version && v.batch == o.batchActive }

  function AddSelectors(subs: seq<Sub>, ss: seq<string>): seq<Sub>
    requires subs != []
  {
    var last := subs[|subs| - 1];
    subs[..|subs| - 1] + [last.(selectors := last.selectors + ss)]
  }

  lemma {:induction false} AddSelectorsTwice(subs: seq<Sub>, s: string, ss: seq<string>)
    requires subs != []
    ensures AddSelectors(WithSelector(subs, s), ss) == AddSelectors(subs, [s] + ss)
    ensures AddSelectors(subs, []) == subs
  {
    var last := subs[|subs| - 1];
    assert last.selectors + [s] + ss == last.selectors + ([s] + ss);
    assert last.selectors + [] == last.selectors;
    assert subs == subs[..|subs| - 1] + [last];
  }

  lemma {:induction false} ApplySelect(v: Server, o: Options, s: string, ok: bool)
    requires v.subs != []
    ensures Apply(v, ["SELECT", s], ok) == v.(subs := if ok then WithSelector(v.subs, s) else v.subs)
  {
    assert ["SELECT", s][1..] == [s];
  }

  lemma {:induction false} ServeSelects(v: Server, o: Options, c: Config, ss: seq<string>, lines: seq<string>)
    requires Fits(v, o) && v.subs != [] && AllWords(ss)
    requires Suppressed(o) || |ss| <= |lines|
    ensures Serve(v, Selects(o, c, ss), lines)
         == Served(v.(subs := AddSelectors(v.subs, Kept(o, ss, lines))), if Suppressed(o) then 0 else |ss|)
    decreases |ss|
  {
    hide Words, Verb, Apply, ParseReply, WireSelector, Select, AddSelectors;
    if ss == [] {
      AddSelectorsTwice(v.subs, "", []);
    } else {
      var s := WireSelector(o.version, ss[0]);
      var cmd := Select(o, c, ss[0]);
      SelectReadBack(o, c, ss[0]);
      SelectVerb(o, c, ss[0]);
      var ok := Suppressed(o) || LineOk(lines[0]);
      ApplySelect(v, o, s, ok);
      var v1 := Apply(v, ["SELECT", s], ok);
      var rest := if Suppressed(o) then lines else lines[1..];
      assert Selects(o, c, ss)[0] == cmd && Selects(o, c, ss)[1..] == Selects(o, c, ss[1..]);
      ServeSelects(v1, o, c, ss[1..], rest);
      AddSelectorsTwice(v.subs, s, Kept(o, ss[1..], rest));
      assert [] + Kept(o, ss[1..], rest) == Kept(o, ss[1..], rest);
    }
  }

  lemma {:induction false} ServeData(v: Server, o: Options, iso: IsoReader, c: Config, lines: seq<string>)
    requires Fits(v, o) && v.subs != [] && (v.multi || IsUni(o))
    requires Suppressed(o) || !v.multi || lines != []
    ensures
      var ok := Suppressed(o) || !v.multi || LineOk(lines[0]);
      Serve(v, [Data(o, iso, c)], lines)
      == Served(v.(subs := if ok then WithRequest(v.subs, Some(Wanted(o, iso, c))) else v.subs,
                   streaming := v.streaming || !v.multi,
                   fetch := v.fetch || (o.version.V3? && o.dialup && o.start.None?)),
                if Suppressed(o) || !v.multi then 0 else 1)
  {
    RequestReadBack(o, iso, c);
    DataVerb(o, iso, c);
    hide Words, ParseReply, RequestV3, RequestV4, Wanted, Data;
  }

  lemma {:induction false} ServeStationCommand(v: Server, o: Options, c: Config, lines: seq<string>)
    requires Fits(v, o) && IsSpeakable(o, c) && !IsUni(o)
    requires Suppressed(o) || lines != []
    ensures
      var ok := Suppressed(o) || LineOk(lines[0]);
      Serve(v, [Station(o, c)], lines)
      == Served(v.(multi := true, subs := v.subs + if ok then [Sub(c.id, [], None)] else []), if Suppressed(o) then 0 else 1)
  {
    StationReadBack(o, c);
    StationVerb(o, c);
    hide Words, ParseReply, Station, StationName;
  }

  /** The commands of an accepted station, answered line by line. */
  lemma {:induction false} ServeTail(v: Server, o: Options, iso: IsoReader, c: Config, lines: seq<string>)
    requires Fits(v, o) && AllWords(c.selectors) && v.subs != [] && v.multi && !IsUni(o)
    requires Suppressed(o) || |c.selectors| + 1 <= |lines|
    ensures
      var n := |c.selectors|;
      var ok := Suppressed(o) || LineOk(lines[n]);
      var subs := AddSelectors(v.subs, Kept(o, c.selectors, lines));
      Serve(v, Tail(o, iso, c), lines)
      == Served(v.(subs := if ok then WithRequest(subs, Some(Wanted(o, iso, c))) else subs,
                   fetch := v.fetch || (o.version.V3? && o.dialup && o.start.None?)),
                if Suppressed(o) then 0 else n + 1)
  {
    hide ParseReply, Selects, Data, Kept, Wanted, Serve;
    ServeSelects(v, o, c, c.selectors, lines);
    var v1 := v.(subs := AddSelectors(v.subs, Kept(o, c.selectors, lines)));
    var n := if Suppressed(o) then 0 else |c.selectors|;
    ServeData(v1, o, iso, c, DropLines(lines, n));
    ServeAppend(v, Selects(o, c, c.selectors), [Data(o, iso, c)], lines);
  }

  lemma {:induction false} ServeStation(v: Server, o: Options, iso: IsoReader, c: Config, lines: seq<string>)
    requires Fits(v, o) && IsSpeakable(o, c) && !IsUni(o)
    requires Answered(o, c, lines) <= |lines|
    ensures
      var ok := Suppressed(o) || LineOk(lines[0]);
      Serve(v, if ok then Block(o, iso, c) else [Station(o, c)], lines)
      == Served(v.(multi := true, subs := v.subs + GrantedStation(o, iso, c, lines),
                   fetch := v.fetch || (ok && o.version.V3? && o.dialup && o.start.None?)),
                Answered(o, c, lines))
  {
    hide LineOk, Station, Tail, Kept, Wanted, Serve, IsUni, IsWord, HasNetAndSta;
    ServeStationCommand(v, o, c, lines);
    var ok := Suppressed(o) || LineOk(lines[0]);
    if ok {
      var sub := Sub(c.id, [], None);
      var v1 := v.(multi := true, subs := v.subs + [sub]);
      var rest := if Suppressed(o) then lines else lines[1..];
      assert DropLines(lines, if Suppressed(o) then 0 else 1) == rest;
      ServeTail(v1, o, iso, c, rest);
      hide IsSpeakable;
      ServeAppend(v, [Station(o, c)], Tail(o, iso, c), lines);
      assert v1.subs[..|v1.subs| - 1] == v.subs;
      assert [] + Kept(o, c.selectors, rest) == Kept(o, c.selectors, rest);
      assert !Suppressed(o) ==> rest[|c.selectors|] == lines[|c.selectors| + 1];
    } else {
      assert v.subs + [] == v.subs;
    }
  }

  // ------------------------------------------------------------- whole sessions

  predicate AllSpeakable(o: Options, cs: seq<Config>) {
    forall i :: 0 <= i < |cs| ==> IsSpeakable(o, cs[i])
  }

  lemma {:induction false} ServeStations(v: Server, o: Options, iso: IsoReader, cs: seq<Config>, lines: seq<string>)
    requires Fits(v, o) && AllSpeakable(o, cs) && !IsUni(o)
    requires StationExchange(o, iso, cs, lines).used <= |lines|
    ensures
      var x := StationExchange(o, iso, cs, lines);
      Serve(v, x.sent, lines)
      == Served(v.(multi := v.multi || cs != [], subs := v.subs + Granted(o, iso, cs, lines),
                   fetch := v.fetch || (x.accepted > 0 && o.version.V3? && o.dialup && o.start.None?)), x.used)
    decreases |cs|
  {
    hide ParseReply, Block, Station, GrantedStation, Serve;
    if cs == [] {
      ServeNothing(v, lines);
      assert v.subs + [] == v.subs;
    } else {
      var c := cs[0];
      var ok := Suppressed(o) || (lines != [] && LineOk(lines[0]));
      var sent := if ok then Block(o, iso, c) else [Station(o, c)];
      var n := Answered(o, c, lines);
      ServeStation(v, o, iso, c, lines);
      var rest := lines[n..];
      var v1 := Serve(v, sent, lines).server;
      ServeStations(v1, o, iso, cs[1..], rest);
      ServeAppend(v, sent, StationExchange(o, iso, cs[1..], rest).sent, lines);
      assert v.subs + GrantedStation(o, iso, c, lines) + Granted(o, iso, cs[1..], rest)
          == v.subs + (GrantedStation(o, iso, c, lines) + Granted(o, iso, cs[1..], rest));
    }
  }

  lemma {:induction false} ServeNothing(v: Server, lines: seq<string>)
    ensures Serve(v, [], lines) == Served(v, 0)
  {
  }

  predicate AllOk(lines: seq<string>, n: nat) {
    n <= |lines| && forall i :: 0 <= i < n ==> LineOk(lines[i])
  }

  /** When nothing is refused the exchange is the whole plan. */
  lemma {:induction false} AllOkExchange(o: Options, iso: IsoReader, cs: seq<Config>, lines: seq<string>)
    requires !Suppressed(o) && AllOk(lines, |Blocks(o, iso, cs)|)
    ensures StationExchange(o, iso, cs, lines) == Turns(Blocks(o, iso, cs), |Blocks(o, iso, cs)|, |cs|)
  {
    hide ParseReply, Block;
    if cs != [] {
      var n := |Block(o, iso, cs[0])|;
      assert lines[n..] == lines[if n <= |lines| then n else |lines|..];
      AllOkExchange(o, iso, cs[1..], lines[n..]);
    }
  }

  function WireSelectors(o: Options, ss: seq<string>): seq<string> {
    if ss == [] then [] else [WireSelector(o.version, ss[0])] + WireSelectors(o, ss[1..])
  }

  /** The configuration itself, in the order it is requested. */
  function Configured(o: Options, iso: IsoReader, cs: seq<Config>): seq<Sub> {
    if cs == [] then []
    else
      [Sub(cs[0].id, WireSelectors(o, cs[0].selectors), Some(Wanted(o, iso, cs[0])))] + Configured(o, iso, cs[1..])
  }

  lemma {:induction false} AllKept(o: Options, ss: seq<string>, lines: seq<string>)
    requires Suppressed(o) || AllOk(lines, |ss|)
    ensures Kept(o, ss, lines) == WireSelectors(o, ss)
  {
    hide ParseReply, WireSelector;
    if ss != [] {
      AllKept(o, ss[1..], if Suppressed(o) || lines == [] then lines else lines[1..]);
    }
  }

  /** Without refusals the server holds exactly the configuration. */
  lemma {:induction false} AllGranted(o: Options, iso: IsoReader, cs: seq<Config>, lines: seq<string>)
    requires Suppressed(o) || AllOk(lines, |Blocks(o, iso, cs)|)
    ensures Granted(o, iso, cs, lines) == Configured(o, iso, cs)
  {
    hide ParseReply, Wanted, Block, Kept, WireSelectors;
    if cs != [] {
      var n := |cs[0].selectors|;
      assert |Blocks(o, iso, cs)| == n + 2 + |Blocks(o, iso, cs[1..])|;
      AllGranted(o, iso, cs[1..], DropLines(lines, Answered(o, cs[0], lines)));
      if Suppressed(o) {
        AllKept(o, cs[0].selectors, lines);
      } else {
        assert LineOk(lines[0]) && LineOk(lines[n + 1]);
        assert AllOk(lines[1..], n);
        AllKept(o, cs[0].selectors, lines[1..]);
      }
    }
  }

  /** A successful station-by-station negotiation, in any version and for any
      replies, leaves the server streaming what it granted: for each stream in
      order whose STATION was accepted, that station with the accepted selectors
      and the configured position. */
  lemma {:induction false} Subscribed(o: Options, iso: IsoReader, cs: seq<Config>, lines: seq<string>)
    requires !IsUni(o) && cs != [] && AllSpeakable(o, cs)
    requires AllSendable(Plan(o, iso, cs).value)
    requires RunWalk(FreshWalk, Plan(o, iso, cs).value, lines).outcome == Accepted
    ensures
      var run := RunWalk(FreshWalk, Plan(o, iso, cs).value, lines);
      Serve(NewServer(o.version, o.batchActive), run.sent, lines).server
      == Server(o.version, o.batchActive, true, Granted(o, iso, cs, lines), true,
                o.dialup && (o.version.V4? || o.start.None?))
    ensures o.version.V4? ==> Granted(o, iso, cs, lines) == Configured(o, iso, cs)
  {
    hide ParseReply, Encoded, Granted, Configured, RunWalk, Serve, Blocks;
    var v := NewServer(o.version, o.batchActive);
    var x := StationExchange(o, iso, cs, lines);
    if o.version.V3? {
      MultiStationNegotiation(o, iso, cs, lines);
    } else {
      var n := |Blocks(o, iso, cs)|;
      StrictNegotiation(o, iso, cs, lines);
      FirstRefusalIsFirst(lines, n);
      assert AllOk(lines, n);
      AllOkExchange(o, iso, cs, lines);
      AllGranted(o, iso, cs, lines);
    }
    ServeStations(v, o, iso, cs, lines);
    ServeAppend(v, x.sent, [End(o)], lines);
    ServeEnd(Serve(v, x.sent, lines).server, o, DropLines(lines, x.used));
    assert [] + Granted(o, iso, cs, lines) == Granted(o, iso, cs, lines);
  }

  lemma {:induction false} ServeEnd(v: Server, o: Options, lines: seq<string>)
    requires v.version == o.version
    ensures Serve(v, [End(o)], lines) == Served(v.(streaming := true, fetch := v.fetch || (o.version.V4? && o.dialup)), 0)
  {
    EndReadBack(o);
    hide Words;
  }

  lemma {:induction false} EndReadBack(o: Options)
    ensures Words(End(o).text) == [if o.version.V4? && o.dialup then "ENDFETCH" else "END"]
  {
    WordsOfPrefix("END", "");
    WordsOfPrefix("ENDFETCH", "");
    assert "END" + "" == "END" && "ENDFETCH" + "" == "ENDFETCH";
    assert Words("") == [];
  }

  /** 3.x uni-station negotiation always succeeds once its SELECTs are answered,
      and leaves the server streaming its one station the same way. */
  lemma {:induction false} SubscribedUni(o: Options, iso: IsoReader, c: Config, lines: seq<string>)
    requires IsUni(o) && AllWords(c.selectors)
    requires AllSendable(Plan(o, iso, [c]).value)
    ensures
      var run := RunWalk(FreshWalk, Plan(o, iso, [c]).value, lines);
      var n := if Suppressed(o) then 0 else |c.selectors|;
      if n > |lines| then run.outcome == Starved
      else
        run == Run(Plan(o, iso, [c]).value, n, Accepted)
        && Serve(NewServer(V3, o.batchActive), run.sent, lines).server
           == Server(V3, o.batchActive, false, [Sub("*", Kept(o, c.selectors, lines), Some(Wanted(o, iso, c)))], true,
                     o.dialup && o.start.None?)
  {
    hide ParseReply, Encoded, Selects, Data, Wanted, Serve, RunWalk;
    var n := if Suppressed(o) then 0 else |c.selectors|;
    var selects, data := Selects(o, c, c.selectors), Data(o, iso, c);
    SendableParts(selects, [data]);
    SelectsAreTail(o, c, c.selectors);
    SentTail(FreshWalk, selects, ReplyV3(o), [data], lines);
    if n <= |lines| {
      OneSendable([data]);
      LastCommand(o, iso, c, DropLines(lines, n));
      var v := NewServer(V3, o.batchActive);
      var v1 := v.(subs := [Sub("*", [], None)]);
      ServeImplicit(v, v1, o, iso, c, lines);
      ServeSelects(v1, o, c, c.selectors, lines);
      var v2 := v1.(subs := AddSelectors(v1.subs, Kept(o, c.selectors, lines)));
      ServeData(v2, o, iso, c, DropLines(lines, n));
      ServeAppend(v1, selects, [data], lines);
      assert [] + Kept(o, c.selectors, lines) == Kept(o, c.selectors, lines);
    }
  }

  lemma {:induction false} LastCommand(o: Options, iso: IsoReader, c: Config, lines: seq<string>)
    requires IsUni(o) && Encoded(Data(o, iso, c)).Ok?
    ensures RunWalk(FreshWalk, [Data(o, iso, c)], lines) == Run([Data(o, iso, c)], 0, Accepted)
  {
    hide Encoded, DataWordsV3, JoinWords;
    assert [Data(o, iso, c)][1..] == [];
    assert RunWalk(FreshWalk, [], lines) == Run([], 0, Accepted);
  }

  /** The implicit station is there from the first command on. */
  lemma {:induction false} ServeImplicit(v: Server, v1: Server, o: Options, iso: IsoReader, c: Config, lines: seq<string>)
    requires IsUni(o) && !v.multi && v.subs == [] && v1 == v.(subs := Current(v)) && v.version.V3?
    ensures Serve(v, Selects(o, c, c.selectors) + [Data(o, iso, c)], lines)
         == Serve(v1, Selects(o, c, c.selectors) + [Data(o, iso, c)], lines)
  {
    var cmds := Selects(o, c, c.selectors) + [Data(o, iso, c)];
    if c.selectors == [] {
      DataVerb(o, iso, c);
      assert cmds[0] == Data(o, iso, c);
    } else {
      SelectVerb(o, c, c.selectors[0]);
      assert cmds[0] == Select(o, c, c.selectors[0]);
    }
    hide Words, ParseReply, Data, Select, Selects, Apply, Answers;
    var words := Words(cmds[0].text);
    SameApplied(v, v1, words);
  }

  lemma {:induction false} SameApplied(v: Server, v1: Server, words: seq<string>)
    requires !v.multi && v.subs == [] && v1 == v.(subs := Current(v)) && v.version.V3?
    requires words != [] && (words[0] == "SELECT" || IsDataVerb(words[0]))
    ensures Apply(v, words, true) == Apply(v1, words, true) && Apply(v, words, false) == Apply(v1, words, false)
    ensures Answers(v, words[0]) == Answers(v1, words[0])
  {
  }
}
