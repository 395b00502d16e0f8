/** The state file: one line per stream, written by `save_state` and read back
    by `load_state`, in the #V2 format and in the older headerless one. */
module StateFile {
  import opened Text
  import opened Streams

  const HEADER := "#V2 StationID  Sequence  [Timestamp]"

  /** What is known of a station: sequence number and timestamp. */
  type Entry = (Option<int>, Option<string>)
  type Saved = map<string, Entry>

  function EntryFields(c: Config): seq<string> {
    [c.id, match c.seqnum case None => "UNSET" case Some(n) => FormatInt(n, 10)]
    + match c.timestamp case None => [] case Some(t) => if t == "" then [] else [t]
  }

  function FileLines(cs: seq<Config>): seq<string> {
    if cs == [] then [] else [JoinWords(EntryFields(cs[0]))] + FileLines(cs[1..])
  }

  /** Lines each closed by a newline. */
  function Unlines(lines: seq<string>): string {
    if lines == [] then "" else lines[0] + "\n" + Unlines(lines[1..])
  }

  /** The text `save_state` leaves in the file. */
  function Save(cs: seq<Config>): string {
    Unlines([HEADER] + FileLines(cs))
  }

  lemma {:induction false} FileLinesSnoc(cs: seq<Config>, c: Config)
    ensures FileLines(cs + [c]) == FileLines(cs) + [JoinWords(EntryFields(c))]
  {
    if cs == [] {
      assert ([] + [c])[1..] == [];
    } else {
      assert (cs + [c])[1..] == cs[1..] + [c];
      FileLinesSnoc(cs[1..], c);
    }
  }

  lemma {:induction false} UnlinesSnoc(lines: seq<string>, line: string)
    ensures Unlines(lines + [line]) == Unlines(lines) + (line + "\n")
  {
    if lines == [] {
      assert ([] + [line])[1..] == [];
      assert Unlines([line]) == line + "\n" + "" == line + "\n";
    } else {
      assert (lines + [line])[1..] == lines[1..] + [line];
      UnlinesSnoc(lines[1..], line);
    }
  }

  method SaveState(cs: seq<Config>) returns (text: string)
    ensures text == Save(cs)
  {
    text := HEADER + "\n";
    UnlinesSnoc([], HEADER);
    assert [] + [HEADER] == [HEADER] && "" + (HEADER + "\n") == HEADER + "\n";
    for i := 0 to |cs|
      invariant text == Unlines([HEADER] + FileLines(cs[..i]))
    {
      var line := JoinWords(EntryFields(cs[i]));
      FileLinesSnoc(cs[..i], cs[i]);
      assert cs[..i + 1] == cs[..i] + [cs[i]];
      assert [HEADER] + FileLines(cs[..i + 1]) == [HEADER] + FileLines(cs[..i]) + [line];
      UnlinesSnoc([HEADER] + FileLines(cs[..i]), line);
      text := text + (line + "\n");
    }
    assert cs[..|cs|] == cs;
  }

  // ------------------------------------------------------------------- reading

  /** The lines of a text file, newlines of any kind removed. */
  function Lines(text: string): seq<string>
    decreases |text|
  {
    if text == "" then []
    else
      var n := LineLength(text);
      if n == |text| then [text]
      else
        var skip := if text[n] == '\r' && n + 1 < |text| && text[n + 1] == '\n' then 2 else 1;
        [text[..n]] + Lines(text[n + skip..])
  }

  function LineLength(text: string): (n: nat)
    ensures n <= |text| && (n < |text| ==> text[n] in "\r\n")
  {
    if text == "" || text[0] in "\r\n" then 0 else 1 + LineLength(text[1..])
  }

  /** One entry, or None for a line that is skipped. */
  function ParseLine(isV2: bool, line: string): Option<(string, Entry)> {
    var fields := Words(line);
    if fields == [] || fields[0][0] == '#' then None
    else if isV2 then
      if |fields| < 2 then None
      else ParseEntry(fields[0], fields[1], if |fields| > 2 then Some(fields[2]) else None)
    else if |fields| < 3 then None
    else
      var id := if fields[0] == "XX" && fields[1] == "UNI" then "*" else fields[0] + "_" + fields[1];
      ParseEntry(id, fields[2], if |fields| > 3 then Some(fields[3]) else None)
  }

  function ParseEntry(id: string, number: string, timestamp: Option<string>): Option<(string, Entry)> {
    if number in {"UNSET", "-1"} then Some((id, (None, timestamp)))
    else
      match PyInt(number, 10)
      case None => None
      case Some(n) => Some((id, (Some(n), timestamp)))
  }

  function ReadEntries(isV2: bool, lines: seq<string>, state: Saved): Saved {
    if lines == [] then state
    else
      match ParseLine(isV2, lines[0])
      case None => ReadEntries(isV2, lines[1..], state)
      case Some((id, entry)) => ReadEntries(isV2, lines[1..], state[id := entry])
  }

  function Load(text: string): Saved {
    var lines := Lines(text);
    var isV2 := lines != [] && "#V2" <= lines[0];
    ReadEntries(isV2, if isV2 then lines[1..] else lines, map[])
  }

  lemma {:induction false} ReadEntriesSnoc(isV2: bool, lines: seq<string>, line: string, state: Saved)
    ensures ReadEntries(isV2, lines + [line], state) ==
            match ParseLine(isV2, line)
            case None => ReadEntries(isV2, lines, state)
            case Some((id, entry)) => ReadEntries(isV2, lines, state)[id := entry]
  {
    hide ParseLine;
    if lines == [] {
      assert ([] + [line])[1..] == [];
    } else {
      assert (lines + [line])[1..] == lines[1..] + [line];
      var next := match ParseLine(isV2, lines[0]) case None => state case Some((id, entry)) => state[id := entry];
      ReadEntriesSnoc(isV2, lines[1..], line, next);
    }
  }

  method LoadState(text: string) returns (state: Saved)
    ensures state == Load(text)
  {
    hide ParseLine;
    var lines := Lines(text);
    var isV2 := lines != [] && "#V2" <= lines[0];
    var body := if isV2 then lines[1..] else lines;
    state := map[];
    for i := 0 to |body|
      invariant state == ReadEntries(isV2, body[..i], map[])
    {
      ReadEntriesSnoc(isV2, body[..i], body[i], map[]);
      assert body[..i + 1] == body[..i] + [body[i]];
      match ParseLine(isV2, body[i]) {
        case None =>
        case Some((id, entry)) => state := state[id := entry];
      }
    }
    assert body[..|body|] == body;
  }

  // ---------------------------------------------------------------- round trip

  /** What a state file can carry: a non-empty, white-space-free, not '#'-led
      station ID and a white-space-free timestamp. */
  predicate IsSavable(c: Config) {
    && IsWord(c.id) && c.id[0] != '#'
    && (c.timestamp.Some? ==> NoSpace(c.timestamp.value))
  }

  predicate AllSavable(cs: seq<Config>) {
    forall i :: 0 <= i < |cs| ==> IsSavable(cs[i])
  }

  /** What comes back of an entry: -1 and the empty timestamp read as absent. */
  function Recalled(c: Config): Entry {
    (if c.seqnum == Some(-1) then None else c.seqnum, if c.timestamp == Some("") then None else c.timestamp)
  }

  /** The last entry for each station ID. */
  function LastEntries(cs: seq<Config>, state: Saved): Saved {
    if cs == [] then state else LastEntries(cs[1..], state[cs[0].id := Recalled(cs[0])])
  }

  lemma {:induction false} LineLengthOfPrefix(line: string, rest: string)
    requires forall i :: 0 <= i < |line| ==> line[i] !in "\r\n"
    ensures LineLength(line + "\n" + rest) == |line|
  {
    var text := line + "\n" + rest;
    if line != "" {
      assert text[1..] == line[1..] + "\n" + rest;
      LineLengthOfPrefix(line[1..], rest);
    }
  }

  lemma {:induction false} LinesOfUnlines(lines: seq<string>)
    requires forall k :: 0 <= k < |lines| ==> forall i :: 0 <= i < |lines[k]| ==> lines[k][i] !in "\r\n"
    ensures Lines(Unlines(lines)) == lines
  {
    if lines != [] {
      var rest := Unlines(lines[1..]);
      var text := lines[0] + "\n" + rest;
      LineLengthOfPrefix(lines[0], rest);
      assert text[..|lines[0]|] == lines[0] && text[|lines[0]| + 1..] == rest && text[|lines[0]|] == '\n';
      LinesOfUnlines(lines[1..]);
    }
  }

  lemma {:induction false} EntryFieldsAreWords(c: Config)
    requires IsSavable(c)
    ensures AllWords(EntryFields(c))
  {
    hide FormatInt;
  }

  lemma {:induction false} JoinedOnOneLine(ws: seq<string>)
    requires AllWords(ws)
    ensures forall i :: 0 <= i < |JoinWords(ws)| ==> JoinWords(ws)[i] !in "\r\n"
    ensures ws != [] ==> JoinWords(ws) != "" && JoinWords(ws)[0] == ws[0][0]
  {
    if |ws| > 1 {
      JoinedOnOneLine(ws[1..]);
    }
  }

  /** The line of a stream is parsed back to its entry. */
  lemma {:induction false} LineRecalled(c: Config)
    requires IsSavable(c)
    ensures ParseLine(true, JoinWords(EntryFields(c))) == Some((c.id, Recalled(c)))
  {
    var fields := EntryFields(c);
    EntryFieldsAreWords(c);
    WordsOfJoin(fields);
    JoinedOnOneLine(fields);
    var line := JoinWords(fields);
    assert fields[0][0] != '#';
    if c.seqnum.Some? {
      PyIntOfFormat(c.seqnum.value, 10);
      SpecialNumbers(c.seqnum.value);
    }
    hide FormatInt, PyInt, Words;
  }

  lemma {:induction false} SpecialNumbers(n: int)
    ensures FormatInt(n, 10) != "UNSET"
    ensures FormatInt(n, 10) == "-1" <==> n == -1
  {
    var first := FormatInt(n, 10)[0];
    assert first == '-' || DigitValue(first) < 10;
    assert "UNSET"[0] == 'U' && "-1"[0] == '-';
    if FormatInt(n, 10) == "-1" {
      PyIntOfFormat(n, 10);
      PyIntOfFormat(-1, 10);
      assert FormatInt(-1, 10) == "-" + Digits(1, 10) == "-1";
    }
  }

  lemma {:induction false} FileLinesAreLines(cs: seq<Config>)
    requires AllSavable(cs)
    ensures forall k :: 0 <= k < |FileLines(cs)| ==> forall i :: 0 <= i < |FileLines(cs)[k]| ==> FileLines(cs)[k][i] !in "\r\n"
  {
    if cs != [] {
      EntryFieldsAreWords(cs[0]);
      JoinedOnOneLine(EntryFields(cs[0]));
      FileLinesAreLines(cs[1..]);
    }
  }

  lemma {:induction false} EntriesRecalled(cs: seq<Config>, state: Saved)
    requires AllSavable(cs)
    ensures ReadEntries(true, FileLines(cs), state) == LastEntries(cs, state)
  {
    if cs != [] {
      LineRecalled(cs[0]);
      assert FileLines(cs)[1..] == FileLines(cs[1..]);
      EntriesRecalled(cs[1..], state[cs[0].id := Recalled(cs[0])]);
    }
  }

  /** Loading a saved file gives the last entry of each station ID. */
  lemma {:induction false} StateRoundTrip(cs: seq<Config>)
    requires AllSavable(cs)
    ensures Load(Save(cs)) == LastEntries(cs, map[])
  {
    FileLinesAreLines(cs);
    LinesOfUnlines([HEADER] + FileLines(cs));
    hide Lines, Unlines, FileLines, ReadEntries, LastEntries, AllSavable;
    assert ([HEADER] + FileLines(cs))[1..] == FileLines(cs);
    assert "#V2" <= HEADER;
    EntriesRecalled(cs, map[]);
  }

  /** An entry comes back unchanged except in two cases a caller can check
      beforehand: sequence number -1, which the format uses for "unset", and an
      empty timestamp. */
  lemma {:induction false} EntrySurvives(c: Config)
    requires IsSavable(c)
    ensures Load(Save([c])) == map[c.id := (c.seqnum, c.timestamp)]
            <==> c.seqnum != Some(-1) && c.timestamp != Some("")
  {
    StateRoundTrip([c]);
    assert [c][1..] == [];
    assert LastEntries([c], map[]) == map[c.id := Recalled(c)];
    assert map[c.id := Recalled(c)][c.id] == Recalled(c);
    if Recalled(c) != (c.seqnum, c.timestamp) {
      assert map[c.id := Recalled(c)][c.id] != map[c.id := (c.seqnum, c.timestamp)][c.id];
    }
  }

  // --------------------------------------------------- files of the older format

  /** A line of the format without a header: network, station, number, time. */
  datatype OldEntry = OldEntry(net: string, sta: string, seqnum: Option<int>, time: Option<string>)

  predicate IsOldEntry(e: OldEntry) {
    IsWord(e.net) && e.net[0] != '#' && IsWord(e.sta) && (e.time.Some? ==> IsWord(e.time.value))
  }

  function OldLine(e: OldEntry): string {
    JoinWords(OldFields(e))
  }

  function OldFields(e: OldEntry): seq<string> {
    [e.net, e.sta, match e.seqnum case None => "UNSET" case Some(n) => FormatInt(n, 10)]
    + match e.time case None => [] case Some(t) => [t]
  }

  function OldLines(es: seq<OldEntry>): (lines: seq<string>)
    ensures |lines| == |es|
    ensures forall i :: 0 <= i < |es| ==> lines[i] == OldLine(es[i])
  {
    if es == [] then [] else [OldLine(es[0])] + OldLines(es[1..])
  }

  /** What it says: XX UNI is the one station of uni-station mode. */
  function OldMeaning(e: OldEntry): (string, Entry) {
    (if e.net == "XX" && e.sta == "UNI" then "*" else e.net + "_" + e.sta,
     (if e.seqnum == Some(-1) then None else e.seqnum, e.time))
  }

  function LastOld(es: seq<OldEntry>, state: Saved): Saved {
    if es == [] then state else LastOld(es[1..], state[OldMeaning(es[0]).0 := OldMeaning(es[0]).1])
  }

  lemma {:induction false} OldLineRead(e: OldEntry)
    requires IsOldEntry(e)
    ensures ParseLine(false, OldLine(e)) == Some(OldMeaning(e))
    ensures OldLine(e) != "" && OldLine(e)[0] != '#'
    ensures forall i :: 0 <= i < |OldLine(e)| ==> OldLine(e)[i] !in "\r\n"
  {
    hide FormatInt, PyInt, Words, JoinWords, ParseLine, IsWord;
    var fields := OldFields(e);
    OldFieldsAreWords(e);
    WordsOfJoin(fields);
    JoinedOnOneLine(fields);
    OldFieldsRead(OldLine(e), e);
  }

  lemma {:induction false} OldFieldsRead(line: string, e: OldEntry)
    requires IsOldEntry(e) && Words(line) == OldFields(e)
    ensures ParseLine(false, line) == Some(OldMeaning(e))
  {
    hide FormatInt, PyInt, Words, NoSpace;
    if e.seqnum.Some? {
      PyIntOfFormat(e.seqnum.value, 10);
      SpecialNumbers(e.seqnum.value);
    }
    assert OldFields(e)[0] == e.net && OldFields(e)[1] == e.sta;
    assert |OldFields(e)| > 3 <==> e.time.Some?;
  }

  lemma {:induction false} OldFieldsAreWords(e: OldEntry)
    requires IsOldEntry(e)
    ensures AllWords(OldFields(e))
  {
    hide FormatInt;
  }

  lemma {:induction false} OldEntriesRead(es: seq<OldEntry>, state: Saved)
    requires forall i :: 0 <= i < |es| ==> IsOldEntry(es[i])
    ensures ReadEntries(false, OldLines(es), state) == LastOld(es, state)
  {
    hide ParseLine, OldMeaning, OldLine, IsOldEntry;
    if es != [] {
      OldLineRead(es[0]);
      assert OldLines(es)[1..] == OldLines(es[1..]);
      OldEntriesRead(es[1..], state[OldMeaning(es[0]).0 := OldMeaning(es[0]).1]);
    }
  }

  /** A file without the header gives the last entry of each station as well. */
  lemma {:induction false} OldFileRead(es: seq<OldEntry>)
    requires forall i :: 0 <= i < |es| ==> IsOldEntry(es[i])
    ensures Load(Unlines(OldLines(es))) == LastOld(es, map[])
  {
    var lines := OldLines(es);
    forall k | 0 <= k < |lines| ensures forall i :: 0 <= i < |lines[k]| ==> lines[k][i] !in "\r\n" {
      OldLineRead(es[k]);
    }
    LinesOfUnlines(lines);
    OldEntriesRead(es, map[]);
    if es != [] {
      OldLineRead(es[0]);
      assert "#V2"[0] == '#';
    }
    hide Lines, Unlines, ReadEntries, LastOld, OldLine, ParseLine;
  }

  /** Blank lines, comments and lines that lack a field or a number are skipped. */
  lemma {:induction false} LinesSkipped(isV2: bool, line: string)
    requires
      var fields := Words(line);
      var n := if isV2 then 1 else 2;
      |fields| <= n || fields[0][0] == '#' || (fields[n] !in {"UNSET", "-1"} && PyInt(fields[n], 10).None?)
    ensures ParseLine(isV2, line).None?
  {
    hide Words, PyInt;
  }

  /** With distinct IDs every stream finds its own entry again. */
  lemma {:induction false} EntryOf(cs: seq<Config>, state: Saved, i: nat)
    requires i < |cs|
    requires forall j, k :: 0 <= j < k < |cs| ==> cs[j].id != cs[k].id
    ensures cs[i].id in LastEntries(cs, state) && LastEntries(cs, state)[cs[i].id] == Recalled(cs[i])
  {
    var next := state[cs[0].id := Recalled(cs[0])];
    if i > 0 {
      EntryOf(cs[1..], next, i - 1);
    } else {
      LaterEntries(cs[1..], next, cs[0].id);
    }
  }

  lemma {:induction false} LaterEntries(cs: seq<Config>, state: Saved, id: string)
    requires forall j :: 0 <= j < |cs| ==> cs[j].id != id
    requires id in state
    ensures id in LastEntries(cs, state) && LastEntries(cs, state)[id] == state[id]
  {
    if cs != [] {
      LaterEntries(cs[1..], state[cs[0].id := Recalled(cs[0])], id);
    }
  }
}
