/** SeedLink time strings: the comma form of 3.x in both directions, and the ISO
    form that 4.0 requests use. Reading ISO text is a parameter. */
module Times {
  import opened Text

  datatype DateTime = DateTime(year: nat, month: nat, day: nat, hour: nat, minute: nat, second: nat, microsecond: nat)

  predicate IsLeap(year: nat) {
    year % 4 == 0 && (year % 100 != 0 || year % 400 == 0)
  }

  function DaysInMonth(year: nat, month: nat): nat {
    if month == 2 then (if IsLeap(year) then 29 else 28)
    else if month in {4, 6, 9, 11} then 30
    else 31
  }

  /** What the `datetime` constructor accepts. */
  predicate IsDateTime(t: DateTime) {
    && 1 <= t.year <= 9999 && 1 <= t.month <= 12 && 1 <= t.day <= DaysInMonth(t.year, t.month)
    && t.hour < 24 && t.minute < 60 && t.second < 60 && t.microsecond < 1000000
  }

  /** How text without a comma is read as an ISO 8601 time; None stands for ValueError. */
  type IsoReader = string -> Option<DateTime>

  function CommaText(ns: seq<nat>): (s: string)
    ensures NoSpace(s)
    ensures ns != [] ==> s != ""
  {
    if ns == [] then ""
    else if |ns| == 1 then Digits(ns[0], 10)
    else Digits(ns[0], 10) + "," + CommaText(ns[1..])
  }

  /** `to_comma_timestring`; fractional seconds are dropped. */
  function ToComma(t: DateTime): (s: string)
    ensures IsWord(s)
  {
    CommaText([t.year, t.month, t.day, t.hour, t.minute, t.second])
  }

  /** `to_iso_timestring`; fractional seconds are omitted when zero. */
  function ToIso(t: DateTime): (s: string)
    ensures IsWord(s)
  {
    Solid([Digits(t.year, 10), Marked('-', t.month, 2), Marked('-', t.day, 2), Marked('T', t.hour, 2), Marked(':', t.minute, 2),
           Marked(':', t.second, 2), if t.microsecond != 0 then Marked('.', t.microsecond, 6) else "", "Z"])
  }

  /** A string free of white space. */
  type solid = s: string | NoSpace(s)

  function Marked(mark: char, n: nat, k: nat): (s: solid)
    requires !IsSpace(mark)
  {
    [mark] + FixedDigits(n, k, 10)
  }

  function Solid(parts: seq<solid>): (s: solid)
    ensures parts != [] && parts[0] != "" ==> s != ""
  {
    if parts == [] then "" else parts[0] + Solid(parts[1..])
  }

  // ------------------------------------------------------------------ ISO text

  /** A number, the mark behind it, and what follows. */
  function Field(s: string, mark: char): Option<(int, string)> {
    var (digits, found, rest) := Partition(s, mark);
    if !found then None
    else match PyInt(digits, 10) case Some(n) => Some((n, rest)) case None => None
  }

  /** A reader of `YYYY-MM-DDThh:mm:ss[.ffffff]Z`, field by field. */
  function ReadIso(s: string): Option<seq<int>> {
    match Field(s, '-') case None => None case Some((year, s1)) =>
    match Field(s1, '-') case None => None case Some((month, s2)) =>
    match Field(s2, 'T') case None => None case Some((day, s3)) =>
    match Field(s3, ':') case None => None case Some((hour, s4)) =>
    match Field(s4, ':') case None => None case Some((minute, s5)) =>
    match Field(s5, '.')
    case Some((second, s6)) =>
      (match Field(s6, 'Z') case Some((fraction, "")) => Some([year, month, day, hour, minute, second, fraction]) case _ => None)
    case None =>
      (match Field(s5, 'Z') case Some((second, "")) => Some([year, month, day, hour, minute, second, 0]) case _ => None)
  }

  lemma {:induction false} FixedField(n: nat, k: nat, mark: char, rest: string)
    requires 0 < k && n < Power(10, k) && DigitValue(mark) >= 10
    ensures Field(FixedDigits(n, k, 10) + [mark] + rest, mark) == Some((n, rest))
  {
    var digits := FixedDigits(n, k, 10);
    ParseOfFixedDigits(n, k, 10);
    ParseFixed(digits, n);
    MarkNotIn(digits, mark);
    PartitionOfJoin(digits, mark, rest);
  }

  lemma {:induction false} ParseFixed(digits: string, n: nat)
    requires digits != "" && AllDigits(digits, 10) && ParseDigits(digits, 10, 0, false) == Some(n)
    ensures PyInt(digits, 10) == Some(n)
  {
    assert digits[0] != '_';
    PyIntOfDigits(digits, 10, n);
  }

  lemma {:induction false} MarkNotIn(digits: string, mark: char)
    requires AllDigits(digits, 10) && DigitValue(mark) >= 10
    ensures mark !in digits
  {
  }

  lemma {:induction false} YearField(year: nat, rest: string)
    ensures Field(Digits(year, 10) + ['-'] + rest, '-') == Some((year, rest))
  {
    var digits := Digits(year, 10);
    DigitsField(year);
    MarkNotIn(digits, '-');
    PartitionOfJoin(digits, '-', rest);
  }

  /** The tail of an ISO text, with its fraction or without. */
  function IsoSeconds(t: DateTime): string {
    FixedDigits(t.second, 2, 10) + (if t.microsecond != 0 then ['.'] + FixedDigits(t.microsecond, 6, 10) else "") + ['Z']
  }

  function IsoFrom(t: DateTime, part: nat): string
    decreases 6 - part
  {
    if part == 0 then Digits(t.year, 10) + ['-'] + IsoFrom(t, 1)
    else if part == 1 then FixedDigits(t.month, 2, 10) + ['-'] + IsoFrom(t, 2)
    else if part == 2 then FixedDigits(t.day, 2, 10) + ['T'] + IsoFrom(t, 3)
    else if part == 3 then FixedDigits(t.hour, 2, 10) + [':'] + IsoFrom(t, 4)
    else if part == 4 then FixedDigits(t.minute, 2, 10) + [':'] + IsoSeconds(t)
    else ""
  }

  lemma {:induction false} IsoIsFields(t: DateTime)
    ensures ToIso(t) == IsoFrom(t, 0)
  {
    hide FixedDigits, Digits, Solid;
    var fraction: solid := if t.microsecond != 0 then Marked('.', t.microsecond, 6) else "";
    Shift(Digits(t.year, 10), '-', FixedDigits(t.month, 2, 10), Marked('-', t.day, 2) + (Marked('T', t.hour, 2)
      + (Marked(':', t.minute, 2) + (Marked(':', t.second, 2) + (fraction + "Z")))));
    Shift(FixedDigits(t.month, 2, 10), '-', FixedDigits(t.day, 2, 10), Marked('T', t.hour, 2)
      + (Marked(':', t.minute, 2) + (Marked(':', t.second, 2) + (fraction + "Z"))));
    Shift(FixedDigits(t.day, 2, 10), 'T', FixedDigits(t.hour, 2, 10), Marked(':', t.minute, 2) + (Marked(':', t.second, 2) + (fraction + "Z")));
    Shift(FixedDigits(t.hour, 2, 10), ':', FixedDigits(t.minute, 2, 10), Marked(':', t.second, 2) + (fraction + "Z"));
    Shift(FixedDigits(t.minute, 2, 10), ':', FixedDigits(t.second, 2, 10), fraction + "Z");
    assert FixedDigits(t.second, 2, 10) + (fraction + "Z") == IsoSeconds(t);
    SolidOf8(Digits(t.year, 10), Marked('-', t.month, 2), Marked('-', t.day, 2), Marked('T', t.hour, 2), Marked(':', t.minute, 2),
             Marked(':', t.second, 2), fraction, "Z");
  }

  lemma {:induction false} Shift(a: string, mark: char, b: string, rest: string)
    ensures a + (([mark] + b) + rest) == a + [mark] + (b + rest)
  {
  }

  lemma {:induction false} SolidOf8(a: solid, b: solid, c: solid, d: solid, e: solid, f: solid, g: solid, h: solid)
    ensures Solid([a, b, c, d, e, f, g, h]) == a + (b + (c + (d + (e + (f + (g + h))))))
  {
    assert Solid([h]) == h by { assert [h][1..] == []; }
    SolidCons(g, [h]);
    SolidCons(f, [g, h]);
    SolidCons(e, [f, g, h]);
    SolidCons(d, [e, f, g, h]);
    SolidCons(c, [d, e, f, g, h]);
    SolidCons(b, [c, d, e, f, g, h]);
    SolidCons(a, [b, c, d, e, f, g, h]);
  }

  lemma {:induction false} SolidCons(part: solid, parts: seq<solid>)
    ensures Solid([part] + parts) == part + Solid(parts)
  {
    assert ([part] + parts)[1..] == parts;
  }

  lemma {:induction false} SecondsRead(t: DateTime)
    requires t.second < 60 && t.microsecond < 1000000
    ensures
      var s := IsoSeconds(t);
      if t.microsecond != 0 then
        Field(s, '.') == Some((t.second, FixedDigits(t.microsecond, 6, 10) + ['Z'])) && Field(FixedDigits(t.microsecond, 6, 10) + ['Z'], 'Z') == Some((t.microsecond, ""))
      else Field(s, '.') == None && Field(s, 'Z') == Some((t.second, ""))
  {
    hide Field;
    assert Power(10, 2) == 100 && Power(10, 6) == 1000000;
    var digits := FixedDigits(t.second, 2, 10);
    if t.microsecond != 0 {
      var micros := FixedDigits(t.microsecond, 6, 10);
      FixedField(t.second, 2, '.', micros + ['Z']);
      FixedField(t.microsecond, 6, 'Z', "");
      assert micros + ['Z'] + "" == micros + ['Z'];
      assert IsoSeconds(t) == digits + ['.'] + (micros + ['Z']);
    } else {
      FixedField(t.second, 2, 'Z', "");
      assert IsoSeconds(t) == digits + ['Z'] + "";
      MarkNotIn(digits, '.');
      NoField(digits + ['Z'], '.');
      assert digits + ['Z'] + "" == digits + ['Z'];
    }
  }

  lemma {:induction false} NoField(s: string, mark: char)
    requires mark !in s
    ensures Field(s, mark) == None
  {
  }

  /** Every field of a time printed for 4.0 reads back, the fraction included. */
  lemma {:induction false} IsoRoundTrip(t: DateTime)
    requires IsDateTime(t)
    ensures ReadIso(ToIso(t)) == Some([t.year, t.month, t.day, t.hour, t.minute, t.second, t.microsecond])
  {
    hide Field, IsoSeconds, FixedDigits, Digits, ToIso;
    IsoIsFields(t);
    IsoDate(t);
    IsoClock(t);
    SecondsRead(t);
    hide IsoFrom;
  }

  lemma {:induction false} IsoDate(t: DateTime)
    requires IsDateTime(t)
    ensures Field(IsoFrom(t, 0), '-') == Some((t.year, IsoFrom(t, 1)))
    ensures Field(IsoFrom(t, 1), '-') == Some((t.month, IsoFrom(t, 2)))
    ensures Field(IsoFrom(t, 2), 'T') == Some((t.day, IsoFrom(t, 3)))
  {
    hide Field, IsoSeconds, FixedDigits, Digits;
    assert Power(10, 2) == 100;
    assert t.day < 100;
    YearField(t.year, IsoFrom(t, 1));
    FixedField(t.month, 2, '-', IsoFrom(t, 2));
    FixedField(t.day, 2, 'T', IsoFrom(t, 3));
  }

  lemma {:induction false} IsoClock(t: DateTime)
    requires IsDateTime(t)
    ensures Field(IsoFrom(t, 3), ':') == Some((t.hour, IsoFrom(t, 4)))
    ensures Field(IsoFrom(t, 4), ':') == Some((t.minute, IsoSeconds(t)))
  {
    hide Field, IsoSeconds, FixedDigits, Digits;
    assert Power(10, 2) == 100;
    FixedField(t.hour, 2, ':', IsoFrom(t, 4));
    FixedField(t.minute, 2, ':', IsoSeconds(t));
  }

  // ---------------------------------------------------------------- comma text

  function IntFields(fs: seq<string>): Option<seq<int>> {
    if fs == [] then Some([])
    else
      match (PyInt(fs[0], 10), IntFields(fs[1..]))
      case (Some(n), Some(rest)) => Some([n] + rest)
      case _ => None
  }

  /** The comma branch of `parse_timestring`: missing fields default to the start
      of the year, extra ones are ignored, an impossible date is refused. */
  function ParseComma(s: string): Option<DateTime> {
    match IntFields(Fields(StripRight(StripLeft(s)), ','))
    case None => None
    case Some(ns) =>
      var parts := ns + [0, 1, 1, 0, 0, 0][if |ns| < 6 then |ns| else 6..];
      if exists i :: 0 <= i < 6 && parts[i] < 0 then None
      else
        var t := DateTime(parts[0], parts[1], parts[2], parts[3], parts[4], parts[5], 0);
        if IsDateTime(t) then Some(t) else None
  }

  function ParseTime(iso: IsoReader, s: string): Option<DateTime> {
    if ',' in s then ParseComma(s) else iso(s)
  }

  lemma {:induction false} DigitsField(n: nat)
    ensures ',' !in Digits(n, 10) && PyInt(Digits(n, 10), 10) == Some(n)
  {
    assert forall i :: 0 <= i < |Digits(n, 10)| ==> DigitValue(Digits(n, 10)[i]) < 10;
    PyIntOfFormat(n, 10);
  }

  lemma {:induction false} IntFieldsCons(f: string, n: int, fs: seq<string>, ns: seq<int>)
    requires PyInt(f, 10) == Some(n) && IntFields(fs) == Some(ns)
    ensures IntFields([f] + fs) == Some([n] + ns)
  {
    assert ([f] + fs)[1..] == fs;
  }

  lemma {:induction false} FieldsOfCommaText(ns: seq<nat>)
    requires ns != []
    ensures IntFields(Fields(CommaText(ns), ',')) == Some(ns)
  {
    hide PyInt, Digits;
    var head := Digits(ns[0], 10);
    DigitsField(ns[0]);
    if |ns| == 1 {
      assert IntFields([]) == Some([]);
      IntFieldsCons(head, ns[0], [], []);
      assert [head] + [] == [head] && [ns[0]] + [] == ns;
    } else {
      PartitionOfJoin(head, ',', CommaText(ns[1..]));
      FieldsOfCommaText(ns[1..]);
      IntFieldsCons(head, ns[0], Fields(CommaText(ns[1..]), ','), ns[1..]);
      assert [ns[0]] + ns[1..] == ns;
    }
  }

  /** Left-out fields are the first of their kind, extra ones do not count. */
  function WithDefaults(ns: seq<nat>): (parts: seq<nat>)
    requires ns != []
    ensures |parts| == 6
  {
    if |ns| == 1 then ns + [1, 1, 0, 0, 0]
    else if |ns| == 2 then ns + [1, 0, 0, 0]
    else if |ns| < 6 then ns + seq(6 - |ns|, _ => 0)
    else ns[..6]
  }

  /** A comma text of any number of fields is the time they give, and is refused
      exactly when there is no such date or hour. */
  lemma {:induction false} CommaFields(iso: IsoReader, ns: seq<nat>)
    requires |ns| > 1
    ensures
      var parts := WithDefaults(ns);
      var t := DateTime(parts[0], parts[1], parts[2], parts[3], parts[4], parts[5], 0);
      ParseTime(iso, CommaText(ns)) == if IsDateTime(t) then Some(t) else None
  {
    hide IntFields, Fields, StripLeft, StripRight, IsDateTime, CommaText, Digits, NoSpace, IsSpace, ParseComma, WithDefaults;
    var s := CommaText(ns);
    FieldsOfCommaText(ns);
    CommaTextEnds(ns);
    StripOfSolid(s);
    CommaInside(ns);
    CommaParts(s, ns);
  }

  lemma {:induction false} CommaInside(ns: seq<nat>)
    requires |ns| > 1
    ensures ',' in CommaText(ns)
  {
    hide Digits;
    assert CommaText(ns)[|Digits(ns[0], 10)|] == ',';
  }

  lemma {:induction false} DefaultsFill(ns: seq<nat>, parts: seq<int>)
    requires |ns| > 1 && parts == ns + [0, 1, 1, 0, 0, 0][if |ns| < 6 then |ns| else 6..]
    ensures |parts| >= 6 && parts[..6] == WithDefaults(ns)
  {
    assert forall i :: 0 <= i < 6 ==> parts[i] == if i < |ns| then ns[i] else [0, 1, 1, 0, 0, 0][i];
    assert forall i :: 0 <= i < 6 ==> WithDefaults(ns)[i] == if i < |ns| then ns[i] else [0, 1, 1, 0, 0, 0][i];
  }

  lemma {:induction false} CommaParts(s: string, ns: seq<nat>)
    requires |ns| > 1 && IntFields(Fields(StripRight(StripLeft(s)), ',')) == Some(ns)
    ensures
      var parts := WithDefaults(ns);
      var t := DateTime(parts[0], parts[1], parts[2], parts[3], parts[4], parts[5], 0);
      ParseComma(s) == if IsDateTime(t) then Some(t) else None
  {
    hide IntFields, Fields, StripLeft, StripRight, IsDateTime, WithDefaults;
    var parts := ns + [0, 1, 1, 0, 0, 0][if |ns| < 6 then |ns| else 6..];
    DefaultsFill(ns, parts);
    assert forall i :: 0 <= i < 6 ==> parts[i] == parts[..6][i];
  }

  lemma {:induction false} CommaTextEnds(ns: seq<nat>)
    requires ns != []
    ensures !IsSpace(CommaText(ns)[0]) && !IsSpace(CommaText(ns)[|CommaText(ns)| - 1])
  {
  }

  lemma {:induction false} ParsedParts(s: string, t: DateTime)
    requires IntFields(Fields(StripRight(StripLeft(s)), ',')) == Some([t.year, t.month, t.day, t.hour, t.minute, t.second])
    requires IsDateTime(t)
    ensures ParseComma(s) == Some(t.(microsecond := 0))
  {
    hide IntFields, Fields, StripLeft, StripRight;
  }

  /** Printing a time for 3.x and reading it back loses exactly the fraction of
      the second. */
  lemma {:induction false} CommaRoundTrip(iso: IsoReader, t: DateTime)
    requires IsDateTime(t)
    ensures ParseTime(iso, ToComma(t)) == Some(t.(microsecond := 0))
  {
    var ns := [t.year, t.month, t.day, t.hour, t.minute, t.second];
    var s := CommaText(ns);
    FieldsOfCommaText(ns);
    StripOfSolid(s);
    assert s[|Digits(t.year, 10)|] == ',';
    hide IntFields, Fields, StripLeft, StripRight, IsDateTime, ParseComma, CommaText, Digits, NoSpace;
    ParsedParts(s, t);
  }
}
