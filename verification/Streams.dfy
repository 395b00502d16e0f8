/** Stream selection as values: one station's configuration, selector syntax
    conversion between protocol versions, and the order stations are requested in. */
module Streams {
  import opened Text

  /** One station's selection and resume position. `timestamp` is the resolved
      one, see Selections.Stream. */
  datatype Config = Config(id: string, selectors: seq<string>, seqnum: Option<int>, allData: bool, timestamp: Option<string>)

  // ---------------------------------------------------------------- selectors

  predicate IsAlnum(c: char) {
    'a' <= c <= 'z' || 'A' <= c <= 'Z' || '0' <= c <= '9'
  }

  predicate IsCode(c: char) { IsAlnum(c) || c == '?' || c == '*' }

  predicate AllCodes(s: string) {
    forall i :: 0 <= i < |s| ==> IsCode(s[i])
  }

  function StripDashes(s: string): (r: string)
    ensures r == "" || r[0] != '-'
    ensures |r| <= |s|
  {
    if s != "" && s[0] == '-' then StripDashes(s[1..]) else s
  }

  /** The '.'-separated stream ID and the type suffix, dot included. */
  function SplitSuffix(s: string): (string, string) {
    var p := Partition(s, '.');
    (p.0, if p.1 then "." + p.2 else "")
  }

  /** Location, band, source and subsource codes joined the v4 way. */
  function V4Text(location: string, b: char, s: char, u: char): string {
    JoinFields([location, [b], [s], [u]], '_')
  }

  /** `v3_to_v4_selector`. */
  function V3ToV4(selector: string): Option<string> {
    var s := StripDashes(selector);
    var emptyLocation := |s| < |selector|;
    var (id, suffix) := SplitSuffix(s);
    if id == "" || !AllCodes(id) then None
    else if |id| == 3 then Some(V4Text(if emptyLocation then "" else "*", id[0], id[1], id[2]) + suffix)
    else if |id| == 4 || |id| == 5 then
      var n := |id| - 3;
      Some(V4Text(id[..n], id[n], id[n + 1], id[n + 2]) + suffix)
    else None
  }

  /** The dash-stripping loop of `v3_to_v4_selector`. */
  method StripLeadingDashes(selector: string) returns (s: string, emptyLocation: bool)
    ensures s == StripDashes(selector) && emptyLocation == (|s| < |selector|)
  {
    s, emptyLocation := selector, false;
    while s != "" && s[0] == '-'
      invariant StripDashes(s) == StripDashes(selector)
      invariant |s| <= |selector| && emptyLocation == (|s| < |selector|)
      decreases |s|
    {
      s, emptyLocation := s[1..], true;
    }
  }

  function V3Location(location: string): string {
    if location == "*" then "" else if location == "" then "--" else location
  }

  /** `v4_to_v3_selector`. */
  function V4ToV3(selector: string): Option<string> {
    var (id, suffix) := SplitSuffix(selector);
    var fs := Fields(id, '_');
    if |fs| != 3 && |fs| != 4 then None
    else
      var location := if |fs| == 4 then fs[0] else "*";
      var n := |fs| - 3;
      if |fs[n]| != 1 || |fs[n + 1]| != 1 || |fs[n + 2]| != 1 || |location| > 2 then None
      else Some(V3Location(location) + [fs[n][0], fs[n + 1][0], fs[n + 2][0]] + suffix)
  }

  predicate IsSuffix(suffix: string) { suffix == "" || suffix[0] == '.' }

  lemma {:induction false} SplitSuffixOf(id: string, suffix: string)
    requires '.' !in id && IsSuffix(suffix)
    ensures SplitSuffix(id + suffix) == (id, suffix)
  {
    hide Partition;
    if suffix == "" {
      assert id + suffix == id;
    } else {
      var tail := suffix[1..];
      PartitionOfJoin(id, '.', tail);
      assert suffix == ['.'] + tail;
      assert id + suffix == id + ['.'] + tail;
    }
  }

  lemma {:induction false} SuffixJoins(s: string)
    ensures var (id, suffix) := SplitSuffix(s); s == id + suffix && '.' !in id && IsSuffix(suffix)
  {
  }

  /** The v4 text of four parts splits into those parts and its suffix again. */
  lemma {:induction false} V4TextSplits(loc: string, b: char, s: char, u: char, suffix: string)
    requires '_' !in loc && '.' !in loc && b !in "_." && s !in "_." && u !in "_."
    requires IsSuffix(suffix)
    ensures var (id, rest) := SplitSuffix(V4Text(loc, b, s, u) + suffix);
            Fields(id, '_') == [loc, [b], [s], [u]] && rest == suffix
  {
    var fs := [loc, [b], [s], [u]];
    hide Fields, SplitSuffix, JoinFields;
    JoinFieldsAvoids(fs, '_', '.');
    SplitSuffixOf(V4Text(loc, b, s, u), suffix);
    FieldsOfJoin(fs, '_');
  }

  lemma {:induction false} FourPartsToV3(loc: string, b: char, s: char, u: char, suffix: string)
    requires |loc| <= 2 && AllCodes(loc) && IsCode(b) && IsCode(s) && IsCode(u)
    requires IsSuffix(suffix)
    ensures V4ToV3(V4Text(loc, b, s, u) + suffix) == Some(V3Location(loc) + [b, s, u] + suffix)
  {
    assert '_' !in loc && '.' !in loc;
    V4TextSplits(loc, b, s, u, suffix);
    hide Fields, SplitSuffix, V4Text;
  }

  /** A v3 selector in its canonical spelling: `--` for an explicit blank
      location, no dashes before a location, no lone `*` location. */
  function CanonicalV3(selector: string): string {
    var s := StripDashes(selector);
    var (id, suffix) := SplitSuffix(s);
    if |id| == 3 && |s| < |selector| then "--" + s
    else if |id| == 4 && id[0] == '*' then s[1..]
    else s
  }

  /** v3 to v4 to v3 is the canonical v3 selector, type suffix intact. */
  lemma {:induction false} V3ThereAndBack(selector: string)
    requires V3ToV4(selector).Some?
    ensures V4ToV3(V3ToV4(selector).value) == Some(CanonicalV3(selector))
  {
    var s := StripDashes(selector);
    var (id, suffix) := SplitSuffix(s);
    SuffixJoins(s);
    hide V4Text, V4ToV3, SplitSuffix;
    var n := |id| - 3;
    var loc := if n > 0 then id[..n] else if |s| < |selector| then "" else "*";
    FourPartsToV3(loc, id[n], id[n + 1], id[n + 2], suffix);
    var channel := [id[n], id[n + 1], id[n + 2]];
    assert id == id[..n] + channel;
    if loc == "*" {
      assert channel + suffix == "" + channel + suffix;
      if n == 1 {
        assert s[1..] == channel + suffix;
      }
    } else if n == 0 {
      assert id == channel;
      assert "--" + s == "--" + channel + suffix;
    }
  }

  lemma {:induction false} BlankLocationToV4(b: char, s: char, u: char, suffix: string)
    requires IsCode(b) && IsCode(s) && IsCode(u) && IsSuffix(suffix)
    ensures V3ToV4("--" + [b, s, u] + suffix) == Some(V4Text("", b, s, u) + suffix)
  {
    hide V4Text, SplitSuffix;
    var channel := [b, s, u];
    SplitSuffixOf(channel, suffix);
    var v3 := "--" + channel + suffix;
    assert v3[1..] == "-" + channel + suffix;
    assert v3[1..][1..] == channel + suffix;
    assert StripDashes(channel + suffix) == channel + suffix;
    assert StripDashes(v3) == StripDashes(v3[1..]) == StripDashes(v3[1..][1..]);
  }

  lemma {:induction false} LocationToV4(loc: string, b: char, s: char, u: char, suffix: string)
    requires 1 <= |loc| <= 2 && AllCodes(loc) && IsCode(b) && IsCode(s) && IsCode(u) && IsSuffix(suffix)
    ensures V3ToV4(V3Location(loc) + [b, s, u] + suffix) == Some(V4Text(loc, b, s, u) + suffix)
  {
    hide V4Text, SplitSuffix;
    var id := V3Location(loc) + [b, s, u];
    SplitSuffixOf(id, suffix);
    assert (id + suffix)[0] == id[0] != '-';
    assert StripDashes(id + suffix) == id + suffix;
    hide StripDashes;
    if loc == "*" {
      assert id == [b, s, u];
    } else {
      assert id[..|loc|] == loc;
    }
  }

  /** v4 to v3 to v4 is the identity on four-part selectors over the code alphabet. */
  lemma {:induction false} V4ThereAndBack(loc: string, b: char, s: char, u: char, suffix: string)
    requires |loc| <= 2 && AllCodes(loc) && IsCode(b) && IsCode(s) && IsCode(u)
    requires IsSuffix(suffix)
    ensures
      var v4 := V4Text(loc, b, s, u) + suffix;
      V4ToV3(v4).Some? && V3ToV4(V4ToV3(v4).value) == Some(v4)
  {
    hide V4Text, V4ToV3, V3ToV4;
    FourPartsToV3(loc, b, s, u, suffix);
    if loc == "" {
      BlankLocationToV4(b, s, u, suffix);
    } else {
      LocationToV4(loc, b, s, u, suffix);
    }
  }

  lemma {:induction false} JoinThree(x: string, y: string, z: string, c: char)
    ensures JoinFields([x, y, z], c) == x + [c] + y + [c] + z
  {
    assert [x, y, z][1..] == [y, z] && [y, z][1..] == [z];
    assert JoinFields([y, z], c) == y + [c] + z;
    assert x + [c] + (y + [c] + z) == x + [c] + y + [c] + z;
  }

  /** A selector of three parts, its location left out, is the bare channel of 3.x. */
  lemma {:induction false} ThreePartsToV3(b: char, s: char, u: char, suffix: string)
    requires b !in "_." && s !in "_." && u !in "_." && IsSuffix(suffix)
    ensures V4ToV3([b] + "_" + [s] + "_" + [u] + suffix) == Some([b, s, u] + suffix)
  {
    var fs := [[b], [s], [u]];
    var id := [b] + "_" + [s] + "_" + [u];
    hide Fields, SplitSuffix;
    JoinThree([b], [s], [u], '_');
    SplitSuffixOf(id, suffix);
    FieldsOfJoin(fs, '_');
    assert "" + [b, s, u] == [b, s, u];
  }

  /** The text of a four-part selector. */
  lemma {:induction false} V4TextIs(location: string, b: char, s: char, u: char)
    ensures V4Text(location, b, s, u) == location + "_" + [b] + "_" + [s] + "_" + [u]
  {
    JoinThree([b], [s], [u], '_');
    assert [location, [b], [s], [u]][1..] == [[b], [s], [u]];
  }

  /** A converted selector is in the other syntax for good: converting again refuses. */
  lemma {:induction false} V4TextStays(selector: string)
    requires V3ToV4(selector).Some?
    ensures V3ToV4(V3ToV4(selector).value).None?
  {
    var s := StripDashes(selector);
    var (id, suffix) := SplitSuffix(s);
    SuffixJoins(s);
    hide SplitSuffix;
    var n := |id| - 3;
    var loc := if n > 0 then id[..n] else if |s| < |selector| then "" else "*";
    var fs := [loc, [id[n]], [id[n + 1]], [id[n + 2]]];
    var head := JoinFields(fs, '_');
    JoinFieldsSplits(fs, '_');
    JoinFieldsAvoids(fs, '_', '.');
    SplitSuffixOf(head, suffix);
    var t := V3ToV4(selector).value;
    assert t == head + suffix && t[0] == head[0] != '-';
    assert StripDashes(t) == t;
    var i :| 0 <= i < |head| && head[i] == '_';
    assert !IsCode(head[i]);
  }

  lemma {:induction false} V3TextStays(selector: string)
    requires V4ToV3(selector).Some?
    ensures V4ToV3(V4ToV3(selector).value).None?
  {
    var (id, suffix) := SplitSuffix(selector);
    SuffixJoins(selector);
    FieldsAvoid(id, '_', '.');
    var fs := Fields(id, '_');
    hide SplitSuffix, Fields;
    var n := |fs| - 3;
    var location := if |fs| == 4 then fs[0] else "*";
    var head := V3Location(location) + [fs[n][0], fs[n + 1][0], fs[n + 2][0]];
    assert '_' !in head && '.' !in head;
    SplitSuffixOf(head, suffix);
    OneField(head, '_');
  }

  lemma {:induction false} OneField(s: string, c: char)
    requires c !in s
    ensures Fields(s, c) == [s]
  {
  }

  lemma {:induction false} FieldsAvoid(s: string, c: char, d: char)
    requires d !in s
    ensures forall i :: 0 <= i < |Fields(s, c)| ==> d !in Fields(s, c)[i]
    decreases |s|
  {
    var p := Partition(s, c);
    if p.1 {
      FieldsAvoid(p.2, c, d);
    }
  }

  // ------------------------------------------------------------------ ordering

  function Rank(id: string): nat {
    if '*' in id then 2 else if '?' in id then 1 else 0
  }

  /** Python's `<=` on strings. */
  predicate TextLeq(a: string, b: string) {
    a == "" || (b != "" && (a[0] < b[0] || (a[0] == b[0] && TextLeq(a[1..], b[1..]))))
  }

  predicate KeyLeq(a: string, b: string) {
    Rank(a) < Rank(b) || (Rank(a) == Rank(b) && TextLeq(a, b))
  }

  lemma {:induction false} TextLeqTransitive(a: string, b: string, c: string)
    requires TextLeq(a, b) && TextLeq(b, c)
    ensures TextLeq(a, c)
  {
    if a != "" && a[0] == b[0] == c[0] {
      TextLeqTransitive(a[1..], b[1..], c[1..]);
    }
  }

  lemma {:induction false} TextLeqTotal(a: string, b: string)
    ensures TextLeq(a, b) || TextLeq(b, a)
    ensures TextLeq(a, b) && TextLeq(b, a) ==> a == b
  {
    if a != "" && b != "" && a[0] == b[0] {
      TextLeqTotal(a[1..], b[1..]);
      assert a == [a[0]] + a[1..] && b == [b[0]] + b[1..];
    }
  }

  function Insert(c: Config, cs: seq<Config>): seq<Config> {
    if cs == [] || KeyLeq(c.id, cs[0].id) then [c] + cs else [cs[0]] + Insert(c, cs[1..])
  }

  /** `sorted(streams, key=(rank, station_id))`, which is stable. */
  function SortStreams(cs: seq<Config>): seq<Config> {
    if cs == [] then [] else Insert(cs[0], SortStreams(cs[1..]))
  }

  predicate IsSorted(cs: seq<Config>) {
    forall i, j :: 0 <= i < j < |cs| ==> KeyLeq(cs[i].id, cs[j].id)
  }

  /** The configurations for one station ID, in list order. */
  function WithId(cs: seq<Config>, id: string): seq<Config> {
    if cs == [] then [] else (if cs[0].id == id then [cs[0]] else []) + WithId(cs[1..], id)
  }

  lemma {:induction false} InsertSorted(c: Config, cs: seq<Config>)
    requires IsSorted(cs)
    ensures IsSorted(Insert(c, cs))
    ensures forall d :: d in Insert(c, cs) <==> d == c || d in cs
  {
    if cs == [] {
    } else if KeyLeq(c.id, cs[0].id) {
      forall j | 0 <= j < |cs| ensures KeyLeq(c.id, cs[j].id) {
        if cs[0].id != cs[j].id && Rank(c.id) == Rank(cs[j].id) {
          TextLeqTransitive(c.id, cs[0].id, cs[j].id);
        }
      }
    } else {
      InsertSorted(c, cs[1..]);
      TextLeqTotal(c.id, cs[0].id);
      assert forall j :: 0 < j < |cs| ==> cs[1..][j - 1] == cs[j];
      var r := Insert(c, cs[1..]);
      forall j | 0 <= j < |r| ensures KeyLeq(cs[0].id, r[j].id) {
        assert r[j] in r;
      }
    }
  }

  lemma {:induction false} InsertWithId(c: Config, cs: seq<Config>, id: string)
    ensures WithId(Insert(c, cs), id) == WithId([c] + cs, id)
  {
    if cs != [] && !KeyLeq(c.id, cs[0].id) {
      InsertWithId(c, cs[1..], id);
      TextLeqTotal(c.id, cs[0].id);
      assert ([c] + cs)[1..] == cs && ([c] + cs[1..])[1..] == cs[1..];
      assert c.id != cs[0].id;
    }
  }

  /** The stations are requested exact IDs first, then '?' then '*' patterns,
      alphabetically; the streams of each ID keep their number and their order. */
  lemma {:induction false} SortStreamsCorrect(cs: seq<Config>, id: string)
    ensures IsSorted(SortStreams(cs))
    ensures WithId(SortStreams(cs), id) == WithId(cs, id)
    ensures forall c :: c in SortStreams(cs) <==> c in cs
    ensures |SortStreams(cs)| == |cs|
  {
    if cs != [] {
      SortStreamsCorrect(cs[1..], id);
      InsertSorted(cs[0], SortStreams(cs[1..]));
      InsertWithId(cs[0], SortStreams(cs[1..]), id);
      InsertLength(cs[0], SortStreams(cs[1..]));
      assert cs == [cs[0]] + cs[1..];
      assert ([cs[0]] + SortStreams(cs[1..]))[1..] == SortStreams(cs[1..]);
    }
  }

  /** First characters that differ decide; a text comes before its continuations. */
  lemma {:induction false} TextOrder(a: string, b: string)
    ensures TextLeq(a, b) <==> a <= b || exists k :: 0 <= k < |a| && k < |b| && a[..k] == b[..k] && a[k] < b[k]
  {
    if a != "" && b != "" && a[0] == b[0] {
      TextOrder(a[1..], b[1..]);
      assert a == [a[0]] + a[1..] && b == [b[0]] + b[1..];
      if k :| 0 <= k < |a[1..]| && k < |b[1..]| && a[1..][..k] == b[1..][..k] && a[1..][k] < b[1..][k] {
        assert a[..k + 1] == [a[0]] + a[1..][..k] && b[..k + 1] == [b[0]] + b[1..][..k];
        assert a[k + 1] < b[k + 1];
      }
      if k :| 0 <= k < |a| && k < |b| && a[..k] == b[..k] && a[k] < b[k] {
        assert k > 0;
        assert a[1..][..k - 1] == a[..k][1..] && b[1..][..k - 1] == b[..k][1..];
        assert a[1..][k - 1] < b[1..][k - 1];
      }
    } else if a != "" && b != "" && a[0] < b[0] {
      assert a[..0] == b[..0];
    }
  }

  /** In the request order nothing comes behind a `*` pattern but another, nothing
      behind a `?` pattern but another or a `*` pattern, and IDs of a kind are in
      alphabetical order. */
  lemma {:induction false} RequestOrder(cs: seq<Config>, i: nat, j: nat)
    requires i < j < |SortStreams(cs)|
    ensures
      var a, b := SortStreams(cs)[i].id, SortStreams(cs)[j].id;
      && ('*' in a ==> '*' in b)
      && ('?' in a ==> '?' in b || '*' in b)
      && (('*' in a <==> '*' in b) && ('*' !in a ==> ('?' in a <==> '?' in b)) ==> TextLeq(a, b))
  {
    SortStreamsCorrect(cs, "");
    hide SortStreams, TextLeq;
  }

  lemma {:induction false} InsertLength(c: Config, cs: seq<Config>)
    ensures |Insert(c, cs)| == |cs| + 1
  {
    if cs != [] {
      InsertLength(c, cs[1..]);
    }
  }
}
