/** Values shared by every module, and the Python text operations the client
    relies on: whitespace splitting, joining with a space, and `int(text, base)`
    with its inverse, integer formatting. */
module Text {

  datatype Option<+T> = None | Some(value: T)

  datatype Result<+T, +E> = Ok(value: T) | Err(error: E)

  /** All but the first, of nothing too. */
  function Rest<T>(s: seq<T>): seq<T> {
    if s == [] then [] else s[1..]
  }

  // ---------------------------------------------------------------- splitting

  /** The characters for which `str.isspace()` holds. */
  predicate IsSpace(c: char) {
    var n := c as int;
    || 0x09 <= n <= 0x0D || 0x1C <= n <= 0x20 || n == 0x85 || n == 0xA0 || n == 0x1680
    || 0x2000 <= n <= 0x200A || n == 0x2028 || n == 0x2029 || n == 0x202F || n == 0x205F || n == 0x3000
  }

  predicate NoSpace(s: string) {
    forall i :: 0 <= i < |s| ==> !IsSpace(s[i])
  }

  predicate IsWord(s: string) {
    s != "" && NoSpace(s)
  }

  predicate AllWords(ws: seq<string>) {
    forall i :: 0 <= i < |ws| ==> IsWord(ws[i])
  }

  /** Length of the leading run of non-space characters. */
  function WordLength(s: string): (n: nat)
    ensures n <= |s| && NoSpace(s[..n])
    ensures n < |s| ==> IsSpace(s[n])
  {
    if s == "" || IsSpace(s[0]) then 0 else
      var n := WordLength(s[1..]);
      assert s[..n + 1] == [s[0]] + s[1..][..n];
      n + 1
  }

  /** `s.split()`: the maximal whitespace-free runs of `s`. */
  function Words(s: string): (ws: seq<string>)
    ensures AllWords(ws)
    decreases |s|
  {
    if s == "" then []
    else if IsSpace(s[0]) then Words(s[1..])
    else
      var n := WordLength(s);
      [s[..n]] + Words(s[n..])
  }

  /** `" ".join(ws)`. */
  function JoinWords(ws: seq<string>): string {
    if ws == [] then ""
    else if |ws| == 1 then ws[0]
    else ws[0] + " " + JoinWords(ws[1..])
  }

  lemma {:induction false} WordLengthOfPrefix(w: string, rest: string)
    requires NoSpace(w)
    requires rest == "" || IsSpace(rest[0])
    ensures WordLength(w + rest) == |w|
  {
    if w == "" {
      assert w + rest == rest;
    } else {
      assert (w + rest)[1..] == w[1..] + rest;
      WordLengthOfPrefix(w[1..], rest);
    }
  }

  lemma {:induction false} WordsOfPrefix(w: string, rest: string)
    requires IsWord(w)
    requires rest == "" || IsSpace(rest[0])
    ensures Words(w + rest) == [w] + Words(rest)
  {
    WordLengthOfPrefix(w, rest);
    assert (w + rest)[..|w|] == w && (w + rest)[|w|..] == rest;
  }

  /** Splitting undoes joining. */
  lemma {:induction false} WordsOfJoin(ws: seq<string>)
    requires AllWords(ws)
    ensures Words(JoinWords(ws)) == ws
  {
    if ws == [] {
    } else if |ws| == 1 {
      WordsOfPrefix(ws[0], "");
      assert ws[0] + "" == ws[0];
      assert ws == [ws[0]];
    } else {
      WordsOfJoin(ws[1..]);
      var rest := " " + JoinWords(ws[1..]);
      WordsOfPrefix(ws[0], rest);
      assert rest[1..] == JoinWords(ws[1..]);
      assert ws[0] + " " + JoinWords(ws[1..]) == ws[0] + rest;
      assert ws == [ws[0]] + ws[1..];
    }
  }

  /** `s.partition(c)`: the text before the first `c`, whether there is one, and the text after it. */
  function Partition(s: string, c: char): (p: (string, bool, string))
    ensures p.1 <==> c in s
    ensures c !in p.0
    ensures s == if p.1 then p.0 + [c] + p.2 else p.0
    ensures !p.1 ==> p.2 == ""
  {
    if s == "" then ("", false, "")
    else if s[0] == c then ("", true, s[1..])
    else
      var p := Partition(s[1..], c);
      assert s == [s[0]] + s[1..];
      ([s[0]] + p.0, p.1, p.2)
  }

  lemma {:induction false} PartitionOfJoin(a: string, c: char, b: string)
    requires c !in a
    ensures Partition(a + [c] + b, c) == (a, true, b)
  {
    if a == "" {
      assert a + [c] + b == [c] + b;
    } else {
      assert (a + [c] + b)[1..] == a[1..] + [c] + b;
      PartitionOfJoin(a[1..], c, b);
      assert a == [a[0]] + a[1..];
    }
  }

  /** `s.split(c)`. */
  function Fields(s: string, c: char): (fs: seq<string>)
    ensures |fs| >= 1
    ensures forall i :: 0 <= i < |fs| ==> c !in fs[i]
    decreases |s|
  {
    var p := Partition(s, c);
    if p.1 then [p.0] + Fields(p.2, c) else [s]
  }

  /** `c.join(fs)`. */
  function JoinFields(fs: seq<string>, c: char): (s: string)
    requires fs != []
  {
    if |fs| == 1 then fs[0] else fs[0] + [c] + JoinFields(fs[1..], c)
  }

  lemma {:induction false} FieldsOfJoin(fs: seq<string>, c: char)
    requires fs != []
    requires forall i :: 0 <= i < |fs| ==> c !in fs[i]
    ensures Fields(JoinFields(fs, c), c) == fs
  {
    hide Partition;
    if |fs| > 1 {
      PartitionOfJoin(fs[0], c, JoinFields(fs[1..], c));
      FieldsOfJoin(fs[1..], c);
      assert fs == [fs[0]] + fs[1..];
    }
  }

  lemma {:induction false} JoinFieldsAvoids(fs: seq<string>, c: char, d: char)
    requires fs != [] && c != d
    requires forall i :: 0 <= i < |fs| ==> d !in fs[i]
    ensures d !in JoinFields(fs, c)
  {
    if |fs| > 1 {
      JoinFieldsAvoids(fs[1..], c, d);
    }
  }

  lemma {:induction false} JoinFieldsSplits(fs: seq<string>, c: char)
    requires |fs| > 1
    ensures c in JoinFields(fs, c)
    ensures JoinFields(fs, c)[0] == if fs[0] == "" then c else fs[0][0]
  {
    assert JoinFields(fs, c)[|fs[0]|] == c;
  }

  // ----------------------------------------------------------------- integers

  predicate IsBase(b: nat) { b == 10 || b == 16 }

  function DigitChar(d: nat): char
    requires d < 16
  {
    if d < 10 then '0' + d as char else 'A' + (d - 10) as char
  }

  /** Value of a digit character, or 16 when it is none. */
  function DigitValue(c: char): nat {
    if '0' <= c <= '9' then c as nat - '0' as nat
    else if 'A' <= c <= 'F' then c as nat - 'A' as nat + 10
    else if 'a' <= c <= 'f' then c as nat - 'a' as nat + 10
    else 16
  }

  predicate AllDigits(s: string, b: nat)
    requires IsBase(b)
  {
    forall i :: 0 <= i < |s| ==> DigitValue(s[i]) < b
  }

  /** Digits of `n`, most significant first, without padding. */
  function Digits(n: nat, b: nat): (s: string)
    requires IsBase(b)
    ensures s != "" && AllDigits(s, b) && NoSpace(s)
  {
    if n < b then [DigitChar(n)] else Digits(n / b, b) + [DigitChar(n % b)]
  }

  /** The lowest `k` digits of `n`, zero padded. */
  function FixedDigits(n: nat, k: nat, b: nat): (s: string)
    requires IsBase(b)
    ensures |s| == k && AllDigits(s, b)
  {
    if k == 0 then "" else FixedDigits(n / b, k - 1, b) + [DigitChar(n % b)]
  }

  /** `str(n)` for base 10 and `f"{n:X}"` for base 16. */
  function FormatInt(n: int, b: nat): (s: string)
    requires IsBase(b)
    ensures IsWord(s)
  {
    if n < 0 then "-" + Digits(-n, b) else Digits(n, b)
  }

  /** Digits with single underscores between them; `acc` is the value so far. */
  function ParseDigits(s: string, b: nat, acc: nat, needDigit: bool): Option<nat>
    requires IsBase(b)
  {
    if s == "" then (if needDigit then None else Some(acc))
    else if s[0] == '_' then (if needDigit then None else ParseDigits(s[1..], b, acc, true))
    else
      var d := DigitValue(s[0]);
      if d < b then ParseDigits(s[1..], b, acc * b + d, false) else None
  }

  function StripLeft(s: string): (r: string)
    ensures r == "" || !IsSpace(r[0])
  {
    if s != "" && IsSpace(s[0]) then StripLeft(s[1..]) else s
  }

  function StripRight(s: string): (r: string)
    ensures r == "" || !IsSpace(r[|r| - 1])
  {
    if s != "" && IsSpace(s[|s| - 1]) then StripRight(s[..|s| - 1]) else s
  }

  /** `int(s, b)` on ASCII text: surrounding space, a sign, `0x` in base 16 and
      single underscores between digits are accepted; None stands for ValueError. */
  function PyInt(s: string, b: nat): Option<int>
    requires IsBase(b)
  {
    var t := StripRight(StripLeft(s));
    var signed := t != "" && (t[0] == '-' || t[0] == '+');
    var u := if signed then t[1..] else t;
    var prefixed := b == 16 && |u| >= 2 && u[0] == '0' && (u[1] == 'x' || u[1] == 'X');
    var v := if prefixed then u[2..] else u;
    match ParseDigits(v, b, 0, !(prefixed && v != "" && v[0] == '_'))
    case None => None
    case Some(n) => var m: int := n; Some(if signed && t[0] == '-' then -m else m)
  }

  lemma {:induction false} ParseDigitsSnoc(s: string, c: char, b: nat, acc: nat, need: bool)
    requires IsBase(b)
    requires DigitValue(c) < b
    requires AllDigits(s, b)
    ensures ParseDigits(s + [c], b, acc, need) ==
            match ParseDigits(s, b, acc, false) case None => None case Some(v) => Some(v * b + DigitValue(c))
  {
    if s == "" {
      assert s + [c] == [c];
      assert [c][1..] == "";
    } else {
      assert (s + [c])[1..] == s[1..] + [c];
      ParseDigitsSnoc(s[1..], c, b, acc * b + DigitValue(s[0]), false);
    }
  }

  lemma {:induction false} DigitCharValue(d: nat)
    requires d < 16
    ensures DigitValue(DigitChar(d)) == d
    ensures !IsSpace(DigitChar(d))
  {
  }

  predicate IsUpperHex(s: string) {
    forall c :: c in s ==> '0' <= c <= '9' || 'A' <= c <= 'F'
  }

  /** Digits are printed without lower-case letters. */
  lemma {:induction false} DigitsAreUpper(n: nat, b: nat)
    requires IsBase(b)
    ensures IsUpperHex(Digits(n, b))
  {
    if n >= b {
      DigitsAreUpper(n / b, b);
    }
  }

  lemma {:induction false} ParseOfDigits(n: nat, b: nat, need: bool)
    requires IsBase(b)
    ensures ParseDigits(Digits(n, b), b, 0, need) == Some(n)
  {
    if n < b {
      DigitCharValue(n);
      assert Digits(n, b)[1..] == "";
    } else {
      ParseOfDigits(n / b, b, false);
      DigitCharValue(n % b);
      ParseDigitsSnoc(Digits(n / b, b), DigitChar(n % b), b, 0, need);
      assert b == 10 || b == 16;
      assert n / b * b + n % b == n;
    }
  }

  lemma {:induction false} StripOfSolid(s: string)
    requires s == "" || (!IsSpace(s[0]) && !IsSpace(s[|s| - 1]))
    ensures StripRight(StripLeft(s)) == s
  {
  }

  lemma {:induction false} DigitsNotPrefix(s: string, b: nat)
    requires IsBase(b) && AllDigits(s, b) && s != ""
    ensures s[0] != '-' && s[0] != '+' && s[0] != '_'
    ensures |s| >= 2 ==> s[1] != 'x' && s[1] != 'X'
  {
  }

  lemma {:induction false} PyIntOfDigits(s: string, b: nat, n: nat)
    requires IsBase(b) && AllDigits(s, b) && s != ""
    requires ParseDigits(s, b, 0, true) == Some(n)
    ensures PyInt(s, b) == Some(n)
    ensures var m: int := n; PyInt("-" + s, b) == Some(-m)
  {
    DigitsNotPrefix(s, b);
    StripOfSolid(s);
    StripOfSolid("-" + s);
    assert ("-" + s)[1..] == s;
  }

  /** `int(str(n)) == n` and `int(f"{n:X}", 16) == n`. */
  lemma {:induction false} PyIntOfFormat(n: int, b: nat)
    requires IsBase(b)
    ensures PyInt(FormatInt(n, b), b) == Some(n)
  {
    var m := if n < 0 then -n else n;
    ParseOfDigits(m, b, true);
    PyIntOfDigits(Digits(m, b), b, m);
  }

  /** An underscore between digits does not count. */
  lemma {:induction false} UnderscoreRead(x: string, y: string, b: nat, acc: nat, need: bool)
    requires IsBase(b) && AllDigits(x, b) && AllDigits(y, b) && x != "" && y != ""
    ensures ParseDigits(x + "_" + y, b, acc, need) == ParseDigits(x + y, b, acc, need)
  {
    var d := DigitValue(x[0]);
    assert (x + "_" + y)[1..] == x[1..] + "_" + y && (x + y)[1..] == x[1..] + y;
    if |x| > 1 {
      UnderscoreRead(x[1..], y, b, acc * b + d, false);
    } else {
      assert x[1..] + "_" + y == "_" + y && x[1..] + y == y;
      assert ("_" + y)[1..] == y;
      FirstDigit(y, b, acc * b + d);
    }
  }

  lemma {:induction false} FirstDigit(y: string, b: nat, acc: nat)
    requires IsBase(b) && AllDigits(y, b) && y != ""
    ensures ParseDigits(y, b, acc, true) == ParseDigits(y, b, acc, false)
  {
  }

  /** White space around a number, its sign and underscores in it are read past. */
  lemma {:induction false} LooseNumber(x: string, y: string, n: nat)
    requires AllDigits(x, 10) && AllDigits(y, 10) && x != "" && y != ""
    requires ParseDigits(x + y, 10, 0, true) == Some(n)
    ensures PyInt(" +" + (x + "_" + y) + "\t", 10) == Some(n)
  {
    var body := x + "_" + y;
    UnderscoreRead(x, y, 10, 0, true);
    var s := " +" + body + "\t";
    assert s[1..] == "+" + body + "\t";
    assert StripLeft(s) == "+" + body + "\t";
    assert ("+" + body + "\t")[..|body| + 1] == "+" + body;
    assert (("+" + body)[|body|]) == y[|y| - 1];
    assert !IsSpace(y[|y| - 1]);
    assert StripRight("+" + body + "\t") == "+" + body;
    assert ("+" + body)[1..] == body;
  }

  function Power(b: nat, k: nat): nat {
    if k == 0 then 1 else b * Power(b, k - 1)
  }

  lemma {:induction false} ParseOfFixedDigits(n: nat, k: nat, b: nat)
    requires IsBase(b)
    requires n < Power(b, k)
    ensures ParseDigits(FixedDigits(n, k, b), b, 0, false) == Some(n)
  {
    if k > 0 {
      assert n / b < Power(b, k - 1) by {
        assert b == 10 || b == 16;
      }
      ParseOfFixedDigits(n / b, k - 1, b);
      DigitCharValue(n % b);
      ParseDigitsSnoc(FixedDigits(n / b, k - 1, b), DigitChar(n % b), b, 0, false);
      assert b == 10 || b == 16;
      assert n / b * b + n % b == n;
    }
  }
}
