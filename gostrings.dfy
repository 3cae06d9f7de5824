/** The pieces of Go's `strings`, `strconv` and `net/url` packages that the
    transport code relies on, modelled on `string == seq<char>`.  A `char` stands
    for one Unicode code point, which is what `strings.Fields`, `strings.TrimSpace`
    and `range` over a string see in Go. */
module GoStrings {

  predicate All(s: string, p: char -> bool) {
    forall i :: 0 <= i < |s| ==> p(s[i])
  }

  /** `unicode.IsSpace`: the Unicode White_Space characters. */
  predicate IsSpace(c: char) {
    || c == ' ' || c == '\t' || c == '\n' || c == '\U{0B}' || c == '\U{0C}' || c == '\r'
    || c == '\U{85}' || c == '\U{A0}' || c == '\U{1680}' || ('\U{2000}' <= c <= '\U{200A}')
    || c == '\U{2028}' || c == '\U{2029}' || c == '\U{202F}' || c == '\U{205F}' || c == '\U{3000}'
  }

  predicate NoSpace(s: string) {
    forall i :: 0 <= i < |s| ==> !IsSpace(s[i])
  }

  /** A field as `strings.Fields` produces it: non-empty and free of white space. */
  predicate IsToken(s: string) {
    s != [] && NoSpace(s)
  }

  // ---------------------------------------------------------------------------
  // Trimming

  predicate AllSpace(s: string) {
    forall i :: 0 <= i < |s| ==> IsSpace(s[i])
  }

  /** `s` without its leading white space. */
  function TrimLeftSpace(s: string): (r: string)
    ensures |r| <= |s| && r == s[|s| - |r|..]
    ensures forall k :: 0 <= k < |s| - |r| ==> IsSpace(s[k])
    ensures r == [] || !IsSpace(r[0])
  {
    if s != [] && IsSpace(s[0]) then TrimLeftSpace(s[1..]) else s
  }

  /** `s` without its trailing white space. */
  function TrimRightSpace(s: string): (r: string)
    ensures |r| <= |s| && r == s[..|r|]
    ensures forall k :: |r| <= k < |s| ==> IsSpace(s[k])
    ensures r == [] || !IsSpace(r[|r| - 1])
  {
    if s != [] && IsSpace(s[|s| - 1]) then TrimRightSpace(s[..|s| - 1]) else s
  }

  lemma TrimmedEmpty(s: string, l: string, r: string)
    requires |l| <= |s| && l == s[|s| - |l|..] && forall k :: 0 <= k < |s| - |l| ==> IsSpace(s[k])
    requires l == [] || !IsSpace(l[0])
    requires |r| <= |l| && forall k :: |r| <= k < |l| ==> IsSpace(l[k])
    ensures r == [] <==> AllSpace(s)
  {
    if r == [] && l != [] {
      assert false;
    }
  }

  /** `strings.TrimSpace` */
  function TrimSpace(s: string): (r: string)
    ensures |r| <= |s|
    ensures r == [] <==> AllSpace(s)
    ensures r != [] ==> !IsSpace(r[0]) && !IsSpace(r[|r| - 1])
    ensures s == [] || (!IsSpace(s[0]) && !IsSpace(s[|s| - 1])) ==> r == s
  {
    var l := TrimLeftSpace(s);
    var r := TrimRightSpace(l);
    TrimmedEmpty(s, l, r);
    r
  }

  /** `s` without its leading characters `c`. */
  function TrimLeftChar(s: string, c: char): (r: string)
    ensures |r| <= |s| && r == s[|s| - |r|..]
    ensures forall k :: 0 <= k < |s| - |r| ==> s[k] == c
    ensures r == [] || r[0] != c
  {
    if s != [] && s[0] == c then TrimLeftChar(s[1..], c) else s
  }

  /** `s` without its trailing characters `c`. */
  function TrimRightChar(s: string, c: char): (r: string)
    ensures |r| <= |s| && r == s[..|r|]
    ensures forall k :: |r| <= k < |s| ==> s[k] == c
    ensures r == [] || r[|r| - 1] != c
  {
    if s != [] && s[|s| - 1] == c then TrimRightChar(s[..|s| - 1], c) else s
  }

  /** `strings.Trim(s, string(c))`: `s` without every leading and every trailing `c`. */
  function TrimChar(s: string, c: char): (r: string)
    ensures |r| <= |s|
    ensures r == [] || (r[0] != c && r[|r| - 1] != c)
    ensures s == [] || (s[0] != c && s[|s| - 1] != c) ==> r == s
  {
    TrimRightChar(TrimLeftChar(s, c), c)
  }

  /** One more `c` at either end changes nothing. */
  lemma TrimCharWrapped(s: string, c: char)
    ensures TrimChar([c] + s + [c], c) == TrimChar(s, c)
  {
    AppendAssoc([c], s, [c]);
    LeftCharDrops(s + [c], c);
    LeftCharAppend(s, c);
    if TrimLeftChar(s, c) != [] {
      RightCharDrops(TrimLeftChar(s, c), c);
    }
  }

  /** A leading `c` is trimmed away. */
  lemma LeftCharDrops(s: string, c: char)
    ensures TrimLeftChar([c] + s, c) == TrimLeftChar(s, c)
  {
    assert ([c] + s)[1..] == s;
  }

  /** A trailing `c` is trimmed away. */
  lemma RightCharDrops(s: string, c: char)
    ensures TrimRightChar(s + [c], c) == TrimRightChar(s, c)
  {
    assert (s + [c])[..|s|] == s;
  }

  /** Trimming the front of `s + [c]` trims the front of `s` and keeps the `c`,
      unless all of `s` is trimmed. */
  lemma {:induction false} LeftCharAppend(s: string, c: char)
    ensures TrimLeftChar(s, c) != [] ==> TrimLeftChar(s + [c], c) == TrimLeftChar(s, c) + [c]
    ensures TrimLeftChar(s, c) == [] ==> TrimLeftChar(s + [c], c) == []
  {
    if s != [] && s[0] == c {
      assert (s + [c])[1..] == s[1..] + [c];
      LeftCharAppend(s[1..], c);
    } else if s == [] {
      assert [c][1..] == [];
    }
  }

  lemma AppendPair<T>(s: seq<T>, x: T, y: T)
    ensures s + [x] + [y] == s + [x, y]
  {
  }

  lemma SliceMiddle<T>(a: seq<T>, b: seq<T>, c: seq<T>)
    ensures (a + b + c)[|a|..|a| + |b|] == b
  {
  }

  lemma TakeOfAppend<T>(a: seq<T>, b: seq<T>)
    ensures (a + b)[..|a|] == a
  {
  }

  lemma AppendThenPair<T>(s: seq<T>, x: T, y: T, z: T)
    ensures s + [x] + [y, z] == s + [x, y, z]
  {
  }

  lemma HeadTail<T>(s: seq<T>)
    requires s != []
    ensures [s[0]] + s[1..] == s
  {
  }

  /** Dropping the head of a prefix, or taking a prefix of the tail. */
  lemma TakeOfDrop<T>(s: seq<T>, k: nat)
    requires 1 <= k <= |s|
    ensures s[1..][..k - 1] == s[..k][1..]
  {
  }

  // ---------------------------------------------------------------------------
  // Prefixes, searching, splitting and joining

  /** Concatenation regroups; stated once here, since the solver finds it slowly. */
  lemma AppendAssoc<T>(a: seq<T>, b: seq<T>, c: seq<T>)
    ensures a + b + c == a + (b + c)
  {
  }

  predicate HasPrefix(s: string, p: string) {
    |p| <= |s| && s[..|p|] == p
  }

  predicate HasSuffix(s: string, p: string) {
    |p| <= |s| && s[|s| - |p|..] == p
  }

  /** `strings.TrimPrefix` */
  function TrimPrefix(s: string, p: string): (r: string)
    ensures HasPrefix(s, p) ==> p + r == s
    ensures !HasPrefix(s, p) ==> r == s
  {
    if HasPrefix(s, p) then s[|p|..] else s
  }

  /** `strings.Contains`: `sub` occurs somewhere in `s`. */
  predicate Contains(s: string, sub: string)
    decreases |s|
  {
    HasPrefix(s, sub) || (s != [] && Contains(s[1..], sub))
  }

  /** A string contains no string whose first character it lacks. */
  lemma {:induction false} NotContainsWithoutHead(s: string, sub: string)
    requires sub != [] && sub[0] !in s
    ensures !Contains(s, sub)
    decreases |s|
  {
    if s != [] {
      assert s[0] != sub[0];
      NotContainsWithoutHead(s[1..], sub);
    }
  }

  /** `strings.Index` for a one-character needle: the first position of `c`, or -1. */
  function IndexOf(s: string, c: char): (r: int)
    ensures -1 <= r < |s|
    ensures r == -1 <==> c !in s
    ensures r >= 0 ==> s[r] == c && c !in s[..r]
  {
    if s == [] then -1
    else if s[0] == c then 0
    else
      var k := IndexOf(s[1..], c);
      if k == -1 then -1
      else
        assert s[..k + 1] == [s[0]] + s[1..][..k];
        k + 1
  }

  /** `strings.Join` */
  function Join(parts: seq<string>, sep: string): string {
    if |parts| == 0 then ""
    else if |parts| == 1 then parts[0]
    else parts[0] + sep + Join(parts[1..], sep)
  }

  /** The concatenation of all the strings, in order. */
  function Concat(parts: seq<string>): string {
    if parts == [] then "" else Concat(parts[..|parts| - 1]) + parts[|parts| - 1]
  }

  /** Concatenating one more string of a list extends the text by that string. */
  lemma ConcatSnoc(parts: seq<string>, i: nat)
    requires i < |parts|
    ensures Concat(parts[..i + 1]) == Concat(parts[..i]) + parts[i]
  {
    assert parts[..i + 1][..i] == parts[..i];
  }

  /** `strings.Split` for a one-character separator: the pieces between the
      separators, never an empty list. */
  function Split(s: string, sep: char): (r: seq<string>)
    ensures |r| >= 1
    ensures forall i :: 0 <= i < |r| ==> sep !in r[i]
    ensures Join(r, [sep]) == s
    decreases |s|
  {
    var k := IndexOf(s, sep);
    if k == -1 then [s]
    else
      var rest := Split(s[k + 1..], sep);
      JoinCons(s[..k], rest, [sep]);
      assert s == s[..k] + [sep] + s[k + 1..];
      assert forall i :: 1 <= i <= |rest| ==> ([s[..k]] + rest)[i] == rest[i - 1];
      [s[..k]] + rest
  }

  lemma JoinCons(a: string, rest: seq<string>, sep: string)
    requires |rest| >= 1
    ensures Join([a] + rest, sep) == a + sep + Join(rest, sep)
  {
    assert ([a] + rest)[1..] == rest;
  }

  /** One more part at the end is one more separator and that part. */
  lemma {:induction false} JoinSnoc(parts: seq<string>, x: string, sep: string)
    requires parts != []
    ensures Join(parts + [x], sep) == Join(parts, sep) + sep + x
  {
    if |parts| == 1 {
      assert parts + [x] == [parts[0]] + [x];
      JoinCons(parts[0], [x], sep);
    } else {
      var rest := parts[1..];
      assert parts + [x] == [parts[0]] + (rest + [x]);
      assert parts == [parts[0]] + rest;
      JoinCons(parts[0], rest + [x], sep);
      JoinCons(parts[0], rest, sep);
      JoinSnoc(rest, x, sep);
      AppendAssoc(parts[0] + sep, Join(rest, sep) + sep, x);
      AppendAssoc(parts[0] + sep, Join(rest, sep), sep);
    }
  }

  /** The message of `fmt.Errorf("<context>: %w", err)`. */
  function Wrap(context: string, err: string): string {
    context + ": " + err
  }

  lemma IndexOfAfter(a: string, c: char, b: string)
    requires c !in a
    ensures IndexOf(a + [c] + b, c) == |a|
  {
    var s := a + [c] + b;
    assert s[|a|] == c;
    assert s[..|a|] == a;
  }

  /** Splitting a join undoes it when no part contains the separator. */
  lemma {:induction false} SplitOfJoin(parts: seq<string>, sep: char)
    requires |parts| >= 1
    requires forall i :: 0 <= i < |parts| ==> sep !in parts[i]
    ensures Split(Join(parts, [sep]), sep) == parts
  {
    if |parts| == 1 {
      assert IndexOf(parts[0], sep) == -1;
    } else {
      var rest := Join(parts[1..], [sep]);
      var s := parts[0] + [sep] + rest;
      JoinCons(parts[0], parts[1..], [sep]);
      assert parts == [parts[0]] + parts[1..];
      IndexOfAfter(parts[0], sep, rest);
      assert s[..|parts[0]|] == parts[0];
      assert s[|parts[0]| + 1..] == rest;
      SplitOfJoin(parts[1..], sep);
    }
  }

  /** A character in neither the parts nor the separator is not in their join. */
  lemma {:induction false} NotInJoin(parts: seq<string>, sep: string, c: char)
    requires c !in sep
    requires forall i :: 0 <= i < |parts| ==> c !in parts[i]
    ensures c !in Join(parts, sep)
  {
    if |parts| > 1 {
      NotInJoin(parts[1..], sep, c);
    }
  }

  /** A join of non-empty parts begins with the first part's first character and
      ends with the last part's last character. */
  lemma {:induction false} JoinEdges(parts: seq<string>, sep: string)
    requires |parts| >= 1
    requires forall i :: 0 <= i < |parts| ==> parts[i] != []
    ensures var s := Join(parts, sep);
      s != [] && s[0] == parts[0][0] && s[|s| - 1] == parts[|parts| - 1][|parts[|parts| - 1]| - 1]
  {
    if |parts| > 1 {
      JoinEdges(parts[1..], sep);
    }
  }

  // ---------------------------------------------------------------------------
  // Fields

  /** The length of the run of non-space characters that starts `s`. */
  function TokenLength(s: string): (n: nat)
    ensures n <= |s| && NoSpace(s[..n]) && (n == |s| || IsSpace(s[n]))
    ensures s != [] && !IsSpace(s[0]) ==> n >= 1
  {
    if s == [] || IsSpace(s[0]) then 0
    else
      var n := 1 + TokenLength(s[1..]);
      assert s[..n] == [s[0]] + s[1..][..n - 1];
      n
  }

  /** `strings.Fields`: the maximal runs of non-space characters, in order. */
  function Fields(s: string): (r: seq<string>)
    ensures forall i :: 0 <= i < |r| ==> IsToken(r[i])
    decreases |s|
  {
    if s == [] then []
    else if IsSpace(s[0]) then Fields(s[1..])
    else
      var n := TokenLength(s);
      [s[..n]] + Fields(s[n..])
  }

  lemma {:induction false} TokenLengthOf(t: string, x: string)
    requires NoSpace(t)
    requires x == [] || IsSpace(x[0])
    ensures TokenLength(t + x) == |t|
  {
    if t != [] {
      assert (t + x)[1..] == t[1..] + x;
      TokenLengthOf(t[1..], x);
    }
  }

  /** Splitting a single-space join into fields gives back the tokens. */
  lemma {:induction false} FieldsOfJoin(tokens: seq<string>)
    requires forall i :: 0 <= i < |tokens| ==> IsToken(tokens[i])
    ensures Fields(Join(tokens, " ")) == tokens
  {
    if |tokens| == 1 {
      var t := tokens[0];
      TokenLengthOf(t, []);
      assert t + [] == t;
      assert t[..|t|] == t && t[|t|..] == [];
    } else if |tokens| > 1 {
      var t := tokens[0];
      var rest := Join(tokens[1..], " ");
      var s := t + " " + rest;
      assert Join(tokens, " ") == s;
      TokenLengthOf(t, " " + rest);
      assert t + (" " + rest) == s;
      assert s[..|t|] == t;
      assert s[|t|..] == " " + rest;
      assert (" " + rest)[1..] == rest;
      FieldsOfJoin(tokens[1..]);
      assert tokens == [t] + tokens[1..];
    }
  }

  // ---------------------------------------------------------------------------
  // Integers

  const MaxInt64: int := 0x7FFF_FFFF_FFFF_FFFF
  const MinInt64: int := -0x8000_0000_0000_0000
  const MaxUint64: int := 0xFFFF_FFFF_FFFF_FFFF

  /** Two's-complement wrap-around of Go's 64-bit `int`. */
  function Wrap64(x: int): (r: int)
    ensures MinInt64 <= r <= MaxInt64
    ensures MinInt64 <= x <= MaxInt64 ==> r == x
    decreases if x > MaxInt64 then x - MaxInt64 else if x < MinInt64 then MinInt64 - x else 0
  {
    if x > MaxInt64 then Wrap64(x - 0x1_0000_0000_0000_0000)
    else if x < MinInt64 then Wrap64(x + 0x1_0000_0000_0000_0000)
    else x
  }

  predicate IsDigit(c: char) {
    '0' <= c <= '9'
  }

  function DigitValue(c: char): nat
    requires IsDigit(c)
  {
    (c as int) - ('0' as int)
  }

  /** The value of a string of decimal digits (0 for the empty string). */
  function DigitsValue(ds: string): nat
    requires All(ds, IsDigit)
  {
    if ds == [] then 0 else 10 * DigitsValue(ds[..|ds| - 1]) + DigitValue(ds[|ds| - 1])
  }

  /** The length of the run of decimal digits that starts `s`. */
  function DigitRun(s: string): (n: nat)
    ensures n <= |s| && All(s[..n], IsDigit) && (n == |s| || !IsDigit(s[n]))
  {
    if s == [] || !IsDigit(s[0]) then 0
    else
      var n := 1 + DigitRun(s[1..]);
      assert s[..n] == [s[0]] + s[1..][..n - 1];
      n
  }

  /** `s` without one leading `+` or `-` sign. */
  function Unsigned(s: string): string {
    if s != [] && (s[0] == '+' || s[0] == '-') then s[1..] else s
  }

  predicate Negative(s: string) {
    s != [] && s[0] == '-'
  }

  /** An optionally signed, non-empty string of decimal digits. */
  predicate IsNumeral(s: string) {
    Unsigned(s) != [] && All(Unsigned(s), IsDigit)
  }

  function NumeralValue(s: string): int
    requires IsNumeral(s)
  {
    if Negative(s) then 0 - DigitsValue(Unsigned(s)) else DigitsValue(Unsigned(s))
  }

  /** What `strconv.Atoi` returns: the value, and whether the error was nil. */
  datatype IntParse = IntParse(value: int, ok: bool)

  /** `strconv.Atoi` on a 64-bit platform.  The scan stops with a range error as
      soon as the leading digits exceed the unsigned 64-bit range (before it
      would meet a bad character), and the value returned with a range error is
      clamped to the `int` range, while a syntax error returns 0. */
  function Atoi(s: string): (r: IntParse)
    ensures MinInt64 <= r.value <= MaxInt64
    ensures r.ok <==> IsNumeral(s) && MinInt64 <= NumeralValue(s) <= MaxInt64
    ensures r.ok ==> r.value == NumeralValue(s)
    ensures !IsNumeral(s) && DigitsValue(Unsigned(s)[..DigitRun(Unsigned(s))]) <= MaxUint64 ==> r.value == 0
  {
    var u := Unsigned(s);
    var run := DigitRun(u);
    assert IsNumeral(s) ==> run == |u| && u[..run] == u;
    if u == [] then IntParse(0, false)
    else if DigitsValue(u[..run]) > MaxUint64 then
      IntParse(if Negative(s) then MinInt64 else MaxInt64, false)
    else if run < |u| then IntParse(0, false)
    else
      assert u[..run] == u;
      var v := NumeralValue(s);
      if v > MaxInt64 then IntParse(MaxInt64, false)
      else if v < MinInt64 then IntParse(MinInt64, false)
      else IntParse(v, true)
  }

  /** The decimal digits of `n`, without leading zeros. */
  function NatToDecimal(n: nat): (r: string)
    ensures r != [] && All(r, IsDigit) && DigitsValue(r) == n
    ensures r[0] != '-' && r[0] != '+'
  {
    var d := [('0' as int + n % 10) as char];
    if n < 10 then d
    else
      var r := NatToDecimal(n / 10) + d;
      assert r[..|r| - 1] == NatToDecimal(n / 10);
      r
  }

  /** `strconv.Itoa`, and the `%d` verb of `fmt`. */
  function Itoa(n: int): (r: string)
    ensures r != []
  {
    if n < 0 then "-" + NatToDecimal(-n) else NatToDecimal(n)
  }

  /** `Atoi` reads back what `Itoa` writes, over the whole `int` range. */
  lemma AtoiItoa(n: int)
    requires MinInt64 <= n <= MaxInt64
    ensures Atoi(Itoa(n)) == IntParse(n, true)
  {
    var s := Itoa(n);
    if n < 0 {
      assert Unsigned(s) == NatToDecimal(-n);
    } else {
      assert Unsigned(s) == NatToDecimal(n);
    }
    assert IsNumeral(s) && NumeralValue(s) == n;
  }

  /** `Itoa` writes decimal digits after at most one minus sign. */
  lemma ItoaDigits(n: int)
    ensures forall i :: 0 <= i < |Itoa(n)| ==> IsDigit(Itoa(n)[i]) || Itoa(n)[i] == '-'
  {
    var d := if n < 0 then NatToDecimal(-n) else NatToDecimal(n);
    assert forall i :: 0 <= i < |d| ==> IsDigit(d[i]);
    if n < 0 {
      assert Itoa(n) == "-" + d;
      assert forall i :: 1 <= i < |Itoa(n)| ==> Itoa(n)[i] == d[i - 1];
    }
  }

  /** So it never writes white space or the characters that separate VV.MM parts,
      passive-mode octets or the passive-mode group. */
  lemma ItoaIsPlain(n: int)
    ensures IsToken(Itoa(n))
    ensures '.' !in Itoa(n) && ',' !in Itoa(n) && '(' !in Itoa(n) && ')' !in Itoa(n)
  {
    ItoaDigits(n);
  }

  // ---------------------------------------------------------------------------
  // net/url

  /** The bytes of the UTF-8 encoding of `c`. */
  function Utf8(c: char): (r: seq<int>)
    ensures 1 <= |r| <= 4
    ensures forall i :: 0 <= i < |r| ==> 0 <= r[i] < 256
    ensures (c as int) < 0x80 ==> r == [c as int]
  {
    var n := c as int;
    if n < 0x80 then [n]
    else if n < 0x800 then [0xC0 + n / 0x40, 0x80 + n % 0x40]
    else if n < 0x1_0000 then [0xE0 + n / 0x1000, 0x80 + (n / 0x40) % 0x40, 0x80 + n % 0x40]
    else [0xF0 + n / 0x4_0000, 0x80 + (n / 0x1000) % 0x40, 0x80 + (n / 0x40) % 0x40, 0x80 + n % 0x40]
  }

  /** The bytes `url.QueryEscape` leaves alone: letters, digits and `-_.~`. */
  predicate Unreserved(b: int) {
    || ('a' as int <= b <= 'z' as int) || ('A' as int <= b <= 'Z' as int) || ('0' as int <= b <= '9' as int)
    || b == '-' as int || b == '_' as int || b == '.' as int || b == '~' as int
  }

  function HexDigit(d: int): char
    requires 0 <= d < 16
  {
    "0123456789ABCDEF"[d]
  }

  function EscapeByte(b: int): string
    requires 0 <= b < 256
  {
    if Unreserved(b) then [b as char]
    else if b == ' ' as int then "+"
    else ['%', HexDigit(b / 16), HexDigit(b % 16)]
  }

  function EscapeBytes(bs: seq<int>): string
    requires forall i :: 0 <= i < |bs| ==> 0 <= bs[i] < 256
  {
    if bs == [] then "" else EscapeByte(bs[0]) + EscapeBytes(bs[1..])
  }

  /** `url.QueryEscape`: a query component with every byte other than letters,
      digits and `-_.~` written as `%XX`, and spaces as `+`. */
  function QueryEscape(s: string): (r: string)
    ensures All(s, c => Unreserved(c as int)) ==> r == s
  {
    if s == [] then ""
    else
      var r := EscapeBytes(Utf8(s[0])) + QueryEscape(s[1..]);
      assert All(s, c => Unreserved(c as int)) ==> r == [s[0]] + s[1..] by {
        if All(s, c => Unreserved(c as int)) {
          assert Unreserved(s[0] as int);
          assert EscapeBytes(Utf8(s[0])) == EscapeByte(s[0] as int) + EscapeBytes([]);
          assert EscapeByte(s[0] as int) == [s[0]];
          assert All(s[1..], c => Unreserved(c as int));
        }
      }
      r
  }
}
