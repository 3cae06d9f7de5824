/** The dataset names the `cat` command accepts: `DATASET(MEMBER)`, optionally
    wrapped in one pair of single quotes.  A path that starts with `/` names a
    file in the UNIX file system instead; that test is made before any parsing. */
module Cat {
  import opened Wrappers
  import opened GoStrings

  /** A name with its surrounding quotes. */
  predicate IsQuoted(s: string) {
    |s| >= 2 && s[0] == '\'' && s[|s| - 1] == '\''
  }

  /** `trimQuotes`: at most one matching pair of single quotes is removed. */
  function TrimQuotes(s: string): (r: string)
    ensures IsQuoted(s) ==> r == s[1..|s| - 1]
    ensures !IsQuoted(s) ==> r == s
    ensures r != s <==> IsQuoted(s)
  {
    if IsQuoted(s) then s[1..|s| - 1] else s
  }

  /** Quoting a name and trimming the quotes gives the name back. */
  lemma TrimQuotesOfQuoted(s: string)
    ensures TrimQuotes("'" + s + "'") == s
  {
    var q := "'" + s + "'";
    assert q[1..|q| - 1] == s;
  }

  /** A quote at one end only is kept, as is a lone quote. */
  lemma TrimQuotesOneSided(s: string)
    requires s == [] || s[|s| - 1] != '\''
    ensures TrimQuotes("'" + s) == "'" + s
    ensures s == [] || s[0] != '\'' ==> TrimQuotes(s + "'") == s + "'"
  {
  }

  /** The position of the last `c` in `s`, or -1 when there is none. */
  function LastIndex(s: string, c: char): (k: int)
    ensures -1 <= k < |s|
    ensures k == -1 <==> c !in s
    ensures k >= 0 ==> s[k] == c
    ensures forall j :: k < j < |s| ==> s[j] != c
  {
    if s == [] then -1
    else if s[|s| - 1] == c then |s| - 1
    else LastIndex(s[..|s| - 1], c)
  }

  /** One more character either is the last `c` or leaves it where it was. */
  lemma LastIndexStep(s: string, i: nat, c: char)
    requires i < |s|
    ensures LastIndex(s[..i + 1], c) == if s[i] == c then i else LastIndex(s[..i], c)
  {
    assert s[..i + 1][..i] == s[..i];
  }

  /** A dataset and the member named in it. */
  datatype Dsn = Dsn(dataset: string, member: string)

  function DsnError(s: string): string {
    "invalid dataset format: " + s + " (expected DATASET(MEMBER))"
  }

  /** `parseDSN` as a function of its input: after the quotes are trimmed, the
      dataset is what precedes the last `(`, the member what lies between it and
      the last `)`, which must come at least two positions later. */
  function Parsed(dsn: string): (r: Result<Dsn>)
    ensures var s := TrimQuotes(dsn);
      && (r.Ok? <==> LastIndex(s, '(') >= 0 && LastIndex(s, ')') >= LastIndex(s, '(') + 2)
      && (r.Err? ==> r.error == DsnError(s))
      && (r.Ok? ==> Splits(s, r.value.dataset, r.value.member))
  {
    var s := TrimQuotes(dsn);
    var start, end := LastIndex(s, '('), LastIndex(s, ')');
    if start == -1 || end == -1 || end <= start + 1 then Err(DsnError(s))
    else
      SplitAt(s, start, end);
      Ok(Dsn(s[..start], s[start + 1..end]))
  }

  /** `s` is `d(m)` followed by a tail, where `(` occurs neither in the non-empty
      member nor in the tail, and `)` not in the tail. */
  predicate Splits(s: string, d: string, m: string) {
    && |d| + |m| + 2 <= |s|
    && s == d + "(" + m + ")" + s[|d| + |m| + 2..]
    && m != "" && '(' !in m && '(' !in s[|d| + |m| + 2..] && ')' !in s[|d| + |m| + 2..]
  }

  lemma SplitAt(s: string, start: int, end: int)
    requires 0 <= start && start + 1 < end < |s| && s[start] == '(' && s[end] == ')'
    requires forall j :: start < j < |s| ==> s[j] != '('
    requires forall j :: end < j < |s| ==> s[j] != ')'
    ensures Splits(s, s[..start], s[start + 1..end])
  {
    var d, m, t := s[..start], s[start + 1..end], s[end + 1..];
    assert s == d + "(" + m + ")" + t;
    assert |d| + |m| + 2 == end + 1;
  }

  /** `parseDSN`: one pass over the name recording the last `(` and the last `)`. */
  method ParseDsn(dsn: string) returns (r: Result<Dsn>)
    ensures r == Parsed(dsn)
  {
    var s := TrimQuotes(dsn);
    var start := -1;
    var end := -1;
    var i := 0;
    while i < |s|
      invariant 0 <= i <= |s|
      invariant start == LastIndex(s[..i], '(') && end == LastIndex(s[..i], ')')
    {
      LastIndexStep(s, i, '(');
      LastIndexStep(s, i, ')');
      if s[i] == '(' {
        start := i;
      } else if s[i] == ')' {
        end := i;
      }
      i := i + 1;
    }
    assert s[..i] == s;
    if start == -1 || end == -1 || end <= start + 1 {
      return Err(DsnError(s));
    }
    return Ok(Dsn(s[..start], s[start + 1..end]));
  }

  /** A name written `d(m)` with a non-empty member free of `(` parses back to `d`
      and `m`, whatever `d` holds. */
  lemma {:induction false} ParsedRoundTrip(d: string, m: string)
    requires m != [] && '(' !in m
    ensures Parsed(d + "(" + m + ")") == Ok(Dsn(d, m))
  {
    var s := d + "(" + m + ")";
    assert !IsQuoted(s);
    assert s[|s| - 1] == ')';
    assert s[|d|] == '(' && s[|d| + 1..] == m + ")";
    assert LastIndex(s, '(') == |d|;
    assert s[..|d|] == d && s[|d| + 1..|s| - 1] == m;
  }

  /** A name without a `(` or without a `)` is refused. */
  lemma ParsedNeedsBoth(dsn: string)
    requires '(' !in TrimQuotes(dsn) || ')' !in TrimQuotes(dsn)
    ensures Parsed(dsn) == Err(DsnError(TrimQuotes(dsn)))
  {
  }

  /** An empty member is refused. */
  lemma ParsedEmptyMember(d: string)
    ensures Parsed(d + "()").Err?
  {
    var s := d + "()";
    assert !IsQuoted(s);
    assert s[|s| - 1] == ')' && s[|s| - 2] == '(';
  }

  /** A name whose last `)` comes before its last `(`, or right after it, is refused. */
  lemma ParsedReversed(dsn: string)
    requires LastIndex(TrimQuotes(dsn), ')') < LastIndex(TrimQuotes(dsn), '(') + 2
    ensures Parsed(dsn) == Err(DsnError(TrimQuotes(dsn)))
  {
  }

  /** For instance `d)m(`, whatever `d` holds, with `m` free of parentheses. */
  lemma ParsedEndsOpen(d: string, m: string)
    requires '(' !in m && ')' !in m
    ensures Parsed(d + ")" + m + "(").Err?
  {
    var s := d + ")" + m + "(";
    assert !IsQuoted(s);
    assert s[|d|] == ')' && s[|s| - 1] == '(';
    assert forall j :: |d| < j < |s| ==> s[j] != ')' by {
      forall j | |d| < j < |s| ensures s[j] != ')' {
        if j < |s| - 1 {
          assert s[j] == m[j - |d| - 1];
        }
      }
    }
  }

  /** The same name in single quotes parses the same way. */
  lemma ParsedQuotedRoundTrip(d: string, m: string)
    requires m != [] && '(' !in m
    ensures Parsed("'" + (d + "(" + m + ")") + "'") == Ok(Dsn(d, m))
  {
    TrimQuotesOfQuoted(d + "(" + m + ")");
    ParsedRoundTrip(d, m);
  }
}
