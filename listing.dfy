/** The parsers of the FTP backend: one member line of a partitioned-dataset
    listing, one job line of a job listing, the transcript scraper that pulls the
    member table out of a recorded FTP dialogue, and the plain table reader. */
module Listing {
  import opened Wrappers
  import opened GoStrings
  import opened Records

  // ---------------------------------------------------------------------------
  // Member lines

  /** The `VV.MM` column: two numbers when the token has exactly one dot, each 0
      when it is not a number; (0, 0) for any other shape. */
  function VersionParts(tok: string): (r: (int, int))
    ensures '.' !in tok ==> r == (0, 0)
    ensures |Split(tok, '.')| != 2 ==> r == (0, 0)
    ensures var parts := Split(tok, '.');
      |parts| == 2 ==> r == (Atoi(parts[0]).value, Atoi(parts[1]).value)
  {
    var parts := Split(tok, '.');
    if |parts| == 2 then (Atoi(parts[0]).value, Atoi(parts[1]).value)
    else
      (0, 0)
  }

  /** The member the fields of a listing row describe. */
  function MemberOfFields(f: seq<string>): (m: Member)
    requires |f| >= 8
    ensures m.name == f[0] && (m.vv, m.mm) == VersionParts(f[1])
    ensures m.created == f[2] && m.changed == f[3] + " " + f[4]
    ensures m.size == Atoi(f[5]).value && m.init == Atoi(f[6]).value && m.mod == Atoi(f[7]).value
    ensures m.user == if |f| >= 9 then f[8] else ""
  {
    var vm := VersionParts(f[1]);
    Member(f[0], vm.0, vm.1, f[2], f[3] + " " + f[4],
           Atoi(f[5]).value, Atoi(f[6]).value, Atoi(f[7]).value,
           if |f| >= 9 then f[8] else "")
  }

  /** One row of the member listing, `Name VV.MM Created Changed-date Changed-time
      Size Init Mod [Id]`; a line of fewer than eight fields is no member at all. */
  function ParseMemberLine(line: string): (m: Member)
    ensures m.name != "" <==> |Fields(line)| >= 8
    ensures m.name == "" ==> m == NoMember
    ensures var f := Fields(line);
      |f| >= 8 ==>
        && m.name == f[0] && (m.vv, m.mm) == VersionParts(f[1])
        && m.created == f[2] && m.changed == f[3] + " " + f[4]
        && m.size == Atoi(f[5]).value && m.init == Atoi(f[6]).value && m.mod == Atoi(f[7]).value
        && m.user == (if |f| >= 9 then f[8] else "")
  {
    var f := Fields(line);
    if |f| < 8 then NoMember else MemberOfFields(f)
  }

  /** A number written the way the host writes the `VV.MM` column: two digits at least. */
  function Pad2(n: int): string {
    if 0 <= n < 10 then "0" + Itoa(n) else Itoa(n)
  }

  lemma Pad2Plain(n: int)
    ensures IsToken(Pad2(n)) && '.' !in Pad2(n)
  {
    ItoaIsPlain(n);
    if 0 <= n < 10 {
      assert Pad2(n) == ['0'] + Itoa(n);
    }
  }

  lemma Pad2Reads(n: int)
    requires MinInt64 <= n <= MaxInt64
    ensures Atoi(Pad2(n)) == IntParse(n, true)
  {
    AtoiItoa(n);
    if 0 <= n < 10 {
      var d := ('0' as int + n) as char;
      assert Itoa(n) == [d];
      var s := Pad2(n);
      assert s == ['0', d];
      assert s[..1] == ['0'];
      assert DigitsValue(['0']) == 0;
      assert IsNumeral(s) && NumeralValue(s) == n;
    }
  }

  /** The change stamp of a listable member splits into a date and a time token. */
  predicate Listable(m: Member, date: string, time: string) {
    && IsToken(m.name) && IsToken(m.created) && IsToken(date) && IsToken(time)
    && m.changed == date + " " + time
    && (m.user == "" || IsToken(m.user))
    && MinInt64 <= m.vv <= MaxInt64 && MinInt64 <= m.mm <= MaxInt64
    && MinInt64 <= m.size <= MaxInt64 && MinInt64 <= m.init <= MaxInt64
    && MinInt64 <= m.mod <= MaxInt64
  }

  /** The fields of the listing row the host writes for `m`; the Id column is blank
      when nobody is recorded. */
  function RowTokens(m: Member, date: string, time: string): seq<string> {
    [m.name, Pad2(m.vv) + "." + Pad2(m.mm), m.created, date, time,
     Itoa(m.size), Itoa(m.init), Itoa(m.mod)]
    + (if m.user == "" then [] else [m.user])
  }

  function MemberRow(m: Member, date: string, time: string): string {
    Join(RowTokens(m, date, time), " ")
  }

  /** Two tokens joined by a dot form one token. */
  lemma DottedToken(a: string, b: string)
    requires IsToken(a) && IsToken(b)
    ensures IsToken(a + "." + b)
  {
    var t := a + "." + b;
    forall i | 0 <= i < |t| ensures !IsSpace(t[i]) {
      if i < |a| { assert t[i] == a[i]; }
      else if i > |a| { assert t[i] == b[i - |a| - 1]; }
    }
  }

  /** Two dot-free parts joined by a dot split back into them. */
  lemma DottedPair(a: string, b: string)
    requires '.' !in a && '.' !in b
    ensures Split(a + "." + b, '.') == [a, b]
  {
    assert Join([a, b], ".") == a + "." + b by {
      assert [a, b][1..] == [b];
    }
    SplitOfJoin([a, b], '.');
  }

  lemma VersionRoundTrip(vv: int, mm: int)
    requires MinInt64 <= vv <= MaxInt64 && MinInt64 <= mm <= MaxInt64
    ensures IsToken(Pad2(vv) + "." + Pad2(mm))
    ensures VersionParts(Pad2(vv) + "." + Pad2(mm)) == (vv, mm)
  {
    Pad2Plain(vv);
    Pad2Plain(mm);
    Pad2Reads(vv);
    Pad2Reads(mm);
    DottedToken(Pad2(vv), Pad2(mm));
    DottedPair(Pad2(vv), Pad2(mm));
  }

  /** The member that fields describe, column by column. */
  lemma MemberOfFieldsReads(f: seq<string>, m: Member)
    requires |f| >= 8
    requires f[0] == m.name && VersionParts(f[1]) == (m.vv, m.mm) && f[2] == m.created
    requires f[3] + " " + f[4] == m.changed
    requires Atoi(f[5]).value == m.size && Atoi(f[6]).value == m.init && Atoi(f[7]).value == m.mod
    requires (if |f| >= 9 then f[8] else "") == m.user
    ensures MemberOfFields(f) == m
  {
  }

  /** The numeric columns of a listable member read back as its numbers. */
  lemma RowNumbersRead(m: Member, date: string, time: string)
    requires Listable(m, date, time)
    ensures VersionParts(Pad2(m.vv) + "." + Pad2(m.mm)) == (m.vv, m.mm)
    ensures Atoi(Itoa(m.size)).value == m.size
    ensures Atoi(Itoa(m.init)).value == m.init
    ensures Atoi(Itoa(m.mod)).value == m.mod
  {
    VersionRoundTrip(m.vv, m.mm);
    AtoiItoa(m.size);
    AtoiItoa(m.init);
    AtoiItoa(m.mod);
  }

  /** The member that the columns of a row describe, once its number columns read
      back as the member's numbers. */
  lemma ColumnsRead(m: Member, date: string, time: string, v: string, a: string, b: string, c: string)
    requires Listable(m, date, time)
    requires VersionParts(v) == (m.vv, m.mm)
    requires Atoi(a).value == m.size && Atoi(b).value == m.init && Atoi(c).value == m.mod
    ensures MemberOfFields([m.name, v, m.created, date, time, a, b, c]
                           + (if m.user == "" then [] else [m.user])) == m
  {
    var f := [m.name, v, m.created, date, time, a, b, c];
    if m.user == "" {
      assert f + [] == f;
      assert f[0] == m.name && f[1] == v && f[2] == m.created && f[3] == date && f[4] == time;
      assert f[5] == a && f[6] == b && f[7] == c && |f| == 8;
      MemberOfFieldsReads(f, m);
    } else {
      var g := f + [m.user];
      assert g[0] == m.name && g[1] == v && g[2] == m.created && g[3] == date && g[4] == time;
      assert g[5] == a && g[6] == b && g[7] == c && g[8] == m.user && |g| == 9;
      MemberOfFieldsReads(g, m);
    }
  }

  lemma MemberOfRowTokens(m: Member, date: string, time: string)
    requires Listable(m, date, time)
    ensures |RowTokens(m, date, time)| >= 8
    ensures MemberOfFields(RowTokens(m, date, time)) == m
  {
    RowNumbersRead(m, date, time);
    ColumnsRead(m, date, time, Pad2(m.vv) + "." + Pad2(m.mm), Itoa(m.size), Itoa(m.init), Itoa(m.mod));
  }

  lemma RowTokensAreTokens(m: Member, date: string, time: string)
    requires Listable(m, date, time)
    ensures forall i :: 0 <= i < |RowTokens(m, date, time)| ==> IsToken(RowTokens(m, date, time)[i])
  {
    Pad2Plain(m.vv);
    Pad2Plain(m.mm);
    DottedToken(Pad2(m.vv), Pad2(m.mm));
    ItoaIsPlain(m.size);
    ItoaIsPlain(m.init);
    ItoaIsPlain(m.mod);
    ColumnsAreTokens(m, date, time, Pad2(m.vv) + "." + Pad2(m.mm), Itoa(m.size), Itoa(m.init), Itoa(m.mod));
  }

  lemma ColumnsAreTokens(m: Member, date: string, time: string, v: string, a: string, b: string, c: string)
    requires Listable(m, date, time)
    requires IsToken(v) && IsToken(a) && IsToken(b) && IsToken(c)
    ensures var f := [m.name, v, m.created, date, time, a, b, c] + (if m.user == "" then [] else [m.user]);
      forall i :: 0 <= i < |f| ==> IsToken(f[i])
  {
    var f := [m.name, v, m.created, date, time, a, b, c];
    assert forall i :: 0 <= i < |f| ==> IsToken(f[i]);
    if m.user == "" {
      assert f + [] == f;
    } else {
      TokensSnoc(f, m.user);
    }
  }

  lemma TokensSnoc(toks: seq<string>, t: string)
    requires forall i :: 0 <= i < |toks| ==> IsToken(toks[i])
    requires IsToken(t)
    ensures forall i :: 0 <= i < |toks + [t]| ==> IsToken((toks + [t])[i])
  {
    forall i | 0 <= i < |toks + [t]| ensures IsToken((toks + [t])[i]) {
      if i < |toks| { assert (toks + [t])[i] == toks[i]; }
    }
  }

  /** Reading back the row the host writes for a member gives that member. */
  lemma ParseMemberRow(m: Member, date: string, time: string)
    requires Listable(m, date, time)
    ensures ParseMemberLine(MemberRow(m, date, time)) == m
  {
    var toks := RowTokens(m, date, time);
    MemberOfRowTokens(m, date, time);
    RowTokensAreTokens(m, date, time);
    FieldsOfJoin(toks);
  }

  // ---------------------------------------------------------------------------
  // Job lines

  predicate IsRetCodeToken(tok: string) {
    HasPrefix(tok, "RC=") || HasPrefix(tok, "ABEND=")
  }

  /** What one job-listing token says about the return code. */
  function RetCodeOf(tok: string): (r: string)
    requires IsRetCodeToken(tok)
  {
    if HasPrefix(tok, "RC=") then "CC " + TrimPrefix(tok, "RC=")
    else "ABEND " + TrimPrefix(tok, "ABEND=")
  }

  /** The return code the last return-code token states, "" when there is none. */
  function LastRetCode(toks: seq<string>): string {
    if toks == [] then ""
    else if IsRetCodeToken(toks[|toks| - 1]) then RetCodeOf(toks[|toks| - 1])
    else LastRetCode(toks[..|toks| - 1])
  }

  /** A job listing line, `JOBNAME JOBID OWNER STATUS [CLASS] ...`; fewer than four
      fields is no job at all. */
  function JobLine(line: string): (j: JobStatus)
    ensures |Fields(line)| < 4 ==> j == NoJob
    ensures var f := Fields(line);
      |f| >= 4 ==>
        && j.jobName == f[0] && j.jobId == f[1] && j.owner == f[2] && j.status == f[3]
        && j.jobClass == (if |f| >= 5 then f[4] else "")
        && j.retCode == LastRetCode(f)
  {
    var f := Fields(line);
    if |f| < 4 then NoJob
    else JobStatus(f[1], f[0], f[2], f[3], LastRetCode(f), if |f| >= 5 then f[4] else "")
  }

  /** The scan over every field, in order, that sets the return code. */
  method ParseJobLine(line: string) returns (job: JobStatus)
    ensures job == JobLine(line)
  {
    var f := Fields(line);
    if |f| < 4 {
      return NoJob;
    }
    job := JobStatus(f[1], f[0], f[2], f[3], "", "");
    if |f| >= 5 {
      job := job.(jobClass := f[4]);
    }
    var i := 0;
    while i < |f|
      invariant 0 <= i <= |f|
      invariant job == JobStatus(f[1], f[0], f[2], f[3], LastRetCode(f[..i]), if |f| >= 5 then f[4] else "")
    {
      assert f[..i + 1][..i] == f[..i];
      if HasPrefix(f[i], "RC=") {
        job := job.(retCode := "CC " + TrimPrefix(f[i], "RC="));
      } else if HasPrefix(f[i], "ABEND=") {
        job := job.(retCode := "ABEND " + TrimPrefix(f[i], "ABEND="));
      }
      i := i + 1;
    }
    assert f[..i] == f;
  }

  /** The last return-code token wins, whatever comes after it. */
  lemma {:induction false} LastRetCodeWins(toks: seq<string>, k: nat)
    requires k < |toks| && IsRetCodeToken(toks[k])
    requires forall j :: k < j < |toks| ==> !IsRetCodeToken(toks[j])
    ensures LastRetCode(toks) == RetCodeOf(toks[k])
    decreases |toks|
  {
    if k < |toks| - 1 {
      var init := toks[..|toks| - 1];
      assert forall j :: k < j < |init| ==> init[j] == toks[j];
      LastRetCodeWins(init, k);
    }
  }

  /** Without a return-code token the code stays empty. */
  lemma {:induction false} LastRetCodeNone(toks: seq<string>)
    requires forall j :: 0 <= j < |toks| ==> !IsRetCodeToken(toks[j])
    ensures LastRetCode(toks) == ""
  {
    if toks != [] {
      var init := toks[..|toks| - 1];
      assert forall j :: 0 <= j < |init| ==> init[j] == toks[j];
      LastRetCodeNone(init);
    }
  }

  /** The token the host writes for a return code: `RC=x` for a completion code
      `CC x`, `ABEND=x` for an abend. */
  function RetCodeToken(code: string, abend: bool): string {
    if abend then "ABEND=" + code else "RC=" + code
  }

  predicate PlainToken(t: string) {
    IsToken(t) && !IsRetCodeToken(t)
  }

  function JobRowTokens(name: string, id: string, owner: string, status: string,
                        cls: string, code: string, abend: bool): seq<string> {
    [name, id, owner, status] + (if cls == "" then [] else [cls])
    + (if code == "" then [] else [RetCodeToken(code, abend)])
  }

  lemma RetCodeTokenReads(code: string, abend: bool)
    requires NoSpace(code)
    ensures IsToken(RetCodeToken(code, abend))
    ensures IsRetCodeToken(RetCodeToken(code, abend))
    ensures RetCodeOf(RetCodeToken(code, abend)) == (if abend then "ABEND " else "CC ") + code
  {
    var t := RetCodeToken(code, abend);
    var p := if abend then "ABEND=" else "RC=";
    assert t == p + code;
    assert t[..|p|] == p;
    assert forall i :: 0 <= i < |t| ==> !IsSpace(t[i]) by {
      forall i | 0 <= i < |t| ensures !IsSpace(t[i]) {
        if i >= |p| { assert t[i] == code[i - |p|]; }
      }
    }
    if abend {
      assert !HasPrefix(t, "RC=") by { assert t[1] == 'B'; }
    }
  }

  lemma {:induction false} JobRowRoundTrip(name: string, id: string, owner: string, status: string,
                                          cls: string, code: string, abend: bool)
    requires PlainToken(name) && PlainToken(id) && PlainToken(owner) && PlainToken(status)
    requires cls == "" || PlainToken(cls)
    requires NoSpace(code)
    requires cls == "" ==> code == ""
    ensures JobLine(Join(JobRowTokens(name, id, owner, status, cls, code, abend), " "))
         == JobStatus(id, name, owner, status,
                      if code == "" then "" else (if abend then "ABEND " else "CC ") + code, cls)
  {
    var toks := JobRowTokens(name, id, owner, status, cls, code, abend);
    if code != "" {
      RetCodeTokenReads(code, abend);
      LastRetCodeWins(toks, |toks| - 1);
    } else {
      LastRetCodeNone(toks);
    }
    FieldsOfJoin(toks);
  }

  /** A return code a job listing can show: none, a completion code `CC x` or an
      abend `ABEND x`. */
  predicate ListedRetCode(rc: string) {
    || rc == ""
    || (HasPrefix(rc, "CC ") && IsToken(rc[3..]))
    || (HasPrefix(rc, "ABEND ") && IsToken(rc[6..]))
  }

  /** The code of a return code and whether it is an abend. */
  function RetCodeParts(rc: string): (string, bool) {
    if HasPrefix(rc, "ABEND ") then (rc[6..], true)
    else if HasPrefix(rc, "CC ") then (rc[3..], false)
    else ("", false)
  }

  /** A job a listing line can describe: single-token fields that are no return code,
      and a class whenever there is a return code. */
  predicate ListedJob(j: JobStatus) {
    && PlainToken(j.jobName) && PlainToken(j.jobId) && PlainToken(j.owner) && PlainToken(j.status)
    && (j.jobClass == "" || PlainToken(j.jobClass))
    && ListedRetCode(j.retCode)
    && (j.jobClass == "" ==> j.retCode == "")
  }

  /** The job listing line the host writes for `j`. */
  function FormatJobLine(j: JobStatus): string {
    var (code, abend) := RetCodeParts(j.retCode);
    Join(JobRowTokens(j.jobName, j.jobId, j.owner, j.status, j.jobClass, code, abend), " ")
  }

  /** Reading back the line the host writes for a job gives that job. */
  lemma JobLineOfFormat(j: JobStatus)
    requires ListedJob(j)
    ensures JobLine(FormatJobLine(j)) == j
  {
    var rc := j.retCode;
    var (code, abend) := RetCodeParts(rc);
    if HasPrefix(rc, "ABEND ") {
      assert !HasPrefix(rc, "CC ") by { assert rc[0] == 'A'; }
      assert IsToken(code) && rc == rc[..6] + code;
    } else if HasPrefix(rc, "CC ") {
      assert IsToken(code) && rc == rc[..3] + code;
    } else {
      assert rc == "" && code == "";
    }
    JobRowRoundTrip(j.jobName, j.jobId, j.owner, j.status, j.jobClass, code, abend);
  }

  // ---------------------------------------------------------------------------
  // Member tables

  const ListStarted := "125 List started"
  const ListCompleted := "250 List completed"

  /** The column header of a member table, as the transcript scraper spots it. */
  predicate IsMemberHeader(line: string) {
    Contains(line, "Name") && Contains(line, "VV.MM")
  }

  /** The column header of a member table, as the plain table reader spots it. */
  predicate IsTableHeader(line: string) {
    HasPrefix(line, " Name") || HasPrefix(line, "Name")
  }

  /** The rows the scraper passes over between the markers: the start marker
      again, or a header. */
  predicate ScrapeSkip(line: string) {
    Contains(line, ListStarted) || IsMemberHeader(line)
  }

  /** The member a table row names, if it names one: the trimmed row when it is
      not blank and parses to a named member. */
  function RowMember(line: string): (r: Option<Member>)
    ensures r.Some? ==> r.value.name != ""
    ensures r.Some? <==> |Fields(TrimSpace(line))| >= 8
  {
    var t := TrimSpace(line);
    if t == "" then None
    else
      var m := ParseMemberLine(t);
      if m.name != "" then Some(m) else None
  }

  /** A row parser: what one line of a member table yields. */
  type RowParser = string -> Option<Member>

  /** The members that `row` finds in `lines`, in order, passing over the lines
      `skip` selects. */
  function KeepRows(lines: seq<string>, skip: string -> bool, row: RowParser): (r: seq<Member>)
    ensures |r| <= |lines|
  {
    if lines == [] then []
    else
      var rest := KeepRows(lines[1..], skip, row);
      if skip(lines[0]) then rest
      else match row(lines[0])
        case None => rest
        case Some(m) => [m] + rest
  }

  /** The two-state scan of a recorded dialogue: `inList` turns on at a start
      marker, and the first end marker stops the scan wherever it appears. */
  function Scrape(lines: seq<string>, inList: bool, row: RowParser): seq<Member> {
    if lines == [] then []
    else
      var line := lines[0];
      if Contains(line, ListStarted) then Scrape(lines[1..], true, row)
      else if Contains(line, ListCompleted) then []
      else if !inList then Scrape(lines[1..], false, row)
      else if IsMemberHeader(line) then Scrape(lines[1..], true, row)
      else match row(line)
        case None => Scrape(lines[1..], true, row)
        case Some(m) => [m] + Scrape(lines[1..], true, row)
  }

  /** A row parser that names every member it finds. */
  ghost predicate NamesRows(row: RowParser) {
    forall line :: row(line).Some? ==> row(line).value.name != ""
  }

  /** Every member a table yields is named, when its row parser names them. */
  lemma {:induction false} KeptRowsNamed(lines: seq<string>, skip: string -> bool, row: RowParser)
    requires NamesRows(row)
    ensures forall i :: 0 <= i < |KeepRows(lines, skip, row)| ==> KeepRows(lines, skip, row)[i].name != ""
  {
    if lines != [] {
      KeptRowsNamed(lines[1..], skip, row);
    }
  }

  lemma RowMemberNames()
    ensures NamesRows(RowMember)
  {
  }

  /** `parseMemberListFromDebug`; the error it returns is always nil. */
  method ParseMemberListFromDebug(debug: string) returns (members: seq<Member>)
    ensures members == Scrape(Split(debug, '\n'), false, RowMember)
  {
    var lines := Split(debug, '\n');
    members := [];
    var inList := false;
    var i := 0;
    while i < |lines|
      invariant 0 <= i <= |lines|
      invariant members + Scrape(lines[i..], inList, RowMember) == Scrape(lines, false, RowMember)
    {
      var line := lines[i];
      ScrapeStep(lines, i, inList, RowMember);
      if Contains(line, ListStarted) {
        inList := true;
        i := i + 1;
        continue;
      }
      if Contains(line, ListCompleted) {
        assert members == members + [];
        return;
      }
      if !inList || IsMemberHeader(line) {
        i := i + 1;
        continue;
      }
      var r := RowMember(line);
      ScrapeRowStep(lines, i, RowMember);
      AppendAssoc(members, Yield(r), Scrape(lines[i + 1..], true, RowMember));
      if r.Some? {
        members := members + [r.value];
      }
      i := i + 1;
    }
    assert members == members + [];
  }

  /** What a row parser's answer adds to a member list. */
  function Yield(r: Option<Member>): seq<Member> {
    if r.Some? then [r.value] else []
  }

  /** One step of the scan at line `i`, for the lines that add nothing. */
  lemma ScrapeStep(lines: seq<string>, i: nat, inList: bool, row: RowParser)
    requires i < |lines|
    ensures Contains(lines[i], ListStarted) ==> Scrape(lines[i..], inList, row) == Scrape(lines[i + 1..], true, row)
    ensures !Contains(lines[i], ListStarted) && Contains(lines[i], ListCompleted) ==> Scrape(lines[i..], inList, row) == []
    ensures !Contains(lines[i], ListStarted) && !Contains(lines[i], ListCompleted) && (!inList || IsMemberHeader(lines[i]))
      ==> Scrape(lines[i..], inList, row) == Scrape(lines[i + 1..], inList, row)
  {
    assert lines[i..][0] == lines[i];
    assert lines[i..][1..] == lines[i + 1..];
  }

  /** Inside the list, a line that is neither a marker nor a header adds what the row
      parser finds in it. */
  lemma ScrapeRowStep(lines: seq<string>, i: nat, row: RowParser)
    requires i < |lines|
    requires !Contains(lines[i], ListStarted) && !Contains(lines[i], ListCompleted) && !IsMemberHeader(lines[i])
    ensures Scrape(lines[i..], true, row) == Yield(row(lines[i])) + Scrape(lines[i + 1..], true, row)
  {
    assert lines[i..][0] == lines[i];
    assert lines[i..][1..] == lines[i + 1..];
  }

  /** A scan of `lines` that has kept `members` before line `i` keeps what line `i`
      yields next. */
  lemma KeepRowsExtend(lines: seq<string>, i: nat, members: seq<Member>, skip: string -> bool, row: RowParser)
    requires i < |lines|
    requires members + KeepRows(lines[i..], skip, row) == KeepRows(lines, skip, row)
    ensures members + (if skip(lines[i]) then [] else Yield(row(lines[i]))) + KeepRows(lines[i + 1..], skip, row)
      == KeepRows(lines, skip, row)
  {
    KeepRowsStep(lines, i, skip, row);
    AppendAssoc(members, if skip(lines[i]) then [] else Yield(row(lines[i])), KeepRows(lines[i + 1..], skip, row));
  }

  /** One step of `KeepRows` at line `i`. */
  lemma KeepRowsStep(lines: seq<string>, i: nat, skip: string -> bool, row: RowParser)
    requires i < |lines|
    ensures KeepRows(lines[i..], skip, row)
      == (if skip(lines[i]) then [] else Yield(row(lines[i]))) + KeepRows(lines[i + 1..], skip, row)
  {
    assert lines[i..][0] == lines[i];
    assert lines[i..][1..] == lines[i + 1..];
  }

  /** `parseMemberList` over the lines its scanner yields; the scanner's own error
      is not modelled, so the error is nil. */
  method ParseMemberList(lines: seq<string>) returns (members: seq<Member>)
    ensures members == KeepRows(lines, IsTableHeader, RowMember)
  {
    members := ScanTable(lines, RowMember);
  }

  /** The scanner loop of `parseMemberList`: header lines are passed over, and
      every other line adds the member `row` finds in it, if any. */
  method ScanTable(lines: seq<string>, row: RowParser) returns (members: seq<Member>)
    ensures members == KeepRows(lines, IsTableHeader, row)
  {
    members := [];
    var i := 0;
    while i < |lines|
      invariant 0 <= i <= |lines|
      invariant members + KeepRows(lines[i..], IsTableHeader, row) == KeepRows(lines, IsTableHeader, row)
    {
      var line := lines[i];
      KeepRowsExtend(lines, i, members, IsTableHeader, row);
      if IsTableHeader(line) {
        assert members + [] == members;
        i := i + 1;
        continue;
      }
      var member := row(line);
      if member.Some? {
        members := members + [member.value];
      } else {
        assert members + [] == members;
      }
      i := i + 1;
    }
    assert members == members + [];
  }

  // ---------------------------------------------------------------------------
  // What the scraper extracts

  predicate IsEnd(line: string) {
    !Contains(line, ListStarted) && Contains(line, ListCompleted)
  }

  /** The position of the first line that stops the scan, or the number of lines. */
  function EndIndex(lines: seq<string>): (e: nat)
    ensures e <= |lines|
    ensures forall i :: 0 <= i < e ==> !IsEnd(lines[i])
    ensures e < |lines| ==> IsEnd(lines[e])
  {
    if lines == [] then 0
    else if IsEnd(lines[0]) then 0
    else 1 + EndIndex(lines[1..])
  }

  /** The position of the first start marker, or the number of lines. */
  function StartIndex(lines: seq<string>): (s: nat)
    ensures s <= |lines|
    ensures forall i :: 0 <= i < s ==> !Contains(lines[i], ListStarted)
    ensures s < |lines| ==> Contains(lines[s], ListStarted)
  {
    if lines == [] then 0
    else if Contains(lines[0], ListStarted) then 0
    else 1 + StartIndex(lines[1..])
  }

  /** Inside the list, the scraper keeps the rows up to the first end marker. */
  lemma {:induction false} ScrapeInList(lines: seq<string>, row: RowParser)
    ensures Scrape(lines, true, row) == KeepRows(lines[..EndIndex(lines)], ScrapeSkip, row)
  {
    if lines != [] && !IsEnd(lines[0]) {
      var e := EndIndex(lines);
      assert lines[..e][1..] == lines[1..][..e - 1];
      ScrapeInList(lines[1..], row);
    }
  }

  /** The members of a dialogue are the rows between its first start marker and its
      first end marker, and there are none when an end marker comes first or no
      start marker appears. */
  lemma {:induction false} ScrapeWindow(lines: seq<string>, row: RowParser)
    ensures var s, e := StartIndex(lines), EndIndex(lines);
      Scrape(lines, false, row) == if s < e then KeepRows(lines[s + 1..e], ScrapeSkip, row) else []
  {
    if lines == [] {
    } else if Contains(lines[0], ListStarted) {
      var e := EndIndex(lines);
      ScrapeInList(lines[1..], row);
      TailSlice(lines, 0, e - 1);
    } else if IsEnd(lines[0]) {
    } else {
      ScrapeWindow(lines[1..], row);
      var s, e := StartIndex(lines[1..]), EndIndex(lines[1..]);
      assert StartIndex(lines) == s + 1 && EndIndex(lines) == e + 1;
      if s < e {
        TailSlice(lines, s + 1, e);
      }
    }
  }

  lemma TailSlice(lines: seq<string>, a: nat, b: nat)
    requires a <= b < |lines|
    ensures lines[1..][a..b] == lines[a + 1..b + 1]
  {
  }

  lemma {:induction false} KeepRowsAgree(rows: seq<string>, row: RowParser)
    requires forall i :: 0 <= i < |rows| ==> ScrapeSkip(rows[i]) == IsTableHeader(rows[i])
    ensures KeepRows(rows, ScrapeSkip, row) == KeepRows(rows, IsTableHeader, row)
  {
    if rows != [] {
      KeepRowsAgree(rows[1..], row);
    }
  }

  /** The end marker is no start marker, and each marker contains itself. */
  lemma Markers()
    ensures Contains(ListStarted, ListStarted)
    ensures IsEnd(ListCompleted)
  {
    assert HasPrefix(ListStarted, ListStarted);
    assert HasPrefix(ListCompleted, ListCompleted);
    NotContainsWithoutHead(ListCompleted, ListStarted);
  }

  /** The scan stops at line `k` when no earlier line stops it. */
  lemma EndAt(lines: seq<string>, k: nat)
    requires k < |lines| && IsEnd(lines[k])
    requires forall i :: 0 <= i < k ==> !IsEnd(lines[i])
    ensures EndIndex(lines) == k
  {
  }

  /** A transcript that wraps a table between a line holding the start marker and
      a line holding only the end marker yields the rows of that table. */
  lemma ScrapeBetween(first: string, rows: seq<string>, last: string, row: RowParser)
    requires Contains(first, ListStarted) && IsEnd(last)
    requires forall i :: 0 <= i < |rows| ==> !Contains(rows[i], ListCompleted)
    ensures Scrape([first] + rows + [last], false, row) == KeepRows(rows, ScrapeSkip, row)
  {
    var lines := [first] + rows + [last];
    assert lines[0] == first;
    forall i | 0 <= i < |rows| + 1 ensures !IsEnd(lines[i]) {
      if i > 0 { assert lines[i] == rows[i - 1]; }
    }
    EndAt(lines, |rows| + 1);
    assert StartIndex(lines) == 0;
    ScrapeWindow(lines, row);
    assert lines[1..|rows| + 1] == rows;
  }

  /** In particular for the markers the server writes. */
  lemma ScrapeOfWrapped(rows: seq<string>, row: RowParser)
    requires forall i :: 0 <= i < |rows| ==> !Contains(rows[i], ListCompleted)
    ensures Scrape([ListStarted] + rows + [ListCompleted], false, row) == KeepRows(rows, ScrapeSkip, row)
  {
    Markers();
    ScrapeBetween(ListStarted, rows, ListCompleted, row);
  }

  /** So the scraper reads such a transcript as the plain table reader reads the
      table, when both recognise the same headers. */
  lemma ScrapeOfTable(rows: seq<string>, row: RowParser)
    requires forall i :: 0 <= i < |rows| ==> !Contains(rows[i], ListCompleted)
    requires forall i :: 0 <= i < |rows| ==> ScrapeSkip(rows[i]) == IsTableHeader(rows[i])
    ensures Scrape([ListStarted] + rows + [ListCompleted], false, row) == KeepRows(rows, IsTableHeader, row)
  {
    ScrapeOfWrapped(rows, row);
    KeepRowsAgree(rows, row);
  }
}
