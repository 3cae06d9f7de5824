/** The text protocol of the job-entry-subsystem interface of the host's FTP server:
    how a control-channel reply is framed and classified, how the passive-mode
    address is decoded (section 4.1.2 of RFC 959), how a job listing is read, and a
    functional description of one session over the control channel.

    The control channel is modelled as the lines the server still has to deliver
    (each one as a buffered reader returns it, with its line end) and the commands
    written so far; a read past the last line fails with the reader's "EOF". */
module JesProtocol {
  import opened Wrappers
  import opened GoStrings
  import opened Records
  import opened Listing

  // ---------------------------------------------------------------------------
  // Reply framing

  /** The last line of a reply: its fourth character is a space (a continuation
      line has `-` there, as in `220-welcome`). */
  predicate IsFinalLine(line: string) {
    |line| >= 4 && line[3] == ' '
  }

  /** A framed reply: its trimmed text, and the error a read returns with it. */
  datatype Reply = Reply(text: string, err: Failure)

  const Eof := "EOF"

  /** A reply whose text starts with `4` or `5` is a transient or permanent failure. */
  predicate IsFailureText(text: string) {
    text != [] && (text[0] == '4' || text[0] == '5')
  }

  function Classify(text: string): (r: Reply)
    ensures r.text == text
    ensures r.err.Some? <==> IsFailureText(text)
    ensures r.err.Some? ==> r.err.value == FtpError(text)
  {
    if IsFailureText(text) then Reply(text, Some(FtpError(text))) else Reply(text, None)
  }

  /** The error that comes with a failure reply. */
  function FtpError(text: string): string {
    "ftp error: " + text
  }

  /** The position of the first final line, or -1 when there is none. */
  function FinalIndex(lines: seq<string>): (k: int)
    ensures -1 <= k < |lines|
    ensures k == -1 ==> forall i :: 0 <= i < |lines| ==> !IsFinalLine(lines[i])
    ensures k >= 0 ==> IsFinalLine(lines[k]) && forall i :: 0 <= i < k ==> !IsFinalLine(lines[i])
  {
    if lines == [] then -1
    else if IsFinalLine(lines[0]) then 0
    else
      var k := FinalIndex(lines[1..]);
      if k == -1 then -1 else k + 1
  }

  lemma FinalAt(lines: seq<string>, k: nat)
    requires k < |lines| && IsFinalLine(lines[k])
    requires forall i :: 0 <= i < k ==> !IsFinalLine(lines[i])
    ensures FinalIndex(lines) == k
  {
  }

  /** One reply read off the control channel, and how many lines it took. */
  datatype Framed = Framed(reply: Reply, used: nat)

  /** The reply at the head of `lines`: every line up to and including the first
      final line, concatenated and trimmed; running out of lines first is a read
      error, and the lines read are gone. */
  function Frame(lines: seq<string>): (f: Framed)
    ensures f.used <= |lines|
  {
    var k := FinalIndex(lines);
    if k == -1 then Framed(Reply("", Some(Eof)), |lines|)
    else Framed(Classify(TrimSpace(Concat(lines[..k + 1]))), k + 1)
  }

  /** A reply block: continuation lines, then one final line. */
  predicate IsReplyBlock(block: seq<string>) {
    && block != []
    && IsFinalLine(block[|block| - 1])
    && forall i :: 0 <= i < |block| - 1 ==> !IsFinalLine(block[i])
  }

  /** Framing takes exactly the first reply block off a stream of reply blocks, and
      its text is the trimmed block; the error comes with a `4` or `5` reply only. */
  lemma {:induction false} FrameTakesBlock(block: seq<string>, rest: seq<string>)
    requires IsReplyBlock(block)
    ensures Frame(block + rest).used == |block|
    ensures Frame(block + rest).reply.text == TrimSpace(Concat(block))
    ensures Frame(block + rest).reply.err.Some?
        <==> IsFailureText(TrimSpace(Concat(block)))
  {
    var lines := block + rest;
    var k := |block| - 1;
    forall i | 0 <= i < |block| ensures lines[i] == block[i] { }
    FinalAt(lines, k);
    assert lines[..k + 1] == block;
    var text := TrimSpace(Concat(block));
    assert Frame(lines) == Framed(Classify(text), k + 1);
  }

  /** Without a final line the read fails with "EOF" and every line is consumed. */
  lemma FrameAtEof(lines: seq<string>)
    requires forall i :: 0 <= i < |lines| ==> !IsFinalLine(lines[i])
    ensures Frame(lines) == Framed(Reply("", Some(Eof)), |lines|)
  {
  }

  // ---------------------------------------------------------------------------
  // Passive-mode address

  /** The guard of the address decoder lets a reply through to the slice between the
      parentheses only when the slice is in bounds. */
  predicate PasvSliceable(resp: string) {
    var start, end := IndexOf(resp, '('), IndexOf(resp, ')');
    start == -1 || end == -1 || start < end
  }

  /** `parsePASV` as written: the text between the first `(` and the first `)` is
      split at commas into four host octets and two port octets, the port octets
      are trimmed and read as integers and the port is `p1*256+p2` in 64-bit
      arithmetic. */
  function ParsePasvAsWritten(resp: string): (r: Result<string>)
    requires PasvSliceable(resp)
  {
    var start, end := IndexOf(resp, '('), IndexOf(resp, ')');
    if start == -1 || end == -1 then Err("invalid PASV response: " + resp)
    else PasvAddress(Split(resp[start + 1..end], ','), resp)
  }

  /** The address named by the comma-separated parts of the group of `resp`. */
  function PasvAddress(parts: seq<string>, resp: string): (r: Result<string>)
    ensures |parts| != 6 ==> r == Err("invalid PASV response: " + resp)
    ensures r.Ok? <==> |parts| == 6 && Atoi(TrimSpace(parts[4])).ok && Atoi(TrimSpace(parts[5])).ok
    ensures r.Err? && |parts| == 6 ==> r == Err("invalid PASV port: " + resp)
  {
    if |parts| != 6 then Err("invalid PASV response: " + resp)
    else PasvEndpoint(Join(parts[..4], "."), Atoi(TrimSpace(parts[4])), Atoi(TrimSpace(parts[5])), resp)
  }

  /** `host:port` once both port octets have been read. */
  function PasvEndpoint(host: string, p1: IntParse, p2: IntParse, resp: string): Result<string> {
    if !p1.ok then Err("invalid PASV port: " + resp)
    else if !p2.ok then Err("invalid PASV port: " + resp)
    else Ok(host + ":" + Itoa(Wrap64(p1.value * 256 + p2.value)))
  }

  /** A `)` before the first `(` passes the guard, and the slice it leads to is out of
      bounds: the decoder as written cannot return for it. */
  lemma PasvReversedParentheses()
    ensures IndexOf("227 )(", '(') == 5 && IndexOf("227 )(", ')') == 4
    ensures !PasvSliceable("227 )(")
  {
    assert "227 )("[..4] == "227 ";
    assert "227 )("[..5] == "227 )";
  }

  /** The decoder used by the session: as written, with a reply whose `)` comes
      before its `(` rejected like any other malformed reply. */
  function ParsePasv(resp: string): (r: Result<string>)
    ensures !PasvSliceable(resp) ==> r == Err("invalid PASV response: " + resp)
    ensures IndexOf(resp, '(') == -1 || IndexOf(resp, ')') == -1 ==> r == Err("invalid PASV response: " + resp)
    ensures PasvSliceable(resp) ==> r == ParsePasvAsWritten(resp)
  {
    if PasvSliceable(resp) then ParsePasvAsWritten(resp) else Err("invalid PASV response: " + resp)
  }

  /** A passive-mode reply: free text, then `(h1,h2,h3,h4,p1,p2)`, then free text. */
  function PasvReply(prefix: string, parts: seq<string>, suffix: string): string {
    prefix + "(" + Join(parts, ",") + ")" + suffix
  }

  /** The parts of a group are free of the separator and of the parentheses. */
  predicate PlainParts(parts: seq<string>) {
    forall i :: 0 <= i < |parts| ==> ',' !in parts[i] && '(' !in parts[i] && ')' !in parts[i]
  }

  /** The parts of a group split back out of it. */
  lemma PasvGroupPlain(parts: seq<string>)
    requires parts != [] && PlainParts(parts)
    ensures Split(Join(parts, ","), ',') == parts
    ensures ')' !in Join(parts, ",")
  {
    SplitOfJoin(parts, ',');
    NotInJoin(parts, ",", ')');
  }

  /** Where the decoder finds the parentheses of `prefix(g)suffix`. */
  lemma PasvParentheses(resp: string, prefix: string, g: string, suffix: string)
    requires resp == prefix + "(" + g + ")" + suffix
    requires '(' !in prefix && ')' !in prefix && ')' !in g
    ensures IndexOf(resp, '(') == |prefix| && IndexOf(resp, ')') == |prefix| + 1 + |g|
    ensures resp[|prefix| + 1..|prefix| + 1 + |g|] == g
  {
    var open := prefix + "(";
    var head := open + g;
    AppendAssoc(open, g, ")");
    AppendAssoc(open, g + ")", suffix);
    IndexOfAfter(prefix, '(', g + ")" + suffix);
    assert ')' !in head;
    IndexOfAfter(head, ')', suffix);
    AppendAssoc(head, ")", suffix);
    SliceMiddle(open, g, ")" + suffix);
  }

  /** A reply whose parentheses are in order is decoded from the group between them. */
  lemma PasvOfGroup(resp: string, g: string, start: int, end: int)
    requires IndexOf(resp, '(') == start && IndexOf(resp, ')') == end && 0 <= start < end
    requires resp[start + 1..end] == g
    ensures ParsePasv(resp) == PasvAddress(Split(g, ','), resp)
  {
    assert PasvSliceable(resp);
    assert ParsePasv(resp) == ParsePasvAsWritten(resp);
  }

  /** The address read from six parts whose last two read as integers. */
  lemma PasvOfParts(parts: seq<string>, resp: string, p1: int, p2: int)
    requires |parts| == 6
    requires Atoi(TrimSpace(parts[4])) == IntParse(p1, true)
    requires Atoi(TrimSpace(parts[5])) == IntParse(p2, true)
    ensures PasvAddress(parts, resp) == Ok(Join(parts[..4], ".") + ":" + Itoa(Wrap64(p1 * 256 + p2)))
  {
    PortsRead(Join(parts[..4], "."), Atoi(TrimSpace(parts[4])), Atoi(TrimSpace(parts[5])), resp, p1, p2);
  }

  lemma PortsRead(host: string, a: IntParse, b: IntParse, resp: string, p1: int, p2: int)
    requires a == IntParse(p1, true) && b == IntParse(p2, true)
    ensures PasvEndpoint(host, a, b, resp) == Ok(host + ":" + Itoa(Wrap64(p1 * 256 + p2)))
  {
    assert a.value * 256 + b.value == p1 * 256 + p2;
  }

  /** A port octet as the server writes it reads back as itself. */
  lemma OctetReads(p: int)
    requires 0 <= p < 256
    ensures Atoi(TrimSpace(Itoa(p))) == IntParse(p, true)
  {
    ItoaIsPlain(p);
    AtoiItoa(p);
  }

  /** A well-formed reply is decoded from the parts of its group. */
  lemma PasvOfReply(prefix: string, parts: seq<string>, suffix: string)
    requires '(' !in prefix && ')' !in prefix && parts != [] && PlainParts(parts)
    ensures ParsePasv(PasvReply(prefix, parts, suffix)) == PasvAddress(parts, PasvReply(prefix, parts, suffix))
  {
    var g := Join(parts, ",");
    var resp := PasvReply(prefix, parts, suffix);
    PasvGroupPlain(parts);
    PasvParentheses(resp, prefix, g, suffix);
    PasvOfGroup(resp, g, |prefix|, |prefix| + 1 + |g|);
  }

  /** Two octets make a port well inside the 64-bit range. */
  lemma PortInRange(p1: int, p2: int)
    requires 0 <= p1 < 256 && 0 <= p2 < 256
    ensures Wrap64(p1 * 256 + p2) == p1 * 256 + p2
  {
  }

  /** Decoding the reply of a server that announces host `h1.h2.h3.h4` and port
      octets `p1`, `p2` gives `h1.h2.h3.h4:` followed by the port `p1*256+p2`. */
  lemma PasvRoundTrip(prefix: string, host: seq<string>, p1: int, p2: int, suffix: string)
    requires '(' !in prefix && ')' !in prefix
    requires |host| == 4 && PlainParts(host)
    requires 0 <= p1 < 256 && 0 <= p2 < 256
    ensures ParsePasv(PasvReply(prefix, host + [Itoa(p1), Itoa(p2)], suffix)) == Ok(Join(host, ".") + ":" + Itoa(p1 * 256 + p2))
  {
    var parts := host + [Itoa(p1), Itoa(p2)];
    var resp := PasvReply(prefix, parts, suffix);
    assert PlainParts(parts) by {
      ItoaIsPlain(p1);
      ItoaIsPlain(p2);
      assert forall i :: 0 <= i < 4 ==> parts[i] == host[i];
    }
    PasvOfReply(prefix, parts, suffix);
    PasvOfOctets(host, p1, p2, resp);
  }

  /** The address named by four host parts and two port octets. */
  lemma PasvOfOctets(host: seq<string>, p1: int, p2: int, resp: string)
    requires |host| == 4 && 0 <= p1 < 256 && 0 <= p2 < 256
    ensures PasvAddress(host + [Itoa(p1), Itoa(p2)], resp) == Ok(Join(host, ".") + ":" + Itoa(p1 * 256 + p2))
  {
    var parts := host + [Itoa(p1), Itoa(p2)];
    OctetReads(p1);
    OctetReads(p2);
    TakeOfAppend(host, [Itoa(p1), Itoa(p2)]);
    PasvOfParts(parts, resp, p1, p2);
    PortInRange(p1, p2);
  }

  // ---------------------------------------------------------------------------
  // Job listings

  /** The column header of a job listing. */
  predicate IsJobHeader(line: string) {
    Contains(line, "JOBNAME") && Contains(line, "JOBID")
  }

  /** The job a listing line names, if it names one. */
  function JobOfLine(line: string): Option<JobStatus> {
    if IsJobHeader(line) then None
    else
      var t := TrimSpace(line);
      if t == "" then None
      else
        var job := JobLine(t);
        if job.jobId != "" then Some(job) else None
  }

  /** The jobs of a listing, in order: headers, blank lines and lines without a job
      identifier yield nothing. */
  function JobLines(lines: seq<string>): (jobs: seq<JobStatus>)
    ensures |jobs| <= |lines|
    ensures forall i :: 0 <= i < |jobs| ==> jobs[i].jobId != ""
  {
    if lines == [] then []
    else
      match JobOfLine(lines[0])
        case None => JobLines(lines[1..])
        case Some(j) => [j] + JobLines(lines[1..])
  }

  /** `parseJobLines` */
  method ParseJobLines(lines: seq<string>) returns (jobs: seq<JobStatus>)
    ensures jobs == JobLines(lines)
  {
    jobs := [];
    var i := 0;
    while i < |lines|
      invariant 0 <= i <= |lines|
      invariant jobs + JobLines(lines[i..]) == JobLines(lines)
    {
      assert lines[i..][1..] == lines[i + 1..];
      var line := lines[i];
      i := i + 1;
      if IsJobHeader(line) {
        continue;
      }
      var t := TrimSpace(line);
      if t == "" {
        continue;
      }
      var job := ParseJobLine(t);
      if job.jobId != "" {
        jobs := jobs + [job];
      }
    }
    assert jobs + [] == jobs;
  }

  /** Listings concatenate: each line contributes on its own, in order. */
  lemma {:induction false} JobLinesAppend(a: seq<string>, b: seq<string>)
    ensures JobLines(a + b) == JobLines(a) + JobLines(b)
  {
    if a == [] {
      assert a + b == b;
    } else {
      assert (a + b)[0] == a[0];
      assert (a + b)[1..] == a[1..] + b;
      JobLinesAppend(a[1..], b);
    }
  }

  /** The listing lines the host writes for `jobs`, one per job. */
  function JobTable(jobs: seq<JobStatus>): (lines: seq<string>)
    ensures |lines| == |jobs|
  {
    if jobs == [] then [] else [FormatJobLine(jobs[0])] + JobTable(jobs[1..])
  }

  lemma FormattedJobLine(j: JobStatus)
    requires ListedJob(j) && !IsJobHeader(FormatJobLine(j))
    ensures JobOfLine(FormatJobLine(j)) == Some(j)
  {
    var (code, abend) := RetCodeParts(j.retCode);
    var toks := JobRowTokens(j.jobName, j.jobId, j.owner, j.status, j.jobClass, code, abend);
    JobLineOfFormat(j);
    assert forall i :: 0 <= i < |toks| ==> IsToken(toks[i]) by {
      JobLineTokens(j);
    }
    JoinEdges(toks, " ");
    assert toks[|toks| - 1] != [];
  }

  lemma JobLineTokens(j: JobStatus)
    requires ListedJob(j)
    ensures var (code, abend) := RetCodeParts(j.retCode);
      forall i :: 0 <= i < |JobRowTokens(j.jobName, j.jobId, j.owner, j.status, j.jobClass, code, abend)| ==>
        IsToken(JobRowTokens(j.jobName, j.jobId, j.owner, j.status, j.jobClass, code, abend)[i])
  {
    var (code, abend) := RetCodeParts(j.retCode);
    if code != "" {
      assert IsToken(code) by {
        if HasPrefix(j.retCode, "ABEND ") {
          assert !HasPrefix(j.retCode, "CC ") by { assert j.retCode[0] == 'A'; }
        }
      }
      RetCodeTokenReads(code, abend);
    }
  }

  /** Reading back the listing the host writes for some jobs, with one header line in
      front, gives those jobs in order. */
  lemma {:induction false} JobTableRoundTrip(header: string, jobs: seq<JobStatus>)
    requires IsJobHeader(header)
    requires forall i :: 0 <= i < |jobs| ==> ListedJob(jobs[i]) && !IsJobHeader(FormatJobLine(jobs[i]))
    ensures JobLines([header] + JobTable(jobs)) == jobs
  {
    assert ([header] + JobTable(jobs))[1..] == JobTable(jobs);
    JobTableRows(jobs);
  }

  lemma {:induction false} JobTableRows(jobs: seq<JobStatus>)
    requires forall i :: 0 <= i < |jobs| ==> ListedJob(jobs[i]) && !IsJobHeader(FormatJobLine(jobs[i]))
    ensures JobLines(JobTable(jobs)) == jobs
  {
    if jobs != [] {
      var lines := JobTable(jobs);
      assert lines[0] == FormatJobLine(jobs[0]) && lines[1..] == JobTable(jobs[1..]);
      FormattedJobLine(jobs[0]);
      assert forall i :: 0 <= i < |jobs[1..]| ==> jobs[1..][i] == jobs[i + 1];
      JobTableRows(jobs[1..]);
      assert JobLines(lines) == [jobs[0]] + JobLines(lines[1..]);
      HeadTail(jobs);
    }
  }

  // ---------------------------------------------------------------------------
  // One session over the control channel

  /** The control connection: the reply lines the server has yet to deliver, and
      every line written to it so far. */
  datatype Wire = Wire(pending: seq<string>, sent: seq<string>)

  /** A reply, an error or a result of some type, each with the state of the
      connection after the exchange that produced it. */
  datatype Exchange = Exchange(reply: Reply, wire: Wire)
  datatype Outcome = Outcome(err: Failure, wire: Wire)
  datatype Fetch<T> = Fetch(out: Result<T>, wire: Wire)

  /** A command as written on the connection: its text and a CRLF. */
  function Line(cmd: string): string {
    cmd + "\r\n"
  }

  /** `send`: the command line is written; writes do not fail. */
  function Send(w: Wire, cmd: string): Wire {
    Wire(w.pending, w.sent + [Line(cmd)])
  }

  /** `readResponse`: one reply framed off the pending lines. */
  function Read(w: Wire): Exchange {
    var f := Frame(w.pending);
    Exchange(f.reply, Wire(w.pending[f.used..], w.sent))
  }

  /** A read that meets a final line after `k` continuation lines takes those
      lines and no more. */
  lemma ReadStopsAt(w: Wire, k: nat)
    requires k < |w.pending| && IsFinalLine(w.pending[k])
    requires forall i :: 0 <= i < k ==> !IsFinalLine(w.pending[i])
    ensures Read(w) == Exchange(Classify(TrimSpace(Concat(w.pending[..k + 1]))), Wire(w.pending[k + 1..], w.sent))
  {
    FinalAt(w.pending, k);
    assert Frame(w.pending) == Framed(Classify(TrimSpace(Concat(w.pending[..k + 1]))), k + 1);
  }

  /** A read that runs out of lines fails with EOF and leaves nothing pending. */
  lemma ReadAtEof(w: Wire)
    requires forall i :: 0 <= i < |w.pending| ==> !IsFinalLine(w.pending[i])
    ensures Read(w) == Exchange(Reply("", Some(Eof)), Wire([], w.sent))
  {
    FrameAtEof(w.pending);
    assert w.pending[|w.pending|..] == [];
  }

  /** `cmdResp`: a command and the reply to it. */
  function CmdResp(w: Wire, cmd: string): Exchange {
    Read(Send(w, cmd))
  }

  /** The lines written for some commands, in order. */
  function CommandLines(cmds: seq<string>): (r: seq<string>)
    ensures |r| == |cmds|
    ensures forall i :: 0 <= i < |cmds| ==> r[i] == Line(cmds[i])
  {
    if cmds == [] then [] else [Line(cmds[0])] + CommandLines(cmds[1..])
  }

  /** A run of `cmd` calls, each one only when the one before got no error. */
  function Commands(w: Wire, cmds: seq<string>): Outcome
    decreases |cmds|
  {
    if cmds == [] then Outcome(None, w)
    else
      var x := CmdResp(w, cmds[0]);
      if x.reply.err.Some? then Outcome(x.reply.err, x.wire)
      else Commands(x.wire, cmds[1..])
  }

  function LoginCommands(user: string, password: string): seq<string> {
    ["USER " + user, "PASS " + password, "SITE FILETYPE=JES"]
  }

  /** A run of commands is its first command, then the rest unless that failed. */
  lemma CommandsNext(w: Wire, cmds: seq<string>)
    requires cmds != []
    ensures var x := CmdResp(w, cmds[0]);
      Commands(w, cmds) == if x.reply.err.Some? then Outcome(x.reply.err, x.wire) else Commands(x.wire, cmds[1..])
  {
  }

  /** The login commands one by one. */
  lemma LoginCommandsShape(user: string, password: string)
    ensures var cmds := LoginCommands(user, password);
      && cmds[0] == "USER " + user
      && cmds[1..][0] == "PASS " + password
      && cmds[1..][1..][0] == "SITE FILETYPE=JES"
      && cmds[1..][1..][1..] == []
  {
  }

  /** `newJESClient` once the connection is open: the welcome, then the login and
      the switch to the job interface. */
  function Login(w: Wire, user: string, password: string): Outcome {
    var welcome := Read(w);
    if welcome.reply.err.Some? then Outcome(welcome.reply.err, welcome.wire)
    else Commands(welcome.wire, LoginCommands(user, password))
  }

  function OwnerCommands(owner: string): seq<string> {
    ["SITE JESOWNER=" + owner, "SITE JESJOBNAME=*"]
  }

  /** The owner commands one by one. */
  lemma OwnerCommandsShape(owner: string)
    ensures var cmds := OwnerCommands(owner);
      && cmds[0] == "SITE JESOWNER=" + owner
      && cmds[1..][0] == "SITE JESJOBNAME=*"
      && cmds[1..][1..] == []
  {
  }

  /** `setOwner`: the owner filter, then every job name. */
  function SetOwner(w: Wire, owner: string): Outcome {
    Commands(w, OwnerCommands(owner))
  }

  /** What the data connection delivers: the lines a line scanner yields, and the
      error it stops with. */
  datatype Transfer = Transfer(lines: seq<string>, err: Failure)

  /** The preliminary replies that announce a transfer. */
  predicate Accepted(text: string) {
    HasPrefix(text, "125") || HasPrefix(text, "150")
  }

  /** The data command as written: `cmd arg`, or `cmd` alone without an argument. */
  function DataCommand(cmd: string, arg: string): string {
    if arg != "" then cmd + " " + arg else cmd
  }

  /** `retrData`: passive mode, the data connection (`dial` opens it for an address,
      or fails), the data command, the data lines, the closing reply. */
  function RetrData(w: Wire, cmd: string, arg: string, dial: string -> Result<Transfer>): Fetch<seq<string>> {
    var pasv := CmdResp(w, "PASV");
    if pasv.reply.err.Some? then Fetch(Err(pasv.reply.err.value), pasv.wire)
    else
      match ParsePasv(pasv.reply.text)
      case Err(e) => Fetch(Err(e), pasv.wire)
      case Ok(addr) =>
        match dial(addr)
        case Err(e) => Fetch(Err("failed to connect data channel: " + e), pasv.wire)
        case Ok(data) => Transferred(pasv.wire, cmd, arg, data)
  }

  /** `retrData` once the data connection is open. */
  function Transferred(w: Wire, cmd: string, arg: string, data: Transfer): Fetch<seq<string>> {
    var start := CmdResp(w, DataCommand(cmd, arg));
    if start.reply.err.Some? then Fetch(Err(start.reply.err.value), start.wire)
    else if !Accepted(start.reply.text) then Fetch(Err(cmd + " failed: " + start.reply.text), start.wire)
    else if data.err.Some? then Fetch(Err("failed to read data: " + data.err.value), start.wire)
    else
      var end := Read(start.wire);
      if end.reply.err.Some? && data.lines == [] then
        Fetch(Err("no output available: " + end.reply.text), end.wire)
      else Fetch(Ok(data.lines), end.wire)
  }

  /** `listJobs` */
  function ListJobs(w: Wire, dial: string -> Result<Transfer>): Fetch<seq<JobStatus>> {
    var f := RetrData(w, "LIST", "", dial);
    match f.out
    case Err(e) => Fetch(Err(e), f.wire)
    case Ok(lines) => Fetch(Ok(JobLines(lines)), f.wire)
  }

  /** `getJobOutput`: ASCII mode, then the spool lines joined by newlines. */
  function GetJobOutput(w: Wire, jobId: string, dial: string -> Result<Transfer>): Fetch<string> {
    var t := CmdResp(w, "TYPE A");
    if t.reply.err.Some? then Fetch(Err("failed to set ASCII mode: " + t.reply.err.value), t.wire)
    else
      var f := RetrData(t.wire, "RETR", jobId, dial);
      match f.out
      case Err(e) => Fetch(Err(e), f.wire)
      case Ok(lines) => Fetch(Ok(Join(lines, "\n")), f.wire)
  }

  /** `close`: QUIT is written and no reply is read. */
  function Close(w: Wire): Wire {
    Send(w, "QUIT")
  }

  // ---------------------------------------------------------------------------
  // What a session sends, given the replies the server gives

  /** The trimmed text of a reply block. */
  function BlockText(block: seq<string>): string {
    TrimSpace(Concat(block))
  }

  /** A reply that the client takes as success. */
  predicate Succeeds(block: seq<string>) {
    IsReplyBlock(block) && !IsFailureText(BlockText(block))
  }

  /** A reply that the client takes as an error. */
  predicate Fails(block: seq<string>) {
    IsReplyBlock(block) && IsFailureText(BlockText(block))
  }

  /** The lines of some reply blocks, one block after the other. */
  function Flatten(blocks: seq<seq<string>>): seq<string> {
    if blocks == [] then [] else blocks[0] + Flatten(blocks[1..])
  }

  lemma FlattenBefore(blocks: seq<seq<string>>, failed: seq<string>, rest: seq<string>)
    requires blocks != []
    ensures Flatten(blocks) + failed + rest == blocks[0] + (Flatten(blocks[1..]) + failed + rest)
  {
    AppendAssoc(blocks[0], Flatten(blocks[1..]), failed);
    AppendAssoc(blocks[0] + Flatten(blocks[1..]), failed, rest);
    AppendAssoc(blocks[0], Flatten(blocks[1..]) + failed, rest);
  }

  /** The lines of the first `k` commands: the first one, then `k - 1` of the others. */
  lemma SentBefore(sent: seq<string>, cmds: seq<string>, k: nat)
    requires 1 <= k <= |cmds|
    ensures sent + [Line(cmds[0])] + CommandLines(cmds[1..][..k - 1]) == sent + CommandLines(cmds[..k])
  {
    TakeOfDrop(cmds, k);
    CommandLinesCons(cmds[..k]);
    AppendAssoc(sent, [Line(cmds[0])], CommandLines(cmds[..k][1..]));
  }

  /** Reading a reply takes exactly its block off the connection. */
  lemma ReadBlock(w: Wire, block: seq<string>, rest: seq<string>)
    requires IsReplyBlock(block) && w.pending == block + rest
    ensures Read(w) == Exchange(Classify(BlockText(block)), Wire(rest, w.sent))
  {
    FrameTakesBlock(block, rest);
    assert w.pending[|block|..] == rest;
  }

  /** A command answered by a successful reply. */
  lemma CommandAnswered(w: Wire, cmd: string, block: seq<string>, rest: seq<string>)
    requires IsReplyBlock(block) && w.pending == block + rest
    ensures CmdResp(w, cmd) == Exchange(Classify(BlockText(block)), Wire(rest, w.sent + [Line(cmd)]))
  {
    ReadBlock(Send(w, cmd), block, rest);
  }

  /** The first command of a run, and the run of the others after it. */
  lemma CommandsFirst(w: Wire, cmds: seq<string>, block: seq<string>, rest: seq<string>)
    requires cmds != [] && Succeeds(block) && w.pending == block + rest
    ensures Commands(w, cmds) == Commands(Wire(rest, w.sent + [Line(cmds[0])]), cmds[1..])
  {
    CommandAnswered(w, cmds[0], block, rest);
  }

  /** The first command of a run answered by a failing reply. */
  lemma CommandRefused(w: Wire, cmds: seq<string>, block: seq<string>, rest: seq<string>)
    requires cmds != [] && Fails(block) && w.pending == block + rest
    ensures Commands(w, cmds) == Outcome(Some(FtpError(BlockText(block))), Wire(rest, w.sent + [Line(cmds[0])]))
  {
    CommandAnswered(w, cmds[0], block, rest);
  }

  lemma CommandLinesCons(cmds: seq<string>)
    requires cmds != []
    ensures CommandLines(cmds) == [Line(cmds[0])] + CommandLines(cmds[1..])
  {
  }

  /** Every one of the replies succeeds. */
  predicate AllSucceed(blocks: seq<seq<string>>) {
    blocks == [] || (Succeeds(blocks[0]) && AllSucceed(blocks[1..]))
  }

  /** When every reply succeeds, every command is written, in order, and each
      reply is consumed. */
  lemma {:induction false} CommandsAccepted(w: Wire, cmds: seq<string>, blocks: seq<seq<string>>, rest: seq<string>)
    requires |blocks| == |cmds| && AllSucceed(blocks)
    requires w.pending == Flatten(blocks) + rest
    ensures Commands(w, cmds) == Outcome(None, Wire(rest, w.sent + CommandLines(cmds)))
    decreases |cmds|
  {
    if cmds == [] {
      assert w.sent + CommandLines(cmds) == w.sent;
    } else {
      var tail := Flatten(blocks[1..]) + rest;
      AppendAssoc(blocks[0], Flatten(blocks[1..]), rest);
      var sent := w.sent + [Line(cmds[0])];
      CommandsFirst(w, cmds, blocks[0], tail);
      CommandsAccepted(Wire(tail, sent), cmds[1..], blocks[1..], rest);
      CommandLinesCons(cmds);
      AppendAssoc(w.sent, [Line(cmds[0])], CommandLines(cmds[1..]));
    }
  }

  /** A failing reply ends the run: its error is returned and no later command is
      written. */
  lemma {:induction false} CommandsStop(w: Wire, cmds: seq<string>, blocks: seq<seq<string>>, failed: seq<string>, rest: seq<string>)
    requires |blocks| < |cmds| && AllSucceed(blocks) && Fails(failed)
    requires w.pending == Flatten(blocks) + failed + rest
    ensures Commands(w, cmds)
         == Outcome(Some(FtpError(BlockText(failed))), Wire(rest, w.sent + CommandLines(cmds[..|blocks| + 1])))
    decreases |cmds|
  {
    if blocks == [] {
      assert [] + failed == failed;
      CommandRefused(w, cmds, failed, rest);
      CommandLinesCons(cmds[..1]);
      assert cmds[..1][1..] == [];
      assert CommandLines(cmds[..1]) == [Line(cmds[0])];
    } else {
      var tail := Flatten(blocks[1..]) + failed + rest;
      FlattenBefore(blocks, failed, rest);
      var sent := w.sent + [Line(cmds[0])];
      CommandsFirst(w, cmds, blocks[0], tail);
      CommandsStop(Wire(tail, sent), cmds[1..], blocks[1..], failed, rest);
      var k := |blocks| + 1;
      SentBefore(w.sent, cmds, k);
    }
  }

  /** The session opens in the documented order: after a welcome and three
      successful replies, USER, PASS and SITE FILETYPE=JES have been written. */
  lemma LoginAccepted(w: Wire, user: string, password: string, welcome: seq<string>, blocks: seq<seq<string>>, rest: seq<string>)
    requires Succeeds(welcome) && |blocks| == 3 && AllSucceed(blocks)
    requires w.pending == welcome + (Flatten(blocks) + rest)
    ensures Login(w, user, password)
         == Outcome(None, Wire(rest, w.sent + [Line("USER " + user), Line("PASS " + password), Line("SITE FILETYPE=JES")]))
  {
    ReadBlock(w, welcome, Flatten(blocks) + rest);
    var cmds := LoginCommands(user, password);
    CommandsAccepted(Wire(Flatten(blocks) + rest, w.sent), cmds, blocks, rest);
    LoginLines(user, password);
  }

  lemma LoginLines(user: string, password: string)
    ensures CommandLines(LoginCommands(user, password))
         == [Line("USER " + user), Line("PASS " + password), Line("SITE FILETYPE=JES")]
  {
    var cmds := LoginCommands(user, password);
    assert cmds[1..] == ["PASS " + password, "SITE FILETYPE=JES"];
    PairLines("PASS " + password, "SITE FILETYPE=JES");
    CommandLinesCons(cmds);
    assert [Line("USER " + user)] + [Line("PASS " + password), Line("SITE FILETYPE=JES")]
        == [Line("USER " + user), Line("PASS " + password), Line("SITE FILETYPE=JES")];
  }

  /** The lines of two commands. */
  lemma PairLines(a: string, b: string)
    ensures CommandLines([a, b]) == [Line(a), Line(b)]
  {
    assert [a, b][1..] == [b];
    assert [b][1..] == [];
    CommandLinesCons([b]);
    CommandLinesCons([a, b]);
    assert [Line(a)] + [Line(b)] == [Line(a), Line(b)];
  }

  /** A failing welcome ends the session before any command is written. */
  lemma LoginRefused(w: Wire, user: string, password: string, welcome: seq<string>, rest: seq<string>)
    requires Fails(welcome) && w.pending == welcome + rest
    ensures Login(w, user, password) == Outcome(Some(FtpError(BlockText(welcome))), Wire(rest, w.sent))
  {
    ReadBlock(w, welcome, rest);
  }

  /** A failing reply during the login stops it: only the commands up to the one
      refused have been written. */
  lemma LoginStops(w: Wire, user: string, password: string, welcome: seq<string>, blocks: seq<seq<string>>, failed: seq<string>, rest: seq<string>)
    requires Succeeds(welcome) && |blocks| < 3 && AllSucceed(blocks) && Fails(failed)
    requires w.pending == welcome + (Flatten(blocks) + failed + rest)
    ensures Login(w, user, password)
         == Outcome(Some(FtpError(BlockText(failed))),
                    Wire(rest, w.sent + CommandLines(LoginCommands(user, password)[..|blocks| + 1])))
  {
    ReadBlock(w, welcome, Flatten(blocks) + failed + rest);
    CommandsStop(Wire(Flatten(blocks) + failed + rest, w.sent), LoginCommands(user, password), blocks, failed, rest);
  }

  /** The owner filter is set before the job-name filter, and the second is written
      only when the first is accepted. */
  lemma SetOwnerAccepted(w: Wire, owner: string, blocks: seq<seq<string>>, rest: seq<string>)
    requires |blocks| == 2 && AllSucceed(blocks) && w.pending == Flatten(blocks) + rest
    ensures SetOwner(w, owner)
         == Outcome(None, Wire(rest, w.sent + [Line("SITE JESOWNER=" + owner), Line("SITE JESJOBNAME=*")]))
  {
    CommandsAccepted(w, OwnerCommands(owner), blocks, rest);
    PairLines("SITE JESOWNER=" + owner, "SITE JESJOBNAME=*");
  }

  lemma SetOwnerRefused(w: Wire, owner: string, failed: seq<string>, rest: seq<string>)
    requires Fails(failed) && w.pending == failed + rest
    ensures SetOwner(w, owner)
         == Outcome(Some(FtpError(BlockText(failed))), Wire(rest, w.sent + [Line("SITE JESOWNER=" + owner)]))
  {
    CommandRefused(w, OwnerCommands(owner), failed, rest);
  }

  /** A preliminary reply is not an error reply. */
  lemma AcceptedIsNoFailure(text: string)
    requires Accepted(text)
    ensures !IsFailureText(text)
  {
    assert text[0] == '1';
  }

  /** Until the data connection is open nothing but PASV is written: a failing
      passive-mode reply, one that does not decode, and a data connection that does
      not open each end the transfer with their own error. */
  lemma RetrDataNoConnection(w: Wire, cmd: string, arg: string, dial: string -> Result<Transfer>, pasv: seq<string>, rest: seq<string>)
    requires IsReplyBlock(pasv) && w.pending == pasv + rest
    ensures var r, text, w' := RetrData(w, cmd, arg, dial), BlockText(pasv), Wire(rest, w.sent + [Line("PASV")]);
      && (IsFailureText(text) ==> r == Fetch(Err(FtpError(text)), w'))
      && (!IsFailureText(text) && ParsePasv(text).Err? ==> r == Fetch(Err(ParsePasv(text).error), w'))
      && (!IsFailureText(text) && ParsePasv(text).Ok? && dial(ParsePasv(text).value).Err? ==>
            r == Fetch(Err("failed to connect data channel: " + dial(ParsePasv(text).value).error), w'))
  {
    CommandAnswered(w, "PASV", pasv, rest);
  }

  /** Once the data connection is open the data command is written, as `cmd arg` or
      as `cmd` alone; a preliminary 125 or 150 reply opens the transfer, and the
      lines come back after the closing reply is read, even when that reply is an
      error: only an error with no lines at all is "no output available". */
  lemma RetrDataDelivers(w: Wire, cmd: string, arg: string, dial: string -> Result<Transfer>, pasv: seq<string>, addr: string,
                         data: Transfer, start: seq<string>, end: seq<string>, rest: seq<string>)
    requires Succeeds(pasv) && ParsePasv(BlockText(pasv)) == Ok(addr) && dial(addr) == Ok(data) && data.err == None
    requires IsReplyBlock(start) && Accepted(BlockText(start)) && IsReplyBlock(end)
    requires w.pending == pasv + (start + (end + rest))
    ensures RetrData(w, cmd, arg, dial)
         == Fetch(if Fails(end) && data.lines == [] then Err("no output available: " + BlockText(end)) else Ok(data.lines),
                  Wire(rest, w.sent + [Line("PASV"), Line(DataCommand(cmd, arg))]))
  {
    var w1 := Wire(start + (end + rest), w.sent + [Line("PASV")]);
    CommandAnswered(w, "PASV", pasv, start + (end + rest));
    assert RetrData(w, cmd, arg, dial) == Transferred(w1, cmd, arg, data);
    AcceptedIsNoFailure(BlockText(start));
    var w2 := Wire(end + rest, w1.sent + [Line(DataCommand(cmd, arg))]);
    CommandAnswered(w1, DataCommand(cmd, arg), start, end + rest);
    ReadBlock(w2, end, rest);
    AppendPair(w.sent, Line("PASV"), Line(DataCommand(cmd, arg)));
    assert Transferred(w1, cmd, arg, data)
        == Fetch(if Fails(end) && data.lines == [] then Err("no output available: " + BlockText(end)) else Ok(data.lines),
                 Wire(rest, w2.sent));
  }

  /** Any other reply to the data command ends the transfer with `<cmd> failed:`
      and the reply; a scanner error on the data connection ends it with "failed to
      read data"; in both cases the closing reply is left unread. */
  lemma RetrDataRefused(w: Wire, cmd: string, arg: string, dial: string -> Result<Transfer>, pasv: seq<string>, addr: string,
                        data: Transfer, start: seq<string>, rest: seq<string>)
    requires Succeeds(pasv) && ParsePasv(BlockText(pasv)) == Ok(addr) && dial(addr) == Ok(data)
    requires Succeeds(start) && w.pending == pasv + (start + rest)
    ensures var w' := Wire(rest, w.sent + [Line("PASV"), Line(DataCommand(cmd, arg))]);
      && (!Accepted(BlockText(start)) ==> RetrData(w, cmd, arg, dial) == Fetch(Err(cmd + " failed: " + BlockText(start)), w'))
      && (Accepted(BlockText(start)) && data.err.Some? ==>
            RetrData(w, cmd, arg, dial) == Fetch(Err("failed to read data: " + data.err.value), w'))
  {
    var w1 := Wire(start + rest, w.sent + [Line("PASV")]);
    CommandAnswered(w, "PASV", pasv, start + rest);
    assert RetrData(w, cmd, arg, dial) == Transferred(w1, cmd, arg, data);
    CommandAnswered(w1, DataCommand(cmd, arg), start, rest);
    AppendPair(w.sent, Line("PASV"), Line(DataCommand(cmd, arg)));
  }

  /** The job listing of a session reads back the jobs the host lists. */
  lemma ListJobsRoundTrip(w: Wire, dial: string -> Result<Transfer>, pasv: seq<string>, addr: string, header: string,
                          jobs: seq<JobStatus>, start: seq<string>, end: seq<string>, rest: seq<string>)
    requires Succeeds(pasv) && ParsePasv(BlockText(pasv)) == Ok(addr)
    requires dial(addr) == Ok(Transfer([header] + JobTable(jobs), None))
    requires IsReplyBlock(start) && Accepted(BlockText(start)) && IsReplyBlock(end)
    requires w.pending == pasv + (start + (end + rest))
    requires IsJobHeader(header)
    requires forall i :: 0 <= i < |jobs| ==> ListedJob(jobs[i]) && !IsJobHeader(FormatJobLine(jobs[i]))
    ensures ListJobs(w, dial) == Fetch(Ok(jobs), Wire(rest, w.sent + [Line("PASV"), Line("LIST")]))
  {
    RetrDataDelivers(w, "LIST", "", dial, pasv, addr, Transfer([header] + JobTable(jobs), None), start, end, rest);
    JobTableRoundTrip(header, jobs);
  }

  /** The spool is read in ASCII mode; a refused TYPE A ends the request before
      passive mode is entered. */
  lemma GetJobOutputRefused(w: Wire, jobId: string, dial: string -> Result<Transfer>, failed: seq<string>, rest: seq<string>)
    requires Fails(failed) && w.pending == failed + rest
    ensures GetJobOutput(w, jobId, dial)
         == Fetch(Err("failed to set ASCII mode: " + FtpError(BlockText(failed))), Wire(rest, w.sent + [Line("TYPE A")]))
  {
    CommandAnswered(w, "TYPE A", failed, rest);
  }

  /** The output of a job is the spool lines the data connection delivers, joined
      by newlines, after `TYPE A`, `PASV` and `RETR <jobId>` are written. */
  lemma GetJobOutputJoins(w: Wire, jobId: string, dial: string -> Result<Transfer>, typeA: seq<string>,
                          pasv: seq<string>, addr: string, lines: seq<string>,
                          start: seq<string>, end: seq<string>, rest: seq<string>)
    requires Succeeds(typeA) && Succeeds(pasv) && ParsePasv(BlockText(pasv)) == Ok(addr)
    requires dial(addr) == Ok(Transfer(lines, None))
    requires IsReplyBlock(start) && Accepted(BlockText(start)) && IsReplyBlock(end)
    requires lines != [] || !Fails(end)
    requires w.pending == typeA + (pasv + (start + (end + rest)))
    ensures GetJobOutput(w, jobId, dial)
         == Fetch(Ok(Join(lines, "\n")), Wire(rest, w.sent + [Line("TYPE A"), Line("PASV"), Line(DataCommand("RETR", jobId))]))
  {
    var w1 := Wire(pasv + (start + (end + rest)), w.sent + [Line("TYPE A")]);
    CommandAnswered(w, "TYPE A", typeA, pasv + (start + (end + rest)));
    RetrDataDelivers(w1, "RETR", jobId, dial, pasv, addr, Transfer(lines, None), start, end, rest);
    AppendThenPair(w.sent, Line("TYPE A"), Line("PASV"), Line(DataCommand("RETR", jobId)));
  }
}
