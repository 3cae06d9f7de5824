/** The client of the job interface (`jesClient`): one control connection, read
    through a buffered reader and written one command line at a time.  Every
    method is proved to do what the functional description of the session in
    `JesProtocol` says, so the properties proved there hold of the client. */
module JesSession {
  import opened Wrappers
  import opened GoStrings
  import opened Records
  import opened JesProtocol

  class JesClient {
    /** The reply lines the server has yet to deliver on the control connection. */
    var pending: seq<string>
    /** Every line written to the control connection so far. */
    var sent: seq<string>
    /** Whether the control connection has been closed. */
    var closed: bool

    /** The connection as the functional description sees it. */
    function State(): Wire
      reads this
    {
      Wire(pending, sent)
    }

    constructor (lines: seq<string>)
      ensures pending == lines && sent == [] && !closed
    {
      pending := lines;
      sent := [];
      closed := false;
    }

    /** `readResponse`: lines are read until a final line, and the reply is their
        trimmed concatenation, with an error when it is a failure reply. */
    method ReadResponse() returns (text: string, err: Failure)
      modifies this
      ensures Exchange(Reply(text, err), State()) == Read(old(State()))
      ensures closed == old(closed)
    {
      ghost var w := State();
      var resp := "";
      ghost var i := 0;
      while true
        invariant 0 <= i <= |w.pending| && pending == w.pending[i..]
        invariant sent == w.sent && closed == old(closed)
        invariant resp == Concat(w.pending[..i])
        invariant forall j :: 0 <= j < i ==> !IsFinalLine(w.pending[j])
        decreases |pending|
      {
        if pending == [] {
          ReadAtEof(w);
          return "", Some(Eof);
        }
        var line := pending[0];
        pending := pending[1..];
        ConcatSnoc(w.pending, i);
        resp := resp + line;
        i := i + 1;
        if |line| >= 4 && line[3] == ' ' {
          ReadStopsAt(w, i - 1);
          break;
        }
      }
      text := TrimSpace(resp);
      if |text| > 0 && (text[0] == '4' || text[0] == '5') {
        err := Some(FtpError(text));
      } else {
        err := None;
      }
    }

    /** `send`: the command and a CRLF are written. */
    method Send(cmd: string)
      modifies this
      ensures State() == JesProtocol.Send(old(State()), cmd)
      ensures closed == old(closed)
    {
      sent := sent + [cmd + "\r\n"];
    }

    /** `cmdResp` */
    method CmdResp(cmd: string) returns (text: string, err: Failure)
      modifies this
      ensures Exchange(Reply(text, err), State()) == JesProtocol.CmdResp(old(State()), cmd)
      ensures closed == old(closed)
    {
      Send(cmd);
      text, err := ReadResponse();
    }

    /** `cmd`: the reply is dropped, its error kept. */
    method Cmd(cmd: string) returns (err: Failure)
      modifies this
      ensures var x := JesProtocol.CmdResp(old(State()), cmd); err == x.reply.err && State() == x.wire
      ensures closed == old(closed)
    {
      var text;
      text, err := CmdResp(cmd);
    }

    /** The login of `newJESClient`: the welcome, then USER, PASS and the switch
        to the job interface, stopping at the first failure. */
    method Login(user: string, password: string) returns (err: Failure)
      modifies this
      ensures Outcome(err, State()) == JesProtocol.Login(old(State()), user, password)
      ensures closed == old(closed)
    {
      ghost var w0 := State();
      var welcome;
      welcome, err := ReadResponse();
      if err.Some? {
        return;
      }
      ghost var cmds := LoginCommands(user, password);
      LoginCommandsShape(user, password);
      CommandsNext(State(), cmds);
      err := Cmd("USER " + user);
      if err.Some? {
        return;
      }
      CommandsNext(State(), cmds[1..]);
      err := Cmd("PASS " + password);
      if err.Some? {
        return;
      }
      CommandsNext(State(), cmds[1..][1..]);
      err := Cmd("SITE FILETYPE=JES");
    }

    /** `setOwner` */
    method SetOwner(owner: string) returns (err: Failure)
      modifies this
      ensures Outcome(err, State()) == JesProtocol.SetOwner(old(State()), owner)
      ensures closed == old(closed)
    {
      ghost var cmds := OwnerCommands(owner);
      OwnerCommandsShape(owner);
      CommandsNext(State(), cmds);
      err := Cmd("SITE JESOWNER=" + owner);
      if err.Some? {
        return;
      }
      CommandsNext(State(), cmds[1..]);
      err := Cmd("SITE JESJOBNAME=*");
    }

    /** `retrData`: `dial` opens the data connection at the address the server
        announces, or fails. */
    method RetrData(cmd: string, arg: string, dial: string -> Result<Transfer>) returns (r: Result<seq<string>>)
      modifies this
      ensures Fetch(r, State()) == JesProtocol.RetrData(old(State()), cmd, arg, dial)
      ensures closed == old(closed)
    {
      var pasvResp, pasvErr := CmdResp("PASV");
      if pasvErr.Some? {
        return Err(pasvErr.value);
      }
      var dataAddr := ParsePasv(pasvResp);
      if dataAddr.Err? {
        return Err(dataAddr.error);
      }
      var dataConn := dial(dataAddr.value);
      if dataConn.Err? {
        return Err("failed to connect data channel: " + dataConn.error);
      }
      r := Receive(cmd, arg, dataConn.value);
    }

    /** The rest of `retrData`, once the data connection is open: the transfer
        command, its preliminary reply, the data lines, and the closing reply. */
    method Receive(cmd: string, arg: string, data: Transfer) returns (r: Result<seq<string>>)
      modifies this
      ensures Fetch(r, State()) == Transferred(old(State()), cmd, arg, data)
      ensures closed == old(closed)
    {
      if arg != "" {
        Send(cmd + " " + arg);
      } else {
        Send(cmd);
      }
      var resp, err := ReadResponse();
      if err.Some? {
        return Err(err.value);
      }
      if !HasPrefix(resp, "125") && !HasPrefix(resp, "150") {
        return Err(cmd + " failed: " + resp);
      }

      var lines := ScanLines(data.lines);
      if data.err.Some? {
        return Err("failed to read data: " + data.err.value);
      }

      var endResp, endErr := ReadResponse();
      if endErr.Some? && |lines| == 0 {
        return Err("no output available: " + endResp);
      }
      return Ok(lines);
    }

    /** `listJobs` */
    method ListJobs(dial: string -> Result<Transfer>) returns (r: Result<seq<JobStatus>>)
      modifies this
      ensures Fetch(r, State()) == JesProtocol.ListJobs(old(State()), dial)
      ensures closed == old(closed)
    {
      var lines := RetrData("LIST", "", dial);
      if lines.Err? {
        return Err(lines.error);
      }
      var jobs := ParseJobLines(lines.value);
      return Ok(jobs);
    }

    /** `getJobOutput` */
    method GetJobOutput(jobId: string, dial: string -> Result<Transfer>) returns (r: Result<string>)
      modifies this
      ensures Fetch(r, State()) == JesProtocol.GetJobOutput(old(State()), jobId, dial)
      ensures closed == old(closed)
    {
      var err := Cmd("TYPE A");
      if err.Some? {
        return Err("failed to set ASCII mode: " + err.value);
      }
      var lines := RetrData("RETR", jobId, dial);
      if lines.Err? {
        return Err(lines.error);
      }
      return Ok(Join(lines.value, "\n"));
    }

    /** `close`: QUIT is written and the connection closed. */
    method Close()
      modifies this
      ensures State() == JesProtocol.Close(old(State())) && closed
    {
      Send("QUIT");
      closed := true;
    }
  }

  /** The scanner loop over the data connection: every line it delivers is
      collected, in order. */
  method ScanLines(delivered: seq<string>) returns (lines: seq<string>)
    ensures lines == delivered
  {
    lines := [];
    var k := 0;
    while k < |delivered|
      invariant 0 <= k <= |delivered| && lines == delivered[..k]
    {
      lines := lines + [delivered[k]];
      k := k + 1;
    }
  }

  /** The address `newJESClient` dials. */
  function Address(host: string, port: int): string {
    host + ":" + Itoa(port)
  }

  /** What `newJESClient` opens: `connect` opens the control connection to an
      address and yields the reply lines the server will send on it, or fails;
      the session is the connection after the welcome and the login, and any
      failure on the way is the error. */
  function OpenSession(host: string, port: int, user: string, password: string, connect: string -> Result<seq<string>>): Result<Wire> {
    match connect(Address(host, port))
    case Err(e) => Err("failed to connect: " + e)
    case Ok(lines) =>
      var o := Login(Wire(lines, []), user, password);
      if o.err.Some? then Err(o.err.value) else Ok(o.wire)
  }

  /** `newJESClient`: a client is returned exactly when the session opens, and
      holds the connection as the session leaves it. */
  method NewJesClient(host: string, port: int, user: string, password: string, connect: string -> Result<seq<string>>)
    returns (c: JesClient?, err: Failure)
    ensures var o := OpenSession(host, port, user, password, connect);
      && (c != null <==> o.Ok?)
      && (o.Err? ==> err == Some(o.error))
      && (o.Ok? ==> err == None && fresh(c) && c.State() == o.value && !c.closed)
  {
    var conn := connect(host + ":" + Itoa(port));
    if conn.Err? {
      return null, Some("failed to connect: " + conn.error);
    }
    var client := new JesClient(conn.value);
    err := client.Login(user, password);
    if err.Some? {
      client.closed := true;
      return null, err;
    }
    return client, None;
  }
}
