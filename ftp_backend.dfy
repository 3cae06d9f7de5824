/** The FTP backend (`FTPConnection`): datasets, members and files through the
    host's FTP server, and jobs through a separate session with its job
    interface.  The FTP client library is a parameter (`FtpServer`): what each of
    its calls answers; the job interface is the session `JesSession` models. */
module FtpBackend {
  import opened Wrappers
  import opened GoStrings
  import opened Records
  import opened Listing
  import JesProtocol
  import opened JesSession
  import Cat

  /** What `Retr` and the copy of its reader deliver: the content read, and an
      error when the copy failed. */
  datatype Download = Download(content: string, err: Failure)

  /** The server as the FTP client library sees it: the error of dialling an
      address and of logging in, of `Quit`, of `Type` ASCII and of `ChangeDir`
      to a path; the names `NameList` lists for a query; what `Retr` delivers for
      a path; the debug transcript of the listing session for a dataset; and, for
      the job interface, the control connection `connect` opens at an address and
      the data connection `dial` opens. */
  datatype FtpServer = FtpServer(
    dial: string -> Failure,
    login: (string, string) -> Failure,
    quit: Failure,
    setAscii: Failure,
    changeDir: string -> Failure,
    nameList: string -> Result<seq<string>>,
    retr: string -> Result<Download>,
    transcript: string -> string,
    connect: string -> Result<seq<string>>,
    data: string -> Result<JesProtocol.Transfer>)

  const NotConnected := "not connected"
  const NotImplemented := "not implemented"

  /** The non-empty `trim`med entries, in order. */
  function Kept(entries: seq<string>, trim: string -> string): seq<string> {
    if entries == [] then []
    else
      var name := trim(entries[|entries| - 1]);
      Kept(entries[..|entries| - 1], trim) + (if name != "" then [name] else [])
  }

  /** The names a `NameList` answer yields: every entry trimmed, the blank ones
      dropped, in order. */
  function DatasetNames(entries: seq<string>): seq<string> {
    Kept(entries, TrimSpace)
  }

  lemma {:induction false} KeptMembers(entries: seq<string>, trim: string -> string, x: string)
    ensures x in Kept(entries, trim) <==> x != "" && exists i :: 0 <= i < |entries| && trim(entries[i]) == x
    decreases |entries|
  {
    if entries != [] {
      var n := |entries|;
      var init := entries[..n - 1];
      var name := trim(entries[n - 1]);
      KeptMembers(init, trim, x);
      assert Kept(entries, trim) == Kept(init, trim) + (if name != "" then [name] else []);
      if x in Kept(entries, trim) {
        if x in Kept(init, trim) {
          var i :| 0 <= i < |init| && trim(init[i]) == x;
          assert entries[i] == init[i];
        } else {
          assert x == name;
        }
      }
      if x != "" && exists i :: 0 <= i < n && trim(entries[i]) == x {
        var i :| 0 <= i < n && trim(entries[i]) == x;
        if i < n - 1 {
          assert init[i] == entries[i];
        }
      }
    }
  }

  /** A name is listed exactly when it is the non-empty trimmed form of an entry. */
  lemma DatasetNamesMembers(entries: seq<string>, x: string)
    ensures x in DatasetNames(entries) <==> x != "" && exists i :: 0 <= i < |entries| && TrimSpace(entries[i]) == x
  {
    KeptMembers(entries, TrimSpace, x);
  }

  /** No more names than entries. */
  lemma {:induction false} KeptShorter(entries: seq<string>, trim: string -> string)
    ensures |Kept(entries, trim)| <= |entries|
    decreases |entries|
  {
    if entries != [] {
      KeptShorter(entries[..|entries| - 1], trim);
    }
  }

  /** The name `ReadMember` retrieves: the dataset without its quotes, the member
      in parentheses, all in single quotes. */
  function RetrName(dataset: string, member: string): string {
    "'" + (TrimChar(dataset, '\'') + "(" + member + ")") + "'"
  }

  /** The name the FTP backend retrieves is one the `cat` command parses back into
      the same dataset and member. */
  lemma RetrNameParses(dataset: string, member: string)
    requires member != [] && '(' !in member
    ensures Cat.Parsed(RetrName(dataset, member)) == Ok(Cat.Dsn(TrimChar(dataset, '\''), member))
  {
    Cat.ParsedQuotedRoundTrip(TrimChar(dataset, '\''), member);
  }

  /** The position of the first job with the id, or -1. */
  function FindJob(jobs: seq<JobStatus>, jobId: string): (k: int)
    ensures -1 <= k < |jobs|
    ensures k >= 0 ==> jobs[k].jobId == jobId
    ensures forall j :: 0 <= j < |jobs| && (k == -1 || j < k) ==> jobs[j].jobId != jobId
  {
    if jobs == [] then -1
    else if jobs[0].jobId == jobId then 0
    else var k := FindJob(jobs[1..], jobId); if k == -1 then -1 else k + 1
  }

  /** The job a lookup by id selects: the first one listed with that id. */
  function Lookup(jobs: seq<JobStatus>, jobId: string): (r: Result<JobStatus>)
    ensures r.Ok? <==> exists j :: 0 <= j < |jobs| && jobs[j].jobId == jobId
    ensures r.Err? ==> r.error == "job " + jobId + " not found"
    ensures r.Ok? ==> r.value.jobId == jobId && r.value in jobs
  {
    var k := FindJob(jobs, jobId);
    if k >= 0 then Ok(jobs[k]) else Err("job " + jobId + " not found")
  }

  /** A job listed before every other with its id is the one found. */
  lemma LookupFirst(jobs: seq<JobStatus>, jobId: string, k: nat)
    requires k < |jobs| && jobs[k].jobId == jobId
    requires forall j :: 0 <= j < k ==> jobs[j].jobId != jobId
    ensures Lookup(jobs, jobId) == Ok(jobs[k])
  {
  }

  /** The search loop of `GetJobStatus`: the jobs in order, until one has the id. */
  method Search(jobs: seq<JobStatus>, jobId: string) returns (r: Result<JobStatus>)
    ensures r == Lookup(jobs, jobId)
  {
    var i := 0;
    while i < |jobs|
      invariant 0 <= i <= |jobs|
      invariant forall j :: 0 <= j < i ==> jobs[j].jobId != jobId
    {
      if jobs[i].jobId == jobId {
        LookupFirst(jobs, jobId, i);
        return Ok(jobs[i]);
      }
      i := i + 1;
    }
    return Err("job " + jobId + " not found");
  }

  class FtpConnection {
    const host: string
    const port: int
    const user: string
    const password: string
    /** Whether a control connection is open (`conn != nil`). */
    var connected: bool

    /** `NewFTPConnection`: nothing is opened yet. */
    constructor (host: string, port: int, user: string, password: string)
      ensures this.host == host && this.port == port && this.user == user && this.password == password
      ensures !connected
    {
      this.host := host;
      this.port := port;
      this.user := user;
      this.password := password;
      connected := false;
    }

    /** Why `Connect` fails, if it does. */
    function ConnectFailure(server: FtpServer): Failure {
      var addr := Address(host, port);
      if server.dial(addr).Some? then Some(Wrap("failed to connect to " + addr, server.dial(addr).value))
      else if server.login(user, password).Some? then Some(Wrap("login failed", server.login(user, password).value))
      else None
    }

    /** `Connect`: dial and log in; a failed attempt leaves the connection as it was. */
    method Connect(server: FtpServer) returns (err: Failure)
      modifies this
      ensures err == ConnectFailure(server)
      ensures connected == (old(connected) || err == None)
    {
      var addr := host + ":" + Itoa(port);
      var dialErr := server.dial(addr);
      if dialErr.Some? {
        return Some(Wrap("failed to connect to " + addr, dialErr.value));
      }
      var loginErr := server.login(user, password);
      if loginErr.Some? {
        return Some(Wrap("login failed", loginErr.value));
      }
      connected := true;
      return None;
    }

    /** `Close`: QUIT on an open connection; when QUIT fails the connection is
        kept and the error returned. */
    method Close(server: FtpServer) returns (err: Failure)
      modifies this
      ensures !old(connected) ==> err == None && !connected
      ensures old(connected) && server.quit.Some? ==> err == Some(Wrap("failed to close connection", server.quit.value)) && connected
      ensures old(connected) && server.quit.None? ==> err == None && !connected
    {
      if connected {
        if server.quit.Some? {
          return Some(Wrap("failed to close connection", server.quit.value));
        }
        connected := false;
      }
      return None;
    }

    function DatasetsListed(pattern: string, server: FtpServer): Result<seq<string>>
      reads this
    {
      if !connected then Err(NotConnected)
      else
        match server.nameList("'" + pattern + ".*'")
        case Err(e) => Err(Wrap("failed to list datasets", e))
        case Ok(entries) => Ok(DatasetNames(entries))
    }

    /** `ListDatasets`: the names listed for `'pattern.*'`, trimmed, blanks dropped. */
    method ListDatasets(pattern: string, server: FtpServer) returns (r: Result<seq<string>>)
      ensures r == DatasetsListed(pattern, server)
    {
      if !connected {
        return Err(NotConnected);
      }
      var listed := server.nameList("'" + pattern + ".*'");
      if listed.Err? {
        return Err(Wrap("failed to list datasets", listed.error));
      }
      var entries := listed.value;
      var datasets := [];
      var i := 0;
      while i < |entries|
        invariant 0 <= i <= |entries| && datasets == Kept(entries[..i], TrimSpace)
      {
        assert entries[..i + 1][..i] == entries[..i];
        var name := TrimSpace(entries[i]);
        if name != "" {
          datasets := datasets + [name];
        }
        i := i + 1;
      }
      assert entries[..i] == entries;
      return Ok(datasets);
    }

    function MembersListed(dataset: string, server: FtpServer): Result<seq<Member>>
      reads this
    {
      var dsn := TrimChar(dataset, '\'');
      var addr := Address(host, port);
      if !connected then Err(NotConnected)
      else if server.dial(addr).Some? then Err(Wrap("failed to connect for LIST", server.dial(addr).value))
      else if server.login(user, password).Some? then Err(Wrap("login failed for LIST", server.login(user, password).value))
      else if server.changeDir("'" + dsn + "'").Some? then
        Err(Wrap("failed to access dataset " + dsn, server.changeDir("'" + dsn + "'").value))
      else Ok(Scrape(Split(server.transcript(dsn), '\n'), false, RowMember))
    }

    /** `ListMembers`: a second session with a debug transcript changes to the
        dataset and lists it, and the members are scraped from the transcript. */
    method ListMembers(dataset: string, server: FtpServer) returns (r: Result<seq<Member>>)
      ensures r == MembersListed(dataset, server)
    {
      if !connected {
        return Err(NotConnected);
      }
      var dsn := TrimChar(dataset, '\'');
      var addr := host + ":" + Itoa(port);
      var dialErr := server.dial(addr);
      if dialErr.Some? {
        return Err(Wrap("failed to connect for LIST", dialErr.value));
      }
      var loginErr := server.login(user, password);
      if loginErr.Some? {
        return Err(Wrap("login failed for LIST", loginErr.value));
      }
      var cdErr := server.changeDir("'" + dsn + "'");
      if cdErr.Some? {
        return Err(Wrap("failed to access dataset " + dsn, cdErr.value));
      }
      var members := ParseMemberListFromDebug(server.transcript(dsn));
      return Ok(members);
    }

    /** What `Retr` of `path` yields after ASCII mode is set. */
    function Retrieved(path: string, server: FtpServer): Result<string>
      reads this
    {
      if !connected then Err(NotConnected)
      else if server.setAscii.Some? then Err(Wrap("failed to set ASCII mode", server.setAscii.value))
      else
        match server.retr(path)
        case Err(e) => Err(Wrap("failed to read " + path, e))
        case Ok(d) => if d.err.Some? then Err(Wrap("failed to read content", d.err.value)) else Ok(d.content)
    }

    /** `ReadMember` */
    method ReadMember(dataset: string, member: string, server: FtpServer) returns (r: Result<string>)
      ensures r == Retrieved(RetrName(dataset, member), server)
    {
      if !connected {
        return Err(NotConnected);
      }
      if server.setAscii.Some? {
        return Err(Wrap("failed to set ASCII mode", server.setAscii.value));
      }
      var dsn := RetrName(dataset, member);
      var reader := server.retr(dsn);
      if reader.Err? {
        return Err(Wrap("failed to read " + dsn, reader.error));
      }
      if reader.value.err.Some? {
        return Err(Wrap("failed to read content", reader.value.err.value));
      }
      return Ok(reader.value.content);
    }

    /** `ReadFile` */
    method ReadFile(path: string, server: FtpServer) returns (r: Result<string>)
      ensures r == Retrieved(path, server)
    {
      if !connected {
        return Err(NotConnected);
      }
      if server.setAscii.Some? {
        return Err(Wrap("failed to set ASCII mode", server.setAscii.value));
      }
      var reader := server.retr(path);
      if reader.Err? {
        return Err(Wrap("failed to read " + path, reader.error));
      }
      if reader.value.err.Some? {
        return Err(Wrap("failed to read content", reader.value.err.value));
      }
      return Ok(reader.value.content);
    }

    /** `WriteMember` always fails. */
    method WriteMember(dataset: string, member: string, content: string) returns (err: Failure)
      ensures err == Some(NotImplemented)
    {
      return Some(NotImplemented);
    }

    /** `WriteFile` always fails. */
    method WriteFile(path: string, content: string) returns (err: Failure)
      ensures err == Some(NotImplemented)
    {
      return Some(NotImplemented);
    }

    /** `SubmitJCL` always fails, with an empty job id. */
    method SubmitJcl(jcl: string) returns (jobId: string, err: Failure)
      ensures jobId == "" && err == Some(NotImplemented)
    {
      return "", Some(NotImplemented);
    }

    /** The owner a job list asks for: the user when none is given. */
    function OwnerOrUser(owner: string): string {
      if owner == "" then user else owner
    }

    /** The jobs of `owner`: a session is opened, the owner set, and the job list
        read from it. */
    function JobsListed(owner: string, server: FtpServer): Result<seq<JobStatus>> {
      match OpenSession(host, port, user, password, server.connect)
      case Err(e) => Err(e)
      case Ok(w) =>
        var o := JesProtocol.SetOwner(w, OwnerOrUser(owner));
        if o.err.Some? then Err(o.err.value) else JesProtocol.ListJobs(o.wire, server.data).out
    }

    /** `ListJobs`: the session is closed on the way out, whatever happened. */
    method ListJobs(owner: string, server: FtpServer) returns (r: Result<seq<JobStatus>>)
      ensures r == JobsListed(owner, server)
    {
      var jes, err := NewJesClient(host, port, user, password, server.connect);
      if err.Some? {
        return Err(err.value);
      }
      var who := owner;
      if who == "" {
        who := user;
      }
      err := jes.SetOwner(who);
      if err.Some? {
        jes.Close();
        return Err(err.value);
      }
      r := jes.ListJobs(server.data);
      jes.Close();
    }

    function JobFound(jobId: string, server: FtpServer): Result<JobStatus> {
      var jobs := JobsListed("", server);
      if jobs.Err? then Err(jobs.error) else Lookup(jobs.value, jobId)
    }

    /** `GetJobStatus`: the user's jobs are searched in order for the id. */
    method GetJobStatus(jobId: string, server: FtpServer) returns (r: Result<JobStatus>)
      ensures r == JobFound(jobId, server)
    {
      var jobs := ListJobs("", server);
      if jobs.Err? {
        return Err(jobs.error);
      }
      r := Search(jobs.value, jobId);
    }

    function JobOutput(jobId: string, server: FtpServer): Result<string> {
      match OpenSession(host, port, user, password, server.connect)
      case Err(e) => Err(e)
      case Ok(w) =>
        var o := JesProtocol.SetOwner(w, user);
        if o.err.Some? then Err(o.err.value) else JesProtocol.GetJobOutput(o.wire, jobId, server.data).out
    }

    /** `GetJobOutput`: the spool of the job, through a session owned by the user. */
    method GetJobOutput(jobId: string, server: FtpServer) returns (r: Result<string>)
      ensures r == JobOutput(jobId, server)
    {
      var jes, err := NewJesClient(host, port, user, password, server.connect);
      if err.Some? {
        return Err(err.value);
      }
      err := jes.SetOwner(user);
      if err.Some? {
        jes.Close();
        return Err(err.value);
      }
      r := jes.GetJobOutput(jobId, server.data);
      jes.Close();
    }
  }

  /** Every operation but the job ones refuses to work before `Connect`. */
  lemma NeedsConnection(c: FtpConnection, server: FtpServer, pattern: string, dataset: string, path: string)
    requires !c.connected
    ensures c.DatasetsListed(pattern, server) == Err(NotConnected)
    ensures c.MembersListed(dataset, server) == Err(NotConnected)
    ensures c.Retrieved(path, server) == Err(NotConnected)
  {
  }

  /** Listing the jobs of no particular owner lists the user's jobs. */
  lemma JobsListedDefaultOwner(c: FtpConnection, server: FtpServer)
    ensures c.JobsListed("", server) == c.JobsListed(c.user, server)
  {
  }

  /** A job is found exactly when the user's job list holds its id, and it is the
      first such job. */
  lemma JobFoundFirst(c: FtpConnection, server: FtpServer, jobId: string, jobs: seq<JobStatus>)
    requires c.JobsListed("", server) == Ok(jobs)
    ensures c.JobFound(jobId, server).Ok? <==> exists j :: 0 <= j < |jobs| && jobs[j].jobId == jobId
    ensures c.JobFound(jobId, server).Err? ==> c.JobFound(jobId, server).error == "job " + jobId + " not found"
    ensures forall k :: (0 <= k < |jobs| && jobs[k].jobId == jobId && (forall j :: 0 <= j < k ==> jobs[j].jobId != jobId))
                     ==> c.JobFound(jobId, server) == Ok(jobs[k])
  {
    forall k | 0 <= k < |jobs| && jobs[k].jobId == jobId && (forall j :: 0 <= j < k ==> jobs[j].jobId != jobId)
      ensures c.JobFound(jobId, server) == Ok(jobs[k])
    {
      LookupFirst(jobs, jobId, k);
    }
  }
}
