/** The REST backend (`ZOSMFConnection`): every operation is one or more HTTPS
    requests to the z/OSMF services, authenticated with the user and password and
    carrying the cross-site header z/OSMF demands.  The server and the JSON
    decoding of what it sends are parameters (`Api`); the connection object holds
    the base URL and whether a client is open. */
module Zosmf {
  import opened Wrappers
  import opened GoStrings
  import opened Records
  import opened Listing

  /** One HTTP request: basic authentication with `user` and `password`, and the
      headers set on it by name. */
  datatype Request = Request(verb: string, url: string, user: string, password: string,
                             headers: map<string, string>, body: string)

  datatype Response = Response(status: int, body: string)

  /** The error document z/OSMF may send: a message and the texts of its details. */
  datatype ErrorBody = ErrorBody(message: string, details: seq<string>)

  /** The items of the dataset, member, job and spool file lists. */
  datatype DatasetItem = DatasetItem(dsname: string)
  datatype MemberItem = MemberItem(member: string, vers: int, mod: int, c4date: string, m4date: string,
                                   mtime: string, cnorc: int, inorc: int, mnorc: int, user: string)
  datatype JobItem = JobItem(jobId: string, jobName: string, owner: string, status: string,
                             retCode: string, jobClass: string)
  datatype JobFile = JobFile(id: int, ddName: string, stepName: string)

  /** The server, which answers a request or fails to, and the JSON decoders of
      the bodies; `errorBody` yields `None` when the body is not an error document. */
  datatype Api = Api(
    send: Request -> Result<Response>,
    errorBody: string -> Option<ErrorBody>,
    datasets: string -> Result<seq<DatasetItem>>,
    members: string -> Result<seq<MemberItem>>,
    jobs: string -> Result<seq<JobItem>>,
    files: string -> Result<seq<JobFile>>,
    submitted: string -> Result<string>)

  // ---------------------------------------------------------------------------
  // Requests

  /** The header every request carries before the extra ones. */
  const CsrfHeaders: map<string, string> := map["X-CSRF-ZOSMF-HEADER" := "*"]

  const TextData := ["X-IBM-Data-Type", "text"]
  const TextUpload := ["X-IBM-Data-Type", "text", "Content-Type", "text/plain"]
  const PlainUpload := ["Content-Type", "text/plain"]

  /** The extra headers of `doRequest`, given as name, value, name, value...: each
      pair is set in turn, a later one replacing an earlier one of the same name,
      and an odd last element is ignored. */
  function SetPairs(headers: map<string, string>, extra: seq<string>): map<string, string>
    decreases |extra|
  {
    if |extra| < 2 then headers else SetPairs(headers[extra[0] := extra[1]], extra[2..])
  }

  /** The header names the pairs set. */
  function PairNames(extra: seq<string>): set<string>
    decreases |extra|
  {
    if |extra| < 2 then {} else {extra[0]} + PairNames(extra[2..])
  }

  /** The pairs add their names and nothing else. */
  lemma {:induction false} SetPairsNames(headers: map<string, string>, extra: seq<string>)
    ensures SetPairs(headers, extra).Keys == headers.Keys + PairNames(extra)
    decreases |extra|
  {
    if |extra| >= 2 {
      SetPairsNames(headers[extra[0] := extra[1]], extra[2..]);
    }
  }

  /** A header no pair names keeps its value. */
  lemma {:induction false} SetPairsKeeps(headers: map<string, string>, extra: seq<string>, name: string)
    requires name in headers && name !in PairNames(extra)
    ensures name in SetPairs(headers, extra) && SetPairs(headers, extra)[name] == headers[name]
    decreases |extra|
  {
    if |extra| >= 2 {
      SetPairsKeeps(headers[extra[0] := extra[1]], extra[2..], name);
    }
  }

  /** The last pair wins. */
  lemma {:induction false} SetPairsLast(headers: map<string, string>, extra: seq<string>, name: string, value: string)
    requires |extra| % 2 == 0
    ensures name in SetPairs(headers, extra + [name, value])
    ensures SetPairs(headers, extra + [name, value])[name] == value
    decreases |extra|
  {
    if extra == [] {
      assert (extra + [name, value])[2..] == [];
    } else {
      assert (extra + [name, value])[2..] == extra[2..] + [name, value];
      SetPairsLast(headers[extra[0] := extra[1]], extra[2..], name, value);
    }
  }

  /** A name without a value sets nothing. */
  lemma {:induction false} SetPairsOdd(headers: map<string, string>, extra: seq<string>, name: string)
    requires |extra| % 2 == 0
    ensures SetPairs(headers, extra + [name]) == SetPairs(headers, extra)
    decreases |extra|
  {
    if extra == [] {
    } else {
      assert (extra + [name])[2..] == extra[2..] + [name];
      SetPairsOdd(headers[extra[0] := extra[1]], extra[2..], name);
    }
  }

  /** The request `doRequest` sends for a connection whose base URL is `base`. */
  function RequestFor(base: string, user: string, password: string, verb: string, path: string,
                      body: string, extra: seq<string>): Request
  {
    Request(verb, base + path, user, password, SetPairs(CsrfHeaders, extra), body)
  }

  /** Every request is authenticated and carries the cross-site header, whatever
      the extra headers are, unless they name that header themselves. */
  lemma RequestAuthenticated(base: string, user: string, password: string, verb: string, path: string,
                             body: string, extra: seq<string>)
    requires "X-CSRF-ZOSMF-HEADER" !in PairNames(extra)
    ensures var q := RequestFor(base, user, password, verb, path, body, extra);
      && q.user == user && q.password == password && q.url == base + path
      && "X-CSRF-ZOSMF-HEADER" in q.headers && q.headers["X-CSRF-ZOSMF-HEADER"] == "*"
  {
    SetPairsKeeps(CsrfHeaders, extra, "X-CSRF-ZOSMF-HEADER");
  }

  // ---------------------------------------------------------------------------
  // Errors and status codes

  /** At most this many bytes of an error body are read. */
  const BodyCap := 1024

  function Capped(body: string): (r: string)
    ensures |r| <= BodyCap && |r| <= |body| && r == body[..|r|]
    ensures |body| <= BodyCap ==> r == body
  {
    if |body| <= BodyCap then body else body[..BodyCap]
  }

  function StatusSuffix(status: int): string {
    " (status " + Itoa(status) + ")"
  }

  /** The message of an error document: its message, and the text of its first
      detail when there is one and it is not empty. */
  function ErrorText(doc: ErrorBody): string {
    if |doc.details| > 0 && doc.details[0] != "" then doc.message + ": " + doc.details[0] else doc.message
  }

  /** `zosmfError`: the action, then the error document's message if the capped
      body is one with a message, else the capped body if it is not empty, and
      always the status code. */
  function ZosmfError(action: string, resp: Response, errorBody: string -> Option<ErrorBody>): (r: string)
    ensures HasPrefix(r, action) && HasSuffix(r, StatusSuffix(resp.status))
  {
    var body := Capped(resp.body);
    var doc := errorBody(body);
    var r :=
      if doc.Some? && doc.value.message != "" then action + ": " + ErrorText(doc.value)
      else if |body| > 0 then action + ": " + body
      else action;
    assert (r + StatusSuffix(resp.status))[..|action|] == action;
    r + StatusSuffix(resp.status)
  }

  /** The three forms of the message. */
  lemma ZosmfErrorForms(action: string, resp: Response, errorBody: string -> Option<ErrorBody>)
    ensures var body := Capped(resp.body);
      var doc := errorBody(body);
      && (doc.Some? && doc.value.message != "" ==>
            ZosmfError(action, resp, errorBody) == action + ": " + ErrorText(doc.value) + StatusSuffix(resp.status))
      && (!(doc.Some? && doc.value.message != "") && body != "" ==>
            ZosmfError(action, resp, errorBody) == action + ": " + body + StatusSuffix(resp.status))
      && (!(doc.Some? && doc.value.message != "") && body == "" ==>
            ZosmfError(action, resp, errorBody) == action + StatusSuffix(resp.status))
  {
  }

  /** A long body that is no error document is quoted by its first 1024
      characters only. */
  lemma ZosmfErrorQuotesPrefix(action: string, resp: Response, errorBody: string -> Option<ErrorBody>)
    requires |resp.body| > BodyCap
    requires errorBody(resp.body[..BodyCap]).None?
    ensures ZosmfError(action, resp, errorBody) == action + ": " + resp.body[..BodyCap] + StatusSuffix(resp.status)
  {
  }

  /** The statuses each kind of request accepts. */
  const ReadOk: set<int> := {200}
  const WriteOk: set<int> := {201, 204}
  const SubmitOk: set<int> := {201}

  /** What every operation makes of the answer to its request: a failed request
      is wrapped in `failed`, a status outside `ok` is reported by `zosmfError`
      with `action`, and otherwise the body is what was asked for. */
  function Checked(answer: Result<Response>, failed: string, action: string, ok: set<int>,
                   errorBody: string -> Option<ErrorBody>): (r: Result<string>)
    ensures answer.Err? ==> r == Err(Wrap(failed, answer.error))
    ensures answer.Ok? ==> (r.Ok? <==> answer.value.status in ok)
    ensures answer.Ok? && r.Ok? ==> r.value == answer.value.body
    ensures answer.Ok? && r.Err? ==> r.error == ZosmfError(action, answer.value, errorBody)
  {
    match answer
    case Err(e) => Err(Wrap(failed, e))
    case Ok(resp) => if resp.status in ok then Ok(resp.body) else Err(ZosmfError(action, resp, errorBody))
  }

  /** A body decoded by `decode`, a decoding failure wrapped in `failed`. */
  function Decoded<T>(body: Result<string>, decode: string -> Result<T>, failed: string): (r: Result<T>)
    ensures body.Err? ==> r == Err(body.error)
    ensures body.Ok? && decode(body.value).Err? ==> r == Err(Wrap(failed, decode(body.value).error))
    ensures body.Ok? && decode(body.value).Ok? ==> r == decode(body.value)
  {
    match body
    case Err(e) => Err(e)
    case Ok(b) =>
      match decode(b)
      case Err(e) => Err(Wrap(failed, e))
      case Ok(v) => Ok(v)
  }

  // ---------------------------------------------------------------------------
  // Paths

  function DatasetsPath(pattern: string): string {
    "/zosmf/restfiles/ds?dslevel=" + QueryEscape(pattern)
  }

  function MembersPath(dsn: string): string {
    "/zosmf/restfiles/ds/" + dsn + "/member"
  }

  /** `dsn(member)` */
  function MemberName(dsn: string, member: string): string {
    dsn + "(" + member + ")"
  }

  function MemberPath(dsn: string, member: string): string {
    "/zosmf/restfiles/ds/" + MemberName(dsn, member)
  }

  function FilePath(path: string): string {
    "/zosmf/restfiles/fs" + path
  }

  const JobsPath := "/zosmf/restjobs/jobs"

  function OwnerQuery(owner: string): string {
    JobsPath + "?owner=" + QueryEscape(owner) + "&prefix=*"
  }

  function JobQuery(jobId: string): string {
    JobsPath + "?owner=*&jobid=" + QueryEscape(jobId)
  }

  function FilesPath(jobName: string, jobId: string): string {
    JobsPath + "/" + jobName + "/" + jobId + "/files"
  }

  function RecordsPath(jobName: string, jobId: string, id: int): string {
    FilesPath(jobName, jobId) + "/" + Itoa(id) + "/records"
  }

  // ---------------------------------------------------------------------------
  // Lists

  function Dsnames(items: seq<DatasetItem>): (r: seq<string>)
    ensures |r| == |items| && forall i :: 0 <= i < |items| ==> r[i] == items[i].dsname
  {
    seq(|items|, i requires 0 <= i < |items| => items[i].dsname)
  }

  /** The member a list item describes: the change stamp is the date and the time
      when there is a time, else the date alone. */
  function MemberOfItem(item: MemberItem): Member {
    Member(item.member, item.vers, item.mod, item.c4date,
           if item.mtime != "" then item.m4date + " " + item.mtime else item.m4date,
           item.cnorc, item.inorc, item.mnorc, item.user)
  }

  /** One member per item, in order: the name, the version and modification
      level, the creation date, the record counts and the user are taken over; the
      change stamp is the change date and time, or the date alone without a time. */
  function MembersOf(items: seq<MemberItem>): (r: seq<Member>)
    ensures |r| == |items| && forall i :: 0 <= i < |items| ==> r[i] == MemberOfItem(items[i])
    ensures forall i :: 0 <= i < |items| ==>
      && r[i].name == items[i].member && r[i].vv == items[i].vers && r[i].mm == items[i].mod
      && r[i].created == items[i].c4date
      && r[i].changed == (if items[i].mtime != "" then items[i].m4date + " " + items[i].mtime else items[i].m4date)
      && r[i].size == items[i].cnorc && r[i].init == items[i].inorc && r[i].mod == items[i].mnorc
      && r[i].user == items[i].user
  {
    seq(|items|, i requires 0 <= i < |items| => MemberOfItem(items[i]))
  }

  /** A member the REST interface reports reads the same as the row the FTP
      listing shows for it: both transports describe it by the same record. */
  lemma BackendsAgree(item: MemberItem)
    requires IsToken(item.member) && IsToken(item.c4date) && IsToken(item.m4date) && IsToken(item.mtime)
    requires item.user == "" || IsToken(item.user)
    requires MinInt64 <= item.vers <= MaxInt64 && MinInt64 <= item.mod <= MaxInt64
    requires MinInt64 <= item.cnorc <= MaxInt64 && MinInt64 <= item.inorc <= MaxInt64
    requires MinInt64 <= item.mnorc <= MaxInt64
    ensures var m := MemberOfItem(item);
      && m.changed == item.m4date + " " + item.mtime
      && ParseMemberLine(MemberRow(m, item.m4date, item.mtime)) == m
  {
    var m := MemberOfItem(item);
    assert Listable(m, item.m4date, item.mtime);
    ParseMemberRow(m, item.m4date, item.mtime);
  }

  /** The job a list item describes, field for field. */
  function JobOfItem(item: JobItem): JobStatus {
    JobStatus(item.jobId, item.jobName, item.owner, item.status, item.retCode, item.jobClass)
  }

  /** Different items describe different jobs. */
  lemma JobOfItemInjective(a: JobItem, b: JobItem)
    requires JobOfItem(a) == JobOfItem(b)
    ensures a == b
  {
  }

  /** `parseZOSMFJobs`: one job per item, in order. */
  method ParseZosmfJobs(items: seq<JobItem>) returns (jobs: seq<JobStatus>)
    ensures |jobs| == |items|
    ensures forall i :: 0 <= i < |items| ==> jobs[i] == JobOfItem(items[i])
  {
    jobs := [];
    var i := 0;
    while i < |items|
      invariant 0 <= i <= |items| && |jobs| == i
      invariant forall j :: 0 <= j < i ==> jobs[j] == JobOfItem(items[j])
    {
      var item := items[i];
      jobs := jobs + [JobStatus(item.jobId, item.jobName, item.owner, item.status, item.retCode, item.jobClass)];
      i := i + 1;
    }
  }

  /** One job per item, in order, each field taken over unchanged. */
  function JobsOf(items: seq<JobItem>): (r: seq<JobStatus>)
    ensures |r| == |items| && forall i :: 0 <= i < |items| ==> r[i] == JobOfItem(items[i])
    ensures forall i :: 0 <= i < |items| ==>
      && r[i].jobId == items[i].jobId && r[i].jobName == items[i].jobName
      && r[i].owner == items[i].owner && r[i].status == items[i].status
      && r[i].retCode == items[i].retCode && r[i].jobClass == items[i].jobClass
  {
    seq(|items|, i requires 0 <= i < |items| => JobOfItem(items[i]))
  }

  // ---------------------------------------------------------------------------
  // Job output

  /** What the fetch of one spool file gives: its DD and step names and its
      records, or an error. */
  datatype Spool = Spool(dd: string, step: string, data: string, err: Failure)

  /** A failed request is an error naming the DD; any answer is taken as the
      records, whatever its status. */
  function SpoolOf(file: JobFile, answer: Result<Response>): Spool {
    match answer
    case Err(e) => Spool("", "", "", Some(Wrap("failed to read DD " + file.ddName, e)))
    case Ok(resp) => Spool(file.ddName, file.stepName, resp.body, None)
  }

  /** The header line and the records of one spool file. */
  function Block(s: Spool): string {
    "--- DD: " + s.dd + " (Step: " + s.step + ") ---\n" + s.data
  }

  /** One block per result, in order: the header line naming the DD and the step,
      then the records. */
  function Blocks(results: seq<Spool>): (r: seq<string>)
    ensures |r| == |results| && forall i :: 0 <= i < |results| ==> r[i] == Block(results[i])
    ensures forall i :: 0 <= i < |results| ==>
      r[i] == "--- DD: " + results[i].dd + " (Step: " + results[i].step + ") ---\n" + results[i].data
  {
    seq(|results|, i requires 0 <= i < |results| => Block(results[i]))
  }

  /** The first failed fetch, or -1. */
  function FirstFailure(results: seq<Spool>): (k: int)
    ensures -1 <= k < |results|
    ensures k >= 0 ==> results[k].err.Some?
    ensures forall i :: 0 <= i < |results| && (k == -1 || i < k) ==> results[i].err.None?
  {
    if results == [] then -1
    else if results[0].err.Some? then 0
    else var k := FirstFailure(results[1..]); if k == -1 then -1 else k + 1
  }

  /** The assembled output: the error of the first fetch in file order that
      failed, else the blocks of all files in file order, one newline between
      consecutive blocks. */
  function Assembled(results: seq<Spool>): Result<string> {
    var k := FirstFailure(results);
    if k >= 0 then Err(results[k].err.value) else Ok(Join(Blocks(results), "\n"))
  }

  /** Every error is reported only when all files before it were fetched. */
  lemma AssembledFirstError(results: seq<Spool>, k: nat)
    requires k < |results| && results[k].err.Some?
    requires forall i :: 0 <= i < k ==> results[i].err.None?
    ensures Assembled(results) == Err(results[k].err.value)
  {
  }

  /** Output with no failed fetch holds exactly the blocks, in file order. */
  lemma AssembledBlocks(results: seq<Spool>)
    requires forall i :: 0 <= i < |results| ==> results[i].err.None?
    ensures Assembled(results) == Ok(Join(Blocks(results), "\n"))
    ensures results != [] ==> HasPrefix(Assembled(results).value, "--- DD: " + results[0].dd + " (Step: ")
  {
    if results != [] {
      var bs := Blocks(results);
      assert bs == [bs[0]] + bs[1..];
      var out := Join(bs, "\n");
      var head := "--- DD: " + results[0].dd + " (Step: ";
      if |bs| > 1 {
        JoinCons(bs[0], bs[1..], "\n");
      }
      assert HasPrefix(out, bs[0]);
      var r0 := results[0];
      assert bs[0] == head + r0.step + ") ---\n" + r0.data;
      TakeOfAppend(head, r0.step);
      TakeOfAppend(head + r0.step, ") ---\n");
      TakeOfAppend(head + r0.step + ") ---\n", r0.data);
      assert HasPrefix(bs[0], head);
    }
  }

  // ---------------------------------------------------------------------------
  // The connection

  class ZosmfConnection {
    const host: string
    const port: int
    const user: string
    const password: string
    /** Whether `Connect` has made an HTTP client, which `Close` drops. */
    var connected: bool
    var baseUrl: string

    /** `NewZOSMFConnection`: nothing is opened yet. */
    constructor (host: string, port: int, user: string, password: string)
      ensures this.host == host && this.port == port && this.user == user && this.password == password
      ensures !connected && baseUrl == ""
    {
      this.host := host;
      this.port := port;
      this.user := user;
      this.password := password;
      connected := false;
      baseUrl := "";
    }

    /** `Connect`: the base URL is the HTTPS address of the host; it cannot fail. */
    method Connect() returns (err: Failure)
      modifies this
      ensures err == None && connected && baseUrl == "https://" + host + ":" + Itoa(port)
    {
      baseUrl := "https://" + host + ":" + Itoa(port);
      connected := true;
      err := None;
    }

    /** `Close`: the client is dropped; it cannot fail. */
    method Close() returns (err: Failure)
      modifies this
      ensures err == None && !connected && baseUrl == old(baseUrl)
    {
      connected := false;
      err := None;
    }

    /** What the server answers to a request of this connection. */
    function Answer(verb: string, path: string, body: string, extra: seq<string>, api: Api): Result<Response>
      reads this
    {
      api.send(RequestFor(baseUrl, user, password, verb, path, body, extra))
    }

    /** `doRequest`: the headers are set one pair at a time. */
    method DoRequest(verb: string, path: string, body: string, extra: seq<string>, api: Api)
      returns (answer: Result<Response>)
      requires connected
      ensures answer == Answer(verb, path, body, extra, api)
    {
      var headers := map["X-CSRF-ZOSMF-HEADER" := "*"];
      var i := 0;
      while i + 1 < |extra|
        invariant 0 <= i <= |extra|
        invariant SetPairs(headers, extra[i..]) == SetPairs(CsrfHeaders, extra)
      {
        assert extra[i..][2..] == extra[i + 2..];
        headers := headers[extra[i] := extra[i + 1]];
        i := i + 2;
      }
      answer := api.send(Request(verb, baseUrl + path, user, password, headers, body));
    }

    // --- datasets

    function DatasetsListed(pattern: string, api: Api): Result<seq<string>>
      reads this
    {
      var items := Decoded(Checked(Answer("GET", DatasetsPath(pattern), "", [], api),
                                   "failed to list datasets", "failed to list datasets", ReadOk, api.errorBody),
                           api.datasets, "failed to parse dataset list");
      if items.Err? then Err(items.error) else Ok(Dsnames(items.value))
    }

    /** `ListDatasets`: the names of the datasets the server lists, in its order. */
    method ListDatasets(pattern: string, api: Api) returns (r: Result<seq<string>>)
      requires connected
      ensures r == DatasetsListed(pattern, api)
    {
      var answer := DoRequest("GET", DatasetsPath(pattern), "", [], api);
      if answer.Err? {
        return Err(Wrap("failed to list datasets", answer.error));
      }
      var resp := answer.value;
      if resp.status != 200 {
        return Err(ZosmfError("failed to list datasets", resp, api.errorBody));
      }
      var decoded := api.datasets(resp.body);
      if decoded.Err? {
        return Err(Wrap("failed to parse dataset list", decoded.error));
      }
      var items := decoded.value;
      var datasets := [];
      var i := 0;
      while i < |items|
        invariant 0 <= i <= |items| && |datasets| == i
        invariant forall j :: 0 <= j < i ==> datasets[j] == items[j].dsname
      {
        datasets := datasets + [items[i].dsname];
        i := i + 1;
      }
      assert datasets == Dsnames(items);
      return Ok(datasets);
    }

    function MembersListed(dataset: string, api: Api): Result<seq<Member>>
      reads this
    {
      var dsn := TrimChar(dataset, '\'');
      var items := Decoded(Checked(Answer("GET", MembersPath(dsn), "", [], api),
                                   "failed to list members", "failed to list members of " + dsn, ReadOk, api.errorBody),
                           api.members, "failed to parse member list");
      if items.Err? then Err(items.error) else Ok(MembersOf(items.value))
    }

    /** `ListMembers`: the dataset name is taken without its quotes, and each item
        becomes one member, in order. */
    method ListMembers(dataset: string, api: Api) returns (r: Result<seq<Member>>)
      requires connected
      ensures r == MembersListed(dataset, api)
    {
      var dsn := TrimChar(dataset, '\'');
      var answer := DoRequest("GET", MembersPath(dsn), "", [], api);
      if answer.Err? {
        return Err(Wrap("failed to list members", answer.error));
      }
      var resp := answer.value;
      if resp.status != 200 {
        return Err(ZosmfError("failed to list members of " + dsn, resp, api.errorBody));
      }
      var decoded := api.members(resp.body);
      if decoded.Err? {
        return Err(Wrap("failed to parse member list", decoded.error));
      }
      var items := decoded.value;
      var members := [];
      var i := 0;
      while i < |items|
        invariant 0 <= i <= |items| && |members| == i
        invariant forall j :: 0 <= j < i ==> members[j] == MemberOfItem(items[j])
      {
        var item := items[i];
        var m := Member(item.member, item.vers, item.mod, item.c4date, "", item.cnorc, item.inorc, item.mnorc, item.user);
        if item.mtime != "" {
          m := m.(changed := item.m4date + " " + item.mtime);
        } else {
          m := m.(changed := item.m4date);
        }
        members := members + [m];
        i := i + 1;
      }
      assert members == MembersOf(items);
      return Ok(members);
    }

    function MemberRead(dataset: string, member: string, api: Api): Result<string>
      reads this
    {
      var dsn := TrimChar(dataset, '\'');
      var name := MemberName(dsn, member);
      Checked(Answer("GET", MemberPath(dsn, member), "", TextData, api),
              "failed to read " + name, "failed to read " + name, ReadOk, api.errorBody)
    }

    /** `ReadMember`: the member's text as the server sends it. */
    method ReadMember(dataset: string, member: string, api: Api) returns (r: Result<string>)
      requires connected
      ensures r == MemberRead(dataset, member, api)
    {
      var dsn := TrimChar(dataset, '\'');
      var name := MemberName(dsn, member);
      var answer := DoRequest("GET", MemberPath(dsn, member), "", TextData, api);
      if answer.Err? {
        return Err(Wrap("failed to read " + name, answer.error));
      }
      if answer.value.status != 200 {
        return Err(ZosmfError("failed to read " + name, answer.value, api.errorBody));
      }
      return Ok(answer.value.body);
    }

    function MemberWritten(dataset: string, member: string, content: string, api: Api): Failure
      reads this
    {
      var dsn := TrimChar(dataset, '\'');
      var name := MemberName(dsn, member);
      var r := Checked(Answer("PUT", MemberPath(dsn, member), content, TextUpload, api),
                       "failed to write " + name, "failed to write " + name, WriteOk, api.errorBody);
      if r.Err? then Some(r.error) else None
    }

    /** `WriteMember`: the content is sent as text; created and replaced both succeed. */
    method WriteMember(dataset: string, member: string, content: string, api: Api) returns (err: Failure)
      requires connected
      ensures err == MemberWritten(dataset, member, content, api)
    {
      var dsn := TrimChar(dataset, '\'');
      var name := MemberName(dsn, member);
      var answer := DoRequest("PUT", MemberPath(dsn, member), content, TextUpload, api);
      if answer.Err? {
        return Some(Wrap("failed to write " + name, answer.error));
      }
      if answer.value.status != 204 && answer.value.status != 201 {
        return Some(ZosmfError("failed to write " + name, answer.value, api.errorBody));
      }
      return None;
    }

    // --- UNIX files

    function FileRead(path: string, api: Api): Result<string>
      reads this
    {
      Checked(Answer("GET", FilePath(path), "", TextData, api),
              "failed to read " + path, "failed to read " + path, ReadOk, api.errorBody)
    }

    /** `ReadFile` */
    method ReadFile(path: string, api: Api) returns (r: Result<string>)
      requires connected
      ensures r == FileRead(path, api)
    {
      var answer := DoRequest("GET", FilePath(path), "", TextData, api);
      if answer.Err? {
        return Err(Wrap("failed to read " + path, answer.error));
      }
      if answer.value.status != 200 {
        return Err(ZosmfError("failed to read " + path, answer.value, api.errorBody));
      }
      return Ok(answer.value.body);
    }

    function FileWritten(path: string, content: string, api: Api): Failure
      reads this
    {
      var r := Checked(Answer("PUT", FilePath(path), content, TextUpload, api),
                       "failed to write " + path, "failed to write " + path, WriteOk, api.errorBody);
      if r.Err? then Some(r.error) else None
    }

    /** `WriteFile` */
    method WriteFile(path: string, content: string, api: Api) returns (err: Failure)
      requires connected
      ensures err == FileWritten(path, content, api)
    {
      var answer := DoRequest("PUT", FilePath(path), content, TextUpload, api);
      if answer.Err? {
        return Some(Wrap("failed to write " + path, answer.error));
      }
      if answer.value.status != 204 && answer.value.status != 201 {
        return Some(ZosmfError("failed to write " + path, answer.value, api.errorBody));
      }
      return None;
    }

    // --- jobs

    function JclSubmitted(jcl: string, api: Api): Result<string>
      reads this
    {
      Decoded(Checked(Answer("PUT", JobsPath, jcl, PlainUpload, api),
                      "failed to submit JCL", "failed to submit JCL", SubmitOk, api.errorBody),
              api.submitted, "failed to parse submit response")
    }

    /** `SubmitJCL`: the job id the server assigns. */
    method SubmitJcl(jcl: string, api: Api) returns (r: Result<string>)
      requires connected
      ensures r == JclSubmitted(jcl, api)
    {
      var answer := DoRequest("PUT", JobsPath, jcl, PlainUpload, api);
      if answer.Err? {
        return Err(Wrap("failed to submit JCL", answer.error));
      }
      if answer.value.status != 201 {
        return Err(ZosmfError("failed to submit JCL", answer.value, api.errorBody));
      }
      var decoded := api.submitted(answer.value.body);
      if decoded.Err? {
        return Err(Wrap("failed to parse submit response", decoded.error));
      }
      return Ok(decoded.value);
    }

    /** The owner a job list asks for: the user when none is given. */
    function OwnerOrUser(owner: string): string {
      if owner == "" then user else owner
    }

    function JobsListed(owner: string, api: Api): Result<seq<JobStatus>>
      reads this
    {
      var items := Decoded(Checked(Answer("GET", OwnerQuery(OwnerOrUser(owner)), "", [], api),
                                   "failed to list jobs", "failed to list jobs", ReadOk, api.errorBody),
                           api.jobs, "failed to parse jobs list");
      if items.Err? then Err(items.error) else Ok(JobsOf(items.value))
    }

    /** `ListJobs` */
    method ListJobs(owner: string, api: Api) returns (r: Result<seq<JobStatus>>)
      requires connected
      ensures r == JobsListed(owner, api)
    {
      var who := owner;
      if who == "" {
        who := user;
      }
      var answer := DoRequest("GET", OwnerQuery(who), "", [], api);
      if answer.Err? {
        return Err(Wrap("failed to list jobs", answer.error));
      }
      if answer.value.status != 200 {
        return Err(ZosmfError("failed to list jobs", answer.value, api.errorBody));
      }
      var decoded := api.jobs(answer.value.body);
      if decoded.Err? {
        return Err(Wrap("failed to parse jobs list", decoded.error));
      }
      var jobs := ParseZosmfJobs(decoded.value);
      assert jobs == JobsOf(decoded.value);
      return Ok(jobs);
    }

    function JobFound(jobId: string, api: Api): (r: Result<JobStatus>)
      reads this
      ensures var items := Decoded(Checked(Answer("GET", JobQuery(jobId), "", [], api),
                                           "failed to get job status", "failed to get job status", ReadOk, api.errorBody),
                                   api.jobs, "failed to parse job status");
        && (items.Err? ==> r == Err(items.error))
        && (items.Ok? && items.value == [] ==> r == Err("job " + jobId + " not found"))
        && (items.Ok? && items.value != [] ==> r == Ok(JobOfItem(items.value[0])))
    {
      var items := Decoded(Checked(Answer("GET", JobQuery(jobId), "", [], api),
                                   "failed to get job status", "failed to get job status", ReadOk, api.errorBody),
                           api.jobs, "failed to parse job status");
      if items.Err? then Err(items.error)
      else if items.value == [] then Err("job " + jobId + " not found")
      else Ok(JobOfItem(items.value[0]))
    }

    /** `GetJobStatus`: the first job the server lists for the id. */
    method GetJobStatus(jobId: string, api: Api) returns (r: Result<JobStatus>)
      requires connected
      ensures r == JobFound(jobId, api)
    {
      var answer := DoRequest("GET", JobQuery(jobId), "", [], api);
      if answer.Err? {
        return Err(Wrap("failed to get job status", answer.error));
      }
      if answer.value.status != 200 {
        return Err(ZosmfError("failed to get job status", answer.value, api.errorBody));
      }
      var decoded := api.jobs(answer.value.body);
      if decoded.Err? {
        return Err(Wrap("failed to parse job status", decoded.error));
      }
      var items := decoded.value;
      if |items| == 0 {
        return Err("job " + jobId + " not found");
      }
      var item := items[0];
      return Ok(JobStatus(item.jobId, item.jobName, item.owner, item.status, item.retCode, item.jobClass));
    }

    /** The spool files of a job, as the server lists them. */
    function SpoolFilesListed(jobName: string, jobId: string, api: Api): Result<seq<JobFile>>
      reads this
    {
      Decoded(Checked(Answer("GET", FilesPath(jobName, jobId), "", [], api),
                      "failed to list job files", "failed to list job files", ReadOk, api.errorBody),
              api.files, "failed to parse job files")
    }

    function JobOutput(jobId: string, api: Api): Result<string>
      reads this
    {
      var status := JobFound(jobId, api);
      if status.Err? then Err(status.error)
      else
        var jobName := status.value.jobName;
        var files := SpoolFilesListed(jobName, jobId, api);
        if files.Err? then Err(files.error)
        else if files.value == [] then Ok("")
        else Assembled(Fetched(baseUrl, user, password, jobName, jobId, files.value, api))
    }

    /** `GetJobOutput`: the job is looked up for its name, its spool files are
        listed, every file is fetched into its own slot, and the slots are
        assembled in file order. */
    method GetJobOutput(jobId: string, api: Api) returns (r: Result<string>)
      requires connected
      ensures r == JobOutput(jobId, api)
    {
      var status := GetJobStatus(jobId, api);
      if status.Err? {
        return Err(status.error);
      }
      var jobName := status.value.jobName;
      var files := ListSpoolFiles(jobName, jobId, api);
      if files.Err? {
        return Err(files.error);
      }
      if |files.value| == 0 {
        return Ok("");
      }
      var results := FetchSpools(jobName, jobId, files.value, api);
      r := Assemble(results);
    }

    /** The listing of the spool files in `GetJobOutput`. */
    method ListSpoolFiles(jobName: string, jobId: string, api: Api) returns (r: Result<seq<JobFile>>)
      requires connected
      ensures r == SpoolFilesListed(jobName, jobId, api)
    {
      var answer := DoRequest("GET", FilesPath(jobName, jobId), "", [], api);
      if answer.Err? {
        return Err(Wrap("failed to list job files", answer.error));
      }
      if answer.value.status != 200 {
        return Err(ZosmfError("failed to list job files", answer.value, api.errorBody));
      }
      var decoded := api.files(answer.value.body);
      if decoded.Err? {
        return Err(Wrap("failed to parse job files", decoded.error));
      }
      return Ok(decoded.value);
    }

    /** The fetches of `GetJobOutput`, each result stored at its file's index. */
    method FetchSpools(jobName: string, jobId: string, files: seq<JobFile>, api: Api) returns (results: array<Spool>)
      requires connected
      ensures fresh(results) && results[..] == Fetched(baseUrl, user, password, jobName, jobId, files, api)
    {
      ghost var fetched := Fetched(baseUrl, user, password, jobName, jobId, files, api);
      results := new Spool[|files|];
      for i := 0 to |files|
        invariant fetched == Fetched(baseUrl, user, password, jobName, jobId, files, api)
        invariant forall j :: 0 <= j < i ==> results[j] == fetched[j]
      {
        var file := files[i];
        var answer := DoRequest("GET", RecordsPath(jobName, jobId, file.id), "", TextData, api);
        assert fetched[i] == SpoolOf(file, answer);
        if answer.Err? {
          results[i] := Spool("", "", "", Some(Wrap("failed to read DD " + file.ddName, answer.error)));
        } else {
          results[i] := Spool(file.ddName, file.stepName, answer.value.body, None);
        }
      }
      assert results[..] == fetched;
    }
  }

  /** The spool files fetched each in turn from the connection at `base`. */
  function Fetched(base: string, user: string, password: string, jobName: string, jobId: string,
                   files: seq<JobFile>, api: Api): (r: seq<Spool>)
    ensures |r| == |files|
    ensures forall i :: 0 <= i < |files| ==>
      r[i] == SpoolOf(files[i], api.send(RequestFor(base, user, password, "GET", RecordsPath(jobName, jobId, files[i].id), "", TextData)))
    ensures forall i :: 0 <= i < |files| ==>
      var answer := api.send(RequestFor(base, user, password, "GET", RecordsPath(jobName, jobId, files[i].id), "", TextData));
      && (answer.Err? ==> r[i].err == Some("failed to read DD " + files[i].ddName + ": " + answer.error))
      && (answer.Ok? ==> r[i] == Spool(files[i].ddName, files[i].stepName, answer.value.body, None))
  {
    seq(|files|, i requires 0 <= i < |files| =>
      SpoolOf(files[i], api.send(RequestFor(base, user, password, "GET", RecordsPath(jobName, jobId, files[i].id), "", TextData))))
  }

  /** The assembly loop of `GetJobOutput`: the first failed slot ends it, and a
      newline goes before every block but the first. */
  method Assemble(results: array<Spool>) returns (r: Result<string>)
    ensures r == Assembled(results[..])
  {
    var output := "";
    for i := 0 to results.Length
      invariant forall j :: 0 <= j < i ==> results[j].err.None?
      invariant output == Join(Blocks(results[..i]), "\n")
      invariant i > 0 ==> |output| > 0
    {
      var s := results[i];
      if s.err.Some? {
        AssembledFirstError(results[..], i);
        return Err(s.err.value);
      }
      assert results[..i + 1] == results[..i] + [s];
      assert Blocks(results[..i + 1]) == Blocks(results[..i]) + [Block(s)];
      if |output| > 0 {
        JoinSnoc(Blocks(results[..i]), Block(s), "\n");
        output := output + "\n";
      }
      output := output + Block(s);
    }
    assert results[..results.Length] == results[..];
    AssembledBlocks(results[..]);
    r := Ok(output);
  }

  // ---------------------------------------------------------------------------
  // What the operations make of the status

  /** Against a server that answers every request with `resp`: reads accept only
      200, writes only 201 and 204, a submission only 201, and any other status
      is reported by `zosmfError` with the operation's action. */
  lemma AcceptedStatuses(c: ZosmfConnection, api: Api, resp: Response, dataset: string, member: string,
                         path: string, content: string)
    requires forall q :: api.send(q) == Ok(resp)
    ensures var name := MemberName(TrimChar(dataset, '\''), member);
      && (c.MemberRead(dataset, member, api).Ok? <==> resp.status == 200)
      && (resp.status != 200 ==> c.MemberRead(dataset, member, api) == Err(ZosmfError("failed to read " + name, resp, api.errorBody)))
      && (c.MemberWritten(dataset, member, content, api) == None <==> resp.status == 201 || resp.status == 204)
      && (resp.status != 201 && resp.status != 204 ==>
            c.MemberWritten(dataset, member, content, api) == Some(ZosmfError("failed to write " + name, resp, api.errorBody)))
    ensures && (c.FileRead(path, api).Ok? <==> resp.status == 200)
      && (resp.status != 200 ==> c.FileRead(path, api) == Err(ZosmfError("failed to read " + path, resp, api.errorBody)))
      && (c.FileWritten(path, content, api) == None <==> resp.status == 201 || resp.status == 204)
      && (resp.status != 201 && resp.status != 204 ==>
            c.FileWritten(path, content, api) == Some(ZosmfError("failed to write " + path, resp, api.errorBody)))
    ensures resp.status != 201 ==> c.JclSubmitted(content, api) == Err(ZosmfError("failed to submit JCL", resp, api.errorBody))
  {
  }

  /** Against a server that answers every request with a status other than 200,
      every list fails with `zosmfError` and its action. */
  lemma RefusedLists(c: ZosmfConnection, api: Api, resp: Response, dataset: string, pattern: string, owner: string)
    requires forall q :: api.send(q) == Ok(resp)
    requires resp.status != 200
    ensures c.DatasetsListed(pattern, api) == Err(ZosmfError("failed to list datasets", resp, api.errorBody))
    ensures c.MembersListed(dataset, api) == Err(ZosmfError("failed to list members of " + TrimChar(dataset, '\''), resp, api.errorBody))
    ensures c.JobsListed(owner, api) == Err(ZosmfError("failed to list jobs", resp, api.errorBody))
  {
  }

  /** Against the same server the lookup of a job fails, and so does its output,
      at that lookup. */
  lemma RefusedLookups(c: ZosmfConnection, api: Api, resp: Response, jobId: string)
    requires forall q :: api.send(q) == Ok(resp)
    requires resp.status != 200
    ensures c.JobFound(jobId, api) == Err(ZosmfError("failed to get job status", resp, api.errorBody))
    ensures c.JobOutput(jobId, api) == Err(ZosmfError("failed to get job status", resp, api.errorBody))
  {
  }

  /** A request that fails is wrapped in the operation's context. */
  lemma FailedRequests(c: ZosmfConnection, api: Api, e: string, dataset: string, member: string, jobId: string)
    requires forall q :: api.send(q) == Err(e)
    ensures c.MemberRead(dataset, member, api) == Err(Wrap("failed to read " + MemberName(TrimChar(dataset, '\''), member), e))
    ensures c.MembersListed(dataset, api) == Err(Wrap("failed to list members", e))
    ensures c.JobOutput(jobId, api) == Err(Wrap("failed to get job status", e))
  {
  }

  /** Listing the jobs of no particular owner lists the user's jobs. */
  lemma JobsListedDefaultOwner(c: ZosmfConnection, api: Api)
    ensures c.JobsListed("", api) == c.JobsListed(c.user, api)
  {
  }

  /** A job without spool files has empty output. */
  lemma JobOutputNoFiles(c: ZosmfConnection, jobId: string, api: Api)
    requires c.JobFound(jobId, api).Ok?
    requires c.SpoolFilesListed(c.JobFound(jobId, api).value.jobName, jobId, api) == Ok([])
    ensures c.JobOutput(jobId, api) == Ok("")
  {
  }

  /** With spool files, the output is what the fetches assemble to: the first
      failure in file order, or every block in file order. */
  lemma JobOutputAssembled(c: ZosmfConnection, jobId: string, api: Api, files: seq<JobFile>)
    requires c.JobFound(jobId, api).Ok? && files != []
    requires c.SpoolFilesListed(c.JobFound(jobId, api).value.jobName, jobId, api) == Ok(files)
    ensures var results := Fetched(c.baseUrl, c.user, c.password, c.JobFound(jobId, api).value.jobName, jobId, files, api);
      && (forall i :: 0 <= i < |results| ==> results[i].err.None?) ==> c.JobOutput(jobId, api) == Ok(Join(Blocks(results), "\n"))
  {
  }
}
