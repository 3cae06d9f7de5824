# zm connection core in Dafny

`zm` is a command-line client for z/OS. It lists datasets and members, reads and
writes members and files, submits JCL and looks up jobs. It reaches the host in
one of two ways:

- the **FTP backend** (`FTPConnection`). It uses an FTP client library for
  datasets and files. For jobs it opens its own session with the JES interface
  of the z/OS FTP server (`jesClient`). That session speaks the control
  protocol line by line and opens passive-mode data connections;
- the **REST backend** (`ZOSMFConnection`). It sends one or more HTTPS requests
  to z/OSMF per operation and decodes the JSON answers.

This project models both backends, the JES session, the parsers of the FTP
listings, the factory that chooses a backend, the profile handling of the
configuration, and the dataset-name parser of the `cat` command. Each operation
is stated against a specification, and the properties the code promises are
proved about those specifications; what a contract does not promise is listed
under "Left out".

The modules follow the repository:

| module | file | models |
|---|---|---|
| `Wrappers`, `GoStrings` | wrappers.dfy, gostrings.dfy | `Option`/`Result`, the Go string and number functions the core calls (`strings.TrimSpace`, `Fields`, `Split`, `Join`, `strconv.Atoi` with its 64-bit clamping, `Itoa`, `url.QueryEscape`) |
| `Records` | records.dfy | `JobStatus` and `Member` of `internal/connection/connection.go` |
| `Listing` | listing.dfy | `parseMemberLine`, `parseMemberList`, `parseMemberListFromDebug`, `parseJobLine` |
| `JesProtocol` | jes.dfy | `jesClient` as functions of the connection state: reply framing, `parsePASV`, `parseJobLines`, and every command sequence |
| `JesSession` | jes_session.dfy | `jesClient` as a class whose methods are proved to follow `JesProtocol`, plus `newJESClient` |
| `FtpBackend` | ftp_backend.dfy | `FTPConnection` |
| `Zosmf` | zosmf.dfy | `ZOSMFConnection`, `doRequest`, `zosmfError`, `parseZOSMFJobs` |
| `Factory` | factory.dfy | `NewConnection` |
| `Cat` | cat.dfy | `parseDSN`, `trimQuotes` |
| `Config` | config.dfy | the defaulting loop of `Load`, `GetProfile`, `Validate` |

Several things outside the core become parameters:

- **JES control connection.** It is the sequence of reply lines the server will
  send, and the model records every line the client writes (`JesProtocol.Wire`).
- **JES data connection.** A `dial` function turns an address into the lines a
  line scanner delivers, plus the error the scanner stops with.
- **FTP client library.** An `FtpServer` value gives the result of each library
  call.
- **z/OSMF server and JSON decoders.** An `Api` value: a function from the
  request to the response, plus one decoding function per document type.

Each class method takes these values and is proved equal to a specification
function of the same inputs. The properties are lemmas about those functions.

In the source, `Validate` accepts only the protocols `ftp` and `sftp`, while
`NewConnection` accepts only `ftp` and `zosmf`. The model keeps both as
written.

## Model

| member | source | states |
|---|---|---|
| Cat.TrimQuotes | cmd/cat.go:86-91 | one surrounding pair of single quotes is removed; the name changes exactly when it starts and ends with a quote |
| Cat.TrimQuotesOfQuoted | cmd/cat.go:86-91 | quoting a name and then trimming it gives the name back |
| Cat.TrimQuotesOneSided | cmd/cat.go:86-91 | a quote at only one end is kept |
| Cat.LastIndex | cmd/cat.go:64-84 | the position of the last occurrence of the character, or -1 exactly when it does not occur |
| Cat.Parsed | cmd/cat.go:64-84 | the name is accepted exactly when it holds a `(` and its last `)` comes at least two places after its last `(`; an error carries the trimmed name in the documented message; a success splits the name into `dataset(member)` plus a tail holding no parenthesis, with a non-empty member free of `(` |
| Cat.ParseDsn | cmd/cat.go:64-84 | the scan that records the last `(` and the last `)` returns exactly `Parsed` |
| Cat.ParsedRoundTrip | cmd/cat.go:64-84 | `d(m)` parses back to `d` and `m` whenever `m` is non-empty and free of `(` |
| Cat.ParsedQuotedRoundTrip | cmd/cat.go:64-91 | the same name in single quotes parses the same way |
| Cat.ParsedNeedsBoth | cmd/cat.go:72-78 | a name missing `(` or `)` is refused with the format error |
| Cat.ParsedEmptyMember | cmd/cat.go:76-78 | `d()` is refused |
| Cat.ParsedReversed | cmd/cat.go:76-78 | every name whose last `)` is missing, comes before its last `(` or right after it is refused with the format error |
| Cat.ParsedEndsOpen | cmd/cat.go:76-78 | a name of the form `d)m(` is refused |
| Config.WithDefaults | internal/config/config.go:54-62 | port 0 becomes 21 and an empty protocol becomes `ftp`; every other field is unchanged |
| Config.DefaultedComplete | internal/config/config.go:54-62 | defaulting keeps the profile names and gives every profile a port and a protocol |
| Config.DefaultedIdempotent | internal/config/config.go:54-62 | defaulting twice is defaulting once |
| Config.WithDefaultsIdempotent | internal/config/config.go:54-62 | defaulting one profile twice is defaulting it once |
| Config.WithDefaultsKeeps | internal/config/config.go:54-62 | a profile that already has a port and a protocol is unchanged |
| Config.Configuration.constructor | internal/config/config.go:32-65 | the configuration holds the given profiles and default name |
| Config.Configuration.ApplyDefaults | internal/config/config.go:54-62 | the loop over the profiles leaves every profile replaced by its defaulted form and the default name unchanged |
| Config.Configuration.GetProfile | internal/config/config.go:89-102 | an empty name stands for the default profile; no name at all, an unknown name and a found profile each give their own result, and success happens exactly for a known non-empty name |
| Config.GetProfileDefault | internal/config/config.go:89-95 | asking for the empty name and asking for the default name give the same answer |
| Config.LoadedProfilesComplete | internal/config/config.go:54-62 | after loading, every profile found has a port and a protocol |
| Config.Validate | internal/config/config.go:105-118 | host, user and password are checked in that order, then the protocol against exactly `ftp` and `sftp`; the result is nil exactly when all four checks pass |
| Config.DefaultedValidates | internal/config/config.go:105-118 | a loaded profile with a host, a user, a password and no protocol validates |
| Factory.NewConnection | internal/connection/factory.go:5-13 | `zosmf` gives a new REST connection and `ftp` a new FTP connection; each holds the given host, port and credentials and is not yet connected; any other name is refused with `unsupported protocol: <name>` |
| Listing.VersionParts | internal/connection/ftp.go:189-193 | a token that does not split at `.` into exactly two parts gives version 0.0; otherwise the two parts are read as integers, a non-numeral giving 0 |
| Listing.MemberOfFields | internal/connection/ftp.go:187-217 | field 1 is the name, field 2 the version, field 3 the creation date, fields 4 and 5 joined by a space the change stamp, fields 6 to 8 the record counts read as integers, and field 9 the user when present |
| Listing.ParseMemberLine | internal/connection/ftp.go:179-218 | a row gives a named member exactly when it has at least eight fields, each field taken as in `MemberOfFields`; otherwise it gives the empty member |
| Listing.JobLine | internal/connection/ftp.go:312-341 | a row of fewer than four fields gives the empty job; otherwise the fields are the name, the id, the owner and the status, the fifth field is the class when present, and the return code is the one the field scan finds |
| Listing.ParseMemberRow | internal/connection/ftp.go:179-218 | reading back the row the host writes for a member gives that member |
| Listing.ParseJobLine | internal/connection/ftp.go:312-341 | the loop over the fields returns exactly `JobLine` |
| Listing.LastRetCodeWins | internal/connection/ftp.go:331-338 | the last return-code token decides the return code, whatever follows it |
| Listing.LastRetCodeNone | internal/connection/ftp.go:331-338 | without a return-code token the code stays empty |
| Listing.JobRowRoundTrip | internal/connection/ftp.go:312-341 | a row written from single-token fields, with or without a class and an `RC=` or `ABEND=` code, reads back to those fields |
| Listing.JobLineOfFormat | internal/connection/ftp.go:312-341 | reading back the row the host writes for a job gives that job |
| Listing.RowMember | internal/connection/ftp.go:138-146 | a trimmed row yields a member exactly when it has at least eight fields, and such a member is named |
| Listing.KeepRows | internal/connection/ftp.go:152-177 | a table yields no more members than it has lines |
| Listing.KeptRowsNamed | internal/connection/ftp.go:170-173 | every member a table yields is named |
| Listing.ParseMemberList | internal/connection/ftp.go:152-177 | the members are exactly the rows that are not headers, in order |
| Listing.ScanTable | internal/connection/ftp.go:156-174 | the scanner loop keeps exactly `KeepRows` of the lines |
| Listing.ParseMemberListFromDebug | internal/connection/ftp.go:115-150 | the two-state scan over the transcript lines returns exactly `Scrape` |
| Listing.ScrapeInList | internal/connection/ftp.go:120-147 | inside the list, only the rows up to the first end marker count |
| Listing.ScrapeWindow | internal/connection/ftp.go:115-150 | the members are the rows after the first start marker and before the first later end marker |
| Listing.ScrapeBetween | internal/connection/ftp.go:115-150 | a table wrapped between a start line and an end line gives the members of its rows |
| Listing.ScrapeOfTable | internal/connection/ftp.go:115-177 | the transcript scraper and the plain table reader agree on a wrapped table |
| JesProtocol.Classify | internal/connection/jes.go:157-177 | a reply is an error exactly when its text starts with 4 or 5, and the error is `ftp error: <text>` |
| JesProtocol.FinalIndex | internal/connection/jes.go:160-172 | the first line whose fourth character is a space, or -1 when there is none |
| JesProtocol.Frame | internal/connection/jes.go:157-177 | framing never takes more lines than there are |
| JesProtocol.FrameTakesBlock | internal/connection/jes.go:157-177 | a read takes exactly one reply block, continuation lines included, and returns its trimmed text |
| JesProtocol.FrameAtEof | internal/connection/jes.go:160-166 | without a final line the read fails with EOF after taking every line |
| JesProtocol.ReadStopsAt | internal/connection/jes.go:157-177 | a read stops at the first final line |
| JesProtocol.ReadAtEof | internal/connection/jes.go:160-166 | a read that runs out of lines leaves nothing pending |
| JesProtocol.PasvAddress | internal/connection/jes.go:187-203 | anything but six parts is an invalid response; the address is returned exactly when both port parts read as integers, and otherwise the port is reported invalid |
| JesProtocol.PasvReversedParentheses | internal/connection/jes.go:181-187 | `227 )(` passes the guard, but its slice bounds are reversed |
| JesProtocol.ParsePasv | internal/connection/jes.go:179-204 | a reply without both parentheses, or with them reversed, is refused with `invalid PASV response`; every other reply is decoded as written |
| JesProtocol.PasvRoundTrip | internal/connection/jes.go:179-204 | a reply that announces `h1,h2,h3,h4,p1,p2` decodes to `h1.h2.h3.h4:<p1*256+p2>` |
| JesProtocol.PasvOfOctets | internal/connection/jes.go:188-203 | six parts give the dotted host and the port computed from two octets |
| JesProtocol.JobLines | internal/connection/jes.go:206-222 | no more jobs than lines, each with a job id |
| JesProtocol.ParseJobLines | internal/connection/jes.go:206-222 | the loop returns exactly `JobLines` |
| JesProtocol.JobLinesAppend | internal/connection/jes.go:206-222 | each line contributes on its own: a listing of two parts gives the jobs of both, in order |
| JesProtocol.JobTableRoundTrip | internal/connection/jes.go:206-222 | reading back a header line and the rows the host writes for some jobs gives those jobs |
| JesProtocol.CommandLines | internal/connection/jes.go:150-155 | each command is written as one CRLF-terminated line, in order |
| JesProtocol.CommandsAccepted | internal/connection/jes.go:138-141 | when every reply succeeds, every command is written in order, each reply is consumed, and there is no error |
| JesProtocol.CommandsStop | internal/connection/jes.go:138-141 | the first failing reply ends the run with its error; no later command is written |
| JesProtocol.LoginAccepted | internal/connection/jes.go:29-51 | after a welcome the session writes `USER`, `PASS` and `SITE FILETYPE=JES` in that order |
| JesProtocol.LoginRefused | internal/connection/jes.go:29-33 | a failing welcome ends the session before any command |
| JesProtocol.LoginStops | internal/connection/jes.go:35-49 | a refused login command ends the session; none after it is written |
| JesProtocol.SetOwnerAccepted | internal/connection/jes.go:59-64 | `SITE JESOWNER=<owner>` is written before `SITE JESJOBNAME=*` |
| JesProtocol.SetOwnerRefused | internal/connection/jes.go:59-62 | a refused owner filter stops the sequence before the job-name filter |
| JesProtocol.AcceptedIsNoFailure | internal/connection/jes.go:116 | a 125 or 150 reply is no error reply |
| JesProtocol.RetrDataNoConnection | internal/connection/jes.go:85-99 | until the data connection is open only `PASV` is written; the PASV error, the decoding error or the dial error is returned |
| JesProtocol.RetrDataDelivers | internal/connection/jes.go:100-135 | once the data connection is open, the data command is written as `cmd arg` or `cmd` alone; after a 125/150 reply the data lines are returned and the closing reply is consumed |
| JesProtocol.RetrDataRefused | internal/connection/jes.go:112-118 | any other reply to the data command gives `<cmd> failed: <reply>` |
| JesProtocol.ListJobsRoundTrip | internal/connection/jes.go:66-72 | listing the jobs of a session reads back the jobs the host lists, after writing `PASV` and `LIST` |
| JesProtocol.GetJobOutputRefused | internal/connection/jes.go:74-77 | a refused `TYPE A` gives `failed to set ASCII mode` and nothing more is written |
| JesProtocol.GetJobOutputJoins | internal/connection/jes.go:74-83 | after an accepted `TYPE A`, passive mode and a started `RETR`, the output is the lines the data connection delivers joined by newlines, and exactly `TYPE A`, `PASV` and `RETR <jobId>` are written |
| JesSession.JesClient.constructor | internal/connection/jes.go:24-27 | a new client has the server's lines pending and has written nothing |
| JesSession.JesClient.ReadResponse | internal/connection/jes.go:157-177 | the read loop gives the framed reply and state of `JesProtocol.Read` |
| JesSession.JesClient.Send | internal/connection/jes.go:150-155 | the command line is appended to what was written |
| JesSession.JesClient.CmdResp | internal/connection/jes.go:143-148 | send then read, as `JesProtocol.CmdResp` |
| JesSession.JesClient.Cmd | internal/connection/jes.go:138-141 | the reply's error and the new state of `JesProtocol.CmdResp` |
| JesSession.JesClient.Login | internal/connection/jes.go:29-51 | the welcome and the login commands, as `JesProtocol.Login` |
| JesSession.JesClient.SetOwner | internal/connection/jes.go:59-64 | the owner filters, as `JesProtocol.SetOwner` |
| JesSession.JesClient.RetrData | internal/connection/jes.go:85-136 | PASV, dial, the data command, the data and the closing reply, as `JesProtocol.RetrData` |
| JesSession.JesClient.Receive | internal/connection/jes.go:102-135 | the part of `retrData` after the dial, as `JesProtocol.Transferred` |
| JesSession.JesClient.ListJobs | internal/connection/jes.go:66-72 | as `JesProtocol.ListJobs` |
| JesSession.JesClient.GetJobOutput | internal/connection/jes.go:74-83 | as `JesProtocol.GetJobOutput` |
| JesSession.JesClient.Close | internal/connection/jes.go:54-57 | `QUIT` is written and the client is closed |
| JesSession.ScanLines | internal/connection/jes.go:121-125 | the scanner loop keeps every delivered line, in order |
| JesSession.NewJesClient | internal/connection/jes.go:17-52 | a client is returned exactly when the connection opens and the login succeeds; it then holds the session state after the login; otherwise the error is `failed to connect: …` or the login error |
| FtpBackend.KeptMembers | internal/connection/ftp.go:73-79 | a name is kept exactly when it is the non-empty trimmed form of some entry |
| FtpBackend.DatasetNamesMembers | internal/connection/ftp.go:73-79 | the dataset names are exactly the non-empty trimmed entries |
| FtpBackend.KeptShorter | internal/connection/ftp.go:73-79 | no more names than entries |
| FtpBackend.RetrNameParses | internal/connection/ftp.go:220-243 | the quoted `dataset(member)` name the backend retrieves is one `parseDSN` splits back into the unquoted dataset and the member |
| FtpBackend.FindJob | internal/connection/ftp.go:286-291 | the position of the first job with the id, or -1 when no job has it |
| FtpBackend.Lookup | internal/connection/ftp.go:280-293 | a job is found exactly when one in the list has the id; otherwise the error is `job <id> not found` |
| FtpBackend.LookupFirst | internal/connection/ftp.go:286-291 | the first job with the id is the one found |
| FtpBackend.Search | internal/connection/ftp.go:286-292 | the search loop returns exactly `Lookup` |
| FtpBackend.FtpConnection.constructor | internal/connection/ftp.go:25-32 | a new connection holds the given host, port and credentials and is not connected |
| FtpBackend.FtpConnection.Connect | internal/connection/ftp.go:34-49 | the error is the dial or login failure; the connection is open afterwards exactly when it was already open or the attempt succeeded |
| FtpBackend.FtpConnection.Close | internal/connection/ftp.go:51-59 | on a closed connection, nothing happens; a failed QUIT is reported and the connection stays open; a successful QUIT closes the connection |
| FtpBackend.FtpConnection.ListDatasets | internal/connection/ftp.go:61-81 | `not connected`, the wrapped `NameList` error, or the trimmed non-blank names listed for `'pattern.*'` |
| FtpBackend.FtpConnection.ListMembers | internal/connection/ftp.go:83-113 | a second, debug-recording session changes into the dataset; the members are those scraped from its transcript; each failure is wrapped in its step's context |
| FtpBackend.FtpConnection.ReadMember | internal/connection/ftp.go:220-243 | what `Retr` returns in ASCII mode for `'dataset(member)'` |
| FtpBackend.FtpConnection.ReadFile | internal/connection/ftp.go:249-270 | what `Retr` returns in ASCII mode for the path |
| FtpBackend.FtpConnection.WriteMember | internal/connection/ftp.go:245-247 | always fails with the not-implemented error |
| FtpBackend.FtpConnection.WriteFile | internal/connection/ftp.go:272-274 | always fails with the not-implemented error |
| FtpBackend.FtpConnection.SubmitJcl | internal/connection/ftp.go:276-278 | always fails with the not-implemented error and an empty job id |
| FtpBackend.FtpConnection.ListJobs | internal/connection/ftp.go:295-310 | a JES session is opened; the owner (the user if none is given) is set; the result is the job list of that session, or the error of the step that failed |
| FtpBackend.FtpConnection.GetJobStatus | internal/connection/ftp.go:280-293 | the first of the user's jobs with the id |
| FtpBackend.FtpConnection.GetJobOutput | internal/connection/ftp.go:343-355 | the spool of the job, through a session owned by the user |
| FtpBackend.NeedsConnection | internal/connection/ftp.go:62-64 | listing datasets and members and reading members and files all refuse to work before `Connect`, as the same guard does in each of them |
| FtpBackend.JobsListedDefaultOwner | internal/connection/ftp.go:295-310 | listing the jobs of no owner lists the user's jobs |
| FtpBackend.JobFoundFirst | internal/connection/ftp.go:280-293 | a job is found exactly when the user's job list holds its id, and it is the first such job |
| Zosmf.SetPairsNames | internal/connection/zosmf.go:74-76 | the extra header pairs add their names and no others |
| Zosmf.SetPairsKeeps | internal/connection/zosmf.go:74-76 | a header that no pair names keeps its value |
| Zosmf.SetPairsLast | internal/connection/zosmf.go:74-76 | the last pair for a name wins |
| Zosmf.SetPairsOdd | internal/connection/zosmf.go:74-76 | a trailing name without a value sets nothing |
| Zosmf.RequestAuthenticated | internal/connection/zosmf.go:65-79 | every request carries basic authentication, the cross-site header and the URL of the base and path |
| Zosmf.Capped | internal/connection/zosmf.go:83 | at most the first 1024 characters of the body, and all of a shorter body |
| Zosmf.ZosmfError | internal/connection/zosmf.go:81-103 | the message starts with the action and ends with ` (status <code>)` |
| Zosmf.ZosmfErrorForms | internal/connection/zosmf.go:81-103 | the message takes one of three forms: the document's message with its first detail, its message alone, or the capped body |
| Zosmf.ZosmfErrorQuotesPrefix | internal/connection/zosmf.go:81-103 | a long body that is no error document is quoted by its first 1024 characters |
| Zosmf.Checked | internal/connection/zosmf.go:115-121 | a failed request is wrapped in the operation's context; an answer is accepted exactly when its status is in the allowed set; any other status gives `zosmfError` |
| Zosmf.Decoded | internal/connection/zosmf.go:124-127 | a decoding failure is wrapped in the parse context; a good document is returned as decoded |
| Zosmf.MembersOf | internal/connection/zosmf.go:169-185 | one member per item, in order, each field taken over; the change stamp is the change date and time joined by a space, or the date alone when there is no time |
| Zosmf.BackendsAgree | internal/connection/zosmf.go:169-185 | a member the REST interface reports reads the same as the matching row of the FTP listing |
| Zosmf.JobOfItemInjective | internal/connection/zosmf.go:307-320 | different items give different jobs |
| Zosmf.ParseZosmfJobs | internal/connection/zosmf.go:307-320 | one job per item, in order, field for field |
| Zosmf.JobsOf | internal/connection/zosmf.go:307-320 | one job per item, in order, with id, name, owner, status, return code and class taken over unchanged |
| Zosmf.Blocks | internal/connection/zosmf.go:418-430 | one block per spool result, in order: the header `--- DD: <dd> (Step: <step>) ---`, a newline, then the records |
| Zosmf.FirstFailure | internal/connection/zosmf.go:418-430 | the first failed fetch, or -1 when every fetch succeeded |
| Zosmf.AssembledFirstError | internal/connection/zosmf.go:418-430 | the error reported is the one of the first failed fetch in file order |
| Zosmf.AssembledBlocks | internal/connection/zosmf.go:418-430 | without failures the output is the blocks, joined by newlines and in file order, starting with the first header |
| Zosmf.ZosmfConnection.constructor | internal/connection/zosmf.go:27-34 | a new connection holds the given host, port and credentials and has no client |
| Zosmf.ZosmfConnection.Connect | internal/connection/zosmf.go:36-54 | the base URL is `https://host:port`; this cannot fail |
| Zosmf.ZosmfConnection.Close | internal/connection/zosmf.go:56-63 | the client is dropped; this cannot fail |
| Zosmf.ZosmfConnection.DoRequest | internal/connection/zosmf.go:65-79 | the header loop builds the request that `RequestFor` describes, and the server's answer to it is returned |
| Zosmf.ZosmfConnection.ListDatasets | internal/connection/zosmf.go:113-134 | as `DatasetsListed`: the names listed for the pattern, or the request, status or decoding error |
| Zosmf.ZosmfConnection.ListMembers | internal/connection/zosmf.go:151-188 | as `MembersListed`: the members of the unquoted dataset, mapped item by item |
| Zosmf.ZosmfConnection.ReadMember | internal/connection/zosmf.go:190-203 | as `MemberRead`: the member's body on 200 |
| Zosmf.ZosmfConnection.WriteMember | internal/connection/zosmf.go:205-219 | as `MemberWritten`: a text upload accepted on 201 or 204 |
| Zosmf.ZosmfConnection.ReadFile | internal/connection/zosmf.go:223-235 | as `FileRead` |
| Zosmf.ZosmfConnection.WriteFile | internal/connection/zosmf.go:237-250 | as `FileWritten` |
| Zosmf.ZosmfConnection.SubmitJcl | internal/connection/zosmf.go:254-274 | as `JclSubmitted`: the job id the server assigns, on 201 |
| Zosmf.ZosmfConnection.ListJobs | internal/connection/zosmf.go:285-305 | as `JobsListed`: the owner's jobs, or the user's when no owner is given |
| Zosmf.ZosmfConnection.JobFound | internal/connection/zosmf.go:322-351 | a failed lookup keeps its error; an empty list gives `job <id> not found`; otherwise the first job listed |
| Zosmf.ZosmfConnection.GetJobStatus | internal/connection/zosmf.go:322-351 | returns exactly `JobFound` |
| Zosmf.ZosmfConnection.ListSpoolFiles | internal/connection/zosmf.go:365-378 | the spool files the server lists for the job |
| Zosmf.ZosmfConnection.FetchSpools | internal/connection/zosmf.go:393-416 | a new array holding each file's fetch at that file's index |
| Zosmf.ZosmfConnection.GetJobOutput | internal/connection/zosmf.go:359-431 | as `JobOutput`: the job's name is looked up; no spool files give empty output; otherwise the fetches are assembled |
| Zosmf.Fetched | internal/connection/zosmf.go:393-416 | one fetch per file, each a GET of that file's records: a failed request gives the error `failed to read DD <dd>: <error>`, an answer gives the DD, the step and the body |
| Zosmf.Assemble | internal/connection/zosmf.go:418-430 | the assembly loop returns exactly `Assembled` of the results |
| Zosmf.AcceptedStatuses | internal/connection/zosmf.go:190-274 | reads accept only 200, writes only 201 and 204, and submission only 201; every other status is reported by `zosmfError` with the operation's action |
| Zosmf.RefusedLists | internal/connection/zosmf.go:113-134 | listing datasets, members or jobs fails with `zosmfError` on any status other than 200 |
| Zosmf.RefusedLookups | internal/connection/zosmf.go:322-351 | a refused job lookup fails the status query and the output with `failed to get job status` |
| Zosmf.FailedRequests | internal/connection/zosmf.go:155-157 | a request that fails is wrapped in the operation's context, for the member list here and likewise for reading a member and for the job lookup of `GetJobOutput` |
| Zosmf.JobsListedDefaultOwner | internal/connection/zosmf.go:286-289 | listing the jobs of no owner lists the user's jobs |
| Zosmf.JobOutputNoFiles | internal/connection/zosmf.go:380-382 | a job without spool files has empty output |
| Zosmf.JobOutputAssembled | internal/connection/zosmf.go:359-431 | with spool files, the output is the assembly of one fetch per file |

## Left out

- Sockets, timeouts and read deadlines are not modelled. A JES control
  connection is the list of reply lines the server will send. Exhausting it is
  the read error `EOF`. A final line that ends without a newline at end of
  stream is not modelled separately.
- Writes to the JES control connection never fail, so the `failed to send`
  branches of `retrData` are not modelled.
- TCP dialling of the JES session and of its data connection is the `connect`
  and `dial` parameters.
- The FTP client library is the `FtpServer` parameter. This covers `Dial`,
  `Login`, `NameList`, `ChangeDir`, `List`, `Retr`, `Type` and `Quit`.
- FtpBackend.FtpConnection.ListMembers: the deferred `Quit` of the second
  session has no effect in the model, because its error is ignored in the
  source.
- FtpBackend.FtpConnection.ListMembers: the transcript the library writes of
  that session is given by the server parameter.
- HTTPS, TLS settings and JSON decoding are the `Api` parameter.
- `http.NewRequest` errors are not modelled, and header names are not
  canonicalised.
- Errors from reading a response body are not modelled. A failure to read the
  records of a spool file is not distinguished from a failed request.
- The status of a spool-records answer is not checked. It is used whatever it
  is, as in the source.
- The goroutines of `GetJobOutput` are modelled as one fetch per index. Each
  result is stored at its own index, so the order of completion does not
  matter.
- Zosmf.ZosmfConnection.GetJobOutput: returns `Ok("")` where the source
  returns a nil slice for a job without spool files.
- Every REST operation `requires connected`, because in the source each one
  panics on the nil client before `Connect`.
- JesSession.JesClient.Close: the network connection itself is not modelled.
  The `closed` flag stands for it.
- FtpBackend.FtpConnection.ListJobs: the deferred close of the JES session
  (internal/connection/ftp.go:300) is performed by the method but not stated in
  its contract, because the session's wire is local and the result does not
  depend on it; the same holds for `GetJobStatus` and `GetJobOutput`.
- Config.Configuration: a profile is a value, never nil. A nil entry in the
  profile map, which makes `Load` fail with a nil dereference at
  internal/config/config.go:54-55, is not modelled.
- The JES clients that `FtpConnection.ListJobs`, `GetJobStatus` and
  `GetJobOutput` open and close are local to those methods. Their wire is not
  exposed.
- The `Connection` interface is not modelled. Factory returns a datatype with
  one variant per backend instead.
- Loading and saving the configuration file (file I/O and YAML) is not
  modelled. Only the defaulting loop of `Load` is.
- The commands of `cmd/` other than `parseDSN` and `trimQuotes` are not part of
  this model, and neither is the editor.
- Strings are sequences of characters. Where the source counts bytes (the
  fourth byte of a reply line, the 1024-byte cap on error bodies), the model
  counts characters, which agree on ASCII text.
- Listing.ParseMemberList: the error of the line scanner is not modelled.

## Findings

| source | as written | input that shows it | evidently intended | confidence | as-written member | corrected member |
|---|---|---|---|---|---|---|
| internal/connection/jes.go:181-187 | `parsePASV` only checks that both `(` and `)` occur, then slices from after the first `(` to the first `)` | `227 )(`: the `(` is at 5 and the `)` at 4, so the slice `resp[6:4]` panics | reject the reply as an invalid PASV response | not executed | JesProtocol.PasvReversedParentheses | JesProtocol.ParsePasv |
