/** `NewConnection`: the backend is chosen by the exact protocol name. */
module Factory {
  import opened Wrappers
  import Zosmf
  import FtpBackend

  /** A connection of either transport. */
  datatype Backend = Rest(rest: Zosmf.ZosmfConnection) | Ftp(ftp: FtpBackend.FtpConnection)

  function UnsupportedProtocol(protocol: string): string {
    "unsupported protocol: " + protocol
  }

  /** `zosmf` gives the REST backend and `ftp` the FTP backend, each new, holding
      the host, port, user and password given and not yet connected; any other
      name, in any other spelling, is refused. */
  method NewConnection(host: string, port: int, user: string, password: string, protocol: string)
    returns (r: Result<Backend>)
    ensures r.Ok? && r.value.Rest? <==> protocol == "zosmf"
    ensures r.Ok? && r.value.Ftp? <==> protocol == "ftp"
    ensures r.Err? <==> protocol != "zosmf" && protocol != "ftp"
    ensures r.Err? ==> r.error == UnsupportedProtocol(protocol)
    ensures r.Ok? && r.value.Rest? ==> var c := r.value.rest;
      && fresh(c) && c.host == host && c.port == port && c.user == user && c.password == password
      && !c.connected
    ensures r.Ok? && r.value.Ftp? ==> var c := r.value.ftp;
      && fresh(c) && c.host == host && c.port == port && c.user == user && c.password == password
      && !c.connected
  {
    if protocol == "zosmf" {
      var c := new Zosmf.ZosmfConnection(host, port, user, password);
      return Ok(Rest(c));
    } else if protocol == "ftp" {
      var c := new FtpBackend.FtpConnection(host, port, user, password);
      return Ok(Ftp(c));
    } else {
      return Err(UnsupportedProtocol(protocol));
    }
  }
}
