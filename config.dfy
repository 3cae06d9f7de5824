/** The profiles of the configuration file: lookup by name, validation, and the
    defaulting applied to every profile when the file is loaded. */
module Config {
  import opened Wrappers

  const DefaultPort := 21
  const DefaultProtocol := "ftp"

  /** One named connection profile. */
  datatype Profile = Profile(host: string, port: int, user: string, password: string,
                             protocol: string, hlq: string, ussHome: string)

  /** The defaults for a profile loaded from the file: port 0 becomes the FTP port,
      an empty protocol becomes FTP; nothing else changes. */
  function WithDefaults(p: Profile): (q: Profile)
    ensures q.host == p.host && q.user == p.user && q.password == p.password
    ensures q.hlq == p.hlq && q.ussHome == p.ussHome
    ensures q.port == if p.port == 0 then DefaultPort else p.port
    ensures q.protocol == if p.protocol == "" then DefaultProtocol else p.protocol
  {
    var q := if p.port == 0 then p.(port := DefaultPort) else p;
    if q.protocol == "" then q.(protocol := DefaultProtocol) else q
  }

  /** Every profile of the map with its defaults applied. */
  function Defaulted(profiles: map<string, Profile>): map<string, Profile> {
    map name | name in profiles :: WithDefaults(profiles[name])
  }

  /** A profile with a port and a protocol. */
  predicate HasDefaults(p: Profile) {
    p.port != 0 && p.protocol != ""
  }

  lemma DefaultedComplete(profiles: map<string, Profile>)
    ensures Defaulted(profiles).Keys == profiles.Keys
    ensures forall name :: name in profiles ==> HasDefaults(Defaulted(profiles)[name])
  {
  }

  /** Applying the defaults twice is applying them once. */
  lemma DefaultedIdempotent(profiles: map<string, Profile>)
    ensures Defaulted(Defaulted(profiles)) == Defaulted(profiles)
  {
    var once := Defaulted(profiles);
    forall name | name in once
      ensures WithDefaults(once[name]) == once[name]
    {
      WithDefaultsIdempotent(profiles[name]);
    }
  }

  lemma WithDefaultsIdempotent(p: Profile)
    ensures WithDefaults(WithDefaults(p)) == WithDefaults(p)
  {
  }

  /** A profile that already has a port and a protocol is left as it is. */
  lemma WithDefaultsKeeps(p: Profile)
    requires HasDefaults(p)
    ensures WithDefaults(p) == p
  {
  }

  /** The loaded configuration: the profiles by name and the name of the default. */
  class Configuration {
    var profiles: map<string, Profile>
    var defaultProfile: string

    constructor (profiles: map<string, Profile>, defaultProfile: string)
      ensures this.profiles == profiles && this.defaultProfile == defaultProfile
    {
      this.profiles := profiles;
      this.defaultProfile := defaultProfile;
    }

    /** The defaulting loop of `Load`: each profile in turn gets its defaults and is
        stored back under its name. */
    method ApplyDefaults()
      modifies this
      ensures profiles == Defaulted(old(profiles))
      ensures defaultProfile == old(defaultProfile)
    {
      var todo := profiles.Keys;
      ghost var done: set<string> := {};
      while todo != {}
        invariant todo !! done && todo + done == old(profiles).Keys
        invariant profiles.Keys == old(profiles).Keys
        invariant forall name :: name in done ==> profiles[name] == WithDefaults(old(profiles)[name])
        invariant forall name :: name in todo ==> profiles[name] == old(profiles)[name]
        invariant defaultProfile == old(defaultProfile)
        decreases todo
      {
        var name :| name in todo;
        var p := profiles[name];
        if p.port == 0 {
          p := p.(port := DefaultPort);
        }
        if p.protocol == "" {
          p := p.(protocol := DefaultProtocol);
        }
        profiles := profiles[name := p];
        todo := todo - {name};
        done := done + {name};
      }
    }

    /** `GetProfile`: an empty name stands for the default profile. */
    function GetProfile(name: string): (r: Result<Profile>)
      reads this
      ensures var n := if name == "" then defaultProfile else name;
        && (n == "" ==> r == Err("no profile specified and no default profile set"))
        && (n != "" && n in profiles ==> r == Ok(profiles[n]))
        && (n != "" && n !in profiles ==> r == Err("profile '" + n + "' not found"))
        && (r.Ok? <==> n != "" && n in profiles)
    {
      var n := if name == "" then defaultProfile else name;
      if n == "" then Err("no profile specified and no default profile set")
      else if n !in profiles then Err("profile '" + n + "' not found")
      else Ok(profiles[n])
    }
  }

  /** Naming the default profile and leaving the name empty find the same profile. */
  lemma GetProfileDefault(c: Configuration)
    requires c.defaultProfile != ""
    ensures c.GetProfile("") == c.GetProfile(c.defaultProfile)
  {
  }

  /** Once the defaults are applied, every profile found has a port and a protocol. */
  lemma LoadedProfilesComplete(c: Configuration, name: string)
    requires c.profiles == Defaulted(c.profiles)
    ensures c.GetProfile(name).Ok? ==> HasDefaults(c.GetProfile(name).value)
  {
  }

  /** `Validate`: the first empty field among host, user and password, in that
      order, then a protocol other than exactly `ftp` or `sftp`. */
  function Validate(p: Profile): (r: Failure)
    ensures r == None <==> p.host != "" && p.user != "" && p.password != "" && (p.protocol == "ftp" || p.protocol == "sftp")
    ensures p.host == "" ==> r == Some("host is required")
    ensures p.host != "" && p.user == "" ==> r == Some("user is required")
    ensures p.host != "" && p.user != "" && p.password == "" ==> r == Some("password is required")
    ensures p.host != "" && p.user != "" && p.password != "" && p.protocol != "ftp" && p.protocol != "sftp"
      ==> r == Some("protocol must be 'ftp' or 'sftp'")
  {
    if p.host == "" then Some("host is required")
    else if p.user == "" then Some("user is required")
    else if p.password == "" then Some("password is required")
    else if p.protocol != "ftp" && p.protocol != "sftp" then Some("protocol must be 'ftp' or 'sftp'")
    else None
  }

  /** A loaded profile with a host, a user and a password validates unless its
      protocol was set to something other than `ftp` or `sftp`. */
  lemma DefaultedValidates(p: Profile)
    requires p.host != "" && p.user != "" && p.password != "" && p.protocol == ""
    ensures Validate(WithDefaults(p)) == None
  {
  }
}
