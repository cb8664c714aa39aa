/** The `Bitwarden` wrapper object: it holds the CLI location, the (never
    recorded) server URL and the session token, and every operation runs
    the CLI through the host. Each method is proved to do exactly what the
    corresponding function of `ClientSpec` says, on the state `Abs()`. */
module Client {
  import opened Results
  import opened Text
  import opened Types
  import opened Cli
  import Session
  import opened ClientSpec

  class Bitwarden {
    const host: Host
    const app: string
    var serverUrl: Option<string>
    var session: Option<string>

    /** The state the operations of `ClientSpec` act on. */
    ghost function Abs(): State
      reads this, host
    {
      host.View(session)
    }

    /** The `serverUrl` property: the recorded URL. */
    function ServerUrl(): (u: Option<string>)
      reads this
    {
      serverUrl
    }

    constructor (host: Host, app: string)
      ensures this.host == host && this.app == app
      ensures serverUrl.None? && session.None?
    {
      this.host := host;
      this.app := app;
      serverUrl := None;
      session := None;
    }

    /** `__init__`: a client with no session, talking to `serverUrl`; any
        exception of the status query or the server switch escapes the
        constructor. */
    static method Open(host: Host, app: string, serverUrl: string, caCertPath: Option<string>)
      returns (r: Result<Bitwarden, Error>)
      modifies host
      ensures var (res, s') := ClientSpec.Open(old(host.View(None)), host.oracle, app, serverUrl, caCertPath);
              && host.View(None) == s'
              && (r.Success? <==> res.Success?)
              && (r.Failure? ==> r.error == res.error)
      ensures r.Success? ==> fresh(r.value) && r.value.host == host && r.value.app == app
                             && r.value.session.None? && r.value.ServerUrl().None?
    {
      var b := new Bitwarden(host, app);
      if caCertPath.Some? {
        host.SetEnv(CaCertsVar, caCertPath.value);
      }
      var st := b.Status();
      if st.None? {
        return Failure(TypeError);
      }
      if st.value.serverUrl != serverUrl {
        var x := b.SetServerUrl(serverUrl);
        if x.Failure? {
          return Failure(x.error);
        }
      }
      return Success(b);
    }

    /** The `serverUrl` setter. The URL is not recorded. */
    method SetServerUrl(url: string) returns (r: Result<(), Error>)
      modifies host
      ensures (r, Abs()) == ClientSpec.SetServerUrl(old(Abs()), host.oracle, app, url)
      ensures ServerUrl() == old(ServerUrl())
    {
      var st := Status();
      if st.None? {
        return Failure(TypeError);
      }
      if st.value.status != Unauthenticated {
        return Failure(InvalidState);
      }
      var _ := host.Run([app, "config", "server", url]);
      return Success(());
    }

    /** `__extractSessionFromStdOut__`. */
    method ExtractSessionFromStdOut(stdout: string) returns (r: Result<(), Error>)
      modifies this`session
      ensures (r, Abs()) == ClientSpec.ExtractSession(old(Abs()), stdout)
    {
      var lines := Split(stdout, '\n');
      var i := 0;
      while i < |lines|
        invariant 0 <= i <= |lines|
        invariant Session.Scan(lines, old(session)) == Session.Scan(lines[i..], session)
      {
        assert lines[i..][1..] == lines[i + 1..];
        var line := lines[i];
        if Contains(line, Session.ExportMarker) {
          var idx := IndexOf(line, '=');
          if idx.None? {
            return Failure(ValueError);
          }
          session := Some(Session.TokenAt(line, idx.value));
        }
        i := i + 1;
      }
      return Success(());
    }

    /** The `status` property. */
    method Status() returns (st: Option<StatusRecord>)
      modifies host
      ensures (st, Abs()) == ClientSpec.Status(old(Abs()), host.oracle, app)
    {
      var args := [app, "status"];
      if session.Some? {
        args := args + ["--session", session.value];
      }
      assert args == StatusArgs(app, session);
      var reply := host.Run(args);
      if reply.code == 0 {
        return Some(reply.status);
      }
      return None;
    }

    /** The retry loop shared by both logins: from attempt 1, run `args`
        until it exits 0 or `retry` attempts are spent, sleeping after each
        failure. */
    method RetryUntilSuccess(args: seq<string>, retry: int) returns (out: Option<string>)
      modifies host
      ensures (out, Abs()) == ClientSpec.Retry(old(Abs()), host.oracle, args, 1, retry)
    {
      var n: nat := 1;
      while n <= retry
        invariant n >= 1
        invariant ClientSpec.Retry(old(Abs()), host.oracle, args, 1, retry)
                  == ClientSpec.Retry(Abs(), host.oracle, args, n, retry)
        decreases retry - n
      {
        var reply := host.Run(args);
        if reply.code == 0 {
          return Some(reply.stdout);
        }
        host.Sleep(n);
        n := n + 1;
      }
      return None;
    }

    /** `loginWithPassword`. */
    method LoginWithPassword(username: string, password: string, retry: int) returns (r: Result<bool, Error>)
      modifies host, this`session
      ensures (r, Abs()) == ClientSpec.LoginWithPassword(old(Abs()), host.oracle, app, username, password, retry)
    {
      var st := Status();
      if st.None? {
        return Failure(TypeError);
      }
      if st.value.status != Unauthenticated {
        return Failure(InvalidState);
      }
      var out := RetryUntilSuccess(LoginArgs(app, username, password), retry);
      if out.None? {
        return Success(false);
      }
      var x := ExtractSessionFromStdOut(out.value);
      if x.Failure? {
        return Failure(x.error);
      }
      var y := Sync();
      if y.Failure? {
        return Failure(y.error);
      }
      return Success(true);
    }

    /** `loginWithApiKey`. */
    method LoginWithApiKey(clientId: string, clientSecret: string, retry: int) returns (r: Result<bool, Error>)
      modifies host
      ensures (r, Abs()) == ClientSpec.LoginWithApiKey(old(Abs()), host.oracle, app, clientId, clientSecret, retry)
    {
      var st := Status();
      if st.None? {
        return Failure(TypeError);
      }
      if st.value.status != Unauthenticated {
        return Failure(InvalidState);
      }
      host.SetEnv(ClientIdVar, clientId);
      host.SetEnv(ClientSecretVar, clientSecret);
      var out := RetryUntilSuccess(ApiKeyLoginArgs(app), retry);
      ghost var scoped := host.env;
      host.DeleteEnv(ClientIdVar);
      host.DeleteEnv(ClientSecretVar);
      assert host.env == scoped - {ClientIdVar, ClientSecretVar};
      return Success(out.Some?);
    }

    /** `logout`. */
    method Logout()
      modifies host, this`session
      ensures Abs() == ClientSpec.Logout(old(Abs()), host.oracle, app)
    {
      var _ := host.Run([app, "logout"]);
      session := None;
    }

    /** `unlock`. */
    method Unlock(password: string) returns (r: Result<bool, Error>)
      modifies host, this`session
      ensures (r, Abs()) == ClientSpec.Unlock(old(Abs()), host.oracle, app, password)
    {
      var st := Status();
      if st.None? {
        return Failure(TypeError);
      }
      if st.value.status == Unlocked {
        return Success(true);
      }
      if st.value.status == Unauthenticated {
        return Failure(InvalidState);
      }
      host.SetEnv(PasswordVar, password);
      var reply := host.Run(UnlockArgs(app));
      host.DeleteEnv(PasswordVar);
      if reply.code == 0 {
        var x := ExtractSessionFromStdOut(reply.stdout);
        if x.Failure? {
          return Failure(x.error);
        }
        return Success(true);
      }
      return Success(false);
    }

    /** `lock`. */
    method Lock()
      modifies host
      ensures Abs() == ClientSpec.Lock(old(Abs()), host.oracle, app)
    {
      var _ := host.Run([app, "lock"]);
    }

    /** `sync`. */
    method Sync() returns (r: Result<bool, Error>)
      modifies host
      ensures (r, Abs()) == ClientSpec.Sync(old(Abs()), host.oracle, app)
    {
      if session.None? {
        return Failure(VaultNotUnlocked);
      }
      var reply := host.Run([app, "sync", "--session", session.value]);
      return Success(reply.code == 0);
    }

    /** The `items` property. */
    method Items() returns (r: Option<seq<Item>>)
      modifies host
      ensures (r, Abs()) == ClientSpec.Items(old(Abs()), host.oracle, app)
    {
      if session.None? {
        return None;
      }
      var _ := host.Run([app, "list", "items", "--session", session.value]);
      return Some([]);
    }

    /** `__getitem__(name)`. */
    method GetItem(name: string) returns (r: seq<Option<Item>>)
      modifies host
      ensures (r, Abs()) == ClientSpec.ItemsNamed(old(Abs()), host.oracle, app, name)
    {
      if session.None? {
        return [];
      }
      var reply := host.Run([app, "list", "items", "--search", name, "--session", session.value]);
      if reply.code != 0 {
        return [];
      }
      var records := reply.items;
      r := [];
      for i := 0 to |records|
        invariant |r| == i
        invariant forall j | 0 <= j < i :: r[j] == GetBitwardenItem(records[j])
      {
        r := r + [GetBitwardenItem(records[i])];
      }
      assert r == DecodeItems(records);
    }

    /** The `orgs` property. */
    method Orgs() returns (r: Option<seq<Organization>>)
      modifies host
      ensures (r, Abs()) == ClientSpec.Orgs(old(Abs()), host.oracle, app)
    {
      if session.None? {
        return None;
      }
      var reply := host.Run([app, "list", "organizations", "--session", session.value]);
      if reply.code != 0 {
        return Some([]);
      }
      var orgs: seq<Organization> := [];
      for i := 0 to |reply.organizations|
        invariant orgs == reply.organizations[..i]
      {
        orgs := orgs + [reply.organizations[i]];
      }
      assert orgs == reply.organizations;
      return Some(orgs);
    }

    /** The `collections` property. */
    method Collections() returns (r: Option<seq<Collection>>)
      modifies host
      ensures (r, Abs()) == ClientSpec.Collections(old(Abs()), host.oracle, app)
    {
      if session.None? {
        return None;
      }
      var reply := host.Run([app, "list", "collections", "--session", session.value]);
      if reply.code != 0 {
        return Some([]);
      }
      var cols: seq<Collection> := [];
      for i := 0 to |reply.collections|
        invariant cols == reply.collections[..i]
      {
        cols := cols + [reply.collections[i]];
      }
      assert cols == reply.collections;
      return Some(cols);
    }

    /** `exportPersonalVault`. */
    method ExportPersonalVault(path: string, format: string, password: Option<string>) returns (r: Result<bool, Error>)
      modifies host
      ensures (r, Abs()) == ClientSpec.Export(old(Abs()), host.oracle, app, path, None, format, password)
    {
      if session.None? {
        return Success(false);
      }
      if format !in Formats {
        return Failure(InvalidArguments);
      }
      if format == EncryptedJson && password.None? {
        return Failure(NoEncryptionPassword);
      }
      var args := [app, "export", "--format", format, "--output", path, "--session", session.value];
      if Truthy(password) {
        args := args + ["--password", password.value];
      }
      assert args == ExportArgs(app, path, format, session.value, None, password);
      var reply := host.Run(args);
      return Success(reply.code == 0);
    }

    /** `exportCollections`. */
    method ExportCollections(path: string, organizationId: string, format: string, password: Option<string>)
      returns (r: Result<bool, Error>)
      modifies host
      ensures (r, Abs()) == ClientSpec.Export(old(Abs()), host.oracle, app, path, Some(organizationId), format, password)
    {
      if session.None? {
        return Success(false);
      }
      if format !in Formats {
        return Failure(InvalidArguments);
      }
      if format == EncryptedJson && password.None? {
        return Failure(NoEncryptionPassword);
      }
      var args := [app, "export", "--format", format, "--output", path, "--session", session.value,
                   "--organizationid", organizationId];
      if Truthy(password) {
        args := args + ["--password", password.value];
      }
      assert args == ExportArgs(app, path, format, session.value, Some(organizationId), password);
      var reply := host.Run(args);
      return Success(reply.code == 0);
    }

    /** `exportAll(dir, format, password)`; `dirOk` says whether `dir`
        exists as a directory once `makedirs` has run, and `stamp` is the
        clock reading formatted as `%Y%m%d-%H%M`. */
    method ExportAll(dir: string, dirOk: bool, format: string, password: Option<string>, stamp: string)
      returns (r: Result<bool, Error>)
      modifies host
      ensures (r, Abs()) == ClientSpec.ExportAll(old(Abs()), host.oracle, app, dir, dirOk, format, password, stamp)
    {
      if session.None? || !dirOk {
        return Success(false);
      }
      var st := Status();
      if st.None? {
        return Failure(TypeError);
      }
      var email := st.value.userEmail;
      var p := ExportPersonalVault(PathJoin(dir, PersonalFileName(email, stamp, format)), format, password);
      if p != Success(true) {
        return p;
      }
      var orgs := Orgs();
      if orgs.None? {
        return Failure(TypeError);
      }
      var list := orgs.value;
      ghost var start := Abs();
      for i := 0 to |list|
        invariant ExportOrgs(start, host.oracle, app, dir, email, stamp, format, password, list)
                  == ExportOrgs(Abs(), host.oracle, app, dir, email, stamp, format, password, list[i..])
      {
        assert list[i..][1..] == list[i + 1..];
        var org := list[i];
        if Eligible(org) {
          var x := ExportCollections(PathJoin(dir, OrgFileName(email, org.name, stamp, format)), org.id, format, password);
          if x != Success(true) {
            return x;
          }
        }
      }
      return Success(true);
    }
  }
}
