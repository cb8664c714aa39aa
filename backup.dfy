/** The backup application over real objects: the authenticator that owns
    an account's `Bitwarden` client, and the `backup` command's loop over
    the configured accounts. Each method is proved to do what the
    corresponding function of `BackupSpec` says. */
module App {
  import opened Results
  import opened Cli
  import opened ClientSpec
  import opened BackupSpec
  import Client

  /** The password and API-key authenticators, told apart by `mode`. */
  class Authenticator {
    const account: AccountConfig
    const url: string
    const mode: AuthMode
    const bw: Client.Bitwarden

    constructor (account: AccountConfig, url: string, bw: Client.Bitwarden)
      ensures this.account == account && this.url == url && this.bw == bw
      ensures mode == SelectMode(account)
    {
      this.account := account;
      this.url := url;
      this.bw := bw;
      mode := SelectMode(account);
    }

    /** `unlockVault(password)`. */
    method UnlockVault(password: string) returns (r: Result<bool, Error>)
      modifies bw.host, bw`session
      ensures (r, bw.Abs()) == BackupSpec.UnlockVault(old(bw.Abs()), bw.host.oracle, bw.app, mode, account.email, url, password)
    {
      match mode
      case PasswordMode =>
        r := bw.LoginWithPassword(account.email, password, DefaultRetryCount);
      case ApiKeyMode(clientId, clientSecret) =>
        var status := bw.LoginWithApiKey(clientId, clientSecret, DefaultRetryCount);
        if status.Failure? {
          return Failure(status.error);
        }
        if !status.value {
          return Failure(AuthenticationFailed(account.email, url));
        }
        r := bw.Unlock(password);
    }
  }

  /** `getAuthenticator(acct_config, server_url, root_ca_path)`: builds the
      account's client, whose errors escape, and the authenticator its keys
      call for. */
  method GetAuthenticator(host: Host, app: string, acct: AccountConfig, url: string, caPath: Option<string>)
    returns (r: Result<Authenticator, Error>)
    modifies host
    ensures var (res, s') := ClientSpec.Open(old(host.View(None)), host.oracle, app, url, caPath);
            && host.View(None) == s'
            && (r.Success? <==> res.Success?)
            && (r.Failure? ==> r.error == res.error)
    ensures r.Success? ==> && fresh(r.value) && fresh(r.value.bw)
                           && r.value.bw.host == host && r.value.bw.app == app && r.value.bw.session.None?
                           && r.value.account == acct && r.value.url == url && r.value.mode == SelectMode(acct)
  {
    var bw := Client.Bitwarden.Open(host, app, url, caPath);
    if bw.Failure? {
      return Failure(bw.error);
    }
    var auth := new Authenticator(acct, url, bw.value);
    return Success(auth);
  }

  /** The body of the `backup` loop for one account. `session` is the
      session of the account's client when the body ends. */
  method BackupAccount(host: Host, terminal: Terminal, app: string, url: string, caPath: Option<string>,
                       defaultFormat: string, dir: string, dirOk: bool, stamp: string, acct: AccountConfig)
    returns (r: Result<Outcome, Error>, ghost session: Option<string>)
    modifies host, terminal
    ensures (r, World(host.View(session), terminal.prompts))
            == BackupSpec.ProcessAccount(old(World(host.View(None), terminal.prompts)), host.oracle, terminal.answers,
                                         app, url, caPath, defaultFormat, dir, dirOk, stamp, acct)
  {
    var auth := GetAuthenticator(host, app, acct, url, caPath);
    if auth.Failure? {
      return Failure(auth.error), None;
    }
    var a := auth.value;
    var pw := terminal.GetPass(AccountPasswordPrompt(acct.email, url));
    if pw.None? {
      return Success(PasswordPromptFailed), None;
    }
    a.bw.Logout();
    var status := a.UnlockVault(pw.value);
    if status.Failure? && status.error.AuthenticationFailed? {
      return Success(LoginRejected), a.bw.session;
    }
    if status.Failure? {
      return Failure(status.error), a.bw.session;
    }
    var format := EffectiveFormat(acct, defaultFormat);
    var password := None;
    if format == EncryptedJson {
      password := terminal.GetPass(BackupPasswordPrompt(acct.email, url));
      if password.None? {
        return Success(BackupPromptFailed), a.bw.session;
      }
    }
    var exported := a.bw.ExportAll(dir, dirOk, format, password, stamp);
    if exported.Failure? {
      return Failure(exported.error), a.bw.session;
    }
    if !exported.value {
      return Success(ExportFailed), a.bw.session;
    }
    a.bw.Logout();
    return Success(Exported), a.bw.session;
  }

  /** `backup(filename, dir, format)` once the configuration is read:
      every account in turn, until an error no handler catches. */
  method Backup(host: Host, terminal: Terminal, app: string, cfg: BackupConfig, defaultFormat: string,
                dir: string, dirOk: bool, clock: nat -> string)
    returns (report: Report, ghost session: Option<string>)
    modifies host, terminal
    ensures (report, World(host.View(session), terminal.prompts))
            == BackupSpec.Backup(old(World(host.View(None), terminal.prompts)), host.oracle, terminal.answers,
                                 app, cfg, defaultFormat, dir, dirOk, clock)
  {
    var url := cfg.serverUrl.GetOr(DefaultServerUrl);
    var caPath := cfg.caRootCertificate;
    ghost var w0 := World(host.View(None), terminal.prompts);
    ghost var full := Accounts(w0, host.oracle, terminal.answers, app, url, caPath, defaultFormat, dir, dirOk,
                               clock, cfg.accounts, 0);
    assert full == BackupSpec.Backup(w0, host.oracle, terminal.answers, app, cfg, defaultFormat, dir, dirOk, clock);
    AccountsBegin(w0, host.oracle, terminal.answers, app, url, caPath, defaultFormat, dir, dirOk, clock, cfg.accounts);
    var outcomes: seq<Outcome> := [];
    session := None;
    var i := 0;
    while i < |cfg.accounts|
      invariant 0 <= i <= |cfg.accounts|
      invariant Remaining(full, outcomes, World(host.View(session), terminal.prompts), host.oracle, terminal.answers,
                          app, url, caPath, defaultFormat, dir, dirOk, clock, cfg.accounts, i)
    {
      ghost var w := World(host.View(session), terminal.prompts);
      assert w.(state := w.state.(session := None)) == World(host.View(None), terminal.prompts);
      var r, s := BackupAccount(host, terminal, app, url, caPath, defaultFormat, dir, dirOk, clock(i), cfg.accounts[i]);
      if r.Failure? {
        AccountsStop(w, host.oracle, terminal.answers, app, url, caPath, defaultFormat, dir, dirOk, clock,
                     cfg.accounts, i, full, outcomes, r, World(host.View(s), terminal.prompts));
        return Report(outcomes, Some(r.error)), s;
      }
      AccountsAdvance(w, host.oracle, terminal.answers, app, url, caPath, defaultFormat, dir, dirOk, clock,
                      cfg.accounts, i, full, outcomes, r, World(host.View(s), terminal.prompts));
      outcomes := outcomes + [r.value];
      session := s;
      i := i + 1;
    }
    AccountsFinish(World(host.View(session), terminal.prompts), host.oracle, terminal.answers, app, url, caPath,
                   defaultFormat, dir, dirOk, clock, cfg.accounts, full, outcomes);
    return Report(outcomes, None), session;
  }
}
