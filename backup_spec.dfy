/** The backup application: which authenticator an account gets, what its
    `unlockVault` does, and the per-account steps of the `backup` command,
    as functions of the process state and the password prompts. */
module BackupSpec {
  import opened Results
  import opened Text
  import opened Types
  import opened Cli
  import opened ClientSpec

  const DefaultServerUrl := "https://vault.bitwarden.com"

  /** One entry of `accounts` in the configuration; an absent key is `None`. */
  datatype AccountConfig = AccountConfig(
    email: string,
    clientId: Option<string>,
    clientSecret: Option<string>,
    format: Option<string>)

  /** The configuration file, already decoded. */
  datatype BackupConfig = BackupConfig(
    serverUrl: Option<string>,
    caRootCertificate: Option<string>,
    accounts: seq<AccountConfig>)

  /** The server the accounts live on: the configured one, else the default. */
  function ServerUrlOf(cfg: BackupConfig): string {
    cfg.serverUrl.GetOr(DefaultServerUrl)
  }

  /** The two authenticators. */
  datatype AuthMode = PasswordMode | ApiKeyMode(clientId: string, clientSecret: string)

  /** `getAuthenticator`: the API-key authenticator exactly when both keys
      are present, whatever their values. */
  function SelectMode(acct: AccountConfig): (m: AuthMode)
    ensures m.ApiKeyMode? <==> acct.clientId.Some? && acct.clientSecret.Some?
    ensures m.ApiKeyMode? ==> m.clientId == acct.clientId.value && m.clientSecret == acct.clientSecret.value
  {
    if acct.clientId.Some? && acct.clientSecret.Some? then ApiKeyMode(acct.clientId.value, acct.clientSecret.value)
    else PasswordMode
  }

  /** `unlockVault(password)` of either authenticator, with the login
      methods' default of five attempts. */
  function UnlockVault(s: State, o: Oracle, app: string, mode: AuthMode, email: string, url: string,
                       password: string): (Result<bool, Error>, State) {
    match mode
    case PasswordMode => LoginWithPassword(s, o, app, email, password, DefaultRetryCount)
    case ApiKeyMode(id, secret) =>
      var (ok, s1) := LoginWithApiKey(s, o, app, id, secret, DefaultRetryCount);
      if ok.Failure? then (Failure(ok.error), s1)
      else if !ok.value then (Failure(AuthenticationFailed(email, url)), s1)
      else Unlock(s1, o, app, password)
  }

  /** `getpass`: the answer to the n-th prompt, or `None` when it raises. */
  type Prompter = nat -> Option<string>

  /** The process state together with the prompts shown so far. */
  datatype World = World(state: State, prompts: seq<string>)

  function Prompt(w: World, ask: Prompter, text: string): (Option<string>, World) {
    (ask(|w.prompts|), w.(prompts := w.prompts + [text]))
  }

  function AccountPasswordPrompt(email: string, url: string): string {
    "Enter Account Password for " + email + " on " + url + ":"
  }

  function BackupPasswordPrompt(email: string, url: string): string {
    "Enter Backup Password for " + email + " on " + url + ":"
  }

  /** The format an account is exported in: its own, else the default. */
  function EffectiveFormat(acct: AccountConfig, defaultFormat: string): string {
    acct.format.GetOr(defaultFormat)
  }

  /** How the loop body for one account ends, when no exception escapes. */
  datatype Outcome =
    | PasswordPromptFailed   // the account password prompt raised
    | LoginRejected          // AuthenticationFailedException
    | BackupPromptFailed     // the backup password prompt raised
    | ExportFailed           // exportAll answered false
    | Exported               // exportAll answered true; logged out

  /** The export at the end of the loop body, and the logout after a
      successful one. */
  function ExportStep(w: World, o: Oracle, app: string, dir: string, dirOk: bool, format: string,
                      password: Option<string>, stamp: string): (Result<Outcome, Error>, World) {
    var (r, s1) := ExportAll(w.state, o, app, dir, dirOk, format, password, stamp);
    if r.Failure? then (Failure(r.error), w.(state := s1))
    else if !r.value then (Success(ExportFailed), w.(state := s1))
    else (Success(Exported), w.(state := Logout(s1, o, app)))
  }

  /** After the unlock: the backup password prompt when the format asks
      for it, then the export. */
  function AfterUnlock(w: World, o: Oracle, ask: Prompter, app: string, url: string, defaultFormat: string,
                       dir: string, dirOk: bool, stamp: string, acct: AccountConfig): (Result<Outcome, Error>, World) {
    var format := EffectiveFormat(acct, defaultFormat);
    if format == EncryptedJson then
      var (bp, w1) := Prompt(w, ask, BackupPasswordPrompt(acct.email, url));
      if bp.None? then (Success(BackupPromptFailed), w1)
      else ExportStep(w1, o, app, dir, dirOk, format, bp, stamp)
    else ExportStep(w, o, app, dir, dirOk, format, None, stamp)
  }

  /** The loop body of `backup` for one account. Only the prompts' errors
      and AuthenticationFailed are caught; every other error ends the
      whole command. */
  function ProcessAccount(w: World, o: Oracle, ask: Prompter, app: string, url: string, caPath: Option<string>,
                          defaultFormat: string, dir: string, dirOk: bool, stamp: string,
                          acct: AccountConfig): (Result<Outcome, Error>, World) {
    var (started, s1) := ClientSpec.Open(w.state, o, app, url, caPath);
    var w1 := w.(state := s1);
    if started.Failure? then (Failure(started.error), w1)
    else
      var (pw, w2) := Prompt(w1, ask, AccountPasswordPrompt(acct.email, url));
      if pw.None? then (Success(PasswordPromptFailed), w2)
      else
        var s3 := Logout(w2.state, o, app);
        var (u, s4) := UnlockVault(s3, o, app, SelectMode(acct), acct.email, url, pw.value);
        var w4 := w2.(state := s4);
        if u.Failure? && u.error.AuthenticationFailed? then (Success(LoginRejected), w4)
        else if u.Failure? then (Failure(u.error), w4)
        else AfterUnlock(w4, o, ask, app, url, defaultFormat, dir, dirOk, stamp, acct)
  }

  /** What `backup` reports: one outcome per account handled, and the error
      that ended it early, if any. */
  datatype Report = Report(outcomes: seq<Outcome>, aborted: Option<Error>)

  /** The loop over `accounts`, the first of which is the `pos`-th of the
      configuration; `clock(i)` is the time stamp the i-th account's export
      reads. */
  function Accounts(w: World, o: Oracle, ask: Prompter, app: string, url: string, caPath: Option<string>,
                    defaultFormat: string, dir: string, dirOk: bool, clock: nat -> string,
                    accounts: seq<AccountConfig>, pos: nat): (Report, World)
    decreases |accounts|
  {
    if accounts == [] then (Report([], None), w)
    else
      var (r, w1) := ProcessAccount(w, o, ask, app, url, caPath, defaultFormat, dir, dirOk, clock(pos), accounts[0]);
      if r.Failure? then (Report([], Some(r.error)), w1)
      else
        var (rest, w2) := Accounts(w1, o, ask, app, url, caPath, defaultFormat, dir, dirOk, clock, accounts[1..], pos + 1);
        (Report([r.value] + rest.outcomes, rest.aborted), w2)
  }

  /** `backup(filename, dir, format)` on a decoded configuration. */
  function Backup(w: World, o: Oracle, ask: Prompter, app: string, cfg: BackupConfig, defaultFormat: string,
                  dir: string, dirOk: bool, clock: nat -> string): (Report, World) {
    Accounts(w, o, ask, app, ServerUrlOf(cfg), cfg.caRootCertificate, defaultFormat, dir, dirOk, clock, cfg.accounts, 0)
  }

  // ---------------------------------------------------------------------
  // Properties

  /** Keys that are present but empty, as in the documented example
      configuration, still select the API-key authenticator. */
  lemma EmptyKeysSelectApiKey(email: string, format: Option<string>)
    ensures SelectMode(AccountConfig(email, Some(""), Some(""), format)) == ApiKeyMode("", "")
    ensures SelectMode(AccountConfig(email, Some(""), None, format)) == PasswordMode
  {
  }

  /** The password authenticator's unlock is exactly a password login with
      the account's email. */
  lemma PasswordUnlockIsLogin(s: State, o: Oracle, app: string, email: string, url: string, password: string)
    ensures UnlockVault(s, o, app, PasswordMode, email, url, password)
            == LoginWithPassword(s, o, app, email, password, DefaultRetryCount)
  {
  }

  /** The API-key authenticator: a rejected key login raises
      AuthenticationFailed with the email and server and never runs
      `unlock`; an accepted one answers what `unlock` answers. */
  lemma ApiKeyUnlockSequence(s: State, o: Oracle, app: string, email: string, url: string, password: string,
                             id: string, secret: string)
    ensures var (login, s1) := LoginWithApiKey(s, o, app, id, secret, DefaultRetryCount);
            var (r, s') := UnlockVault(s, o, app, ApiKeyMode(id, secret), email, url, password);
            && (login == Success(false) ==> r == Failure(AuthenticationFailed(email, url)) && s' == s1)
            && (login == Success(true) ==> (r, s') == Unlock(s1, o, app, password))
            && (login.Failure? ==> r == login && s' == s1)
  {
  }

  /** Unlocking through either authenticator runs only status queries,
      logins, a sync and an unlock. */
  lemma UnlockVaultVerbs(s: State, o: Oracle, app: string, mode: AuthMode, email: string, url: string, password: string)
    ensures Appends(s, UnlockVault(s, o, app, mode, email, url, password).1, {"status", "login", "sync", "unlock"})
  {
    match mode
    case PasswordMode =>
      LoginWithPasswordVerbs(s, o, app, email, password, DefaultRetryCount);
    case ApiKeyMode(id, secret) =>
      LoginWithApiKeyVerbs(s, o, app, id, secret, DefaultRetryCount);
      var s1 := LoginWithApiKey(s, o, app, id, secret, DefaultRetryCount).1;
      UnlockVerbs(s1, o, app, password);
      AppendsTransitive(s, s1, Unlock(s1, o, app, password).1, {"status", "login"}, {"status", "unlock"});
  }

  /** The answer of `unlockVault` is not looked at: once it returns, true
      or false, the account goes on to the format choice and the export. */
  lemma UnlockAnswerIgnored(w: World, o: Oracle, ask: Prompter, app: string, url: string, caPath: Option<string>,
                            defaultFormat: string, dir: string, dirOk: bool, stamp: string, acct: AccountConfig)
    ensures var (started, s1) := ClientSpec.Open(w.state, o, app, url, caPath);
            var w2 := World(s1, w.prompts + [AccountPasswordPrompt(acct.email, url)]);
            var (u, s4) := UnlockVault(Logout(s1, o, app), o, app, SelectMode(acct), acct.email, url,
                                       ask(|w.prompts|).GetOr(""));
            started.Success? && ask(|w.prompts|).Some? && u.Success? ==>
              ProcessAccount(w, o, ask, app, url, caPath, defaultFormat, dir, dirOk, stamp, acct)
              == AfterUnlock(w2.(state := s4), o, ask, app, url, defaultFormat, dir, dirOk, stamp, acct)
  {
  }

  /** After the unlock the backup password prompt appears exactly when the
      effective format is `encrypted_json`, and the account ends for want of
      it exactly when that prompt fails. */
  lemma AfterUnlockPrompts(w: World, o: Oracle, ask: Prompter, app: string, url: string, defaultFormat: string,
                           dir: string, dirOk: bool, stamp: string, acct: AccountConfig)
    ensures var (r, w') := AfterUnlock(w, o, ask, app, url, defaultFormat, dir, dirOk, stamp, acct);
            var second := EffectiveFormat(acct, defaultFormat) == EncryptedJson;
            && w'.prompts == w.prompts + (if second then [BackupPasswordPrompt(acct.email, url)] else [])
            && (r == Success(BackupPromptFailed) <==> second && ask(|w.prompts|).None?)
            && r != Success(PasswordPromptFailed) && r != Success(LoginRejected)
  {
  }

  /** The prompts one account gets: the account password prompt once the
      client is up, then the backup password prompt exactly when the
      password was given, the unlock did not raise and the effective
      format is `encrypted_json`. */
  lemma AccountPrompts(w: World, o: Oracle, ask: Prompter, app: string, url: string, caPath: Option<string>,
                       defaultFormat: string, dir: string, dirOk: bool, stamp: string, acct: AccountConfig)
    ensures var (r, w') := ProcessAccount(w, o, ask, app, url, caPath, defaultFormat, dir, dirOk, stamp, acct);
            var (started, s1) := ClientSpec.Open(w.state, o, app, url, caPath);
            var answered := started.Success? && ask(|w.prompts|).Some?;
            var (u, _) := UnlockVault(Logout(s1, o, app), o, app, SelectMode(acct), acct.email, url,
                                      ask(|w.prompts|).GetOr(""));
            var second := answered && u.Success? && EffectiveFormat(acct, defaultFormat) == EncryptedJson;
            && w'.prompts == w.prompts + (if started.Failure? then [] else [AccountPasswordPrompt(acct.email, url)])
                                       + (if second then [BackupPasswordPrompt(acct.email, url)] else [])
            && (r == Success(PasswordPromptFailed) <==> started.Success? && ask(|w.prompts|).None?)
            && (r == Success(LoginRejected) <==> answered && u.Failure? && u.error.AuthenticationFailed?)
            && (r == Success(BackupPromptFailed) <==> second && ask(|w.prompts| + 1).None?)
  {
    var (started, s1) := ClientSpec.Open(w.state, o, app, url, caPath);
    if started.Success? && ask(|w.prompts|).Some? {
      var w2 := World(s1, w.prompts + [AccountPasswordPrompt(acct.email, url)]);
      var (u, s4) := UnlockVault(Logout(s1, o, app), o, app, SelectMode(acct), acct.email, url, ask(|w.prompts|).value);
      if u.Success? {
        AfterUnlockPrompts(w2.(state := s4), o, ask, app, url, defaultFormat, dir, dirOk, stamp, acct);
      }
    }
  }

  /** One account only appends to the log and to the prompts shown. */
  lemma AccountGrows(w: World, o: Oracle, ask: Prompter, app: string, url: string, caPath: Option<string>,
                     defaultFormat: string, dir: string, dirOk: bool, stamp: string, acct: AccountConfig)
    ensures var w' := ProcessAccount(w, o, ask, app, url, caPath, defaultFormat, dir, dirOk, stamp, acct).1;
            w.state.log <= w'.state.log && w.prompts <= w'.prompts
  {
    AccountLogouts(w, o, ask, app, url, caPath, defaultFormat, dir, dirOk, stamp, acct);
    AccountPrompts(w, o, ask, app, url, caPath, defaultFormat, dir, dirOk, stamp, acct);
  }

  /** Every run at positions `from` to `to` of `log` is one of `verbs`. */
  ghost predicate RunsIn(log: seq<Invocation>, from: int, to: int, verbs: set<string>) {
    forall i | from <= i < to && 0 <= i < |log| :: Verb(log[i]) in verbs
  }

  /** The sub-commands the export phase may run. */
  const ExportAllCommands: set<string> := {"status", "export", "list"}

  /** The sub-commands an account may run between its first logout and the
      end of its export. */
  const LaterCommands: set<string> := {"status", "login", "sync", "unlock", "export", "list"}

  /** After the unlock no login, unlock or sync runs, and a logout runs
      exactly when the export succeeded, as the last run, which leaves no
      session. */
  lemma AfterUnlockLogouts(w: World, o: Oracle, ask: Prompter, app: string, url: string, defaultFormat: string,
                           dir: string, dirOk: bool, stamp: string, acct: AccountConfig)
    ensures var (r, w') := AfterUnlock(w, o, ask, app, url, defaultFormat, dir, dirOk, stamp, acct);
            var log := w'.state.log;
            var k := |w.state.log|;
            && w.state.log <= log
            && (r != Success(Exported) ==> RunsIn(log, k, |log|, ExportAllCommands))
            && (r == Success(Exported) ==>
                  && k < |log|
                  && Verb(log[|log| - 1]) == "logout"
                  && RunsIn(log, k, |log| - 1, ExportAllCommands)
                  && w'.state.session.None?)
  {
    var format := EffectiveFormat(acct, defaultFormat);
    var password := if format == EncryptedJson then ask(|w.prompts|) else None;
    if format != EncryptedJson || password.Some? {
      var s5 := ExportAll(w.state, o, app, dir, dirOk, format, password, stamp).1;
      ExportAllVerbs(w.state, o, app, dir, dirOk, format, password, stamp);
      LogoutVerbs(s5, o, app);
    }
  }

  /** Every account ends in one of three ways with respect to `logout`.
      When the client cannot be set up or the password prompt fails, only
      the setup's status and config runs happen. Otherwise a logout runs
      right after the setup, before any login or unlock; later a second
      logout runs exactly when the export succeeded, as the last run, and
      the account ends without a session. */
  lemma AccountLogouts(w: World, o: Oracle, ask: Prompter, app: string, url: string, caPath: Option<string>,
                       defaultFormat: string, dir: string, dirOk: bool, stamp: string, acct: AccountConfig)
    ensures var (r, w') := ProcessAccount(w, o, ask, app, url, caPath, defaultFormat, dir, dirOk, stamp, acct);
            var (started, s1) := ClientSpec.Open(w.state, o, app, url, caPath);
            var answered := started.Success? && ask(|w.prompts|).Some?;
            var log := w'.state.log;
            var k := |w.state.log|;
            var p := |s1.log|;
            && w.state.log <= log
            && k <= p <= |log|
            && RunsIn(log, k, p, {"status", "config"})
            && (!answered ==> |log| == p)
            && (answered ==> p < |log| && Verb(log[p]) == "logout")
            && (answered && r != Success(Exported) ==> RunsIn(log, p + 1, |log|, LaterCommands))
            && (r == Success(Exported) ==>
                  && answered
                  && p + 1 < |log|
                  && Verb(log[|log| - 1]) == "logout"
                  && RunsIn(log, p + 1, |log| - 1, LaterCommands)
                  && w'.state.session.None?)
  {
    var (started, s1) := ClientSpec.Open(w.state, o, app, url, caPath);
    OpenVerbs(w.state, o, app, url, caPath);
    var (r, w') := ProcessAccount(w, o, ask, app, url, caPath, defaultFormat, dir, dirOk, stamp, acct);
    if started.Success? && ask(|w.prompts|).Some? {
      var w2 := World(s1, w.prompts + [AccountPasswordPrompt(acct.email, url)]);
      var s3 := Logout(s1, o, app);
      LogoutVerbs(s1, o, app);
      var (u, s4) := UnlockVault(s3, o, app, SelectMode(acct), acct.email, url, ask(|w.prompts|).value);
      UnlockVaultVerbs(s3, o, app, SelectMode(acct), acct.email, url, ask(|w.prompts|).value);
      var w4 := w2.(state := s4);
      if u.Success? {
        AfterUnlockLogouts(w4, o, ask, app, url, defaultFormat, dir, dirOk, stamp, acct);
        var log := w'.state.log;
        assert w' == AfterUnlock(w4, o, ask, app, url, defaultFormat, dir, dirOk, stamp, acct).1;
        assert s3.log <= s4.log <= log;
        assert log[|s1.log|] == s3.log[|s1.log|];
      }
    }
  }

  /** Each account gets a client of its own: how it goes does not depend on
      the session the previous account's client was left with. */
  lemma AccountStartsFresh(w: World, o: Oracle, ask: Prompter, app: string, url: string, caPath: Option<string>,
                           defaultFormat: string, dir: string, dirOk: bool, stamp: string, acct: AccountConfig,
                           session: Option<string>)
    ensures ProcessAccount(w.(state := w.state.(session := session)), o, ask, app, url, caPath, defaultFormat, dir, dirOk, stamp, acct)
            == ProcessAccount(w, o, ask, app, url, caPath, defaultFormat, dir, dirOk, stamp, acct)
  {
    assert ClientSpec.Open(w.state.(session := session), o, app, url, caPath) == ClientSpec.Open(w.state, o, app, url, caPath);
  }

  /** One turn of the loop at position `i`: the `i`-th account, handled by
      a fresh client, then the loop from position `i + 1`. */
  lemma AccountsAt(w: World, o: Oracle, ask: Prompter, app: string, url: string, caPath: Option<string>,
                   defaultFormat: string, dir: string, dirOk: bool, clock: nat -> string,
                   accounts: seq<AccountConfig>, i: nat)
    requires i < |accounts|
    ensures var (r, w1) := ProcessAccount(w.(state := w.state.(session := None)), o, ask, app, url, caPath,
                                          defaultFormat, dir, dirOk, clock(i), accounts[i]);
            var (report, w') := Accounts(w, o, ask, app, url, caPath, defaultFormat, dir, dirOk, clock, accounts[i..], i);
            var (rest, w2) := Accounts(w1, o, ask, app, url, caPath, defaultFormat, dir, dirOk, clock, accounts[i + 1..], i + 1);
            && (r.Failure? ==> report == Report([], Some(r.error)) && w' == w1)
            && (r.Success? ==> report.outcomes == [r.value] + rest.outcomes && report.aborted == rest.aborted && w' == w2)
  {
    AccountStartsFresh(w, o, ask, app, url, caPath, defaultFormat, dir, dirOk, clock(i), accounts[i], None);
    assert accounts[i..][0] == accounts[i] && accounts[i..][1..] == accounts[i + 1..];
    AccountsStep(w, o, ask, app, url, caPath, defaultFormat, dir, dirOk, clock, accounts[i..], i);
  }

  /** The loop from position `i` on, run in `w` after the outcomes `done`,
      completes the run `full` of the whole loop. */
  ghost predicate Remaining(full: (Report, World), done: seq<Outcome>, w: World, o: Oracle, ask: Prompter,
                            app: string, url: string, caPath: Option<string>, defaultFormat: string,
                            dir: string, dirOk: bool, clock: nat -> string, accounts: seq<AccountConfig>, i: nat)
    requires i <= |accounts|
  {
    var (rest, w') := Accounts(w, o, ask, app, url, caPath, defaultFormat, dir, dirOk, clock, accounts[i..], i);
    full == (Report(done + rest.outcomes, rest.aborted), w')
  }

  /** Before the first account, the whole loop is still to come. */
  lemma AccountsBegin(w: World, o: Oracle, ask: Prompter, app: string, url: string, caPath: Option<string>,
                      defaultFormat: string, dir: string, dirOk: bool, clock: nat -> string,
                      accounts: seq<AccountConfig>)
    ensures Remaining(Accounts(w, o, ask, app, url, caPath, defaultFormat, dir, dirOk, clock, accounts, 0), [],
                      w, o, ask, app, url, caPath, defaultFormat, dir, dirOk, clock, accounts, 0)
  {
    assert accounts[0..] == accounts;
    var rest := Accounts(w, o, ask, app, url, caPath, defaultFormat, dir, dirOk, clock, accounts, 0).0;
    assert [] + rest.outcomes == rest.outcomes;
  }

  /** After account `i` succeeds, what is still to come is the loop from
      position `i + 1`, in the world that account left. */
  lemma AccountsAdvance(w: World, o: Oracle, ask: Prompter, app: string, url: string, caPath: Option<string>,
                        defaultFormat: string, dir: string, dirOk: bool, clock: nat -> string,
                        accounts: seq<AccountConfig>, i: nat, full: (Report, World), done: seq<Outcome>,
                        r: Result<Outcome, Error>, w1: World)
    requires i < |accounts|
    requires (r, w1) == ProcessAccount(w.(state := w.state.(session := None)), o, ask, app, url, caPath,
                                       defaultFormat, dir, dirOk, clock(i), accounts[i])
    requires r.Success?
    requires Remaining(full, done, w, o, ask, app, url, caPath, defaultFormat, dir, dirOk, clock, accounts, i)
    ensures Remaining(full, done + [r.value], w1, o, ask, app, url, caPath, defaultFormat, dir, dirOk, clock, accounts, i + 1)
  {
    AccountsAt(w, o, ask, app, url, caPath, defaultFormat, dir, dirOk, clock, accounts, i);
    var rest := Accounts(w1, o, ask, app, url, caPath, defaultFormat, dir, dirOk, clock, accounts[i + 1..], i + 1);
    assert done + ([r.value] + rest.0.outcomes) == (done + [r.value]) + rest.0.outcomes;
  }

  /** An error account `i` does not catch ends the loop with the outcomes
      so far and that error. */
  lemma AccountsStop(w: World, o: Oracle, ask: Prompter, app: string, url: string, caPath: Option<string>,
                     defaultFormat: string, dir: string, dirOk: bool, clock: nat -> string,
                     accounts: seq<AccountConfig>, i: nat, full: (Report, World), done: seq<Outcome>,
                     r: Result<Outcome, Error>, w1: World)
    requires i < |accounts|
    requires (r, w1) == ProcessAccount(w.(state := w.state.(session := None)), o, ask, app, url, caPath,
                                       defaultFormat, dir, dirOk, clock(i), accounts[i])
    requires r.Failure?
    requires Remaining(full, done, w, o, ask, app, url, caPath, defaultFormat, dir, dirOk, clock, accounts, i)
    ensures full == (Report(done, Some(r.error)), w1)
  {
    AccountsAt(w, o, ask, app, url, caPath, defaultFormat, dir, dirOk, clock, accounts, i);
    assert done + [] == done;
  }

  /** Past the last account, the loop has finished without an error. */
  lemma AccountsFinish(w: World, o: Oracle, ask: Prompter, app: string, url: string, caPath: Option<string>,
                       defaultFormat: string, dir: string, dirOk: bool, clock: nat -> string,
                       accounts: seq<AccountConfig>, full: (Report, World), done: seq<Outcome>)
    requires Remaining(full, done, w, o, ask, app, url, caPath, defaultFormat, dir, dirOk, clock, accounts, |accounts|)
    ensures full == (Report(done, None), w)
  {
    assert accounts[|accounts|..] == [];
    assert done + [] == done;
  }

  /** The loop handles the accounts in order and stops only on an error it
      does not catch: with no such error there is one outcome per account;
      otherwise the outcomes are those of the accounts before the failing
      one. */
  lemma {:induction false} AccountsCoverage(w: World, o: Oracle, ask: Prompter, app: string, url: string,
                                            caPath: Option<string>, defaultFormat: string, dir: string, dirOk: bool,
                                            clock: nat -> string, accounts: seq<AccountConfig>, pos: nat)
    ensures var (report, w') := Accounts(w, o, ask, app, url, caPath, defaultFormat, dir, dirOk, clock, accounts, pos);
            && (report.aborted.None? <==> |report.outcomes| == |accounts|)
            && |report.outcomes| <= |accounts|
            && w.state.log <= w'.state.log
            && w.prompts <= w'.prompts
    decreases |accounts|
  {
    if accounts != [] {
      var (r, w1) := ProcessAccount(w, o, ask, app, url, caPath, defaultFormat, dir, dirOk, clock(pos), accounts[0]);
      AccountGrows(w, o, ask, app, url, caPath, defaultFormat, dir, dirOk, clock(pos), accounts[0]);
      if r.Success? {
        AccountsCoverage(w1, o, ask, app, url, caPath, defaultFormat, dir, dirOk, clock, accounts[1..], pos + 1);
      }
    }
  }

  /** The first outcome of the loop is that of the first account, and the
      rest are those of the loop over the remaining accounts from where the
      first left the world. */
  lemma AccountsStep(w: World, o: Oracle, ask: Prompter, app: string, url: string,
                     caPath: Option<string>, defaultFormat: string, dir: string, dirOk: bool,
                     clock: nat -> string, accounts: seq<AccountConfig>, pos: nat)
    requires accounts != []
    ensures var (r, w1) := ProcessAccount(w, o, ask, app, url, caPath, defaultFormat, dir, dirOk, clock(pos), accounts[0]);
            var (report, w') := Accounts(w, o, ask, app, url, caPath, defaultFormat, dir, dirOk, clock, accounts, pos);
            var (rest, w2) := Accounts(w1, o, ask, app, url, caPath, defaultFormat, dir, dirOk, clock, accounts[1..], pos + 1);
            && (r.Failure? ==> report == Report([], Some(r.error)) && w' == w1)
            && (r.Success? ==> report.outcomes == [r.value] + rest.outcomes && report.aborted == rest.aborted && w' == w2)
  {
  }
}
