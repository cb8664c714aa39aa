# pywarden in Dafny

pywarden wraps the Bitwarden command-line client (`bw`). Its `Bitwarden`
class keeps a session token and asks `bw` for the vault status. It logs in
with a password or an API key, retrying with a growing pause, and then
unlocks the vault. It lists and decodes items, organisations and
collections, and exports the personal vault and every organisation the
user owns or administers. On top of it, the `backup` command walks the
configured accounts. For each one it picks an authenticator, asks for
passwords and exports everything.

This project models that core and proves what it does:

- `Results` holds `Option`, `Result` and the errors. Python exceptions
  become errors: InvalidState, InvalidArguments, NoEncryptionPassword,
  VaultNotUnlocked, AuthenticationFailed, and the TypeError, ValueError and
  AttributeError that the code raises by accident.
- `Text` holds the string operations used: `str.index`, substring `in`,
  `str.split` and `os.path.join`.
- `Types` holds the record types of `Types.py`. Items are a tagged union,
  and `__eq__` is a function that can fail.
- `Cli` holds the world the client acts on:
  - `bw` is an oracle that answers the n-th run with an exit code, an
    output and the decoded records;
  - `Host` is a class holding `os.environ` and the log of runs, each run
    with the environment it saw;
  - `Terminal` is a class holding the `getpass` answers.
- `Session` models the parser that reads the token out of the output of
  `bw login` and `bw unlock`.
- `ClientSpec` gives each client operation as a function from the state
  before it to the result and the state after it. The lemmas state what
  the client promises: the status preconditions, the retry loop and its
  backoff, the scoped environment variables, the export checks and the
  export plan.
- `Client` is the `Bitwarden` class itself. Its methods update the token
  field, the environment and the log in place, and each is proved to do
  exactly what its `ClientSpec` function says.
- `BackupSpec` covers the backup application:
  - the authenticator choice;
  - the two `unlockVault` sequences;
  - the per-account steps of `backup`: the prompts, the format override,
    which failures skip an account, and where `logout` runs.
- `App` has the authenticator class and the `backup` loop, each proved
  against `BackupSpec`.

Some quirks of the code are modelled as written:

- the `serverUrl` getter always answers `None`, because the setter never
  records the URL;
- `items` always answers `[]`;
- an unknown item type becomes a `None` entry;
- the last `export` line of the output wins;
- the API-key authenticator is chosen when both keys are present, even if
  they are empty;
- the answer of `unlockVault` is never checked;
- `logout` is skipped after a failed export;
- the file extension is the raw format string.

## Model

| member | source | states |
|---|---|---|
| Text.IndexOf | pywarden/bitwarden/Bitwarden.py:97 | `line.index('=')`: the first position of the character, or none (ValueError) exactly when it does not occur |
| Text.Split | pywarden/bitwarden/Bitwarden.py:93 | `content.split('\n')` gives at least one piece, and no piece contains the separator |
| Text.JoinSplit | pywarden/bitwarden/Bitwarden.py:93 | joining the pieces of a split gives back the text |
| Text.SplitJoin | pywarden/bitwarden/Bitwarden.py:93 | splitting a join of separator-free pieces gives back the pieces |
| Text.PathJoin | pywarden/bitwarden/Bitwarden.py:443 | `os.path.join(dir, name)`: an absolute name replaces the directory; otherwise one `/` joins them unless the directory already ends in one |
| Text.PathJoinParts | pywarden/bitwarden/Bitwarden.py:443 | the joined path always ends with the name, and a relative name keeps the directory in front |
| Session.TokenAt | pywarden/bitwarden/Bitwarden.py:97-99 | the token is the text from two characters after the first `=` up to, but not including, the last character; it is empty when fewer than three characters remain |
| Session.LastExportLine | pywarden/bitwarden/Bitwarden.py:93-101 | the reference answer: the last line containing `export`, which is one of the lines |
| Session.LastExportWins | pywarden/bitwarden/Bitwarden.py:93-101 | the scan succeeds exactly when every `export` line has an `=`; then the last `export` line sets the token, and with no such line the token is unchanged |
| Session.ScanKeepsEarlierToken | pywarden/bitwarden/Bitwarden.py:95-97 | an `export` line without `=` raises ValueError, leaving the token the earlier lines set |
| Session.TokenRoundTrip | pywarden/bitwarden/Bitwarden.py:97-99 | a quoted value after the first `=` is read back unchanged |
| Session.ExportAmongPlainLines | pywarden/bitwarden/Bitwarden.py:93-101 | when exactly one line mentions `export` and it has an `=`, the scan succeeds with that line's token, whatever the token was before |
| Session.DocumentedUnlockOutput | pywarden/bitwarden/Bitwarden.py:83-101 | the eight documented lines of `bw unlock` output, joined by newlines, yield the empty token from `$ export BW_SESSION=""`, which the client holds as a session |
| Session.NoExportLineKeepsToken | pywarden/bitwarden/Bitwarden.py:93-101 | output with no `export` line leaves the token as it was and raises nothing |
| Types.ItemTypeOf | pywarden/bitwarden/Types.py:3-7 | `ItemTypes(v)` exists exactly for LOGIN=1, NOTE=2, CARD=3 and IDENTITY=4, and has value `v` |
| Types.OrganizationStatusOf | pywarden/bitwarden/Types.py:14-18 | `OrganizationStatus(v)` exists exactly for INVITED=0, ACCEPTED=1, CONFIRMED=2 and REVOKED=-1 |
| Types.OrganizationUserTypeOf | pywarden/bitwarden/Types.py:20-25 | `OrganizationUserTypes(v)` exists exactly for OWNER=0, ADMIN=1, USER=2, MANAGER=3 and CUSTOM=4 |
| Types.EnumValuesRoundTrip | pywarden/bitwarden/Types.py:3-25 | each enumeration member is found again from its value |
| Types.GetBitwardenItem | pywarden/bitwarden/Types.py:255-263 | type 3 gives a card, 1 a login and 2 a note, each carrying the record's id, folder, name and notes; any other type, IDENTITY included, gives `None` |
| Types.DecodeEncode | pywarden/bitwarden/Types.py:255-263 | decoding the record of an item gives back that item |
| Types.Equals | pywarden/bitwarden/Types.py:126-136 | comparing with `None` is false; true needs equal name and notes; AttributeError arises exactly when the base fields match and a login or card meets another variant |
| Types.EqualsSameVariant | pywarden/bitwarden/Types.py:180-253 | within one variant, equality never fails: notes compare name and notes; cards add holder, brand, number, month, year and code; logins add username, password and totp |
| Types.EqualsReflexiveSymmetric | pywarden/bitwarden/Types.py:126-136 | every item equals itself, and within one variant equality is symmetric |
| Types.EqualsIgnoresIds | pywarden/bitwarden/Types.py:126-136 | changing only id and folderId never changes the outcome |
| Types.NoteComparesAcrossVariants | pywarden/bitwarden/Types.py:205-211 | a note equals any item with its name and notes, whereas the reverse comparison from a login or card raises AttributeError |
| Cli.Host.Run | pywarden/bitwarden/Bitwarden.py:134 | a run gets the oracle's next reply and is logged with the environment it saw |
| Cli.Host.SetEnv | pywarden/bitwarden/Bitwarden.py:215-216 | `os.environ[key] = value` changes exactly that entry |
| Cli.Host.DeleteEnv | pywarden/bitwarden/Bitwarden.py:230-231 | `del os.environ[key]` removes exactly that entry |
| Cli.Host.Sleep | pywarden/bitwarden/Bitwarden.py:184 | `sleep(0.5 * n)` records `n` half seconds of backoff |
| Cli.Terminal.GetPass | pywarden/app/bitwarden.py:156 | a prompt is shown and recorded, and is answered, or fails, as the terminal decides |
| ClientSpec.DecodeItems | pywarden/bitwarden/Bitwarden.py:348-354 | one decoded entry per listed record |
| ClientSpec.ExportError | pywarden/bitwarden/Bitwarden.py:484-488 | no error exactly when the format is json, encrypted_json or csv and encrypted_json comes with a password; otherwise InvalidArguments or NoEncryptionPassword |
| ClientSpec.RetryOutcome | pywarden/bitwarden/Bitwarden.py:173-187 | from attempt n, the login command runs r times, at most the attempts left; every run but the last failed; success comes exactly when the last exited 0, with its output; after the k-th failure the loop sleeps k half seconds; nothing else changes |
| ClientSpec.RetryFailsOnlyWhenAllFail | pywarden/bitwarden/Bitwarden.py:173-187 | the loop fails exactly when all `max(retry_count, 0)` attempts fail, having made them all; on success it stops at the first attempt that exits 0 |
| ClientSpec.RetryExample | pywarden/bitwarden/Bitwarden.py:173-187 | fail, fail, succeed with three attempts: three runs, pauses of 0.5 s and 1.0 s, and the third output |
| ClientSpec.ServerChangeRequiresUnauthenticated | pywarden/bitwarden/Bitwarden.py:54-68 | the server setter succeeds exactly from `unauthenticated` and then runs `bw config server <url>` after the status query; otherwise InvalidState, or TypeError with no status, after the status query alone; token and environment unchanged |
| ClientSpec.OpenSwitchesServer | pywarden/bitwarden/Bitwarden.py:24-68 | `__init__` runs `config` exactly when the status reports another URL and the setter's query finds `unauthenticated`; it fails with TypeError when a query gives no status and with InvalidState when the switch is refused; the new client holds no token |
| ClientSpec.SyncRequiresToken | pywarden/bitwarden/Bitwarden.py:295-315 | without a token `sync` raises VaultNotUnlocked having run nothing; with one it runs `bw sync --session <token>` once and answers whether it exited 0 |
| ClientSpec.LoginsRequireUnauthenticated | pywarden/bitwarden/Bitwarden.py:169-171 | both logins raise InvalidState, after the status query alone, when the status is not `unauthenticated`; with no status they raise TypeError |
| ClientSpec.PasswordLoginOutcome | pywarden/bitwarden/Bitwarden.py:173-187 | false exactly when every attempt failed, with the token untouched; true means the token came from the output of the first attempt that exited 0 and a `sync` with it closes the log; the environment is unchanged |
| ClientSpec.ApiKeyLoginEnvironment | pywarden/bitwarden/Bitwarden.py:215-233 | every login run sees BW_CLIENTID and BW_CLIENTSECRET; afterwards both are gone and nothing else in the environment differs; the answer is true exactly when some attempt exited 0 |
| ClientSpec.UnlockOutcome | pywarden/bitwarden/Bitwarden.py:262-280 | `unlocked`: true after the status query alone; `unauthenticated`: InvalidState; otherwise one unlock run with BW_PASSWORD present for that run only, true exactly when it exits 0 and its output parses, with the token taken only then |
| ClientSpec.ExportValidation | pywarden/bitwarden/Bitwarden.py:481-499 | no token gives false before any validation; then a bad format raises InvalidArguments; then encrypted_json without a password raises NoEncryptionPassword; past validation one export runs and its exit code is the answer |
| ClientSpec.ExportArgsShape | pywarden/bitwarden/Bitwarden.py:491-493 | the command is the fixed eight words, then `--organizationid` only for an organisation, then `--password` only for a truthy password, so an empty password passes validation but is not passed on |
| ClientSpec.TargetsMembers | pywarden/bitwarden/Bitwarden.py:449-452 | the organisations exported are exactly the OWNER and ADMIN ones in the list |
| ClientSpec.TargetsAppend | pywarden/bitwarden/Bitwarden.py:449-452 | the targets keep list order and multiplicity: those of a concatenation are those of each part, in turn |
| ClientSpec.OrgExportRuns | pywarden/bitwarden/Bitwarden.py:454-456 | one planned export per target |
| ClientSpec.ExportOrgsSkip | pywarden/bitwarden/Bitwarden.py:451-452 | an organisation that is neither OWNER nor ADMIN runs nothing and plans nothing |
| ClientSpec.ExportOrgsFirst | pywarden/bitwarden/Bitwarden.py:451-457 | an OWNER or ADMIN organisation is exported to `<email>-<name>-<stamp>.<format>`, and the loop goes on only when that export exits 0 |
| ClientSpec.ExportOrgsOutcome | pywarden/bitwarden/Bitwarden.py:449-459 | the organisation loop answers true exactly when every target's export exits 0 |
| ClientSpec.ExportOrgsOnlyLogs | pywarden/bitwarden/Bitwarden.py:449-459 | the organisation loop changes nothing but the log, and only extends it |
| ClientSpec.ExportOrgsRuns | pywarden/bitwarden/Bitwarden.py:449-459 | the loop runs a prefix of the planned exports, in list order, and all of them when it answers true |
| ClientSpec.ExportOrgsStopsAtFailure | pywarden/bitwarden/Bitwarden.py:456-457 | when the loop does not answer true, it ran at least one export, its last run is the failed export and every export before it exited 0 (`FailedLast`) |
| ClientSpec.ExportAllGuards | pywarden/bitwarden/Bitwarden.py:425-446 | no token, or no usable directory, gives false with nothing run; a bad format or a missing encryption password raises once the status is read |
| ClientSpec.ExportAllPrefix | pywarden/bitwarden/Bitwarden.py:438-449 | the runs are the status query, the personal export, the organisation listing, then the organisation loop, which starts only if the personal export succeeded |
| ClientSpec.ExportAllOutcome | pywarden/bitwarden/Bitwarden.py:438-459 | true exactly when the personal export and every OWNER or ADMIN organisation export exit 0 |
| ClientSpec.ExportAllRuns | pywarden/bitwarden/Bitwarden.py:438-459 | the runs are a prefix of the plan: personal vault to `<email>-<stamp>.<format>`, then each target to `<email>-<name>-<stamp>.<format>`, one stamp for all; all of the plan runs when the answer is true, and only the log changes |
| ClientSpec.ItemsNamedKeepsUnknownAsNone | pywarden/bitwarden/Bitwarden.py:333-356 | one entry per listed record, in order, `None` exactly where the type is not LOGIN, NOTE or CARD |
| ClientSpec.ItemsAlwaysEmpty | pywarden/bitwarden/Bitwarden.py:318-330 | `items` gives `None` exactly without a token, and otherwise `[]` after one listing run |
| ClientSpec.StatusVerbs | pywarden/bitwarden/Bitwarden.py:128-138 | the status property runs only `bw status` |
| ClientSpec.OpenVerbs | pywarden/bitwarden/Bitwarden.py:24-46 | setting up a client runs only `status` and `config` |
| ClientSpec.LogoutVerbs | pywarden/bitwarden/Bitwarden.py:236-248 | `logout` runs `bw logout` once and drops the token |
| ClientSpec.RetryVerbs | pywarden/bitwarden/Bitwarden.py:173-187 | the retry loop runs nothing but its login command |
| ClientSpec.LoginWithPasswordVerbs | pywarden/bitwarden/Bitwarden.py:157-187 | password login runs only `status`, `login` and `sync` |
| ClientSpec.LoginWithApiKeyVerbs | pywarden/bitwarden/Bitwarden.py:190-233 | API-key login runs only `status` and `login` |
| ClientSpec.SyncVerbs | pywarden/bitwarden/Bitwarden.py:295-315 | `sync` runs at most `bw sync` |
| ClientSpec.UnlockVerbs | pywarden/bitwarden/Bitwarden.py:251-280 | `unlock` runs only `status` and `unlock` |
| ClientSpec.ExportOrgsVerbs | pywarden/bitwarden/Bitwarden.py:449-459 | the organisation loop runs only `export` |
| ClientSpec.ExportVerbs | pywarden/bitwarden/Bitwarden.py:461-539 | a personal or organisation export runs at most `bw export` and keeps the token |
| ClientSpec.OrgsVerbs | pywarden/bitwarden/Bitwarden.py:359-383 | listing organisations runs at most `bw list organizations` and keeps the token |
| ClientSpec.ExportAllVerbs | pywarden/bitwarden/Bitwarden.py:411-459 | `exportAll` runs only `status`, `export` and `list`, and keeps the token |
| Client.Bitwarden.constructor | pywarden/bitwarden/Bitwarden.py:33-35 | a new client has no token and no recorded URL |
| Client.Bitwarden.Open | pywarden/bitwarden/Bitwarden.py:24-46 | `__init__`: sets NODE_EXTRA_CA_CERTS when a CA path is given, queries the status (TypeError without one), and switches the server only when it differs; a new client has no token and its `serverUrl` reads `None` |
| Client.Bitwarden.ServerUrl | pywarden/bitwarden/Bitwarden.py:49-51 | the getter gives the recorded URL, which the setter never records |
| Client.Bitwarden.SetServerUrl | pywarden/bitwarden/Bitwarden.py:54-68 | `bw config server <url>` runs only from `unauthenticated`, otherwise InvalidState; the recorded URL is untouched |
| Client.Bitwarden.ExtractSessionFromStdOut | pywarden/bitwarden/Bitwarden.py:71-101 | the loop over lines sets the token as `Session.Extract` says, and raises ValueError at an `export` line without `=` |
| Client.Bitwarden.Status | pywarden/bitwarden/Bitwarden.py:104-138 | `bw status`, with `--session` when a token is held; the record on exit 0, else `None` |
| Client.Bitwarden.RetryUntilSuccess | pywarden/bitwarden/Bitwarden.py:173-187 | the while loop of both logins, proved equal to `ClientSpec.Retry` |
| Client.Bitwarden.LoginWithPassword | pywarden/bitwarden/Bitwarden.py:157-187 | `loginWithPassword`, proved equal to its specification |
| Client.Bitwarden.LoginWithApiKey | pywarden/bitwarden/Bitwarden.py:190-233 | `loginWithApiKey`, with the key pair set around the loop and deleted after it |
| Client.Bitwarden.Logout | pywarden/bitwarden/Bitwarden.py:236-248 | runs `bw logout` and clears the token |
| Client.Bitwarden.Unlock | pywarden/bitwarden/Bitwarden.py:251-280 | `unlock`, with BW_PASSWORD set around the single unlock run |
| Client.Bitwarden.Lock | pywarden/bitwarden/Bitwarden.py:283-292 | runs `bw lock` and changes nothing else |
| Client.Bitwarden.Sync | pywarden/bitwarden/Bitwarden.py:295-315 | VaultNotUnlocked without a token; otherwise one sync run, true exactly on exit 0 |
| Client.Bitwarden.Items | pywarden/bitwarden/Bitwarden.py:318-330 | `None` without a token; otherwise one listing run and `[]` |
| Client.Bitwarden.GetItem | pywarden/bitwarden/Bitwarden.py:333-356 | `__getitem__`: `[]` without a token or on a failed search; otherwise the loop decodes every record in order |
| Client.Bitwarden.Orgs | pywarden/bitwarden/Bitwarden.py:359-383 | `None` without a token, `[]` on a failed listing, otherwise the listed organisations in order |
| Client.Bitwarden.Collections | pywarden/bitwarden/Bitwarden.py:385-408 | `None` without a token, `[]` on a failed listing, otherwise the listed collections in order |
| Client.Bitwarden.ExportPersonalVault | pywarden/bitwarden/Bitwarden.py:461-499 | the personal export, as `ClientSpec.Export` with no organisation |
| Client.Bitwarden.ExportCollections | pywarden/bitwarden/Bitwarden.py:501-539 | the organisation export, as `ClientSpec.Export` with the organisation id |
| Client.Bitwarden.ExportAll | pywarden/bitwarden/Bitwarden.py:411-459 | the loop over the organisations, with its early `return False`, proved equal to `ClientSpec.ExportAll` |
| BackupSpec.SelectMode | pywarden/app/bitwarden.py:18-21 | the API-key authenticator exactly when both `client_id` and `client_secret` are present, carrying their values; otherwise the password authenticator |
| BackupSpec.EmptyKeysSelectApiKey | pywarden/app/bitwarden.py:110-116 | the documented example's empty keys still select the API-key authenticator, and one key alone does not |
| BackupSpec.PasswordUnlockIsLogin | pywarden/app/bitwarden.py:39-43 | the password `unlockVault` is exactly `loginWithPassword(email, password)` with five attempts |
| BackupSpec.ApiKeyUnlockSequence | pywarden/app/bitwarden.py:57-67 | a false key login raises AuthenticationFailed with the email and URL and never unlocks; a true one answers what `unlock` answers; an error of the login propagates |
| BackupSpec.UnlockVaultVerbs | pywarden/app/bitwarden.py:39-67 | either `unlockVault` runs only `status`, `login`, `sync` and `unlock` |
| BackupSpec.UnlockAnswerIgnored | pywarden/app/bitwarden.py:162-183 | once `unlockVault` returns, true or false, the account goes on to the format choice and the export |
| BackupSpec.AfterUnlockPrompts | pywarden/app/bitwarden.py:169-181 | after the unlock, the backup password is asked exactly when the effective format (the account's `format`, else the default) is `encrypted_json`, and its failure skips the account |
| BackupSpec.AccountPrompts | pywarden/app/bitwarden.py:148-181 | the account password prompt appears once the client is set up; the backup password prompt appears exactly when the unlock returned and the format is `encrypted_json`; each outcome (prompt failed, login rejected, backup prompt failed) occurs exactly in its case |
| BackupSpec.AccountGrows | pywarden/app/bitwarden.py:148-189 | an account only appends to the log of runs and to the prompts shown |
| BackupSpec.AfterUnlockLogouts | pywarden/app/bitwarden.py:183-189 | after the unlock, a logout runs exactly when the export answered true, as the last run, leaving no token; otherwise only `status`, `export` and `list` run |
| BackupSpec.AccountLogouts | pywarden/app/bitwarden.py:148-189 | with no client or no password only `status` and `config` run; otherwise `logout` runs right after the setup, before any login or unlock, and a second `logout` runs only after a successful export, as the last run |
| BackupSpec.AccountStartsFresh | pywarden/app/bitwarden.py:150-151 | each account gets a new client, so its handling does not depend on the token the previous client was left with |
| BackupSpec.AccountsAt | pywarden/app/bitwarden.py:148-189 | the loop at position i handles account i with a fresh client, then goes on from i + 1 or stops at an error it does not catch |
| BackupSpec.AccountsAdvance | pywarden/app/bitwarden.py:148-189 | after account i succeeds, the loop's report is the outcomes so far followed by those of the loop from position i + 1 in the world account i left |
| BackupSpec.AccountsStop | pywarden/app/bitwarden.py:148-189 | an error account i does not catch ends the loop with the outcomes of the accounts before it and that error |
| BackupSpec.AccountsCoverage | pywarden/app/bitwarden.py:148-189 | the loop stops early exactly when an uncaught error occurs; otherwise there is one outcome per account; the log and the prompts only grow |
| BackupSpec.AccountsStep | pywarden/app/bitwarden.py:148-189 | accounts are handled in configuration order: the first account's outcome comes first and the loop resumes from where it left the world |
| App.Authenticator.constructor | pywarden/app/bitwarden.py:30-33 | an authenticator keeps the account, the URL and the client, and its mode is the one `getAuthenticator` selects |
| App.Authenticator.UnlockVault | pywarden/app/bitwarden.py:39-67 | both `unlockVault` methods, proved equal to `BackupSpec.UnlockVault` for the authenticator's mode |
| App.GetAuthenticator | pywarden/app/bitwarden.py:12-21 | builds the account's client, whose errors escape, and the authenticator its keys call for |
| App.BackupAccount | pywarden/app/bitwarden.py:150-189 | the loop body for one account, proved equal to `BackupSpec.ProcessAccount` |
| App.Backup | pywarden/app/bitwarden.py:140-189 | the server URL defaults to `https://vault.bitwarden.com`, the CA path to none, and the loop over the accounts is proved equal to `BackupSpec.Backup` |

## Left out

- Running `bw` is not modelled. `performCommandLineOperation` is an oracle indexed by run number. Its reply carries the exit code, the output and the records already decoded from JSON and UTF-8, so `json.loads` errors and `KeyError` on missing keys are not modelled.
- A missing `email` key in an account (a `KeyError`) is not modelled, since the account record always has an email.
- `sleep` is recorded as a ghost list of half-second counts. No time passes.
- `os.path.exists`, `os.makedirs` and `os.path.isdir` are a boolean parameter, `dirOk`, saying whether the directory is usable. Errors raised by `makedirs` are not modelled.
- `datetime.now` is a parameter. `exportAll` takes the formatted stamp, and `backup` takes one stamp per account position.
- `isClientLatest` is not modelled. It is update checking and `backup` does not use it.
- `click`, the `print` messages, the existence check on the configuration file and its JSON reading are not modelled. `backup` starts from the decoded configuration, and its accounts are a sequence in file order.
- The `isinstance(name, str)` test in `__getitem__` is not modelled, because a name is always a string here.
- `Text.PathJoin` follows POSIX `os.path.join`. The Windows form, with `\` as separator and drive letters, is not modelled.
- The `bwCliLocation` constructor argument is the `app` constant of the client. The CLI is always called through it.
- `App.Authenticator`: the two authenticator classes, one subclassing the other, are one class with a `mode` field, because the model uses no inheritance. Each mode behaves as its class does.
- `BackupSpec.Accounts` and `App.Backup` report the error that ends the loop as a value. They do not model the traceback.
- Cross-variant item equality is stated as raising AttributeError (`Types.Equals`). The symmetry lemma is limited to items of one variant.
