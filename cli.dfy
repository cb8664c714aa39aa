/** The process the wrapper runs in, seen from the wrapper: the external
    vault CLI as an oracle (`performCommandLineOperation`), the process
    environment `os.environ`, `sleep`, and the password prompt `getpass`. */
module Cli {
  import opened Results
  import opened Types

  /** The fields of `bw status` output that the wrapper reads. */
  datatype StatusRecord = StatusRecord(serverUrl: string, status: string, userEmail: string)

  /** What one CLI run gives back: its exit code, its standard output as
      text, and that output already decoded as JSON for each command whose
      output the wrapper decodes. Standard error is never read. */
  datatype Reply = Reply(
    code: int,
    stdout: string,
    status: StatusRecord,
    organizations: seq<Organization>,
    collections: seq<Collection>,
    items: seq<ItemRecord>)

  /** One CLI run: its arguments and the environment it inherited. */
  datatype Invocation = Invocation(args: seq<string>, env: map<string, string>)

  /** The external CLI: the reply to the n-th command the process runs. */
  type Oracle = nat -> Reply

  /** Everything the wrapper's operations observe or change: the process
      environment, the commands run so far, the backoff slept so far (in
      multiples of half a second), and the client's session token. */
  datatype State = State(
    env: map<string, string>,
    log: seq<Invocation>,
    backoff: seq<nat>,
    session: Option<string>)

  /** Running `args`: the next reply of the oracle; the run is logged with
      the environment of the moment. */
  function Exec(s: State, o: Oracle, args: seq<string>): (Reply, State) {
    (o(|s.log|), s.(log := s.log + [Invocation(args, s.env)]))
  }

  /** The argument vector's sub-command, used to classify logged runs. */
  function Verb(inv: Invocation): string {
    if |inv.args| >= 2 then inv.args[1] else ""
  }

  /** `s'` extends `s` by runs whose sub-commands are all in `verbs`. */
  ghost predicate Appends(s: State, s': State, verbs: set<string>) {
    && s.log <= s'.log
    && forall i | |s.log| <= i < |s'.log| :: Verb(s'.log[i]) in verbs
  }

  lemma AppendsTransitive(s: State, s': State, s'': State, v: set<string>, v': set<string>)
    requires Appends(s, s', v) && Appends(s', s'', v')
    ensures Appends(s, s'', v + v')
  {
    forall i | |s.log| <= i < |s''.log|
      ensures Verb(s''.log[i]) in v + v'
    {
      if i < |s'.log| {
        assert s''.log[i] == s'.log[i];
      }
    }
  }

  /** The process: the CLI oracle, `os.environ`, and the log of runs. */
  class Host {
    const oracle: Oracle
    var env: map<string, string>
    var log: seq<Invocation>
    ghost var backoff: seq<nat>

    constructor (oracle: Oracle, env: map<string, string>)
      ensures this.oracle == oracle && this.env == env && log == [] && backoff == []
    {
      this.oracle := oracle;
      this.env := env;
      log := [];
      backoff := [];
    }

    /** The state as seen by a client holding `session`. */
    ghost function View(session: Option<string>): State
      reads this
    {
      State(env, log, backoff, session)
    }

    /** `performCommandLineOperation(args)`. */
    method Run(args: seq<string>) returns (reply: Reply)
      modifies this
      ensures (reply, View(None)) == Exec(old(View(None)), oracle, args)
    {
      reply := oracle(|log|);
      log := log + [Invocation(args, env)];
    }

    /** `sleep(0.5 * halves)`. */
    method Sleep(halves: nat)
      modifies this
      ensures View(None) == old(View(None)).(backoff := old(backoff) + [halves])
    {
      backoff := backoff + [halves];
    }

    /** `os.environ[key] = value`. */
    method SetEnv(key: string, value: string)
      modifies this
      ensures View(None) == old(View(None)).(env := old(env)[key := value])
    {
      env := env[key := value];
    }

    /** `del os.environ[key]`. */
    method DeleteEnv(key: string)
      modifies this
      ensures View(None) == old(View(None)).(env := old(env) - {key})
    {
      env := env - {key};
    }
  }

  /** The terminal: `getpass` answers the n-th prompt with `answers(n)`, or
      raises (`None`). */
  class Terminal {
    const answers: nat -> Option<string>
    var prompts: seq<string>

    constructor (answers: nat -> Option<string>)
      ensures this.answers == answers && prompts == []
    {
      this.answers := answers;
      prompts := [];
    }

    method GetPass(prompt: string) returns (answer: Option<string>)
      modifies this
      ensures answer == answers(|old(prompts)|) && prompts == old(prompts) + [prompt]
    {
      answer := answers(|prompts|);
      prompts := prompts + [prompt];
    }
  }
}
