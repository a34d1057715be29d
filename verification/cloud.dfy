/** The cloud side of provisioning: server lookup, creation, the conflict
    fallback and waiting for a creation action (`runCreateServer` and
    `actionProgress`). The cloud API itself is an oracle record `Api`; the
    state it changes is the set of servers by name, and every request sent
    to it is recorded in a call log so that "no create was sent" and "no
    action was awaited" are observable facts. */
module Cloud {
  import opened Results
  import opened Types

  /** What the consumer of a tracked action observes: progress updates and
      then the value of the error channel (None for success). */
  datatype ActionEvent = Progress(percent: int) | Finished(err: Option<Error>)

  /** `k` is the position of the first terminal event of `trace`. */
  predicate TerminalAt(trace: seq<ActionEvent>, k: int) {
    0 <= k < |trace| && trace[k].Finished?
    && forall j :: 0 <= j < k ==> trace[j].Progress?
  }

  /** Some event of `trace` is terminal. */
  predicate Terminates(trace: seq<ActionEvent>) {
    |trace| > 0 && (trace[0].Finished? || Terminates(trace[1..]))
  }

  /** The tracker always ends with a terminal signal. */
  type ActionTrace = t: seq<ActionEvent> | Terminates(t) witness [Finished(None)]

  /** `actionProgress`: the value of the error channel once the action ends.
      Whether stdout is a terminal decides only how progress is rendered, not
      what is returned, so it is not a parameter here. */
  function ActionProgress(trace: seq<ActionEvent>): (r: Option<Error>)
    requires Terminates(trace)
    ensures exists k :: TerminalAt(trace, k) && r == trace[k].err
    ensures forall k :: TerminalAt(trace, k) ==> r == trace[k].err
  {
    if trace[0].Finished? then
      assert TerminalAt(trace, 0);
      trace[0].err
    else
      var r := ActionProgress(trace[1..]);
      var k' :| TerminalAt(trace[1..], k') && r == trace[1..][k'].err;
      assert TerminalAt(trace, k' + 1);
      r
  }

  /** The server-create request for one node: `hcloud.ServerCreateOpts`
      without the image and cloud-init user data. */
  datatype ServerOpts = ServerOpts(
    name: string,
    serverType: string,
    datacenter: string,
    sshKeyName: string)

  /** The cloud's answer to a create request: accepted, with the new server
      and the trace of its creation action, or rejected with an error code. */
  datatype CreateOutcome =
    | Accepted(server: Server, action: ActionTrace)
    | Rejected(code: string, message: string)

  /** The cloud API as an oracle: what each request would return. */
  datatype Api = Api(
    sshKeyError: string -> Option<Error>,
    getByNameError: string -> Option<Error>,
    create: ServerOpts -> CreateOutcome,
    fetchByName: string -> Result<Server, Error>)

  /** One request sent to the cloud. */
  datatype Call =
    | GetSshKey(keyName: string)
    | GetServerByName(name: string)
    | CreateServer(opts: ServerOpts)
    | GetServer(name: string)
    | AwaitAction(name: string, outcome: Option<Error>)

  /** The servers that exist, by name, and the requests sent so far. */
  datatype CloudState = CloudState(servers: map<string, Server>, calls: seq<Call>)

  /** The result of one create-or-fetch: the provider's new `wait` flag, the
      cloud afterwards, and the server or the error. */
  datatype Step = Step(wait: bool, cloud: CloudState, result: Result<Server, Error>)

  ghost predicate SubMap(a: map<string, Server>, b: map<string, Server>) {
    forall x :: x in a ==> x in b && b[x] == a[x]
  }

  /** Some awaited action in `calls` finished without error. */
  predicate AwaitedOk(calls: seq<Call>) {
    exists k :: 0 <= k < |calls| && calls[k].AwaitAction? && calls[k].outcome.None?
  }

  /** No server was created and no action was awaited. */
  predicate NoProvisioning(calls: seq<Call>) {
    forall k :: 0 <= k < |calls| ==> !calls[k].CreateServer? && !calls[k].AwaitAction?
  }

  /** The server name a request is about; the SSH-key lookup is about no
      server. */
  function Subject(call: Call): Option<string> {
    match call
    case GetSshKey(_) => None
    case GetServerByName(name) => Some(name)
    case CreateServer(opts) => Some(opts.name)
    case GetServer(name) => Some(name)
    case AwaitAction(name, _) => Some(name)
  }

  /** `runCreateServer`: look the name up; return an existing server as is;
      otherwise create it, falling back to a fetch when the cloud reports the
      name as taken, and await the creation action of a fresh server. */
  function RunCreateServer(wait: bool, c: CloudState, api: Api, opts: ServerOpts): Step
  {
    var c1 := c.(calls := c.calls + [GetServerByName(opts.name)]);
    match api.getByNameError(opts.name)
    case Some(e) => Step(wait, c1, Failure(e))
    case None =>
      if opts.name in c.servers then
        Step(wait, c1, Success(c.servers[opts.name]))
      else
        var c2 := c1.(calls := c1.calls + [CreateServer(opts)]);
        match api.create(opts)
        case Rejected(code, message) =>
          if code == UniquenessError then
            var c3 := c2.(calls := c2.calls + [GetServer(opts.name)]);
            match api.fetchByName(opts.name)
            case Failure(e) => Step(wait, c3, Failure(e))
            case Success(server) =>
              Step(wait, c3.(servers := c3.servers[opts.name := server]), Success(server))
          else
            Step(wait, c2, Failure(ApiError(code, message)))
        case Accepted(server, action) =>
          var outcome := ActionProgress(action);
          var c3 := c2.(servers := c2.servers[opts.name := server],
                        calls := c2.calls + [AwaitAction(opts.name, outcome)]);
          match outcome
          case Some(e) => Step(wait, c3, Failure(e))
          case None =>
            Step(true, c3, Success(server))
  }

  /** The calls a create-or-fetch sends: first the lookup by name, then at
      most one create, and at most one awaited action. */
  lemma CreateOrFetchCalls(wait: bool, c: CloudState, api: Api, opts: ServerOpts)
    ensures var r := RunCreateServer(wait, c, api, opts);
      && |c.calls| < |r.cloud.calls| && r.cloud.calls[..|c.calls|] == c.calls
      && r.cloud.calls[|c.calls|] == GetServerByName(opts.name)
      && (forall k :: |c.calls| <= k < |r.cloud.calls| && r.cloud.calls[k].CreateServer? ==>
            r.cloud.calls[k].opts == opts)
      && (forall j, k :: |c.calls| <= j < k < |r.cloud.calls| ==>
            !(r.cloud.calls[j].AwaitAction? && r.cloud.calls[k].AwaitAction?))
  {
  }

  /** Every request a create-or-fetch sends is about the requested name. */
  lemma CreateOrFetchSubject(wait: bool, c: CloudState, api: Api, opts: ServerOpts)
    ensures var r := RunCreateServer(wait, c, api, opts);
      && |c.calls| <= |r.cloud.calls|
      && forall k :: |c.calls| <= k < |r.cloud.calls| ==> Subject(r.cloud.calls[k]) == Some(opts.name)
  {
  }

  /** The servers only grow, by at most the requested name, and a returned
      server is the one the cloud now holds under that name. */
  lemma CreateOrFetchServers(wait: bool, c: CloudState, api: Api, opts: ServerOpts)
    ensures var r := RunCreateServer(wait, c, api, opts);
      && SubMap(c.servers, r.cloud.servers)
      && r.cloud.servers.Keys <= c.servers.Keys + {opts.name}
      && (r.result.Success? ==>
            && api.getByNameError(opts.name).None?
            && opts.name in r.cloud.servers
            && r.cloud.servers[opts.name] == r.result.value)
  {
  }

  /** The `wait` flag becomes true exactly when an awaited action succeeded. */
  lemma CreateOrFetchWait(wait: bool, c: CloudState, api: Api, opts: ServerOpts)
    ensures var r := RunCreateServer(wait, c, api, opts);
      && |c.calls| <= |r.cloud.calls|
      && r.wait == (wait || AwaitedOk(r.cloud.calls[|c.calls|..]))
  {
    var r := RunCreateServer(wait, c, api, opts);
    if api.getByNameError(opts.name).None? && opts.name !in c.servers
       && api.create(opts).Accepted? && ActionProgress(api.create(opts).action).None? {
      assert r.cloud.calls[|c.calls|..][2] == AwaitAction(opts.name, None);
    }
  }

  /** A server that already exists is returned as it is: nothing is created,
      no action is awaited and the flag is left alone. */
  lemma ExistingServerReused(wait: bool, c: CloudState, api: Api, opts: ServerOpts)
    requires opts.name in c.servers
    ensures var r := RunCreateServer(wait, c, api, opts);
      && r.wait == wait
      && r.cloud.servers == c.servers
      && |c.calls| <= |r.cloud.calls|
      && NoProvisioning(r.cloud.calls[|c.calls|..])
      && (api.getByNameError(opts.name).None? ==> r.result == Success(c.servers[opts.name]))
  {
  }

  /** A lookup error propagates before anything else is tried. */
  lemma LookupErrorPropagates(wait: bool, c: CloudState, api: Api, opts: ServerOpts)
    requires api.getByNameError(opts.name).Some?
    ensures var r := RunCreateServer(wait, c, api, opts);
      && r.result == Failure(api.getByNameError(opts.name).value)
      && r.wait == wait
      && r.cloud == c.(calls := c.calls + [GetServerByName(opts.name)])
  {
  }

  /** A create rejected because the name is taken falls back to a fetch by
      name, whose answer is returned; no action is awaited and the flag is
      left alone. */
  lemma ConflictFallsBackToFetch(wait: bool, c: CloudState, api: Api, opts: ServerOpts)
    requires api.getByNameError(opts.name).None? && opts.name !in c.servers
    requires api.create(opts).Rejected? && api.create(opts).code == UniquenessError
    ensures var r := RunCreateServer(wait, c, api, opts);
      && r.result == api.fetchByName(opts.name)
      && r.wait == wait
      && r.cloud.calls == c.calls + [GetServerByName(opts.name), CreateServer(opts), GetServer(opts.name)]
      && (r.result.Success? ==> r.cloud.servers == c.servers[opts.name := r.result.value])
      && (r.result.Failure? ==> r.cloud.servers == c.servers)
  {
  }

  /** Any other rejection is returned as the cloud's error. */
  lemma OtherRejectionPropagates(wait: bool, c: CloudState, api: Api, opts: ServerOpts)
    requires api.getByNameError(opts.name).None? && opts.name !in c.servers
    requires api.create(opts).Rejected? && api.create(opts).code != UniquenessError
    ensures var r := RunCreateServer(wait, c, api, opts);
      && r.result == Failure(ApiError(api.create(opts).code, api.create(opts).message))
      && r.wait == wait
      && r.cloud.servers == c.servers
      && r.cloud.calls == c.calls + [GetServerByName(opts.name), CreateServer(opts)]
  {
  }

  /** A fresh server's action decides the outcome: success sets the flag
      and returns the server; a failed action returns its error and leaves
      the flag alone, although the server now exists. */
  lemma FreshCreateAwaitsAction(wait: bool, c: CloudState, api: Api, opts: ServerOpts)
    requires api.getByNameError(opts.name).None? && opts.name !in c.servers
    requires api.create(opts).Accepted?
    ensures var r := RunCreateServer(wait, c, api, opts);
      var outcome := ActionProgress(api.create(opts).action);
      && r.cloud.servers == c.servers[opts.name := api.create(opts).server]
      && r.cloud.calls == c.calls + [GetServerByName(opts.name), CreateServer(opts), AwaitAction(opts.name, outcome)]
      && (outcome.None? ==> r.wait && r.result == Success(api.create(opts).server))
      && (outcome.Some? ==> r.wait == wait && r.result == Failure(outcome.value))
  {
  }

  /** Losing the naming race and fetching the winner's server ends in the
      same server and the same cloud as a clean create of that server, but
      without an awaited action and without setting the flag. */
  lemma ConflictMatchesCleanCreate(
    wait: bool, c: CloudState, racing: Api, clean: Api, opts: ServerOpts, server: Server)
    requires opts.name !in c.servers
    requires racing.getByNameError(opts.name).None? && clean.getByNameError(opts.name).None?
    requires racing.create(opts).Rejected? && racing.create(opts).code == UniquenessError
    requires racing.fetchByName(opts.name) == Success(server)
    requires clean.create(opts).Accepted? && clean.create(opts).server == server
    requires ActionProgress(clean.create(opts).action).None?
    ensures var r1 := RunCreateServer(wait, c, racing, opts);
      var r2 := RunCreateServer(wait, c, clean, opts);
      && r1.result == r2.result == Success(server)
      && r1.cloud.servers == r2.cloud.servers
      && r1.wait == wait && r2.wait
      && (forall k :: |c.calls| <= k < |r1.cloud.calls| ==> !r1.cloud.calls[k].AwaitAction?)
  {
    ConflictFallsBackToFetch(wait, c, racing, opts);
    FreshCreateAwaitsAction(wait, c, clean, opts);
    CreateOrFetchWait(wait, c, racing, opts);
  }

  /** Events after the terminal one do not change what is returned. */
  lemma {:induction false} ActionProgressIgnoresLaterEvents(trace: seq<ActionEvent>, later: seq<ActionEvent>)
    requires Terminates(trace)
    ensures Terminates(trace + later)
    ensures ActionProgress(trace + later) == ActionProgress(trace)
  {
    if trace[0].Progress? {
      assert (trace + later)[1..] == trace[1..] + later;
      ActionProgressIgnoresLaterEvents(trace[1..], later);
    }
  }

  /** A cloud on which every create-or-fetch goes through: lookups never
      fail, accepted creations finish without error, and a rejected create
      is always a naming conflict whose fetch succeeds. */
  ghost predicate Reliable(api: Api) {
    && (forall name :: api.getByNameError(name).None?)
    && (forall opts :: api.create(opts).Accepted? ==> ActionProgress(api.create(opts).action).None?)
    && (forall opts :: api.create(opts).Rejected? ==>
          api.create(opts).code == UniquenessError && api.fetchByName(opts.name).Success?)
  }

  /** The four error paths are the only ones: on a reliable cloud every
      create-or-fetch succeeds. */
  lemma ReliableStepSucceeds(wait: bool, c: CloudState, api: Api, opts: ServerOpts)
    requires Reliable(api)
    ensures RunCreateServer(wait, c, api, opts).result.Success?
  {
  }
}
