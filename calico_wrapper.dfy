/** `wrapCalico` and `main` of src/calico-wrapper/main.go.
    The wrapper reads its standard input, builds a Kubernetes client from it,
    parses `CNI_ARGS`, refuses an empty `CNI_NETNS`, looks the pod up on ADD
    and appends `;IP=<address>` to `CNI_ARGS` when the pod carries the address
    annotation, then runs the real `calico` plugin and returns its exit code.
    A log record is appended to the audit log on every way out.

    Everything the process learns from outside (standard input and its JSON
    decoding, client construction, the pod lookup, `os.Setenv`, the plugin
    run) is an input, collected in a World. What the wrapper asks of its
    collaborators is recorded as a sequence of Calls. */
module CalicoWrapper {
  import opened Wrappers
  import opened CniArgs
  import opened Clientset

  /** The process environment, restricted to the variables of interest. */
  type Env = map<string, string>

  /** A decoded JSON document, the part of the log record's `input` and `output`. */
  datatype Json =
    | JNull
    | JBool(b: bool)
    | JNumber(n: real)
    | JString(s: string)
    | JArray(items: seq<Json>)
    | JObject(members: seq<(string, Json)>)

  /** The pod returned by the lookup; only its annotations are consumed. */
  datatype Pod = Pod(namespace: string, name: string, annotations: map<string, string>)

  /** How `cmd.Run()` failed: an `*exec.ExitError`, carrying a
      `syscall.WaitStatus` exit status when `Sys()` is one, or any other error. */
  datatype RunError =
    | ExitError(msg: string, waitStatus: Option<int>)
    | OtherRunError(msg: string)

  /** What running the `calico` plugin produced: its standard output, the
      result of decoding that output as JSON, and the error of `cmd.Run()`. */
  datatype Delegate = Delegate(stdout: string, stdoutJson: Result<Json>, runError: Option<RunError>)

  /** Everything the wrapper learns from outside during one invocation. */
  datatype World = World(
    argv: seq<string>,              // os.Args[1:], forwarded to the plugin
    stdin: Result<string>,          // ioutil.ReadAll(os.Stdin)
    stdinJson: Result<Json>,        // json.Unmarshal of a non-empty stdin into the record
    netConf: Result<NetConf>,       // json.Unmarshal of stdin into NetConf
    clientError: Option<string>,    // the error of newClientset's library calls
    podLookup: Result<Pod>,         // Pods(namespace).Get(name)
    setenvError: Option<string>,    // the error of os.Setenv
    delegate: Delegate)

  /** A request the wrapper makes of a collaborator, with its arguments. */
  datatype Call =
    | BuildClient(request: LoaderRequest)
    | GetPod(namespace: string, name: string)
    | RunCalico(argv: seq<string>, stdin: string, env: Env)

  /** The audit record, `LogRecord` of main.go. */
  datatype LogRecord = LogRecord(
    environment: Option<Env>,
    stdin: Option<Json>,
    stdout: Option<Json>,
    errors: seq<string>,
    pod: Option<Pod>)

  /** How `wrapCalico` ends: it returns an exit code, or `extractArgs` panics
      at the given segment (the panic propagates through `main`). */
  datatype Outcome = Return(rc: int) | Panic(segment: nat)

  /** Everything one invocation of `wrapCalico` does: how it ends, the record
      it logs, the environment it leaves, what it prints, what it asks for. */
  datatype Run = Run(outcome: Outcome, record: LogRecord, env: Env, printed: string, calls: seq<Call>)

  const NetnsNotSetMessage := "{ \"code\": 101, \"msg\": \"CNI_NETNS not set\" }"
  const IpAnnotation := "bosh.cloudfoundry.org/ip-address"
  const EmptyRecord := LogRecord(None, None, None, [], None)

  /** Go's read of a string map: the value, or "" for a missing key
      (`os.Getenv`, and `args[key]` on the parsed arguments). */
  function Get(m: map<string, string>, key: string): string {
    if key in m then m[key] else ""
  }

  /** The wrapper ran the plugin. */
  predicate Delegated(calls: seq<Call>) {
    exists i :: 0 <= i < |calls| && calls[i].RunCalico?
  }

  /** The wrapper looked a pod up. */
  predicate LookedUp(calls: seq<Call>) {
    exists i :: 0 <= i < |calls| && calls[i].GetPod?
  }

  /** A failing stage: its error text is appended and 1 is returned. */
  function Fail(rec: LogRecord, msg: string, env: Env, calls: seq<Call>): Run {
    Run(Return(1), rec.(errors := rec.errors + [msg]), env, "", calls)
  }

  /** The exit code `wrapCalico` returns for a failed plugin run. */
  function RunErrorCode(e: RunError): int {
    match e
    case ExitError(_, Some(ws)) => ws
    case _ => 1
  }

  /** The exit code a plugin run leads to. */
  function DelegateCode(d: Delegate): int {
    match d.runError
    case None => 0
    case Some(e) => RunErrorCode(e)
  }

  /** The errors a plugin run appends: the output's decoding error, then the run error. */
  function DelegateErrors(d: Delegate): seq<string> {
    (if |d.stdout| > 0 && d.stdoutJson.Err? then [d.stdoutJson.msg] else []) +
    (if d.runError.Some? then [d.runError.value.msg] else [])
  }

  /** What a record field holds after `json.Unmarshal` into an `interface{}`:
      the text `null` leaves Go's nil, which the record omits like an absent value. */
  function Decoded(j: Json): (r: Option<Json>)
    ensures r.None? <==> j.JNull?
    ensures r.Some? ==> r.value == j
  {
    if j.JNull? then None else Some(j)
  }

  /** The decoded output the record keeps: only a non-empty output that decodes, and not `null`. */
  function DelegateDoc(d: Delegate): Option<Json> {
    if |d.stdout| > 0 && d.stdoutJson.Ok? then Decoded(d.stdoutJson.value) else None
  }

  /** The value the environment's `CNI_ARGS` takes when the address `ip` is appended. */
  function WithIp(cniArgs: string, ip: string): string {
    cniArgs + ";IP=" + ip
  }

  /** The properties `wrapCalico` keeps on every path, for a run `r` that
      started from environment `env`. */
  ghost predicate Keeps(w: World, env: Env, r: Run) {
    (r.outcome == Return(0) ==> Delegated(r.calls)) &&
    (!Delegated(r.calls) ==> r.outcome.Panic? || r.outcome == Return(1)) &&
    (!Delegated(r.calls) && r.outcome.Return? ==>
      (r.printed == "" && |r.record.errors| == 1) ||
      (r.printed == NetnsNotSetMessage && r.record.errors == [] && !LookedUp(r.calls))) &&
    (r.outcome.Panic? ==> r.record.errors == [] && !Delegated(r.calls) && !LookedUp(r.calls)) &&
    (Delegated(r.calls) ==>
      r.outcome == Return(DelegateCode(w.delegate)) && r.record.errors == DelegateErrors(w.delegate) &&
      r.record.stdout == DelegateDoc(w.delegate) &&
      r.printed == w.delegate.stdout && r.record.environment == Some(r.env) &&
      w.stdin.Ok? && r.calls[|r.calls| - 1] == RunCalico(w.argv, w.stdin.value, r.env)) &&
    r.env - {"CNI_ARGS"} == env - {"CNI_ARGS"} &&
    (r.env != env ==>
      LookedUp(r.calls) && r.record.pod.Some? && IpAnnotation in r.record.pod.value.annotations &&
      "CNI_ARGS" in r.env &&
      r.env["CNI_ARGS"] == WithIp(Get(env, "CNI_ARGS"), r.record.pod.value.annotations[IpAnnotation]))
  }

  /** `wrapCalico` from the top: the stdin and client stages. */
  function Transaction(w: World, env: Env): (r: Run)
    ensures Keeps(w, env, r)
  {
    match w.stdin
    case Err(m) => Fail(EmptyRecord, m, env, [])
    case Ok(data) =>
      if |data| > 0 && w.stdinJson.Err? then Fail(EmptyRecord, w.stdinJson.msg, env, [])
      else
        var rec := EmptyRecord.(stdin := if |data| > 0 then Decoded(w.stdinJson.value) else None);
        match w.netConf
        case Err(m) => Fail(rec, m, env, [])
        case Ok(conf) =>
          var calls := [BuildClient(LoaderRequestFor(conf))];
          if w.clientError.Some? then Fail(rec, w.clientError.value, env, calls)
          else AfterClient(w, data, rec, env, calls)
  }

  /** The record and calls of a run that has got past the client stage. */
  ghost predicate PastClient(w: World, data: string, rec: LogRecord, calls: seq<Call>) {
    w.stdin == Ok(data) && rec.errors == [] && rec.stdout.None? && rec.pod.None? &&
    !Delegated(calls) && !LookedUp(calls)
  }

  /** From the `CNI_ARGS` parse to the plugin run. */
  function AfterClient(w: World, data: string, rec: LogRecord, env: Env, calls: seq<Call>): (r: Run)
    requires PastClient(w, data, rec, calls)
    ensures Keeps(w, env, r)
    ensures calls <= r.calls
  {
    match ParseArgs(Get(env, "CNI_ARGS"))
    case IndexPanic(i) => Run(Panic(i), rec, env, "", calls)
    case Args(args) =>
      if Get(env, "CNI_NETNS") == "" then Run(Return(1), rec, env, NetnsNotSetMessage, calls)
      else if Get(env, "CNI_COMMAND") != "ADD" then RunDelegate(w, data, rec, env, calls)
      else
        var calls' := calls + [GetPod(Get(args, "K8S_POD_NAMESPACE"), Get(args, "K8S_POD_NAME"))];
        assert calls'[|calls|].GetPod?;
        assert !Delegated(calls') by {
          assert forall i :: 0 <= i < |calls| ==> calls'[i] == calls[i];
        }
        AfterLookup(w, data, rec, env, calls')
  }

  /** The lookup's result and the `IP=` amendment. */
  function AfterLookup(w: World, data: string, rec: LogRecord, env: Env, calls: seq<Call>): (r: Run)
    requires w.stdin == Ok(data) && rec.errors == [] && rec.stdout.None? && !Delegated(calls) && LookedUp(calls)
    ensures Keeps(w, env, r)
    ensures calls <= r.calls
  {
    match w.podLookup
    case Err(m) => Fail(rec, m, env, calls)
    case Ok(pod) =>
      var rec' := rec.(pod := Some(pod));
      if IpAnnotation !in pod.annotations then RunDelegate(w, data, rec', env, calls)
      else if w.setenvError.Some? then Fail(rec', w.setenvError.value, env, calls)
      else
        var env' := env["CNI_ARGS" := WithIp(Get(env, "CNI_ARGS"), pod.annotations[IpAnnotation])];
        assert env' - {"CNI_ARGS"} == env - {"CNI_ARGS"};
        RunDelegate(w, data, rec', env', calls)
  }

  /** Running the plugin with the environment snapshot, and mapping its result. */
  function RunDelegate(w: World, data: string, rec: LogRecord, env: Env, calls: seq<Call>): (r: Run)
    requires w.stdin == Ok(data) && rec.stdout.None?
    ensures Delegated(r.calls) && r.env == env && r.calls == calls + [RunCalico(w.argv, data, env)]
    ensures LookedUp(calls) ==> LookedUp(r.calls)
    ensures r.printed == w.delegate.stdout && r.record.environment == Some(env) && r.record.pod == rec.pod
  {
    var d := w.delegate;
    var calls' := calls + [RunCalico(w.argv, data, env)];
    assert calls'[|calls|].RunCalico?;
    assert forall i :: 0 <= i < |calls| ==> calls'[i] == calls[i];
    var rec' := rec.(environment := Some(env), stdout := DelegateDoc(d), errors := rec.errors + DelegateErrors(d));
    Run(Return(DelegateCode(d)), rec', env, d.stdout, calls')
  }

  /** The stdin, NetConf and client stages all succeed. */
  predicate PassesSetup(w: World) {
    w.stdin.Ok? && (|w.stdin.value| > 0 ==> w.stdinJson.Ok?) && w.netConf.Ok? && w.clientError.None?
  }

  /** The record as it stands once the setup stages have passed. */
  function SetupRecord(w: World): LogRecord
    requires PassesSetup(w)
  {
    EmptyRecord.(stdin := if |w.stdin.value| > 0 then Decoded(w.stdinJson.value) else None)
  }

  /** Each failing setup stage appends exactly its own error, returns 1, leaves
      the environment alone and goes no further. */
  lemma SetupFailures(w: World, env: Env)
    ensures w.stdin.Err? ==> Transaction(w, env) == Fail(EmptyRecord, w.stdin.msg, env, [])
    ensures w.stdin.Ok? && |w.stdin.value| > 0 && w.stdinJson.Err? ==>
      Transaction(w, env) == Fail(EmptyRecord, w.stdinJson.msg, env, [])
    ensures w.stdin.Ok? && (|w.stdin.value| > 0 ==> w.stdinJson.Ok?) && w.netConf.Err? ==>
      var r := Transaction(w, env);
      r.outcome == Return(1) && r.record.errors == [w.netConf.msg] && r.calls == [] && r.env == env
    ensures w.stdin.Ok? && (|w.stdin.value| > 0 ==> w.stdinJson.Ok?) && w.netConf.Ok? && w.clientError.Some? ==>
      var r := Transaction(w, env);
      r.outcome == Return(1) && r.record.errors == [w.clientError.value] && r.env == env &&
      r.calls == [BuildClient(LoaderRequestFor(w.netConf.value))]
  {
  }

  /** The client is requested with the trimmed API root: the configured root
      up to its first `/api/`, or all of it when it holds none. */
  lemma ClientGetsTrimmedRoot(w: World, env: Env)
    requires w.stdin.Ok? && (|w.stdin.value| > 0 ==> w.stdinJson.Ok?) && w.netConf.Ok?
    ensures var calls := Transaction(w, env).calls;
      |calls| >= 1 && calls[0] == BuildClient(LoaderRequestFor(w.netConf.value))
    ensures var server := LoaderRequestFor(w.netConf.value).overrides.server;
      var root := w.netConf.value.policy.apiRoot;
      server <= root && !GoStrings.Contains(server, ApiMarker) &&
      (GoStrings.Contains(root, ApiMarker) ==> GoStrings.OccursAt(root, ApiMarker, |server|)) &&
      (forall j :: 0 <= j < |server| ==> !GoStrings.OccursAt(root, ApiMarker, j)) &&
      (!GoStrings.Contains(root, ApiMarker) ==> server == root)
  {
  }

  /** `CNI_ARGS` is parsed before `CNI_NETNS` is looked at: a malformed value
      panics whatever `CNI_NETNS` and `CNI_COMMAND` are, after the setup stages
      and before any lookup, change or plugin run; an unset or empty
      `CNI_ARGS` panics at its first segment. */
  lemma ArgsPanicFirst(w: World, env: Env)
    requires PassesSetup(w)
    requires ParseArgs(Get(env, "CNI_ARGS")).IndexPanic?
    ensures var r := Transaction(w, env);
      r.outcome == Panic(ParseArgs(Get(env, "CNI_ARGS")).segment) &&
      r.record == SetupRecord(w) && r.printed == "" && r.env == env &&
      r.calls == [BuildClient(LoaderRequestFor(w.netConf.value))]
    ensures Get(env, "CNI_ARGS") == "" ==> Transaction(w, env).outcome == Panic(0)
  {
    ParseArgsEmpty();
  }

  /** An empty `CNI_NETNS` prints the fixed message and returns 1 with no error
      logged, no lookup, no environment change and no plugin run, whatever
      `CNI_COMMAND` is. */
  lemma NetnsUnset(w: World, env: Env)
    requires PassesSetup(w) && ParseArgs(Get(env, "CNI_ARGS")).Args?
    requires Get(env, "CNI_NETNS") == ""
    ensures var r := Transaction(w, env);
      r.outcome == Return(1) && r.printed == NetnsNotSetMessage &&
      r.record == SetupRecord(w) && r.env == env &&
      !LookedUp(r.calls) && !Delegated(r.calls)
  {
  }

  /** A command other than ADD skips the lookup: the plugin runs at once,
      inheriting the environment, `CNI_ARGS` included, unchanged. */
  lemma NonAddPassesThrough(w: World, env: Env)
    requires PassesSetup(w) && ParseArgs(Get(env, "CNI_ARGS")).Args?
    requires Get(env, "CNI_NETNS") != "" && Get(env, "CNI_COMMAND") != "ADD"
    ensures var r := Transaction(w, env);
      r.env == env && !LookedUp(r.calls) &&
      r.calls == [BuildClient(LoaderRequestFor(w.netConf.value)), RunCalico(w.argv, w.stdin.value, env)]
  {
  }

  /** On ADD the pod named by `K8S_POD_NAMESPACE` and `K8S_POD_NAME` is looked
      up ("" for a missing key); a failed lookup appends exactly its error and
      returns 1 without running the plugin. */
  lemma LookupFails(w: World, env: Env)
    requires PassesSetup(w) && ParseArgs(Get(env, "CNI_ARGS")).Args?
    requires Get(env, "CNI_NETNS") != "" && Get(env, "CNI_COMMAND") == "ADD"
    requires w.podLookup.Err?
    ensures var r, args := Transaction(w, env), ParseArgs(Get(env, "CNI_ARGS")).args;
      r.outcome == Return(1) && r.record.errors == [w.podLookup.msg] && r.env == env &&
      !Delegated(r.calls) &&
      r.calls == [BuildClient(LoaderRequestFor(w.netConf.value)),
                  GetPod(Get(args, "K8S_POD_NAMESPACE"), Get(args, "K8S_POD_NAME"))]
  {
  }

  /** A found pod with the address annotation: `CNI_ARGS` becomes
      `old;IP=<address>` before the plugin runs, and the plugin inherits it;
      when the address holds no `;`, the plugin's own parse of the new value
      is the old argument map with `IP` set to the address. */
  lemma IpAppended(w: World, env: Env)
    requires PassesSetup(w) && ParseArgs(Get(env, "CNI_ARGS")).Args?
    requires Get(env, "CNI_NETNS") != "" && Get(env, "CNI_COMMAND") == "ADD"
    requires w.podLookup.Ok? && IpAnnotation in w.podLookup.value.annotations
    requires w.setenvError.None?
    ensures var r, ip := Transaction(w, env), w.podLookup.value.annotations[IpAnnotation];
      r.env == env["CNI_ARGS" := WithIp(Get(env, "CNI_ARGS"), ip)] &&
      r.record.pod == Some(w.podLookup.value) &&
      r.calls[|r.calls| - 1] == RunCalico(w.argv, w.stdin.value, r.env)
    ensures var r, ip := Transaction(w, env), w.podLookup.value.annotations[IpAnnotation];
      ';' !in ip ==>
      ParseArgs(Get(r.env, "CNI_ARGS")) == Args(ParseArgs(Get(env, "CNI_ARGS")).args["IP" := ip])
  {
    var ip := w.podLookup.value.annotations[IpAnnotation];
    if ';' !in ip {
      AppendIp(Get(env, "CNI_ARGS"), ip);
    }
  }

  /** A found pod without the annotation is recorded and the plugin runs with
      the environment unchanged. */
  lemma NoIpAnnotation(w: World, env: Env)
    requires PassesSetup(w) && ParseArgs(Get(env, "CNI_ARGS")).Args?
    requires Get(env, "CNI_NETNS") != "" && Get(env, "CNI_COMMAND") == "ADD"
    requires w.podLookup.Ok? && IpAnnotation !in w.podLookup.value.annotations
    ensures var r := Transaction(w, env);
      r.env == env && r.record.pod == Some(w.podLookup.value) &&
      r.calls[|r.calls| - 1] == RunCalico(w.argv, w.stdin.value, env)
  {
  }

  /** A failing `os.Setenv` appends exactly its error and returns 1; the pod is
      already recorded and the plugin does not run. */
  lemma SetenvFails(w: World, env: Env)
    requires PassesSetup(w) && ParseArgs(Get(env, "CNI_ARGS")).Args?
    requires Get(env, "CNI_NETNS") != "" && Get(env, "CNI_COMMAND") == "ADD"
    requires w.podLookup.Ok? && IpAnnotation in w.podLookup.value.annotations
    requires w.setenvError.Some?
    ensures var r := Transaction(w, env);
      r.outcome == Return(1) && r.record.errors == [w.setenvError.value] &&
      r.record.pod == Some(w.podLookup.value) && r.env == env && !Delegated(r.calls)
  {
  }

  /** The inputs under which `wrapCalico` gets as far as running the plugin:
      setup passes, `CNI_ARGS` parses, `CNI_NETNS` is set, and on `ADD` the
      lookup succeeds and any `IP=` amendment is accepted. */
  predicate ReachesPlugin(w: World, env: Env) {
    PassesSetup(w) && ParseArgs(Get(env, "CNI_ARGS")).Args? && Get(env, "CNI_NETNS") != "" &&
    (Get(env, "CNI_COMMAND") == "ADD" ==>
      w.podLookup.Ok? && (IpAnnotation in w.podLookup.value.annotations ==> w.setenvError.None?))
  }

  /** The plugin is run exactly on the inputs `ReachesPlugin` describes. */
  lemma PluginRunsIff(w: World, env: Env)
    ensures Delegated(Transaction(w, env).calls) <==> ReachesPlugin(w, env)
  {
  }

  /** Once the plugin has run, its result decides the exit code: 0 when it
      succeeded (even if its output is not JSON), the WaitStatus exit status of
      an ExitError, 1 for any other error. Its output is printed verbatim; an
      output that does not decode only appends that decoding error, before the
      run error; a decoded `null` is recorded as no output. */
  lemma ExitCodeMapping(w: World, env: Env)
    requires ReachesPlugin(w, env)
    ensures var r, d := Transaction(w, env), w.delegate;
      r.outcome == Return(match d.runError case None => 0 case Some(e) => RunErrorCode(e)) &&
      r.printed == d.stdout &&
      r.record.errors ==
        (if |d.stdout| > 0 && d.stdoutJson.Err? then [d.stdoutJson.msg] else []) +
        (if d.runError.Some? then [d.runError.value.msg] else []) &&
      r.record.stdout ==
        (if |d.stdout| > 0 && d.stdoutJson.Ok? && !d.stdoutJson.value.JNull? then Some(d.stdoutJson.value) else None)
  {
  }

  /** How the process ends after `main`: `os.Exit(code)`, a normal return from
      `main`, or an unrecovered panic. */
  datatype Termination = OsExit(code: int) | MainReturned | PanicExit

  /** The exit status the process reports; Go's runtime exits 2 on a panic. */
  function ExitStatus(t: Termination): int {
    match t
    case OsExit(code) => code
    case MainReturned => 0
    case PanicExit => 2
  }

  /** `main`: `os.Exit(rc)` only when `rc` is not 0, so for `rc` in 0..255 the process status is `rc`. */
  function Terminate(o: Outcome): (t: Termination)
    ensures t.OsExit? <==> o.Return? && o.rc != 0
    ensures o.Return? ==> ExitStatus(t) == o.rc
    ensures o.Panic? ==> ExitStatus(t) == 2
  {
    match o
    case Return(rc) => if rc != 0 then OsExit(rc) else MainReturned
    case Panic(_) => PanicExit
  }

  /** The audit record under construction: `logRecord` of `wrapCalico`. */
  class Record {
    var environment: Option<Env>
    var stdin: Option<Json>
    var stdout: Option<Json>
    var errors: seq<string>
    var pod: Option<Pod>

    constructor ()
      ensures Value() == EmptyRecord
    {
      environment, stdin, stdout, errors, pod := None, None, None, [], None;
    }

    /** The record as `log` would serialise it now. */
    function Value(): LogRecord
      reads this
    {
      LogRecord(environment, stdin, stdout, errors, pod)
    }

    /** `logRecord.Errors = append(logRecord.Errors, msg)`. */
    method AddError(msg: string)
      modifies this
      ensures Value() == old(Value()).(errors := old(errors) + [msg])
    {
      errors := errors + [msg];
    }
  }

  /** The wrapper process: its environment, what it has written to standard
      output, the requests it has made of its collaborators, and the records
      in the audit log file. */
  class Process {
    var env: Env
    var stdout: string
    var calls: seq<Call>
    var log: seq<LogRecord>

    constructor (env0: Env, log0: seq<LogRecord>)
      ensures env == env0 && stdout == "" && calls == [] && log == log0
    {
      env, stdout, calls, log := env0, "", [], log0;
    }

    /** `os.Getenv(key)`. */
    function Getenv(key: string): string
      reads this
    {
      Get(env, key)
    }

    /** `os.Setenv(key, value)`, failing with `failure` when that is given. */
    method Setenv(key: string, value: string, failure: Option<string>) returns (err: Option<string>)
      modifies this
      ensures err == failure
      ensures env == if failure.None? then old(env)[key := value] else old(env)
      ensures stdout == old(stdout) && calls == old(calls) && log == old(log)
    {
      err := failure;
      if failure.None? {
        env := env[key := value];
      }
    }

    /** `log(logRecord)`: one record appended to the audit log. */
    method AppendLog(rec: Record)
      modifies this
      ensures log == old(log) + [rec.Value()]
      ensures env == old(env) && stdout == old(stdout) && calls == old(calls)
    {
      log := log + [rec.Value()];
    }

    /** `wrapCalico`: the body runs, then the deferred `log` appends the record
        on whichever path the body left by, the panic included. */
    method WrapCalico(w: World) returns (o: Outcome)
      modifies this
      ensures var run := Transaction(w, old(env));
        o == run.outcome && env == run.env && stdout == old(stdout) + run.printed &&
        calls == old(calls) + run.calls && log == old(log) + [run.record]
    {
      var rec := new Record();
      o := WrapCalicoBody(w, rec);
      AppendLog(rec);
    }

    /** `main`: runs `wrapCalico` and exits with its code when that is not 0. */
    method RunMain(w: World) returns (t: Termination)
      modifies this
      ensures t == Terminate(Transaction(w, old(env)).outcome)
      ensures var run := Transaction(w, old(env));
        env == run.env && stdout == old(stdout) + run.printed &&
        calls == old(calls) + run.calls && log == old(log) + [run.record]
    {
      var o := WrapCalico(w);
      match o
      case Return(rc) =>
        if rc != 0 {
          t := OsExit(rc);
        } else {
          t := MainReturned;
        }
      case Panic(_) =>
        t := PanicExit;
    }

    /** The statements of `wrapCalico` before its deferred `log`, with their
        early returns: reading and decoding stdin, and building the client. */
    method WrapCalicoBody(w: World, rec: Record) returns (o: Outcome)
      requires rec.Value() == EmptyRecord
      modifies this, rec
      ensures var run := Transaction(w, old(env));
        o == run.outcome && rec.Value() == run.record && env == run.env &&
        stdout == old(stdout) + run.printed && calls == old(calls) + run.calls
      ensures log == old(log)
    {
      if w.stdin.Err? {
        rec.AddError(w.stdin.msg);
        return Return(1);
      }
      var stdinData := w.stdin.value;
      if |stdinData| > 0 {
        if w.stdinJson.Err? {
          rec.AddError(w.stdinJson.msg);
          return Return(1);
        }
        rec.stdin := Decoded(w.stdinJson.value);
      }
      if w.netConf.Err? {
        rec.AddError(w.netConf.msg);
        return Return(1);
      }
      var conf := w.netConf.value;
      ghost var calls0 := calls;
      calls := calls + [BuildClient(LoaderRequestFor(conf))];
      if w.clientError.Some? {
        rec.AddError(w.clientError.value);
        return Return(1);
      }
      assert calls[..|calls0|] == calls0 && calls[|calls0|..] == [BuildClient(LoaderRequestFor(conf))];
      o := ExtendAndDelegate(w, stdinData, rec, calls0);
    }

    /** Parsing `CNI_ARGS`, the `CNI_NETNS` check and the command check. */
    method ExtendAndDelegate(w: World, stdinData: string, rec: Record, ghost calls0: seq<Call>) returns (o: Outcome)
      requires |calls0| <= |calls| && calls[..|calls0|] == calls0
      requires PastClient(w, stdinData, rec.Value(), calls[|calls0|..])
      modifies this, rec
      ensures var run := AfterClient(w, stdinData, old(rec.Value()), old(env), old(calls)[|calls0|..]);
        o == run.outcome && rec.Value() == run.record && env == run.env &&
        stdout == old(stdout) + run.printed && calls == calls0 + run.calls
      ensures log == old(log)
    {
      ghost var prior := calls[|calls0|..];
      assert calls == calls0 + prior;
      var parsed := ExtractArgs(Getenv("CNI_ARGS"));
      if parsed.IndexPanic? {
        return Panic(parsed.segment);
      }
      var args := parsed.args;
      if Getenv("CNI_NETNS") == "" {
        stdout := stdout + NetnsNotSetMessage;
        return Return(1);
      }
      if Getenv("CNI_COMMAND") != "ADD" {
        o := RunPlugin(w, stdinData, rec, calls0);
        return;
      }
      calls := calls + [GetPod(Get(args, "K8S_POD_NAMESPACE"), Get(args, "K8S_POD_NAME"))];
      ghost var looked := prior + [GetPod(Get(args, "K8S_POD_NAMESPACE"), Get(args, "K8S_POD_NAME"))];
      assert calls == calls0 + looked && calls[|calls0|..] == looked;
      assert looked[|prior|].GetPod?;
      assert !Delegated(looked) by {
        assert forall i :: 0 <= i < |prior| ==> looked[i] == prior[i];
      }
      o := Enrich(w, stdinData, rec, calls0);
    }

    /** The ADD branch: the pod lookup and the `IP=` amendment. */
    method Enrich(w: World, stdinData: string, rec: Record, ghost calls0: seq<Call>) returns (o: Outcome)
      requires |calls0| <= |calls| && calls[..|calls0|] == calls0
      requires w.stdin == Ok(stdinData) && rec.errors == [] && rec.stdout.None?
      requires !Delegated(calls[|calls0|..]) && LookedUp(calls[|calls0|..])
      modifies this, rec
      ensures var run := AfterLookup(w, stdinData, old(rec.Value()), old(env), old(calls)[|calls0|..]);
        o == run.outcome && rec.Value() == run.record && env == run.env &&
        stdout == old(stdout) + run.printed && calls == calls0 + run.calls
      ensures log == old(log)
    {
      assert calls == calls0 + calls[|calls0|..];
      if w.podLookup.Err? {
        rec.AddError(w.podLookup.msg);
        return Return(1);
      }
      var pod := w.podLookup.value;
      rec.pod := Some(pod);
      if IpAnnotation in pod.annotations {
        var err := Setenv("CNI_ARGS", WithIp(Getenv("CNI_ARGS"), pod.annotations[IpAnnotation]), w.setenvError);
        if err.Some? {
          rec.AddError(err.value);
          return Return(1);
        }
      }
      o := RunPlugin(w, stdinData, rec, calls0);
    }

    /** Snapshotting the environment, running `calico` and mapping its result. */
    method RunPlugin(w: World, stdinData: string, rec: Record, ghost calls0: seq<Call>) returns (o: Outcome)
      requires w.stdin == Ok(stdinData) && rec.stdout.None?
      requires |calls0| <= |calls| && calls[..|calls0|] == calls0
      modifies this, rec
      ensures var run := RunDelegate(w, stdinData, old(rec.Value()), old(env), old(calls)[|calls0|..]);
        o == run.outcome && rec.Value() == run.record && env == run.env &&
        stdout == old(stdout) + run.printed && calls == calls0 + run.calls
      ensures log == old(log)
    {
      assert calls == calls0 + calls[|calls0|..];
      rec.environment := Some(env);
      calls := calls + [RunCalico(w.argv, stdinData, env)];
      var d := w.delegate;
      stdout := stdout + d.stdout;
      if |d.stdout| > 0 {
        match d.stdoutJson
        case Ok(doc) => rec.stdout := Decoded(doc);
        case Err(m) => rec.AddError(m);
      }
      if d.runError.Some? {
        rec.AddError(d.runError.value.msg);
        return Return(RunErrorCode(d.runError.value));
      }
      return Return(0);
    }
  }
}
