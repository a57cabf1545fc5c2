# calico-wrapper, modelled in Dafny

`calico-wrapper` is a CNI plugin that sits in front of Calico's own CNI
plugin. On each invocation it reads the network configuration from standard
input, builds a Kubernetes client from its `policy` and `kubernetes`
sections, parses the `CNI_ARGS` environment variable, refuses an empty
`CNI_NETNS`, and on `ADD` looks the pod up and appends `;IP=<address>` to
`CNI_ARGS` when the pod carries the `bosh.cloudfoundry.org/ip-address`
annotation. It then runs the real `calico` binary (next to its own
executable) with the same standard input and arguments, echoes its output and
returns its exit code. Every invocation appends one record (input, output,
environment, pod, errors) to an audit log.

The model has five modules, one file each:

- `Wrappers` (`wrappers.dfy`): `Option` and `Result` (a Go `(T, error)` pair, the error kept as its text).
- `GoStrings` (`go_strings.dfy`): `strings.Index`, `strings.Split`, `strings.SplitN(s, sep, 2)` and `strings.Join` on `seq<char>`, with their laws.
- `CniArgs` (`cni_args.dfy`): `extractArgs`. `ParseArgs` is the specification, a left fold over the `;`-segments. `ExtractArgs` is the imperative loop, proved equal to `ParseArgs`. The lemmas say what `ParseArgs` computes.
- `Clientset` (`clientset.dfy`): the `NetConf` types, the API-root trim of `newClientset`, and the loader request `newClientset` builds.
- `CalicoWrapper` (`calico_wrapper.dfy`): `wrapCalico` and `main`.
  - `Transaction` is a pure function of a `World`, which holds every outside result, and of the starting environment. Its contract `Keeps` holds the invariants of every path. The scenario lemmas state each branch.
  - `Process` is a class. Its fields are the environment, what was printed, the requests made of collaborators and the audit log. `Record` is a class for the `logRecord` being filled in.
  - `Process.WrapCalico` runs the statements of `wrapCalico`, early returns included, and then the deferred `log`. It is proved to leave exactly the state that `Transaction` describes.

A `World` holds these outside inputs:
- the result of reading standard input;
- the result of decoding it into the record and into `NetConf`;
- the client-construction error;
- the pod lookup result;
- the `os.Setenv` error;
- the plugin's output, its JSON decoding and its run error;
- `os.Args[1:]`.

What the wrapper asks of the outside goes into a trace of `Call`s, each with its arguments: `BuildClient(request)`, `GetPod(namespace, name)` and `RunCalico(argv, stdin, env)`. "No lookup" and "the plugin inherits this `CNI_ARGS`" are stated over this trace.

Notable behaviour of the code, which the model follows:
- An unset or empty `CNI_ARGS` is one empty segment. `extractArgs` then indexes `parts[1]` of a one-element slice and panics (main.go:66-68). It never yields an empty argument set.
- The `CNI_NETNS` check applies to every command, not only to `ADD` (main.go:111-115).
- A failed plugin run returns the `WaitStatus` exit status of the `ExitError` (main.go:150-158). For a process killed by a signal, Go's `WaitStatus.ExitStatus()` returns -1, so the wrapper returns -1 and not 1. Only errors that are not an `ExitError` carrying a `WaitStatus` map to 1.
- There is no serialiser for the arguments. The only re-encoding is the textual `;IP=<ip>` append (main.go:126). `AppendIp` proves that this append parses back as the old map with `IP` set.
- `extractArgs` never returns a non-nil error. The check at main.go:106-109 therefore cannot fire, so the model has no state for it. The panic is modelled as `Parse.IndexPanic` and `Outcome.Panic`.

## Model

| member | source | states |
|---|---|---|
| `GoStrings.Index` | src/calico-wrapper/main.go:67 | the position of the first occurrence of the pattern, or -1 exactly when there is none |
| `GoStrings.Split` | src/calico-wrapper/main.go:66 | `strings.Split` with a non-empty separator returns at least one piece. Where the cuts fall, for any separator including a self-overlapping one such as `/api/`, is stated by `SplitHead` and `SplitAtLeftmost`: the first piece is the text before the leftmost occurrence and the rest is the split of what follows it. `SplitConcat` gives the pieces for a one-character separator, and `SplitJoin` and `SplitPiecesFree` are laws the pieces also obey |
| `GoStrings.SplitHead` | src/calico-wrapper/main.go:39 | the first piece of a split is the text before the leftmost occurrence of the separator, or the whole string when there is none, and holds no separator |
| `GoStrings.SplitAtLeftmost` | src/calico-wrapper/main.go:66 | for any position `k` where the separator occurs and before which it does not, the split is the text before `k` followed by the split of the text after that occurrence, and the string is those two joined by the separator |
| `GoStrings.SplitWhole` | src/calico-wrapper/main.go:39 | a split is the single piece `s` exactly when the separator does not occur in `s` |
| `GoStrings.SplitJoin` | src/calico-wrapper/main.go:66 | joining the pieces of `strings.Split` with the separator gives back the input |
| `GoStrings.SplitPiecesFree` | src/calico-wrapper/main.go:66 | no piece of a split contains the separator |
| `GoStrings.SplitConcat` | src/calico-wrapper/main.go:126 | splitting `a;b` at `;` gives the pieces of `a` followed by those of `b` |
| `GoStrings.SplitN2` | src/calico-wrapper/main.go:67 | `SplitN(s, sep, 2)` gives one or two pieces; with two, the first is as long as the text before the first `sep` and the second is everything after that `sep` |
| `GoStrings.SplitN2Parts` | src/calico-wrapper/main.go:67 | `SplitN(s, sep, 2)` gives `[s]` exactly when `sep` is absent; otherwise two pieces that rejoin to `s` around `sep`, the first holding no `sep` and ending where the leftmost `sep` begins |
| `CniArgs.ParseArgs` | src/calico-wrapper/main.go:64-71 | the argument map is produced exactly when every `;`-segment holds `=`; a panic names a segment that holds none |
| `CniArgs.ExtractArgs` | src/calico-wrapper/main.go:64-71 | the loop that inserts each segment's key and value into the map, or panics at a segment without `=`, computes `ParseArgs` of its input |
| `CniArgs.FirstEqualsOnly` | src/calico-wrapper/main.go:67-68 | a segment's key is the text before its first `=` and holds no `=`; its value is all the rest, later `=` included; no other cut has these properties |
| `CniArgs.ParseArgsFails` | src/calico-wrapper/main.go:66-68 | parsing succeeds exactly when every segment contains `=`; otherwise it panics at the first segment that does not |
| `CniArgs.ParseArgsEmpty` | src/calico-wrapper/main.go:66-68 | an empty or unset `CNI_ARGS` panics at segment 0 |
| `CniArgs.ParseArgsMap` | src/calico-wrapper/main.go:65-70 | on success every segment has `=`; the map's keys are exactly the segments' keys; each key maps to the value of the last segment carrying it (last write wins) |
| `CniArgs.AppendIp` | src/calico-wrapper/main.go:126 | on well-formed arguments, appending `;IP=<ip>` (with no `;` in `ip`) parses as the old map with `IP` set to `ip` |
| `Clientset.TrimApiRoot` | src/calico-wrapper/main.go:39 | the result is a prefix of the API root and holds no `/api/`; it ends where the first `/api/` begins; it is the whole root when there is no `/api/` |
| `Clientset.LoaderRequestFor` | src/calico-wrapper/main.go:38-53 | the loader request takes the kubeconfig path as its explicit path, copies the CA, client certificate, client key and token, and uses as server the text of the API root before its first `/api/`, the whole root when it has none |
| `Clientset.TrimIdempotent` | src/calico-wrapper/main.go:39 | trimming a trimmed root changes nothing |
| `CalicoWrapper.Decoded` | src/calico-wrapper/main.go:84 | a decoded JSON `null` leaves the record field nil (absent); any other value is kept as decoded |
| `CalicoWrapper.Transaction` | src/calico-wrapper/main.go:73-161 | on every path: exit 0 only after the plugin ran; without a plugin run the return is 1 or a panic; an early return of 1 has logged exactly one error, or none when the `CNI_NETNS` message was printed; a panic has logged no error and made no lookup; after a plugin run, its code, errors and output decide the result and the plugin got the read stdin, `os.Args[1:]` and the final environment; only `CNI_ARGS` can change, and only to `old;IP=<annotation>` after a lookup |
| `CalicoWrapper.AfterClient` | src/calico-wrapper/main.go:105-132 | the stage of `Transaction` from the `CNI_ARGS` parse on: it keeps `Keeps` and only extends the request trace |
| `CalicoWrapper.AfterLookup` | src/calico-wrapper/main.go:118-132 | the stage of `Transaction` after the pod request: it keeps `Keeps` and only extends the request trace |
| `CalicoWrapper.RunDelegate` | src/calico-wrapper/main.go:134-161 | the plugin-run stage of `Transaction`: one `RunCalico` request with `os.Args[1:]`, the read stdin and the unchanged environment is appended; the output is printed verbatim; the record holds the environment snapshot and keeps its pod |
| `CalicoWrapper.SetupFailures` | src/calico-wrapper/main.go:77-102 | a failed stdin read, stdin decode, `NetConf` decode or client build appends exactly that error and returns 1, with no further request and no environment change |
| `CalicoWrapper.ClientGetsTrimmedRoot` | src/calico-wrapper/main.go:38-53 | the first request is the client build with the kubeconfig path, the credential overrides and, as server, the API root up to its first `/api/` (all of it when it has none) |
| `CalicoWrapper.ArgsPanicFirst` | src/calico-wrapper/main.go:105-115 | a malformed `CNI_ARGS` panics after the setup stages, whatever `CNI_NETNS` and `CNI_COMMAND` are, with nothing printed, no lookup and no plugin run; an empty `CNI_ARGS` panics at segment 0 |
| `CalicoWrapper.NetnsUnset` | src/calico-wrapper/main.go:111-115 | an empty `CNI_NETNS` prints the fixed `code 101` message and returns 1, with no error logged, no lookup, no environment change and no plugin run, for every command |
| `CalicoWrapper.NonAddPassesThrough` | src/calico-wrapper/main.go:117-140 | a command other than `ADD` makes no lookup; the plugin runs next, with the environment, `CNI_ARGS` included, unchanged |
| `CalicoWrapper.LookupFails` | src/calico-wrapper/main.go:117-122 | on `ADD` the pod named by `K8S_POD_NAMESPACE`/`K8S_POD_NAME` ("" when missing) is requested; a failure appends exactly its error and returns 1 without a plugin run |
| `CalicoWrapper.IpAppended` | src/calico-wrapper/main.go:123-140 | a found pod with the address annotation is recorded; `CNI_ARGS` becomes `old;IP=<address>` and the plugin inherits it; when the address holds no `;`, that value parses as the old map with `IP` set |
| `CalicoWrapper.NoIpAnnotation` | src/calico-wrapper/main.go:123-132 | a found pod without the annotation is recorded and the plugin runs with the environment unchanged |
| `CalicoWrapper.SetenvFails` | src/calico-wrapper/main.go:126-130 | a failing `os.Setenv` appends exactly its error and returns 1; the pod is already recorded, the environment is unchanged and the plugin does not run |
| `CalicoWrapper.PluginRunsIff` | src/calico-wrapper/main.go:77-140 | the plugin runs exactly when stdin, its decode, the `NetConf` decode and the client build succeed, `CNI_ARGS` parses and `CNI_NETNS` is set, and, on `ADD`, the lookup succeeds and any `IP=` amendment is accepted |
| `CalicoWrapper.ExitCodeMapping` | src/calico-wrapper/main.go:140-161 | after a plugin run: 0 on success even when its output fails to decode; the `WaitStatus` status of an `ExitError`; 1 for any other error; its output printed verbatim; the decode error, then the run error, appended; the output recorded only when it is non-empty, decodes and is not `null` |
| `CalicoWrapper.Terminate` | src/calico-wrapper/main.go:187-191 | `main` calls `os.Exit` exactly when the code is not 0, so for a code in 0..255 the process status equals that code; a panic ends the process with status 2 |
| `CalicoWrapper.Record.AddError` | src/calico-wrapper/main.go:79 | appends one message to the record's errors and changes nothing else |
| `CalicoWrapper.Process.Setenv` | src/calico-wrapper/main.go:126 | sets the variable unless the call fails, and reports the failure |
| `CalicoWrapper.Process.AppendLog` | src/calico-wrapper/main.go:172-185 | appends the record's current value to the audit log and changes nothing else |
| `CalicoWrapper.Process.WrapCalico` | src/calico-wrapper/main.go:73-161 | the imperative body with its early returns, then the deferred log. The new environment, printed text and request trace are exactly those of `Transaction`. The log gains exactly one record, `Transaction`'s, on every path, the panic included |
| `CalicoWrapper.Process.WrapCalicoBody` | src/calico-wrapper/main.go:77-102 | the statements before the deferred log: the outcome, record, environment, printed text and request trace are exactly those of `Transaction`; the log is unchanged |
| `CalicoWrapper.Process.ExtendAndDelegate` | src/calico-wrapper/main.go:105-117 | from the argument parse on: the outcome and the new record, environment, output and trace are those of `AfterClient`, which `Transaction` uses after the client is built |
| `CalicoWrapper.Process.Enrich` | src/calico-wrapper/main.go:117-132 | after the lookup request: the pod result, the `CNI_ARGS` update and the run that follows leave exactly the state `AfterLookup` describes |
| `CalicoWrapper.Process.RunPlugin` | src/calico-wrapper/main.go:134-161 | the plugin run: records the environment, requests the run with `os.Args[1:]`, stdin and the environment, prints the output, and returns the outcome and state of `RunDelegate` |
| `CalicoWrapper.Process.RunMain` | src/calico-wrapper/main.go:187-191 | the process ends as `Terminate` of `wrapCalico`'s outcome; the environment, printed text and request trace are `Transaction`'s, and exactly its record is logged |

## Left out

- JSON: decoding stdin into the record and into `NetConf`, decoding the plugin's output, and `json.MarshalIndent` of the record. Each decoding is an input `Result`. In Go, an empty stdin always fails the `NetConf` decode; the model leaves that relation to the inputs. A document that decodes to `null` leaves the record's `input` or `output` nil, as an absent one does (main.go:84, 145).
- Kubernetes client: loading the kubeconfig, the overlay of the overrides on it, and `kubernetes.NewForConfig` are foreign library calls. The model keeps only the request (`LoaderRequestFor`) and takes the error as an input. The `Pods(ns).Get(name)` network call is an input result. Only the pod's namespace, name and annotations are kept.
- Subprocess: launching `calico` from `filepath.Dir(os.Args[0])` and wiring standard input, output and error are OS plumbing. The plugin's output and run error are inputs. Forwarding of standard error is not modelled.
- The `WaitStatus` exit status is an opaque integer. Go returns -1 for a signalled process, and how `os.Exit` truncates a code outside 0..255 depends on the OS.
- The audit log file: opening `/var/log/wrapper.log` (with `panic` when that fails), the write and the cross-process append atomicity are left out. `log` appends the record to a sequence.
- `os.Environ()` is a full snapshot of the process environment. The model keeps the environment as a map over the variables it tracks.
- `os.Setenv` failures are an input. The conditions under which the OS rejects a value are not modelled.
- `GoStrings.Split`: requires a non-empty separator. Go's split at `""` into characters is not modelled, because the wrapper splits only at `;` and `/api/`.
- `GoStrings.Join`: requires at least one piece, so Go's `Join` of an empty slice (which returns `""`) is not modelled. It puts no condition on the separator. It is used only as the inverse of `Split`, which never returns an empty slice.
- Go strings are byte sequences; the model uses `seq<char>`, so a value that is not valid UTF-8 cannot be written down. Splitting at the ASCII text `;`, `=` and `/api/` gives the same pieces over bytes and over characters, so no behaviour of the wrapper depends on this.
- JSON numbers are modelled as `real`. Go's `float64` rounding is not modelled.
