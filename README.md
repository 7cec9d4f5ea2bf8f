# Participant-network launch orchestrator

A Dafny model of `LaunchParticipantNetwork`, the routine of the Ethereum merge test-network
module that starts a network of participants. Each participant is a paired execution-layer
(EL) node and consensus-layer (CL, beacon + validator) node. For each participant spec, in
index order, the routine:

- resolves the EL launcher, then the CL launcher, from caller-supplied registries keyed by
  client type;
- names the services `el-client-<i>` and `cl-client-<i>`;
- launches the EL node, then the CL node. Participant 0 is the boot participant and gets no
  bootnode (Go's nil). Every later participant gets participant 0's EL and CL contexts. Each
  CL node gets its own participant's freshly launched EL context and validator keystore `i`;
- appends the resulting `Participant`.

Any unknown client type or launch error aborts the whole run. The caller then gets only the
error and no participant.

Files:

- `wrappers.dfy`: `Option` (nil pointers) and `Result` (Go's `(value, error)` pairs).
- `decimal.dfy`: the decimal rendering that `%v` gives a non-negative `int`, its inverse,
  and the proof that rendering is injective.
- `launchers.dfy`: the launcher boundary. It holds the opaque contexts, the argument
  records of the two `Launch` operations and the record of one launcher call. A launcher
  is an oracle: a function from its call's arguments to a context or an error.
- `participant_network.dfy`: the constants, `ParticipantSpec`, `Participant` and the
  error type. `LaunchOne` and `RunPrefix` give the meaning of one loop iteration and of
  the first `n` iterations. The method `LaunchParticipantNetwork` has the Go loop
  and is proved to compute `RunPrefix` over all specs.
- `network_properties.dfy`: lemmas about `RunPrefix`. They cover the call order,
  distinct service ids, the prefix-stability of a run, per-participant launch wiring,
  success shape and how an aborted run ended.

The method returns the list of launcher calls it made, in order, next to its result. This
trace is how the model states wiring, ordering and "no launch after a failure". The
pass-through values (enclave context, network id, log level) are carried in every recorded
call, so the lemmas also show that they are forwarded unchanged.

Launchers are modelled as pure functions of their arguments. Every call in one run asks for
a different service id (`CallServiceIdsDistinct`), so any sequence of per-call outcomes the
platform could produce is the outcome of some such function.

Two points of the code shape the contracts:

- The code does not check that there are at least as many validator keystores as specs; it
  would index out of range at participant_network.go:56. The model states this as the
  precondition `|allParticipantSpecs| <= |preregisteredValidatorKeysForNodes|`. The
  precondition also excludes short-keystore inputs on which the Go code returns an ordinary
  lookup error before reaching line 56 (for example one spec, empty registries, no
  keystores: the Go code returns the line-47 error).
- The unknown-client-type errors (participant_network.go:47, 51) name only the client type,
  not the index. `UnknownClientType` carries the layer and the type, and `AbortedWitness`
  supplies the index.

## Model

| member | source | states |
|---|---|---|
| `ParticipantNetwork.LaunchParticipantNetwork` | kurtosis-module/impl/participant_network/participant_network.go:28-121 | The loop computes `RunPrefix` over all specs. It returns all participants or only the error, together with exactly the launcher calls `RunPrefix` records. An empty spec list gives no participants, no error and no call. Loop invariant: the participant list has length `idx`. |
| `ParticipantNetwork.LaunchOne` | kurtosis-module/impl/participant_network/participant_network.go:42-118 | One iteration only appends to the call list, at most two calls: the first is the EL launch of this index and the second the CL launch of this index. On success it appends exactly one participant and keeps the earlier ones. |
| `ParticipantNetwork.RunPrefix` | kurtosis-module/impl/participant_network/participant_network.go:40-120 | A run still going after `n` specs holds exactly `n` participants. This is the range fact for the reads of `participants[bootParticipantIndex]` at `idx > 0`. |
| `ParticipantNetwork.AbortedIsFinal` | kurtosis-module/impl/participant_network/participant_network.go:45-110 | After an early return, later specs change neither the error nor the calls made. |
| `Decimal.Format` | kurtosis-module/impl/participant_network/participant_network.go:54-55 | The rendered index is a non-empty string of decimal digits. It starts with `0` exactly when the index is 0, so there is no leading zero. |
| `Decimal.ValueOfFormat` | kurtosis-module/impl/participant_network/participant_network.go:54-55 | Reading the rendered digits back gives the index. |
| `Decimal.FormatInjective` | kurtosis-module/impl/participant_network/participant_network.go:54-55 | Two indices render equally exactly when they are equal. |
| `NetworkProperties.ServiceIdsUnique` | kurtosis-module/impl/participant_network/participant_network.go:13-15 | `el-client-<i>` = `el-client-<j>` exactly when `i = j`, and likewise for `cl-client-`. No EL service id equals a CL one. |
| `NetworkProperties.LaunchOneCalls` | kurtosis-module/impl/participant_network/participant_network.go:54-107 | The first call an iteration makes is the EL launch of its index with service id `el-client-<idx>`; the second is the CL launch of its index with `cl-client-<idx>`. |
| `NetworkProperties.LaunchOneLaunched` | kurtosis-module/impl/participant_network/participant_network.go:54-118 | An iteration that succeeds appends a participant launched with exactly the Go arguments (service ids, enclave, log level, network id, bootnodes, own EL context, keystore `idx`), holding what the two launches returned and its spec's client types. |
| `NetworkProperties.LaunchOneAborted` | kurtosis-module/impl/participant_network/participant_network.go:45-110 | An iteration that aborts does so by one of the four cases of `AbortExplained`, with the failing calls carrying exactly the Go arguments. |
| `NetworkProperties.CallsInLaunchOrder` | kurtosis-module/impl/participant_network/participant_network.go:41-110 | The calls of any run are a prefix of EL(0), CL(0), EL(1), CL(1), …. Each call's service id is its layer's prefix plus its index. A run still going after `n` specs made exactly `2n` calls, and no run made more. |
| `NetworkProperties.OrderedCallsDistinctServiceIds` | kurtosis-module/impl/participant_network/participant_network.go:54-55 | Any call list in the launch order EL(0), CL(0), EL(1), … names pairwise distinct services. |
| `NetworkProperties.CallServiceIdsDistinct` | kurtosis-module/impl/participant_network/participant_network.go:54-55 | No two launcher calls of a run ask for the same service id. |
| `NetworkProperties.RunningExtends` | kurtosis-module/impl/participant_network/participant_network.go:70-98 | A run still going at `n` was going at every `m <= n`, and its participants and calls then were prefixes of those at `n`. So participant 0 is fully formed before any later index reads it. |
| `NetworkProperties.RunningLaunchedAll` | kurtosis-module/impl/participant_network/participant_network.go:41-118 | In a run still going after `n` specs, each participant `i < n` carries spec `i`'s client types. Calls `2i` and `2i+1` launched its EL and CL nodes, each with its service id, the enclave, the log level and (EL only) the network id. The EL bootnode is none at `i = 0`, else participant 0's EL context. The CL bootnode is none at `i = 0`, else participant 0's CL context. The CL call also got participant `i`'s own EL context and keystore `i`. The participant's contexts are what those two calls returned. |
| `NetworkProperties.SuccessMatchesSpecs` | kurtosis-module/impl/participant_network/participant_network.go:112-120 | On success there are exactly `len(allParticipantSpecs)` participants. Participant `i` has the EL and CL client types of spec `i`. |
| `NetworkProperties.BootnodeWiring` | kurtosis-module/impl/participant_network/participant_network.go:61-107 | On success both launches of index 0 got no bootnode. Every later index got participant 0's EL and CL contexts. Every CL launch got its own index's EL context and keystore. |
| `NetworkProperties.AbortedWitness` | kurtosis-module/impl/participant_network/participant_network.go:45-110 | An aborted run failed at one index `k`, and every spec before `k` ran in full. An unknown EL type (looked up first) or CL type made no call for `k`. An EL launch error followed one more call, EL(k). A CL launch error followed two, EL(k) succeeding and CL(k) failing. These failing calls got the same arguments as successful ones: service id, enclave, log level, network id, participant 0's contexts as bootnodes when `k > 0` (none at `k = 0`), and for CL the EL context EL(k) returned and keystore `k`. Launch errors carry `k`. No call was made for any index after `k`. |

## Left out

- The concrete EL and CL launcher implementations, the enclave and service types and the
  orchestration platform: foreign, side-effecting calls, modelled only as oracles from a
  call's arguments to a context or an error.
- Stack-trace wrapping and message text of errors: errors are a datatype holding the layer,
  the client type or the index, and the launcher's own cause.
- The commented-out `ParticipantNetwork` type and its `AddParticipant` method
  (participant_network.go:124-249): they sit inside a block comment, so they are not live
  code. Their distinguishing feature is a mutex, i.e. concurrency.
- `NewParticipant` and the `Participant` accessors (`GetELClientContext`,
  `GetCLClientContext`) live in a file that is not part of this model. `Participant` is a
  datatype and the accessors are its fields.
- Nil entries in the spec slice (a Go nil-pointer dereference at lines 42-43) are not
  modelled. Nil entries in the keystore slice are only read and forwarded to the CL
  launcher (lines 56, 94, 105); the model has no nil keystore to forward.
- The model assumes a launcher that reports no error returns a non-nil context. A Go
  launcher returning `(nil, nil)` at index 0 would leave participant 0 with a nil context.
  That nil is the "no bootnode" sentinel (lines 20-21), so every later node would start as
  a bootnode. The model's `Success` always carries a context, so later indices always get
  `Some` of participant 0's context.
- A launcher whose outcome depends on something other than its arguments is covered only
  within one run (see above), not across runs.
