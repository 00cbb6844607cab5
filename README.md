# Remote placement and container options of a function platform, in Dafny

This project models two sequential pieces of a function-as-a-service platform
and proves properties of them.

* **The load-balancing agent** (`api/agent/lb_agent.go`). The agent does not run
  a call itself. It reserves a *remote slot*, and executing that slot does three
  things. It claims the call's memory on the node pool. It places the call with
  the naive placer. Then it releases the same claim. The placer works in rounds.
  Each round first checks the call's slot deadline and gives up with
  `ErrCallTimeoutServerBusy` once the deadline has passed. Otherwise it tries
  the group's runners in the order the pool lists them, and the first runner
  that accepts ends placement with its own error. When no runner accepts, the
  placer sleeps `retryWaitInterval` (10 ms) and starts another round.
* **The Docker cookie** (`api/agent/drivers/docker/cookie.go`). This is the
  per-call record from which a container is created. Each `configure…` method
  fills in part of the container create options from the task: logging,
  memory, storage size, tmpfs, bind mounts, volumes, CPU quota, working
  directory, host name, command and environment. The cookie also wraps
  container creation, teardown, image validation and image pull.
  `isCreated` decides whether teardown removes the container.

Files:

* `wrappers.dfy`: `Option` and `Result`.
* `text.dfy` (module `Text`): the Go formatting and string functions the
  options are built with: decimal printing of unsigned integers,
  `strings.Join` and `strings.Fields`. The readers beside them (`ParseNat`,
  `Split` on one separator character, `Cut`) are not used by the options;
  they exist only to state the round-trip lemmas.
* `lb_agent.dfy` (module `LbAgent`): the placement specification `Place`, the
  retry loop `PlaceCall` and its per-round loop `TryRound` proved against it, lemmas about `Place`, and the
  classes `NodePool`, `Agent` and `RemoteSlot`.
* `cookie.dfy` (module `DockerCookie`): the options record, the option-string
  formatters with their parsers, and the classes `Driver` and `Cookie`.

Modelling choices:

* Time is an integer logical clock in milliseconds. `PlaceCall` is given the
  clock at its start and returns the clock at its return. Its only effect on
  state is the pool's record of its runner queries.
* The node pool's runner list and each runner's `TryExec` reply are oracles.
  They are bundled as a `Fleet`, which gives the list the pool returns for a
  group at a clock time and the `(placed, err)` reply a runner gives at a clock
  time. `PlaceCall` also returns the `TryExec` calls it made, in order, so that
  lemmas can talk about which runners were tried.
* The node pool records, in one log and in order, the `AssignCapacity`,
  `ReleaseCapacity` and `Runners` calls it receives, so the log shows that the
  claim is in place while placement queries the runners. The Docker driver records the requests a cookie makes. The results
  of Docker client calls are parameters of the methods that make them.
* Go integer widths are written out. `int64(uint64)` is a two's-complement
  reinterpretation (`ToInt64`). `CPUs() * 100` wraps modulo 2^64 before that
  conversion (`CpuQuota`).
* The placer returns an accepting runner's error unchanged
  (`api/agent/lb_agent.go:94-95`), so a runner error can leave the placer.
* The sleep between rounds (`api/agent/lb_agent.go:100`) cannot be cancelled.

## Model

| member | source | states |
|---|---|---|
| `LbAgent.GetGroupID` | api/agent/lb_agent.go:166-170 | every call is placed in group "foobar" |
| `LbAgent.RequestReader` | api/agent/lb_agent.go:17-33 | succeeds exactly for the agent's own call type carrying a request, with that request's body; otherwise fails with the cast error or the missing-request error |
| `LbAgent.ResponseWriter` | api/agent/lb_agent.go:35-47 | succeeds exactly for the agent's own call type whose writer is an HTTP response writer, returning it; otherwise fails with the cast error or the no-writer error |
| `LbAgent.FirstAccepting` | api/agent/lb_agent.go:89-97 | the index of the first runner in the pool's order that accepts; every runner before it rejected |
| `LbAgent.TryRound` | api/agent/lb_agent.go:89-98 | one round tries the runners in the pool's order at one clock time and stops at the first that accepts; it returns that runner's index (the length of the list when none accepts) and reply, and the attempts up to and including it |
| `LbAgent.PlaceCall` | api/agent/lb_agent.go:81-103 | the nested retry loop returns exactly the error, the tried runners and the return time of the placement specification `Place`, and asks the pool for the group's runners once per round, at each round's start |
| `LbAgent.PlaceVerdict` | api/agent/lb_agent.go:82-100 | every attempt but the last was rejected; past the deadline the result is the busy error and nothing was accepted; otherwise the last attempt was accepted in the final round and its error is returned unchanged, nil or not; return comes no later than one retry interval after the deadline when placement starts by the deadline, and at its start otherwise |
| `LbAgent.BusyExactlyAtDeadline` | api/agent/lb_agent.go:84-87 | if no runner itself reports the busy error, placement returns it exactly when a round starts after the deadline |
| `LbAgent.AlwaysRejectingPoolEndsBusy` | api/agent/lb_agent.go:84-101 | when none of the runners the pool lists accepts, an empty list included, placement ends only with the busy error, after the deadline, and within one retry interval of it unless it started later |
| `LbAgent.PlaceClock` | api/agent/lb_agent.go:100 | placement returns at the start of one of its rounds, a whole number of retry intervals after it began |
| `LbAgent.PlaceRounds` | api/agent/lb_agent.go:89-100 | rounds start every retry interval; each round before the last tries all of the pool's runners, in the pool's order, whatever the rejecting runners report; the last round tries nothing if the deadline had passed, else the runners up to the first that accepts and none after it |
| `LbAgent.SecondOfThreeAccepts` | api/agent/lb_agent.go:89-96 | with three runners of which only the second accepts, placement returns the second runner's result in the first round and never tries the third |
| `LbAgent.ClaimHeldWhileQuerying` | api/agent/lb_agent.go:63-67 | while placement queries the runners after the assignment, the call's memory counts against its group |
| `LbAgent.ClaimThenReleaseConserves` | api/agent/lb_agent.go:63-65 | an assignment, runner queries, then the release of the same entry leave every group's committed memory as it was |
| `LbAgent.RemoteSlot.Exec` | api/agent/lb_agent.go:56-72 | the pool sees exactly one capacity assignment of {call memory, group}, then placement's runner queries, one per round, then exactly one release of the same entry; returns placement's error unchanged |
| `LbAgent.RemoteSlot.Close` | api/agent/lb_agent.go:105-107 | closing a remote slot never fails |
| `LbAgent.RemoteSlot.Error` | api/agent/lb_agent.go:109-111 | a remote slot carries no error |
| `LbAgent.Agent.GetCall` | api/agent/lb_agent.go:155-159 | the delegated agent receives the caller's options with exactly one reservation of a new remote slot of this agent appended |
| `LbAgent.Agent.Close` | api/agent/lb_agent.go:161-164 | shuts the pool down once and returns nil |
| `DockerCookie.Cookie.ConfigureLogger` | api/agent/drivers/docker/cookie.go:43-69 | no URL gives log type "none" with no options; otherwise syslog to the URL with facility "user" and format "rfc5424", and a "tag" option present exactly when there are tags; nothing else in the options changes |
| `DockerCookie.TagEntry` | api/agent/drivers/docker/cookie.go:64 | a log tag is written `name=value` and decodes back to the tag when its name holds no '=' |
| `DockerCookie.TagsRoundTrip` | api/agent/drivers/docker/cookie.go:62-68 | the "tag" option holds the tags as comma-joined `name=value` pairs: splitting it recovers the tags when names hold no ',' or '=' and values no ',' |
| `DockerCookie.Cookie.ConfigureMem` | api/agent/drivers/docker/cookie.go:71-81 | a zero memory limit changes nothing; otherwise memory, swap and kernel memory all become the limit converted to int64 |
| `DockerCookie.ToInt64` | api/agent/drivers/docker/cookie.go:76 | the int64 conversion keeps the value below 2^63 and otherwise gives the value congruent modulo 2^64 in the int64 range |
| `DockerCookie.Cookie.ConfigureFsSize` | api/agent/drivers/docker/cookie.go:83-96 | a zero size changes nothing; otherwise the "size" storage option is set and the other storage options are kept |
| `DockerCookie.StorageSize` | api/agent/drivers/docker/cookie.go:93 | the storage size option is `<n>M` and reads back to n |
| `DockerCookie.Cookie.ConfigureTmpFs` | api/agent/drivers/docker/cookie.go:98-120 | no tmpfs size and a writable root change nothing; otherwise /tmp gets the tmpfs option and the other tmpfs mounts are kept |
| `DockerCookie.TmpFsOption` | api/agent/drivers/docker/cookie.go:109-116 | the tmpfs option is empty exactly when the size is 0; otherwise it reads back to the size and the inode limit, and has a second (inode) piece exactly when the limit is non-zero |
| `DockerCookie.Cookie.ConfigureIOFS` | api/agent/drivers/docker/cookie.go:122-131 | an empty UDS path changes nothing; otherwise one `path:dest` bind is appended after the existing binds |
| `DockerCookie.Bind` | api/agent/drivers/docker/cookie.go:146 | a bind is `host:container` and splits back when the host path holds no ':' |
| `DockerCookie.Cookie.ConfigureVolumes` | api/agent/drivers/docker/cookie.go:133-150 | every mapping's container directory is added to the volumes and its `host:container` bind appended in mapping order after the existing binds; nothing else changes |
| `DockerCookie.Cookie.ConfigureCPU` | api/agent/drivers/docker/cookie.go:152-167 | a zero CPU count changes nothing; otherwise the CFS quota for the milli-CPUs and a 100000 microsecond period are set |
| `DockerCookie.CpuQuota` | api/agent/drivers/docker/cookie.go:153-162 | the quota is `cpus*100` wrapped to 64 bits and read as int64; without overflow, quota over period is cpus/1000 CPUs |
| `DockerCookie.Cookie.ConfigureWorkDir` | api/agent/drivers/docker/cookie.go:169-177 | the working directory is set only when the task names one |
| `DockerCookie.Cookie.ConfigureHostname` | api/agent/drivers/docker/cookie.go:179-187 | the driver's host name is set only when no network mode is set |
| `DockerCookie.Cookie.ConfigureCmd` | api/agent/drivers/docker/cookie.go:189-198 | a non-empty command becomes its whitespace-separated fields; an empty one changes nothing |
| `Text.FieldsKeepText` | api/agent/drivers/docker/cookie.go:195 | the command's fields hold exactly its non-space characters, in order |
| `Text.FieldsSplitAtSpace` | api/agent/drivers/docker/cookie.go:195 | every whitespace character ends a field: the fields of text around one are the fields of each side, in order |
| `Text.FieldsJoin` | api/agent/drivers/docker/cookie.go:195 | splitting space-joined words into fields gives the words back, so splitting is the inverse of joining |
| `Text.FieldsIdempotent` | api/agent/drivers/docker/cookie.go:195 | re-joining a command's fields with spaces and splitting again gives the same fields |
| `DockerCookie.Cookie.ConfigureEnv` | api/agent/drivers/docker/cookie.go:200-212 | one `name=value` entry per environment variable is appended after the existing entries, each name exactly once, in some order of the map |
| `DockerCookie.EnvEntry` | api/agent/drivers/docker/cookie.go:210 | an entry is `name=value` and splits back at its first '=' when the name holds none |
| `DockerCookie.Cookie.Close` | api/agent/drivers/docker/cookie.go:215-223 | asks for the container's removal exactly when it is marked created, always unpicks the pool and the network, and returns the removal's error |
| `DockerCookie.Cookie.CreateContainer` | api/agent/drivers/docker/cookie.go:321-342 | marks the container created whatever the outcome, asks for it, and treats "already exists" as success |
| `DockerCookie.Cookie.ValidateImage` | api/agent/drivers/docker/cookie.go:259-287 | a failing credentials lookup returns its error and changes nothing; otherwise it records the task's credentials or else the registry's, inspects the image, and needs a pull exactly when the image is missing |
| `DockerCookie.Cookie.PullImage` | api/agent/drivers/docker/cookie.go:289-319 | requires validated credentials; pulls with them; a failed pull is reported as PullFailure |
| `DockerCookie.PullFailure` | api/agent/drivers/docker/cookie.go:306-315 | a daemon error keeps its status and others get 500; the message names the image and the cause and reads back to both |
| `DockerCookie.DockerMsg` | api/agent/drivers/docker/cookie.go:345-358 | the JSON "message" field of the daemon's body, or the raw body when it does not parse |
| `Text.DecimalRoundTrip` | api/agent/drivers/docker/cookie.go:112 | the decimal text of a number reads back to the number |
| `Text.SplitJoin` | api/agent/drivers/docker/cookie.go:67 | splitting what was joined with a separator absent from the parts gives the parts back |

## Left out

- `lb/fnlb/main.go`: flag parsing, the HTTP listener and the exit path are process bootstrap. The consistent-hash reverse proxy it starts is not part of this model.
- The node pool's implementation and the runners' `TryExec` are not part of this model. They are the oracles of a `Fleet`. The node pool's capacity accounting is also not part of this model, so `Committed` (assignments add memory, releases subtract it) is an assumption.
- `time.Now` and `time.Sleep` become a logical clock. A `TryExec` call and a runner-list query take no logical time. Context cancellation is not modelled.
- Concurrent placements sharing the pool are not modelled; each placement sees the pool through its own `Fleet`.
- Logging and tracing, `NewLBAgent`, `WithPlacer` and the `Placer` interface are not modelled; only the naive placer is.
- The unused constants `runnerReconnectInterval`, `noCapacityWaitInterval` and `placementTimeout` are not modelled.
- `Submit`, `PromHandler` and `AddCallListener` only delegate, so they are not modelled.
- `Enqueue` aborts the process, so it is not modelled.
- LbAgent.Agent.GetCall: the delegated agent's own `GetCall` is foreign. The model returns the options handed to it, not the call it builds.
- `Run` hands the task to the driver's own `run`, `ContainerOptions` returns the options as they stand, and `Freeze` and `Unfreeze` pause and unpause the container through the Docker client. None of the four is modelled. Setting `opts.Context` in `CreateContainer` is also not modelled.
- DockerCookie.Cookie.PullImage: the repository is recorded as registry and repo, without `path.Join`'s cleaning. The fatal log when credentials are missing is a precondition.
- DockerCookie.Cookie.ValidateImage: `findRegistryConfig` and the task's `DockerAuth` are foreign. Their answers are parameters.
- DockerCookie.DockerMsg: `json.Unmarshal` is a `decode` parameter.
- DockerCookie.ErrorText: the sentinel errors' texts are assumed to be those of the Docker client, which is not part of this model.
- Container removal, pool and network unpicking, container creation, image inspection and pull are recorded as requests, and their results are parameters.
- A nil map or slice in the options is the same as an empty one.
- DockerCookie.Cookie.ConfigureVolumes requires every mapping to have at least two entries; a shorter mapping makes the source panic.
- Text.Fields works on characters (decoded runes); invalid UTF-8 is not modelled.
- The `log` parameter of the `configure…` methods is not modelled.
