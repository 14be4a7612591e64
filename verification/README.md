# Verification of procri

procri is a container runtime (CRI) server that runs every container as a plain process of its host.
This project models the behaviour of its runtime and image services in Dafny and proves what their
handlers promise: over every run of the lifecycle, over every interleaving of the log writers, and for
every input of the parsing and selection code.  `dafny verify dfyconfig.toml` checks everything.

## How the model is laid out

* `Records.dfy`: the stored records, and the errors handlers return.
* `Lifecycle.dfy`: pods and containers as a step system.  A state holds the two maps of the data store,
  the process table, the tracker goroutines and, per pod, the handler at work with its local copies.  One
  step is one store write, one spawn, one signal, one outcome of the wait in `terminateContainer`, the exit of a
  process, or an action of a tracker.  `Exec` runs any sequence of steps; a step that is not enabled
  changes nothing, so a statement about all sequences is a statement about all interleavings.
* `WellFormed.dfy`, `Locality.dfy`, `Integrity.dfy`, `Processes.dfy`, `Teardown.dfy`: the invariants and
  theorems about all runs, from the weakest assumptions to the strongest.
* `Orphans.dfy`, `Limits.dfy`, `Witnesses.dfy`: what happens when those assumptions are violated, and runs
  that violate them.
* `Tracing.dfy`, `RuntimeService.dfy`: the handlers themselves, as imperative methods of a class.  Between
  any two of its own writes a handler pauses, and handlers of other pods, trackers and processes take
  arbitrary steps.  Every write is recorded in a ghost trace, and `Valid()` says that the state is the one
  the recorded steps lead to; hence every theorem about runs applies to the service at every moment.
* `Images.dfy`, `LogPipes.dfy`, `Selection.dfy`, `StoreKeys.dfy`, `Listing.dfy`, `Paths.dfy`,
  `Environment.dfy`: the image store, the log multiplexer, label selection, the keys of the data store, the two
  listing handlers, path containment and the environment list.  `Strings.dfy` and `Sequences.dfy` hold what they share.

## Assumptions

The code has no locks, so the lifecycle results assume the following.

* Handlers on one pod are serialised; handlers on different pods interleave freely.
* The get, compare and put of `trackContainerProcess` are one step.  Results that speak of `WholeRun`
  need this; `WellFormed.dfy` (exit codes, NOTREADY sandboxes, locality) does not, and allows a delete
  between the read and the write.
* Container ids and Pids are fresh.  Store writes succeed, and procri does not restart.  `os.FindProcess` succeeds, and
  `NewLogPipe` succeeds once the process is spawned.
* Waits are nondeterministic: a tick, the timeout or the end of the context may come at any time, in any order.
  When the list of events of a service is used up, the context ends.
* "Sent SIGKILL" is what is proved of a process that a handler ends; when it dies is up to the operating system.

A `SafeStarts` run is one in which StartContainer is not called on a container whose process is alive; a
strict one, in which it is not called, besides, on a container whose RemoveContainer was cancelled.  Runs
that start CREATED containers only are both (`StartOnceIsSafe`).  Both conditions are exact, whatever other
handlers, trackers and processes do between the steps of the StartContainer that violates them.  Violating the
first loses the process for good as soon as the new record is stored; if the spawn fails nothing has
changed (`RestartLosesTheProcess`).  Violating the second starts a process that no number of teardowns of
the pod ever signals (`RestartEscapesTeardown`).  `Witnesses.dfy` has runs that get there.

The other modules take bytes as characters, timestamps as opaque strings without a space or a newline
(RFC 3339, section 5.6), the hash behind an image's key as injective, and Go's map iteration order as arbitrary.

## Surprises in the code, kept as they are

* RemoveImage of the only tag deletes the whole record, digests included; `RemoveUndoesPull` says exactly when
  a Remove undoes a Pull.
* A user variable whose key contains `=` is read by the process under the part before it.  When that part is
  a default key, the user's value takes effect exactly if another user variable names the default key itself, or
  the value is the default anyway (`UserValueTakesEffect`; `DefaultWinsOverKeyWithEquals` is a witness).
* `namespace_name` ids collide exactly when the underscore can be shifted (`PodIDsCollide`).
* StartContainer does not check the container's state (`RestartLosesTheProcess`).
* A log path that climbs with `..` is joined all the same and leaves the pod's log directory (`JoinClimbs`).

## Model

| member | source | states |
|---|---|---|
| WellFormedness.RunKeeps | procri/pkg/runtimeservice/container.go:275-318 | every step of every run, whatever the interleaving, keeps records, local copies, trackers and lists truthful: back-pointers, Pids, exit codes, duplicate-free lists, handler copies in sync |
| WellFormedness.ExitCodesAreAttributed | procri/pkg/runtimeservice/container.go:296-318 | in every run, also with repeated starts and with the tracker's read and write apart, an EXITED record holds the exit code of the exited process its own Pid names |
| WellFormedness.NotReadyIsEmpty | procri/pkg/runtimeservice/podsandbox.go:176-181 | a NOTREADY sandbox lists no container in any state of any run |
| WellFormedness.SpliceKeeps | procri/pkg/runtimeservice/container.go:492-499 | taking one id off a list keeps it duplicate-free and removes exactly that id |
| Locality.StepLocal | procri/pkg/runtimeservice/container.go:246-318 | every step is about one pod and changes no sandbox, container, process, tracker or handler of any other |
| Locality.RunUntouched | procri/pkg/runtimeservice/container.go:246-318 | pods are isolated: a run whose steps are all about other pods leaves a pod's sandbox, handler, container records and processes exactly as they were |
| CrossMap.RunIntegrity | procri/pkg/runtimeservice/podsandbox.go:160-181 | every run keeps the two maps, the trackers and the handlers' copies in agreement |
| CrossMap.ListedContainersAreStored | procri/pkg/runtimeservice/container.go:252-277 | in every state ids of a list are distinct and in no other list, and every listed id is stored with a back-pointer to that sandbox, except the head a teardown has just deleted |
| CrossMap.StoredContainersAreListed | procri/pkg/runtimeservice/container.go:490-509 | while its pod is idle a stored container is listed by an existing sandbox unless its RemoveContainer was cancelled |
| CrossMap.ExitIsRecorded | procri/pkg/runtimeservice/container.go:377-384 | a RUNNING record has a nonzero Pid and exactly one tracker for it, and once the process exits one tracker step makes the record EXITED with its code |
| NoLostProcess.RunSafe | procri/pkg/runtimeservice/container.go:377-384 | every run with safe starts keeps the per-pod process invariant |
| NoLostProcess.LiveProcessesAreOnRecord | procri/pkg/runtimeservice/container.go:377-384 | no lost process: one that has neither exited nor been sent SIGKILL is the Pid of a stored RUNNING record, or StartContainer stores that record next |
| NoLostProcess.TeardownIsComplete | procri/pkg/runtimeservice/podsandbox.go:154-199 | once a pod is idle and its sandbox NOTREADY or gone, every process ever started for it has exited or been sent SIGKILL, whatever was cancelled before |
| NoLostProcess.LiveIsListed | procri/pkg/runtimeservice/container.go:490-509 | a live process of an idle pod belongs to a container on its sandbox's list |
| NoLostProcess.StartOnceIsSafe | procri/pkg/runtimeservice/container.go:322-384 | runs that start CREATED containers only have safe starts, in the strict sense too |
| Orphans.OrphansAreNeverSignalled | procri/pkg/runtimeservice/container.go:404-448 | a process that no record, handler or tracker names is never sent SIGKILL and never named again, in any continuation |
| Orphans.RunKeepsGone | procri/pkg/runtimeservice/podsandbox.go:160-181 | a container once off its pod's list is never on it again |
| Orphans.RunKeepsCancelledGone | procri/pkg/runtimeservice/container.go:490-508 | a container whose removal was cancelled is off every list for good |
| Limits.RestartLosesTheProcess | procri/pkg/runtimeservice/container.go:322-384 | a StartContainer on a container whose process is alive, under any interleaving and unless its spawn fails, loses that process once its record is stored: in no continuation is it signalled or on record again |
| Limits.SupersededTrackerIsHarmless | procri/pkg/runtimeservice/container.go:300-309 | after any StartContainer that is not the first, the tracker of the process before it changes no record in any continuation |
| Limits.UnlistedEscapesTeardown | procri/pkg/runtimeservice/podsandbox.go:154-184 | no process of a container started off its pod's list is ever sent SIGKILL by teardowns of the pod, under any interleaving, completed ones included |
| Limits.RestartEscapesTeardown | procri/pkg/runtimeservice/container.go:444-509 | the same of every StartContainer that violates only the second condition, in every reached state |
| Limits.LateTrackerRevivesRecord | procri/pkg/runtimeservice/container.go:300-318 | a record deleted between a tracker's read and its write comes back, and no list names it in any continuation |
| Witnesses.RunningIsReachable | procri/pkg/runtimeservice/container.go:275-384 | for every new pod and container a run to a running process, where a second start violates the first condition |
| Witnesses.LostProcessIsReachable | procri/pkg/runtimeservice/container.go:322-384 | a whole run after which a live process is in no record |
| Witnesses.CancelledRemovalIsReachable | procri/pkg/runtimeservice/container.go:444-508 | a whole run to a stored, startable, unlisted container with a dead process |
| Witnesses.EscapedProcessIsReachable | procri/pkg/runtimeservice/podsandbox.go:154-184 | a whole run after which the sandbox is NOTREADY and a process of the pod alive |
| Witnesses.HeldTrackerIsReachable | procri/pkg/runtimeservice/container.go:300-318 | a run after which a tracker is about to write a deleted record |
| Witnesses.RevivedRecordIsReachable | procri/pkg/runtimeservice/container.go:300-318 | a run after which a stored container is listed nowhere although no removal of it was cancelled |
| TeardownRetries.OthersKeepView | procri/pkg/runtimeservice/container.go:296-318 | in runs without a handler step of a pod, its sandbox, its handler and the set of its stored containers stay as they were: trackers only rewrite records |
| TeardownRetries.OthersKeepRecord | procri/pkg/runtimeservice/container.go:296-318 | in runs without a handler step of its pod a record stays as it is, unless the tracker of its own process makes it EXITED with that process's code |
| TeardownRetries.AttemptsProgress | procri/pkg/runtimeservice/podsandbox.go:157-181 | after every step of any sequence of attempts the stored list is a suffix of the original, the deleted containers are the dropped prefix plus at most the suffix's head, and the record is otherwise as it was until the last write |
| TeardownRetries.FinishedTeardown | procri/pkg/runtimeservice/podsandbox.go:154-199 | a completed teardown has deleted exactly the containers that were listed at the start, whatever attempts preceded it |
| TeardownRetries.RetryConfluence | procri/pkg/runtimeservice/podsandbox.go:201-248 | any two ways to complete, with any cancelled attempts before, end with the same sandbox record and the same containers deleted |
| TeardownRetries.StopRetries | procri/pkg/runtimeservice/podsandbox.go:210-229 | any number of cancelled StopPodSandbox calls and one that completes leave the record of a single uninterrupted call |
| TeardownRetries.AttemptCanFinish | procri/pkg/runtimeservice/podsandbox.go:154-199 | uncancelled, a teardown ends with an empty list and NOTREADY, or with no sandbox |
| TeardownRetries.RetryCanFinish | procri/pkg/runtimeservice/podsandbox.go:201-248 | after any cut-off attempts one more call can finish, and all together did what one uninterrupted call would have done |
| TeardownRetries.IncarnationIsMonotone | procri/pkg/runtimeservice/podsandbox.go:124-144 | while a sandbox exists it only moves READY to NOTREADY, and once NOTREADY it never changes |
| Tracing.ForeignStep | procri/pkg/runtimeservice/podsandbox.go:154-184 | steps of other handlers, trackers and processes leave a pod's sandbox record and handler alone |
| Runtime.RuntimeService.RunPodSandbox | procri/pkg/runtimeservice/podsandbox.go:114-152 | refuses a missing configuration and an existing id, each with its error and no change; otherwise stores exactly one READY, empty sandbox with the id `namespace_name`, the request's fields and the time of the call |
| Runtime.RuntimeService.SymlinkMounts | procri/pkg/runtimeservice/container.go:225-234 | succeeds exactly when every mount can be linked that has two different paths and lies outside `/etc`, `/usr`, `/bin`, `/sbin` and `/Library`: a mount inside one of those is never linked and never fails the call |
| Runtime.RuntimeService.NewContainer | procri/pkg/runtimeservice/container.go:252-274 | a CREATED record with the request's fields, no Pid and no times but the creation time, the effective environment, and a log path that lies in the pod's log directory under the components of the requested name, unless that name climbs |
| Runtime.RuntimeService.CreateContainer | procri/pkg/runtimeservice/container.go:199-285 | success and each error exactly by the request and the pod's state; on success the record stored is the one NewContainer describes and its id is appended to the list and listed and stored at return, on error nothing changes |
| Runtime.RuntimeService.StartContainer | procri/pkg/runtimeservice/container.go:322-388 | success and each error exactly (no such container; neither command nor arguments, or a failed spawn); on success, in whole runs, the stored record is the old one with the spawned Pid, the start time, `/tmp/cnt.log` exactly if it had no log path, and RUNNING with code 0 or EXITED with the process's code; its tracker waits, and a process alive under the Pid before is lost; on error nothing changes |
| Runtime.RuntimeService.TrackContainerProcess | procri/pkg/runtimeservice/container.go:296-318 | the record becomes EXITED with the code exactly if it still names the process, and nothing else changes |
| Runtime.RuntimeService.SendTerm | procri/pkg/runtimeservice/container.go:418-423 | SIGTERM cannot be delivered exactly if the next event says so; then SIGKILL is sent and the call returns nil |
| Runtime.RuntimeService.Receive | procri/pkg/runtimeservice/container.go:428-449 | one receive of the select: a tick passes if it finds the record RUNNING and ends the wait with nil otherwise, the timeout ends it with SIGKILL and nil, the end of the context with SIGKILL and its error |
| Runtime.RuntimeService.TerminateContainer | procri/pkg/runtimeservice/container.go:390-451 | the answer, the steps taken and the signals sent as a function of the events consumed: no wait for a container that is not running; nil after an undeliverable SIGTERM, a timeout, or a tick at which the record is gone or not RUNNING; the context's error exactly if the context ended; no SIGKILL after a tick, SIGKILL otherwise, and no other error for a truthful record |
| Runtime.RuntimeService.Poll | procri/pkg/runtimeservice/container.go:425-450 | under any order of ticks, timeouts and cancellation exactly one event ends the wait: every event before it is a tick that found the record RUNNING; the answer is the context's error exactly if the context ended or no event was left |
| Runtime.RuntimeService.StopContainer | procri/pkg/runtimeservice/container.go:456-474 | not-found error without change; otherwise an error exactly if the context ends first, so that a timeout is no error; the container has ended or was sent SIGKILL, a container that ends in time is sent none, and one that is not running is left alone |
| Runtime.RuntimeService.RemoveContainer | procri/pkg/runtimeservice/container.go:480-513 | a missing container is no error; otherwise the id is unlisted, and the call fails exactly if the context ends first: then SIGKILL was sent and, in whole runs, the record is still stored; nil, also after the zero timeout, means the record is deleted and, in whole runs with safe starts, no process of the container is alive |
| Runtime.RuntimeService.Unlist | procri/pkg/runtimeservice/container.go:490-502 | the in-place splice removes the first occurrence and stores the list only if there is one |
| Runtime.RuntimeService.TerminateSandboxContainers | procri/pkg/runtimeservice/podsandbox.go:154-184 | an error when a consumed event ends the context, which is then the last one consumed, and otherwise only when no event is left; nil leaves the record NOTREADY and empty, an error leaves it with a non-empty suffix of its list and otherwise as it was |
| Runtime.RuntimeService.StopPodSandbox | procri/pkg/runtimeservice/podsandbox.go:210-229 | idempotent; fails only if the context ends or no event is left, never because a container had to be killed, and always if a consumed event ends the context; nil deletes exactly the listed containers and ends every process of the pod, under arbitrary interference |
| Runtime.RuntimeService.RemovePodSandbox | procri/pkg/runtimeservice/podsandbox.go:186-248 | as StopPodSandbox, and nil means there is no sandbox |
| Runtime.TeardownResult | procri/pkg/runtimeservice/podsandbox.go:186-229 | from the steps a handler recorded to what its teardown achieved |
| Images.CanonicalIsStable | procri/pkg/imageservice/imageservice.go:324-336 | every string that contains `@sha256` is a digest, every other one with a colon a tag, and every other one is the tag with `:latest` appended; parsing that tag or digest again gives the same key, tag and digest |
| Images.DigestReference | procri/pkg/imageservice/imageservice.go:325-328 | for every name without `@`, a digest of it has the name's key, no tag, and the whole string as digest |
| Images.TagReference | procri/pkg/imageservice/imageservice.go:325-333 | for every name without `:`, a tag of it has the name's key, the whole string as tag, and no digest |
| Images.BareReference | procri/pkg/imageservice/imageservice.go:325-335 | a name with neither has its own key and the tag `latest` |
| Images.AppendCreatesNoMark | procri/pkg/imageservice/imageservice.go:325-335 | appending the default tag creates no digest mark |
| Images.ImageService.AddToSliceWithoutDuplicate | procri/pkg/imageservice/imageservice.go:346-359 | a non-empty item that is missing is appended, anything else leaves the list as it is |
| Images.ImageService.RemoveFromSlice | procri/pkg/imageservice/imageservice.go:361-371 | all other items stay, in order |
| Images.ImageService.PullImage | procri/pkg/imageservice/imageservice.go:202-254 | refuses a request without an image; otherwise answers the key and stores what PullOfTag, PullOfDigest and PullOfName describe |
| Images.PullOfTag | procri/pkg/imageservice/imageservice.go:206-251 | pulling a tag of a name adds it, once, to the tags of the name's record and changes neither its digests nor any other record |
| Images.PullOfDigest | procri/pkg/imageservice/imageservice.go:206-251 | pulling a digest adds it, once, to the digests of the name's record and changes neither its tags nor any other record |
| Images.PullOfName | procri/pkg/imageservice/imageservice.go:206-251 | pulling a bare name is pulling its `latest` tag |
| Images.PullsShareRecord | procri/pkg/imageservice/imageservice.go:206-251 | tags and digests of one name are kept in one record |
| Images.ImageService.RemoveImage | procri/pkg/imageservice/imageservice.go:259-294 | refuses a request without an image; otherwise stores what RemovalOfTag and RemovalOfDigest describe; an unknown image is no error |
| Images.RemovalOfTag | procri/pkg/imageservice/imageservice.go:259-294 | the only tag takes the record with it, digests included; any other tag is taken off the tags and nothing else changes |
| Images.RemovalOfDigest | procri/pkg/imageservice/imageservice.go:259-294 | the only digest takes the record with it, tags included; any other digest is taken off the digests and nothing else changes |
| Images.ImageService.ImageStatus | procri/pkg/imageservice/imageservice.go:158-199 | an image is answered exactly when the request names one whose key is stored, with the requested reference as id and the stored tags and digests, a single empty string counting as none; in a reachable store at least one of them |
| Images.ServeKeeps | procri/pkg/imageservice/imageservice.go:272-285 | in every reachable store each record has a reference, no duplicates, no empty string, and only references that parse back to its key |
| Images.ServeRefines | procri/pkg/imageservice/imageservice.go:211-293 | over every run of requests the store is a map from key to a set of tags and a set of digests, with the abstract pull and remove |
| Images.RequestsAreIdempotent | procri/pkg/imageservice/imageservice.go:256-294 | a second Pull or Remove changes nothing, and other keys are never touched |
| Images.RemoveUndoesPull | procri/pkg/imageservice/imageservice.go:267-293 | exactly when Remove undoes Pull |
| LogPipes.LinesAreComplete | procri/pkg/runtimeservice/logpipe.go:59-68 | the lines read are exactly the longest newline-terminated prefix of the stream |
| LogPipes.ParseFormat | procri/pkg/runtimeservice/logpipe.go:69-70 | a record parses back to its time, the name `stdout` or `stderr` of its stream, the flag `F` and its line, whatever bytes the line holds |
| LogPipes.DemuxRecords | procri/pkg/runtimeservice/logpipe.go:57-72 | a log is cut at its newlines into exactly the records written |
| LogPipes.DemuxRecovers | procri/pkg/runtimeservice/logpipe.go:39-51 | for every interleaving of records, selecting `stdout` gives back what the goroutine of the output stream wrote, in order, and selecting `stderr` what that of the error stream wrote |
| LogPipes.LogPipe.ReadString | procri/pkg/runtimeservice/logpipe.go:60-68 | a line with its newline, or the unterminated rest and the end |
| LogPipes.LogPipe.Pass | procri/pkg/runtimeservice/logpipe.go:57-72 | one pass of a goroutine keeps log, streams and records in agreement and leaves the other goroutine alone |
| LogPipes.LogPipe.Run | procri/pkg/runtimeservice/logpipe.go:39-72 | for every schedule of the two goroutines `stdout` selects exactly the output stream's longest newline-terminated prefix, and `stderr` the error stream's |
| LogPipes.DemuxInvertsMultiplexing | procri/pkg/runtimeservice/logpipe.go:39-72 | the same for every pair of streams and every interleaving of their lines |
| Selection.CountingIsInclusion | procri/pkg/runtimeservice/container.go:620-632 | the match count equals the selector's size exactly when the selector is a sub-map of the labels |
| Selection.CountMatches | procri/pkg/runtimeservice/container.go:621-629 | the nested loops count the common pairs, for every iteration order |
| Selection.FilterContainersByLabel | procri/pkg/runtimeservice/container.go:613-635 | keeps, in order, the containers whose labels include the selector |
| Selection.FilterContainersByState | procri/pkg/runtimeservice/container.go:637-650 | keeps, in order, the containers in the state, all if none is given |
| Selection.FilterContainersByPodSandboxID | procri/pkg/runtimeservice/container.go:652-664 | keeps, in order, the containers of the pod, all if none is given |
| Selection.FilterContainersByID | procri/pkg/runtimeservice/container.go:666-677 | keeps, in order, the container with the id, all if none is given |
| Selection.FilterContainers | procri/pkg/runtimeservice/container.go:679-686 | the chain is one conjunctive, order-preserving filter |
| Selection.FilterPodsByName | procri/pkg/runtimeservice/podsandbox.go:288-302 | keeps, in order, the sandbox with the id, all if none is given |
| Selection.FilterPodsByLabel | procri/pkg/runtimeservice/podsandbox.go:304-328 | keeps, in order, the sandboxes whose labels include the selector |
| Selection.FilterPodsByState | procri/pkg/runtimeservice/podsandbox.go:330-343 | keeps, in order, the sandboxes in the state, all if none is given |
| Selection.SelectPods | procri/pkg/runtimeservice/podsandbox.go:349-354 | the selection of ListPodSandbox is one conjunctive filter, or everything without a filter |
| Selection.SelectChain | procri/pkg/runtimeservice/container.go:679-686 | two filters in either order are one filter by both conditions |
| StoreKeys.KeysRoundTrip | procri/pkg/runtimeservice/container.go:76-78 | for ids without `/` stripping the prefix undoes adding it, keys of both kinds are injective and never meet, and each base name has exactly one of the two prefixes |
| StoreKeys.PutContainerRefines | procri/pkg/runtimeservice/container.go:99-112 | writing a container's file is updating the map of containers, and changes no sandbox |
| StoreKeys.DeleteContainerRefines | procri/pkg/runtimeservice/container.go:114-124 | erasing a container's file is removing it from the map of containers |
| StoreKeys.PutSandboxRefines | procri/pkg/runtimeservice/podsandbox.go:66-80 | writing a sandbox's file is updating the map of sandboxes, and changes no container |
| StoreKeys.DeleteSandboxRefines | procri/pkg/runtimeservice/podsandbox.go:82-92 | erasing a sandbox's file is removing it from the map of sandboxes |
| StoreKeys.GetRefines | procri/pkg/runtimeservice/container.go:80-97 | reading a file is looking up the map of its kind of records |
| StoreKeys.ListContainers | procri/pkg/runtimeservice/container.go:126-142 | returns every stored container exactly once and no sandbox |
| StoreKeys.ListSandboxes | procri/pkg/runtimeservice/podsandbox.go:94-110 | returns every stored sandbox exactly once and no container |
| Listing.ListContainers | procri/pkg/runtimeservice/container.go:535-548 | exactly the stored containers that match the filter are returned, once each |
| Listing.ListPodSandbox | procri/pkg/runtimeservice/podsandbox.go:346-354 | exactly the stored sandboxes that match the filter are returned, once each |
| StoreKeys.PodIDsAreInjective | procri/pkg/runtimeservice/podsandbox.go:39-41 | pods with namespaces without `_` never share an id |
| StoreKeys.PodIDsCollide | procri/pkg/runtimeservice/podsandbox.go:39-41 | exactly when two pods share an id, for all namespaces and names |
| Paths.SplitPath | procri/pkg/runtimeservice/util.go:8-17 | yields the components of the cleaned path |
| Paths.IsInsidePath | procri/pkg/runtimeservice/util.go:20-32 | true exactly when the components of one are a prefix of those of the other |
| Paths.IsPathAllowed | procri/pkg/runtimeservice/container.go:58-74 | allowed exactly when an allowed path contains it or no disallowed one does |
| Paths.CleaningIsIdempotent | procri/pkg/runtimeservice/util.go:8-17 | cleaning twice is cleaning once, and keeps the components |
| Paths.InsideIsPreorder | procri/pkg/runtimeservice/util.go:19-32 | containment is reflexive, transitive, antisymmetric on components, and depends on the cleaned paths only |
| Paths.SpellingDoesNotMatter | procri/pkg/runtimeservice/util.go:8-17 | repeated and trailing slashes, `.` and `x/..` change nothing on rooted paths |
| Paths.DisallowedIsClosed | procri/pkg/runtimeservice/container.go:58-74 | everything inside a disallowed path is disallowed exactly unless an allowed path contains it |
| Paths.SystemDirectories | procri/pkg/runtimeservice/container.go:26-35 | with the lists procri ships a target is refused exactly when it lies inside `/etc`, `/usr`, `/bin`, `/sbin` or `/Library` |
| Paths.JoinDescends | procri/pkg/runtimeservice/container.go:254-257 | joining puts the components of a name that does not climb below those of the directory, whose root is kept, and the result is clean and inside the directory |
| Paths.JoinClimbs | procri/pkg/runtimeservice/container.go:254-257 | a name that starts with `..` is a name in the directory above |
| Paths.LeadingParents | procri/pkg/runtimeservice/util.go:8-17 | `..` in front of a rooted path goes away, and in front of an unrooted one it stays |
| Environment.MakeEnvList | procri/pkg/runtimeservice/container.go:144-169 | the user's pairs in order, then each default they do not name once; every lookup in the result is determined, for every iteration order; HOSTNAME, TERM, HOME and PATH are the host's name, `xterm`, `/` and the standard search path unless the user names them |
| Environment.EffectiveEnvironment | procri/pkg/runtimeservice/container.go:156-165 | for keys without `=` every key has the user's last value, or else its default, or else none |
| Environment.UserKeysKeepTheirLastValue | procri/pkg/runtimeservice/container.go:158-161 | among the user's own pairs the last one wins |
| Environment.UserValueTakesEffect | procri/pkg/runtimeservice/container.go:158-165 | for all keys and lists, exactly when what the user gives for a default key takes effect |
| Environment.DefaultWinsOverKeyWithEquals | procri/pkg/runtimeservice/container.go:158-165 | a witness that it may not: a key that starts with `PATH=` |

## Left out

- Grace periods: `time.After` is created anew on each pass of the select loop, so a timeout of a second or more is re-armed by every tick; no bound on StopContainer is claimed.
- Concurrent handlers on one pod: the code has no locks, and updates can be lost.
- Spawning a process, ptys, process groups and the delivery of signals: the process table only knows alive, sent SIGKILL and exited.
- A `NewLogPipe` that fails after the spawn, which leaves a process without a record.
- Between StartContainer's read of the record and the spawn the class takes no pause, so that the Pid handed out is fresh; the step system interleaves there too.
- Runtime.RuntimeService.SymlinkMounts: does not describe the remove, mkdir and symlink calls; whether a mount can be linked is a parameter, because the host's file system is not part of this model.
- Error texts: an error is only told apart by its kind, and kinds the code has no type for (not found, start failed, not started, already exists) are named here.
- FinishedAt, which the code never sets.
- Marshalling of records, the file layout of the store, and ids containing `/`: the store is a map, and `Keys` yields base names.
- Container filters that are nil: the code would crash, and the model's filter is never nil.
- The unterminated last line of a stream, which the code drops, is dropped by the model; read errors other than the end of a stream end the loop in the same way and are not told apart.
- Authentication fields are stored by the first Pull of a name and not updated later, as in the code; nothing more is said of them.
- ListImages, ImageFsInfo, ContainerStatus, PodSandboxStatus, the conversion to CRI messages, ExecSync, streaming, port forwarding, statistics and versions: constants, copies or plumbing.
- The duplicated match-counting loops of the label filters are one method here, and the second loop of the environment list is a method of its own.
