/**
 The handlers of `RuntimeService` as they run: each reads records of the data store, changes its own
 copies and writes them back, while the rest of the system goes on between its writes.  Every write is
 recorded as a step of the lifecycle, so whatever is proved of all runs holds of the service.
 */
module Runtime {
  import opened Records
  import opened Lifecycle
  import opened WellFormedness
  import opened CrossMap
  import opened NoLostProcess
  import opened TeardownRetries
  import opened Orphans
  import opened Limits
  import opened Sequences
  import opened StoreKeys
  import opened Tracing
  import Environment
  import Paths

  // ---------------------------------------------------------------- requests

  datatype ContainerMetadata = ContainerMetadata(name: string, attempt: nat)

  datatype Mount = Mount(hostPath: string, containerPath: string)

  datatype ContainerConfig = ContainerConfig(
    metadata: Option<ContainerMetadata>,
    image: Option<string>,
    command: seq<string>,
    args: seq<string>,
    workingDir: string,
    envs: seq<(string, string)>,
    mounts: seq<Mount>,
    logPath: string,
    labels: map<string, string>,
    annotations: map<string, string>)

  datatype SandboxMetadata = SandboxMetadata(name: string, uid: string, namespace: string, attempt: nat)

  datatype SandboxConfig = SandboxConfig(
    metadata: Option<SandboxMetadata>,
    hostname: string,
    logDirectory: string,
    labels: map<string, string>,
    annotations: map<string, string>)

  /** What the operating system and the caller do to a wait; after the last event the context ends. */
  datatype Event = SignalFails | TickFires | TimeoutFires | ContextEnds

  /**
   What became of a wait: there was none, SIGTERM could not be delivered, one event ended it after others had
   passed, or the list was used up first.
   */
  datatype Wait =
    | NoWait
    | Undelivered
    | EndedBy(passed: seq<Event>, event: Event)
    | UsedUp(passed: seq<Event>)

  /** Events that do not end a wait: ticks, unless they find that the container has ended, and failing signals. */
  ghost predicate Pass(passed: seq<Event>) {
    && (forall event | event in passed :: event.TickFires? || event.SignalFails?)
    && (passed != [] ==> !passed[0].SignalFails?)
  }

  /** The events before a wait are those it took, in order, and those after it. */
  ghost predicate Took(wait: Wait, before: seq<Event>, after: seq<Event>) {
    match wait
    case NoWait => before == after
    case Undelivered => before == [SignalFails] + after
    case EndedBy(passed, event) => before == passed + [event] + after && Pass(passed) && !event.SignalFails?
    case UsedUp(passed) => before == passed && after == [] && Pass(passed)
  }

  /** The wait ended with its context. */
  predicate ContextOver(wait: Wait) {
    wait.UsedUp? || (wait.EndedBy? && wait.event.ContextEnds?)
  }

  /** A teardown that consumed these events ended in an error exactly if the context ended, or there was no event left. */
  ghost predicate Answered(r: Result<()>, consumed: seq<Event>, rest: seq<Event>) {
    if r.Ok? then ContextEnds !in consumed
    else if ContextEnds in consumed then consumed[|consumed| - 1] == ContextEnds && ContextEnds !in consumed[..|consumed| - 1]
    else rest == []
  }

  lemma WaitAnswers(wait: Wait, before: seq<Event>, after: seq<Event>, r: Result<()>) returns (consumed: seq<Event>)
    requires Took(wait, before, after) && (r.Err? <==> ContextOver(wait))
    ensures before == consumed + after && Answered(r, consumed, after)
  {
    match wait
    case NoWait => consumed := [];
    case Undelivered => consumed := [SignalFails];
    case EndedBy(passed, event) =>
      consumed := passed + [event];
      assert consumed[..|passed|] == passed;
    case UsedUp(passed) => consumed := passed;
  }

  lemma AnswersMore(consumed: seq<Event>, r: Result<()>, more: seq<Event>, rest: seq<Event>)
    requires ContextEnds !in consumed && Answered(r, more, rest)
    ensures Answered(r, consumed + more, rest)
  {
    if r.Err? && ContextEnds in more {
      assert (consumed + more)[..|consumed + more| - 1] == consumed + more[..|more| - 1];
    }
  }

  function Ticks(p: string, passed: seq<Event>): seq<Step> {
    if passed == [] then []
    else Ticks(p, passed[..|passed| - 1]) + if passed[|passed| - 1].TickFires? then [Tick(p)] else []
  }

  /** The steps of a wait: one for each tick that passed, and one for what ended it. */
  ghost predicate Waited(p: string, wait: Wait, own: seq<Step>) {
    match wait
    case NoWait => own == []
    case Undelivered => own == [Signal(p, false)]
    case EndedBy(passed, TickFires) => own == [Signal(p, true)] + Ticks(p, passed) + [Tick(p)]
    case EndedBy(passed, TimeoutFires) => own == [Signal(p, true)] + Ticks(p, passed) + [Timeout(p)]
    case EndedBy(passed, _) => own == [Signal(p, true)] + Ticks(p, passed) + [Cancel(p)]
    case UsedUp(passed) => own == [Signal(p, true)] + Ticks(p, passed) + [Cancel(p)]
  }

  /** One event that ends nothing was taken. */
  ghost predicate PassesOn(p: string, before: seq<Event>, after: seq<Event>, own: seq<Step>) {
    before != [] && after == before[1..] &&
    ((before[0].TickFires? && own == [Tick(p)]) || (before[0].SignalFails? && own == []))
  }

  /** The event that ended the wait was taken, or there was none. */
  ghost predicate Ends(p: string, before: seq<Event>, after: seq<Event>, ended: Option<Event>, own: seq<Step>) {
    match ended
    case None => before == [] && after == [] && own == [Cancel(p)]
    case Some(TickFires) => before == [TickFires] + after && own == [Tick(p)]
    case Some(TimeoutFires) => before == [TimeoutFires] + after && own == [Timeout(p)]
    case Some(ContextEnds) => before == [ContextEnds] + after && own == [Cancel(p)]
    case Some(SignalFails) => false
  }

  lemma PassMore(p: string, passed: seq<Event>, before: seq<Event>, after: seq<Event>, own: seq<Step>)
    requires Pass(passed) && PassesOn(p, before, after, own) && (passed == [] ==> !before[0].SignalFails?)
    ensures Pass(passed + [before[0]]) && Ticks(p, passed + [before[0]]) == Ticks(p, passed) + own
    ensures passed + before == passed + [before[0]] + after
  {
    TicksNext(p, passed, before[0]);
  }

  lemma EndOfWait(p: string, passed: seq<Event>, before: seq<Event>, after: seq<Event>, ended: Option<Event>, own: seq<Step>)
    returns (wait: Wait)
    requires Pass(passed) && Ends(p, before, after, ended, own)
    ensures wait == if ended.Some? then EndedBy(passed, ended.value) else UsedUp(passed)
    ensures Took(wait, passed + before, after) && Waited(p, wait, [Signal(p, true)] + (Ticks(p, passed) + own))
  {
    wait := if ended.Some? then EndedBy(passed, ended.value) else UsedUp(passed);
    assert [Signal(p, true)] + (Ticks(p, passed) + own) == [Signal(p, true)] + Ticks(p, passed) + own;
    assert ended.Some? ==> passed + ([ended.value] + after) == passed + [ended.value] + after;
  }

  lemma {:induction false} TicksAreTicks(p: string, passed: seq<Event>)
    ensures forall step | step in Ticks(p, passed) :: step == Tick(p)
  {
    if passed != [] {
      TicksAreTicks(p, passed[..|passed| - 1]);
    }
  }

  /** No SIGKILL is among the steps of the handler of p. */
  ghost predicate Gentle(p: string, own: seq<Step>) {
    forall step | step in own :: step != Timeout(p) && step != Cancel(p) && step != Signal(p, false)
  }

  /** Between the two points of a run every tick of the handler of p found the container RUNNING. */
  ghost predicate SawRunning(before: seq<Step>, after: seq<Step>, p: string, cid: string) {
    forall t, s {:trigger Reached(t, s)} | before <= t && t + [Tick(p)] <= after && Reached(t, s) ::
      cid in s.containers && s.containers[cid].state == Running
  }

  lemma SawNothing(trace: seq<Step>, p: string, cid: string)
    ensures SawRunning(trace, trace, p, cid)
  {
  }

  lemma SawTogether(a: seq<Step>, b: seq<Step>, c: seq<Step>, p: string, cid: string)
    requires a <= b <= c && SawRunning(a, b, p, cid) && SawRunning(b, c, p, cid)
    ensures SawRunning(a, c, p, cid)
  {
    forall t, s | a <= t && t + [Tick(p)] <= c && Reached(t, s)
      ensures cid in s.containers && s.containers[cid].state == Running
    {
      assert |t| < |b| ==> t + [Tick(p)] <= b;
      assert |t| >= |b| ==> b <= t;
    }
  }

  lemma SawNoMore(a: seq<Step>, b: seq<Step>, c: seq<Step>, p: string, cid: string)
    requires a <= b && SawRunning(a, b, p, cid) && Adds(b, c, p, [])
    ensures SawRunning(a, c, p, cid)
  {
    assert StepsOf(c[|b|..], p) == [];
    forall t, s | a <= t && t + [Tick(p)] <= c && Reached(t, s)
      ensures cid in s.containers && s.containers[cid].state == Running
    {
      assert (t + [Tick(p)])[|t|] == c[|t|];
      if |t| >= |b| {
        assert c[|b|..][|t| - |b|] == Tick(p);
        StepsOfAll(c[|b|..], |t| - |b|, p);
        assert false;
      }
    }
  }

  lemma SawOneMore(a: seq<Step>, b: seq<Step>, s: State, p: string, cid: string)
    requires a <= b && SawRunning(a, b, p, cid) && Reached(b, s) && cid in s.containers && s.containers[cid].state == Running
    ensures SawRunning(a, b + [Tick(p)], p, cid)
  {
    forall t, u | a <= t && t + [Tick(p)] <= b + [Tick(p)] && Reached(t, u)
      ensures cid in u.containers && u.containers[cid].state == Running
    {
      if |t| == |b| {
        assert t == (t + [Tick(p)])[..|t|] == b;
        assert Exec(INIT, t) == u && Exec(INIT, b) == s;
      }
    }
  }

  /** The pod a CreateContainer or RunPodSandbox request is about, when it names one. */
  function TargetPod(config: Option<SandboxConfig>): Option<string> {
    if config.None? || config.value.metadata.None? then None
    else Some(MakePodID(config.value.metadata.value.namespace, config.value.metadata.value.name))
  }

  ghost predicate IsSandboxOf(sandbox: Sandbox, config: SandboxConfig, now: int)
    requires config.metadata.Some?
  {
    && sandbox.id == sandbox.namespace + "_" + sandbox.name && sandbox.createdAt == now
    && config.metadata == Some(SandboxMetadata(sandbox.name, sandbox.uid, sandbox.namespace, sandbox.attempt))
    && sandbox.hostname == config.hostname && sandbox.logDirectory == config.logDirectory
    && sandbox.labels == config.labels && sandbox.annotations == config.annotations
  }

  ghost predicate IsComplete(config: Option<ContainerConfig>, sandboxConfig: Option<SandboxConfig>) {
    config.Some? && config.value.metadata.Some? && config.value.image.Some? && TargetPod(sandboxConfig).Some?
  }

  /** A mount on the same path, or into a system directory, is never linked. */
  ghost predicate MustLink(m: Mount) {
    && m.hostPath != m.containerPath
    && !Paths.Inside(m.containerPath, "/etc") && !Paths.Inside(m.containerPath, "/usr") && !Paths.Inside(m.containerPath, "/bin")
    && !Paths.Inside(m.containerPath, "/sbin") && !Paths.Inside(m.containerPath, "/Library")
  }

  ghost predicate Mountable(mounts: seq<Mount>, linkable: set<Mount>) {
    forall m | m in mounts && MustLink(m) :: m in linkable
  }

  /**
   No name, no path.  A name is joined to the pod's log directory: the path is clean, and a name that does not
   climb lies below the directory, under its own components.
   */
  ghost predicate IsLogPath(logPath: string, directory: string, name: string) {
    if name == "" then logPath == ""
    else
      && logPath == Paths.JoinPath(directory, name)
      && (directory == "" ==> logPath == Paths.Clean(name))
      && (directory != "" && Paths.StaysBelow(name) ==>
            && Paths.Clean(logPath) == logPath && Paths.Rooted(logPath) == Paths.Rooted(directory)
            && Paths.CleanParts(logPath) == Paths.CleanParts(directory) + Paths.CleanParts(name)
            && (Paths.Rooted(directory) ==> Paths.Inside(logPath, directory)))
  }

  /** The record that a CreateContainer request asks for. */
  ghost predicate IsContainerOf(cnt: Container, cid: string, p: string, now: int, config: ContainerConfig, pod: Sandbox, hostname: string)
    requires config.metadata.Some? && config.image.Some?
  {
    && IsNewContainer(cnt) && cnt.id == cid && cnt.podID == p
    && cnt.createdAt == now && cnt.startedAt == 0 && cnt.finishedAt == 0 && cnt.exitCode == 0
    && config.metadata == Some(ContainerMetadata(cnt.name, cnt.attempt)) && config.image == Some(cnt.image)
    && cnt.command == config.command && cnt.args == config.args && cnt.workingDir == config.workingDir
    && cnt.labels == config.labels && cnt.annotations == config.annotations
    && IsLogPath(cnt.logPath, pod.logDirectory, config.logPath)
    && Environment.Means(cnt.env, config.envs, Environment.Defaults(hostname) - Environment.Named(config.envs))
  }

  /** What StartContainer makes of a record; the tracker may have made it EXITED since. */
  ghost predicate IsStartOf(cnt: Container, was: Container, pid: int, now: int) {
    && cnt == was.(pid := pid, startedAt := now, logPath := cnt.logPath, state := cnt.state, exitCode := cnt.exitCode)
    && (was.logPath != "" ==> cnt.logPath == was.logPath)
    && (was.logPath == "" ==> cnt.logPath == "/tmp/cnt.log")
    && ((cnt.state == Running && cnt.exitCode == 0) || cnt.state == Exited)
  }

  lemma {:induction false} SpliceFirst(list: seq<string>, i: nat, cid: string)
    requires i <= |list| && cid !in list[..i]
    ensures i < |list| && list[i] == cid ==> Splice(list, cid) == list[..i] + list[i + 1..]
    ensures i == |list| ==> cid !in list
  {
    if i > 0 {
      assert list[0] in list[..i];
      assert list[1..][..i - 1] == list[..i][1..];
      SpliceFirst(list[1..], i - 1, cid);
      assert list == [list[0]] + list[1..];
      assert i < |list| ==> list[..i] == [list[0]] + list[1..][..i - 1] && list[1..][i..] == list[i + 1..];
    }
  }

  /** Steps of a handler that is already at work and goes on. */
  ghost predicate GoesOn(own: seq<Step>) {
    forall step | step in own :: !Begins(step) && !step.Abandon?
  }

  // ---------------------------------------------------------------- the service

  class RuntimeService {
    // The data store.
    var sandboxes: map<string, Sandbox>
    var containers: map<string, Container>
    // The rest of the system: processes, tracker goroutines, handlers at work.
    var procs: map<int, Proc>
    var trackers: multiset<Tracker>
    var ops: map<string, Op>
    // History.
    var created: map<string, string>
    var cancelled: set<string>
    // What the rest of the system will do at each pause of a handler, and how waits will go.
    var script: seq<seq<Step>>
    var events: seq<Event>
    ghost var trace: seq<Step>

    function Snapshot(): State
      reads this
    {
      State(sandboxes, containers, procs, trackers, ops, created, cancelled)
    }

    /** The state is the one that the recorded steps lead to. */
    ghost predicate Valid()
      reads this
    {
      Reached(trace, Snapshot())
    }

    function GetContainer(cid: string): Option<Container>
      reads this
    {
      if cid in containers then Some(containers[cid]) else None
    }

    function GetSandbox(podID: string): Option<Sandbox>
      reads this
    {
      if podID in sandboxes then Some(sandboxes[podID]) else None
    }

    /** The handler at work on a pod. */
    function Handler(podID: string): Option<Op>
      reads this
    {
      if podID in ops then Some(ops[podID]) else None
    }

    constructor (script: seq<seq<Step>>, events: seq<Event>)
      ensures Valid() && Snapshot() == INIT && trace == []
    {
      sandboxes, containers, procs, trackers := map[], map[], map[], multiset{};
      ops, created, cancelled := map[], map[], {};
      this.script, this.events, trace := script, events, [];
      new;
      LeadsNowhere(INIT);
    }

    /** The write just made, or the local decision just taken, is this step. */
    ghost method Record(step: Step, before: State, p: string)
      requires Reached(trace, before) && Takes(before, step, Snapshot())
      modifies this`trace
      ensures Valid() && trace == old(trace) + [step]
      ensures Adds(old(trace), trace, p, if Actor(step) == Some(p) then [step] else [])
    {
      LeadsNext(INIT, trace, before, step, Snapshot());
      AddsOne(trace, step, p);
      trace := trace + [step];
    }

    // -------------------------------------------------------------- the rest of the system

    /** A step of someone else than the handler of p. */
    method TakeStep(step: Step, p: string)
      requires Valid() && Actor(step) != Some(p)
      modifies this`sandboxes, this`containers, this`procs, this`trackers, this`ops, this`created, this`cancelled, this`trace
      ensures Valid() && Adds(old(trace), trace, p, [])
      ensures Handler(p) == old(Handler(p)) && GetSandbox(p) == old(GetSandbox(p))
    {
      ReachedIs(trace, Snapshot());
      ForeignStep(Snapshot(), step, p);
      ghost var before := Snapshot();
      var s := Apply(Snapshot(), step);
      sandboxes, containers, procs, trackers := s.sandboxes, s.containers, s.procs, s.trackers;
      ops, created, cancelled := s.ops, s.created, s.cancelled;
      assert Snapshot() == s;
      Record(step, before, p);
    }

    /** Handlers of other pods, trackers and processes take the next batch of their steps. */
    method Pause(p: string)
      requires Valid()
      modifies this
      ensures Valid() && Adds(old(trace), trace, p, [])
      ensures Handler(p) == old(Handler(p)) && GetSandbox(p) == old(GetSandbox(p))
      ensures events == old(events)
    {
      AddsNothing(trace, p);
      if script != [] {
        var batch := script[0];
        script := script[1..];
        for i := 0 to |batch|
          invariant Valid() && Adds(old(trace), trace, p, [])
          invariant Handler(p) == old(Handler(p)) && GetSandbox(p) == old(GetSandbox(p))
          invariant events == old(events)
        {
          if Actor(batch[i]) != Some(p) {
            ghost var sofar := trace;
            TakeStep(batch[i], p);
            AddsMore(old(trace), sofar, trace, p, [], []);
          }
        }
      }
    }

    method NextEvent() returns (event: Event)
      modifies this`events
      ensures event == if old(events) == [] then ContextEnds else old(events)[0]
      ensures events == if old(events) == [] then [] else old(events)[1..]
    {
      if events == [] {
        return ContextEnds;
      }
      event := events[0];
      events := events[1..];
    }

    // -------------------------------------------------------------- waiting for a container to end

    /** The container is not running, or its main process was sent SIGKILL. */
    ghost predicate Ended(container: Container)
      reads this
    {
      || container.id !in containers
      || containers[container.id].state != Running
      || (container.pid in procs ==> procs[container.pid].killed)
    }

    /** SIGKILL to the main process. */
    method SendKill(pid: int)
      modifies this`procs
      ensures Snapshot() == Kill(old(Snapshot()), pid)
      ensures pid in procs ==> procs[pid].killed
    {
      if pid in procs {
        procs := procs[pid := procs[pid].(killed := true)];
      }
    }

    /** The handler's bookkeeping when terminateContainer returns nil ... */
    method Leave(p: string, caller: Caller, cid: string)
      modifies this`ops
      ensures Snapshot() == AfterTerminate(old(Snapshot()), p, caller, cid)
      ensures Handler(p) == if caller.StopCaller? then None else Some(Terminated(caller, cid))
    {
      ops := if caller.StopCaller? then ops - {p} else ops[p := Terminated(caller, cid)];
    }

    /** ... and when it returns an error. */
    method LeaveFailed(p: string, caller: Caller, cid: string)
      modifies this`ops, this`cancelled
      ensures Snapshot() == Fail(old(Snapshot()), p, caller, cid)
      ensures Handler(p) == None
    {
      ops := ops - {p};
      if caller.RemoveCaller? {
        cancelled := cancelled + {cid};
      }
    }

    /** Where the handler stands once terminateContainer has returned. */
    ghost predicate Returned(p: string, caller: Caller, container: Container, r: Result<()>)
      reads this
    {
      && Handler(p) == (if r.Err? || caller.StopCaller? then None else Some(Terminated(caller, container.id)))
      && (r != Err(NotStarted) ==> Ended(container))
      && (r.Err? && caller.RemoveCaller? ==> container.id in cancelled)
      && (r.Err? ==> r.error == NotStarted || r.error == ContextDone)
    }

    /** SIGKILL was sent to the process, and the record is still stored and names it. */
    ghost predicate CutOff(container: Container)
      reads this
    {
      && container.pid in procs && procs[container.pid].killed
      && (WholeRun(trace) ==> container.id in containers && containers[container.id].pid == container.pid)
    }

    /** SIGKILL was sent unless a tick ended the wait; then the record is gone or not RUNNING. */
    ghost predicate Concluded(wait: Wait, container: Container)
      reads this
    {
      match wait
      case NoWait => true
      case EndedBy(_, TickFires) => container.id !in containers || containers[container.id].state != Running
      case _ => container.pid in procs && procs[container.pid].killed
    }

    /** The record was read as not running, or as running without a process. */
    method ReturnAtOnce(p: string, caller: Caller, container: Container, ghost before: State, ghost entry: Step)
      returns (r: Result<()>)
      requires container.state != Running || container.pid == 0
      requires container.state != Running ==> GetContainer(container.id) == Some(container)
      requires Reached(trace, before) && Takes(before, entry, EnterTerminate(Snapshot(), p, caller, container))
      requires Actor(entry) == Some(p)
      modifies this`ops, this`cancelled, this`trace
      ensures Valid() && Adds(old(trace), trace, p, [entry])
      ensures GetSandbox(p) == old(GetSandbox(p)) && Returned(p, caller, container, r)
      ensures r == if container.state != Running then Ok(()) else Err(NotStarted)
      ensures container.state != Running ==> Snapshot() == AfterTerminate(old(Snapshot()), p, caller, container.id)
    {
      if container.state != Running {
        Leave(p, caller, container.id);
        r := Ok(());
      } else {
        LeaveFailed(p, caller, container.id);
        r := Err(NotStarted);
      }
      Record(entry, before, p);
    }

    /** SIGKILL, and terminateContainer returns nil. */
    method KillAndLeave(p: string, caller: Caller, container: Container, ghost step: Step)
      requires Valid() && Actor(step) == Some(p)
      requires Takes(Snapshot(), step, AfterTerminate(Kill(Snapshot(), container.pid), p, caller, container.id))
      modifies this`procs, this`ops, this`trace
      ensures Valid() && Adds(old(trace), trace, p, [step]) && trace == old(trace) + [step]
      ensures Returned(p, caller, container, Ok(()))
      ensures container.pid in old(procs) ==> container.pid in procs && procs[container.pid].killed
    {
      ghost var before := Snapshot();
      SendKill(container.pid);
      Leave(p, caller, container.id);
      Record(step, before, p);
    }

    /** SIGKILL, and terminateContainer returns the context's error. */
    method KillAndFail(p: string, caller: Caller, container: Container, ghost step: Step)
      requires Valid() && Actor(step) == Some(p)
      requires Takes(Snapshot(), step, Fail(Kill(Snapshot(), container.pid), p, caller, container.id))
      modifies this`procs, this`ops, this`cancelled, this`trace
      ensures Valid() && Adds(old(trace), trace, p, [step]) && trace == old(trace) + [step]
      ensures Returned(p, caller, container, Err(ContextDone))
      ensures container.pid in old(procs) ==> container.pid in procs && procs[container.pid].killed
    {
      ghost var before := Snapshot();
      SendKill(container.pid);
      LeaveFailed(p, caller, container.id);
      Record(step, before, p);
    }

    /** SIGTERM, or SIGKILL when it cannot be delivered. */
    method SendTerm(p: string, caller: Caller, container: Container) returns (delivered: bool, ghost own: seq<Step>)
      requires Valid() && Handler(p) == Some(Signalling(caller, container))
      modifies this`procs, this`ops, this`trace, this`events
      ensures Valid() && Adds(old(trace), trace, p, own) && own == [Signal(p, delivered)]
      ensures delivered <==> old(events) == [] || !old(events)[0].SignalFails?
      ensures if delivered then events == old(events) else old(events) == [SignalFails] + events
      ensures delivered ==> Handler(p) == Some(Polling(caller, container))
      ensures !delivered ==> Returned(p, caller, container, Ok(())) && Concluded(Undelivered, container)
    {
      ghost var before := Snapshot();
      SignallingHasProcess(trace, before, p, caller, container);
      TakesSignal(before, p, caller, container);
      delivered := events == [] || events[0] != SignalFails;
      own := [Signal(p, delivered)];
      if delivered {
        ops := ops[p := Polling(caller, container)];
        Record(Signal(p, true), before, p);
      } else {
        events := events[1..];
        KillAndLeave(p, caller, container, Signal(p, false));
      }
    }

    /** The ticker fired: is the record still RUNNING? */
    method PollOnce(p: string, caller: Caller, container: Container) returns (done: bool)
      requires Valid() && Handler(p) == Some(Polling(caller, container))
      modifies this`ops, this`trace
      ensures Valid() && Adds(old(trace), trace, p, [Tick(p)]) && trace == old(trace) + [Tick(p)]
      ensures done <==> container.id !in containers || containers[container.id].state != Running
      ensures !done ==> SawRunning(old(trace), trace, p, container.id)
      ensures if done then Returned(p, caller, container, Ok(())) else Handler(p) == old(Handler(p))
    {
      ghost var before := Snapshot();
      TakesTick(before, p, caller, container);
      var current := GetContainer(container.id);
      done := current.None? || current.value.state != Running;
      if done {
        Leave(p, caller, container.id);
      } else {
        SawNothing(trace, p, container.id);
        SawOneMore(trace, trace, before, p, container.id);
      }
      Record(Tick(p), before, p);
    }

    /** The timeout fired, or the context ended. */
    method KillAtLast(p: string, caller: Caller, container: Container, timeout: bool) returns (r: Result<()>)
      requires Valid() && Handler(p) == Some(Polling(caller, container))
      modifies this`procs, this`ops, this`cancelled, this`trace
      ensures Valid() && Adds(old(trace), trace, p, [if timeout then Timeout(p) else Cancel(p)])
      ensures trace == old(trace) + [if timeout then Timeout(p) else Cancel(p)]
      ensures Returned(p, caller, container, r) && r == if timeout then Ok(()) else Err(ContextDone)
      ensures container.pid in procs && procs[container.pid].killed && (!timeout ==> CutOff(container))
    {
      ghost var polling := trace;
      PollingIsStored(trace, Snapshot(), p, caller, container);
      TakesEnd(Snapshot(), p, caller, container);
      if timeout {
        KillAndLeave(p, caller, container, Timeout(p));
        r := Ok(());
      } else {
        KillAndFail(p, caller, container, Cancel(p));
        WholePrefix(polling, trace);
        r := Err(ContextDone);
      }
    }

    /** The timeout or the end of the context, the latter also when there is no event left. */
    method LastEvent(p: string, caller: Caller, container: Container, timeout: bool, ghost none: bool)
      returns (r: Result<()>, ghost ended: Option<Event>, ghost own: seq<Step>)
      requires Valid() && Handler(p) == Some(Polling(caller, container)) && (none ==> !timeout)
      modifies this`procs, this`ops, this`cancelled, this`trace
      ensures Valid() && Adds(old(trace), trace, p, own) && |trace| > 0 && trace[..|trace| - 1] == old(trace)
      ensures own == [if timeout then Timeout(p) else Cancel(p)]
      ensures ended == if none then None else Some(if timeout then TimeoutFires else ContextEnds)
      ensures Returned(p, caller, container, r) && r == (if timeout then Ok(()) else Err(ContextDone)) && (!timeout ==> CutOff(container))
      ensures Concluded(if ended.Some? then EndedBy([], ended.value) else UsedUp([]), container)
    {
      r := KillAtLast(p, caller, container, timeout);
      own := [if timeout then Timeout(p) else Cancel(p)];
      ended := if none then None else Some(if timeout then TimeoutFires else ContextEnds);
    }

    method PauseAndSee(p: string, ghost cid: string)
      requires Valid()
      modifies this
      ensures Valid() && Adds(old(trace), trace, p, []) && SawRunning(old(trace), trace, p, cid)
      ensures Handler(p) == old(Handler(p)) && GetSandbox(p) == old(GetSandbox(p)) && events == old(events)
    {
      SawNothing(trace, p, cid);
      ghost var start := trace;
      Pause(p);
      SawNoMore(start, start, trace, p, cid);
    }

    /** One receive of the select statement. */
    method Receive(p: string, caller: Caller, container: Container)
      returns (done: bool, r: Result<()>, ghost ended: Option<Event>, ghost own: seq<Step>)
      requires Valid() && Handler(p) == Some(Polling(caller, container))
      modifies this`procs, this`ops, this`cancelled, this`trace, this`events
      ensures Valid() && Adds(old(trace), trace, p, own) && GetSandbox(p) == old(GetSandbox(p))
      ensures !done ==> PassesOn(p, old(events), events, own)
      ensures !done ==> Handler(p) == old(Handler(p)) && SawRunning(old(trace), trace, p, container.id)
      ensures done ==> Ends(p, old(events), events, ended, own)
      ensures done ==> |trace| > 0 && trace[..|trace| - 1] == old(trace)
      ensures done ==> Returned(p, caller, container, r) && (r.Err? ==> CutOff(container))
      ensures done ==> r == if ended == Some(TimeoutFires) || ended == Some(TickFires) then Ok(()) else Err(ContextDone)
      ensures done ==> Concluded(if ended.Some? then EndedBy([], ended.value) else UsedUp([]), container)
    {
      ghost var none := events == [];
      var event := NextEvent();
      match event
      case TickFires =>
        done := PollOnce(p, caller, container);
        own, r, ended := [Tick(p)], Ok(()), Some(TickFires);
      case SignalFails =>
        done, own, r, ended := false, [], Ok(()), None;
        AddsNothing(trace, p);
        SawNothing(trace, p, container.id);
      case _ =>
        done := true;
        r, ended, own := LastEvent(p, caller, container, event.TimeoutFires?, none);
    }

    /**
     One pass of the select loop: the next event, after whatever else happens until then.  `ended` is what ended
     the wait, None when there was no event left.
     */
    method Select(p: string, caller: Caller, container: Container)
      returns (done: bool, r: Result<()>, ghost ended: Option<Event>, ghost own: seq<Step>)
      requires Valid() && Handler(p) == Some(Polling(caller, container))
      modifies this
      ensures Valid() && Adds(old(trace), trace, p, own) && GetSandbox(p) == old(GetSandbox(p))
      ensures !done ==> PassesOn(p, old(events), events, own)
      ensures !done ==> Handler(p) == old(Handler(p)) && SawRunning(old(trace), trace, p, container.id)
      ensures done ==> Ends(p, old(events), events, ended, own)
      ensures done ==> |trace| > 0 && old(trace) <= trace[..|trace| - 1] && SawRunning(old(trace), trace[..|trace| - 1], p, container.id)
      ensures done ==> Returned(p, caller, container, r) && (r.Err? ==> CutOff(container))
      ensures done ==> r == if ended == Some(TimeoutFires) || ended == Some(TickFires) then Ok(()) else Err(ContextDone)
      ensures done ==> Concluded(if ended.Some? then EndedBy([], ended.value) else UsedUp([]), container)
    {
      ghost var start := trace;
      PauseAndSee(p, container.id);
      ghost var paused := trace;
      done, r, ended, own := Receive(p, caller, container);
      AddsAfterPause(start, paused, trace, p, own);
      if !done {
        SawTogether(start, paused, trace, p, container.id);
      }
    }

    /**
     The select loop of terminateContainer.  It returns the context's error exactly when the context ends, or
     the events are used up, before a timeout fires or a tick finds the record gone or not RUNNING; every
     tick before found it RUNNING.
     */
    method Poll(p: string, caller: Caller, container: Container)
      returns (r: Result<()>, ghost wait: Wait, ghost own: seq<Step>)
      requires Valid() && Handler(p) == Some(Polling(caller, container)) && (events == [] || !events[0].SignalFails?)
      modifies this
      ensures Valid() && Adds(old(trace), trace, p, own)
      ensures GetSandbox(p) == old(GetSandbox(p)) && Returned(p, caller, container, r) && r != Err(NotStarted)
      ensures (wait.EndedBy? || wait.UsedUp?) && Took(wait, old(events), events) && Waited(p, wait, [Signal(p, true)] + own)
      ensures (r.Err? <==> ContextOver(wait)) && Concluded(wait, container)
      ensures r.Err? ==> CutOff(container)
      ensures |trace| > 0 && SawRunning(old(trace), trace[..|trace| - 1], p, container.id)
    {
      ghost var passed: seq<Event> := [];
      own := [];
      AddsNothing(trace, p);
      SawNothing(trace, p, container.id);
      while true
        invariant Valid() && Handler(p) == Some(Polling(caller, container))
        invariant old(trace) <= trace && Adds(old(trace), trace, p, own) && own == Ticks(p, passed)
        invariant old(events) == passed + events && Pass(passed) && (passed == [] ==> events == [] || !events[0].SignalFails?)
        invariant GetSandbox(p) == old(GetSandbox(p))
        invariant SawRunning(old(trace), trace, p, container.id)
        decreases |events|
      {
        ghost var start, left := trace, events;
        var done, answer;
        ghost var ended, more;
        done, answer, ended, more := Select(p, caller, container);
        AddsMore(old(trace), start, trace, p, own, more);
        if done {
          SawTogether(old(trace), start, trace[..|trace| - 1], p, container.id);
          wait := EndOfWait(p, passed, left, events, ended, more);
          own := own + more;
          return answer, wait, own;
        }
        SawTogether(old(trace), start, trace, p, container.id);
        PassMore(p, passed, left, events, more);
        own, passed := own + more, passed + [left[0]];
      }
    }

    method SignalAndPoll(p: string, caller: Caller, container: Container)
      returns (r: Result<()>, ghost wait: Wait, ghost own: seq<Step>)
      requires Valid() && Handler(p) == Some(Signalling(caller, container))
      modifies this
      ensures Valid() && Adds(old(trace), trace, p, own)
      ensures GetSandbox(p) == old(GetSandbox(p)) && Returned(p, caller, container, r) && r != Err(NotStarted)
      ensures !wait.NoWait? && Took(wait, old(events), events) && Waited(p, wait, own)
      ensures (r.Err? <==> ContextOver(wait)) && Concluded(wait, container)
      ensures r.Err? ==> CutOff(container)
    {
      Pause(p);
      ghost var paused := trace;
      var delivered, sent := SendTerm(p, caller, container);
      AddsAfterPause(old(trace), paused, trace, p, sent);
      if !delivered {
        return Ok(()), Undelivered, sent;
      }
      ghost var polling, waited := trace, [];
      r, wait, waited := Poll(p, caller, container);
      AddsMore(old(trace), polling, trace, p, sent, waited);
      own := sent + waited;
    }

    /**
     The wait is over when it returns.  Nil means that there was none to do, that SIGTERM could not be delivered,
     that the timeout fired, or that a tick found the container ended; the context's error that the context
     ended first.
     */
    method TerminateContainer(p: string, caller: Caller, container: Container, ghost before: State, ghost entry: Step)
      returns (r: Result<()>, ghost wait: Wait, ghost own: seq<Step>)
      requires GetContainer(container.id) == Some(container)
      requires Reached(trace, before) && Takes(before, entry, EnterTerminate(Snapshot(), p, caller, container))
      requires Actor(entry) == Some(p)
      modifies this
      ensures Valid() && Adds(old(trace), trace, p, [entry] + own) && GoesOn(own)
      ensures GetSandbox(p) == old(GetSandbox(p)) && Returned(p, caller, container, r)
      ensures Took(wait, old(events), events) && Waited(p, wait, own) && Concluded(wait, container)
      ensures wait.NoWait? <==> container.state != Running || container.pid == 0
      ensures r == Err(NotStarted) <==> container.state == Running && container.pid == 0
      ensures r == Err(ContextDone) <==> ContextOver(wait)
      ensures wait.NoWait? || (wait.EndedBy? && wait.event.TickFires?) ==> Gentle(p, own)
      ensures r == Err(ContextDone) ==> CutOff(container)
      ensures container.state != Running ==> Snapshot() == AfterTerminate(old(Snapshot()), p, caller, container.id)
    {
      if container.state != Running || container.pid == 0 {
        r := ReturnAtOnce(p, caller, container, before, entry);
        wait, own := NoWait, [];
        return;
      }
      ops := ops[p := Signalling(caller, container)];
      Record(entry, before, p);
      ghost var entered := trace;
      r, wait, own := SignalAndPoll(p, caller, container);
      AddsMore(old(trace), entered, trace, p, [entry], own);
      WaitGoesOn(p, wait, own);
    }

    // -------------------------------------------------------------- creating and starting

    /** RunPodSandbox refuses a pod that has a sandbox already, in whatever state. */
    method RunPodSandbox(config: Option<SandboxConfig>, now: int) returns (r: Result<string>)
      requires Valid() && (TargetPod(config).Some? ==> Handler(TargetPod(config).value) == None)
      modifies this
      ensures Valid()
      ensures r.Ok? <==> TargetPod(config).Some? && TargetPod(config).value !in old(sandboxes)
      ensures r == Err(InvalidParameter) <==> TargetPod(config).None?
      ensures r.Err? ==> Snapshot() == old(Snapshot())
      ensures r.Ok? ==> TargetPod(config) == Some(r.value) && r.value in sandboxes
      ensures r.Ok? ==> IsNewSandbox(sandboxes[r.value]) && IsSandboxOf(sandboxes[r.value], config.value, now)
      ensures r.Ok? ==> Snapshot() == old(Snapshot()).(sandboxes := old(sandboxes)[r.value := sandboxes[r.value]])
      ensures r.Ok? ==> Adds(old(trace), trace, r.value, [RunSandbox(sandboxes[r.value])])
    {
      if config.None? || config.value.metadata.None? {
        return Err(InvalidParameter);
      }
      var metadata := config.value.metadata.value;
      var p := MakePodID(metadata.namespace, metadata.name);
      if p in sandboxes {
        return Err(AlreadyExists);
      }
      ghost var before := Snapshot();
      var sandbox := Sandbox(p, metadata.name, metadata.namespace, metadata.uid, metadata.attempt, now,
                             config.value.hostname, config.value.logDirectory, Ready,
                             config.value.labels, config.value.annotations, []);
      TakesRun(before, sandbox);
      sandboxes := sandboxes[p := sandbox];
      Record(RunSandbox(sandbox), before, p);
      return Ok(p);
    }

    /** Whether every mount that is to be linked can be; unlinked mounts need not be possible. */
    method SymlinkMounts(mounts: seq<Mount>, linkable: set<Mount>) returns (ok: bool)
      ensures ok <==> Mountable(mounts, linkable)
    {
      for i := 0 to |mounts|
        invariant Mountable(mounts[..i], linkable)
      {
        var m := mounts[i];
        assert mounts[..i + 1] == mounts[..i] + [m];
        if m.hostPath != m.containerPath {
          var allowed := Paths.IsPathAllowed(m.containerPath, Paths.ALLOW_LIST, Paths.DISALLOW_LIST);
          Paths.SystemDirectories(m.containerPath);
          if allowed && m !in linkable {
            assert m in mounts && MustLink(m);
            return false;
          }
        }
      }
      assert mounts[..|mounts|] == mounts;
      return true;
    }

    /**
     The container record is stored first, then the pod's list with the new id at its end; a request that
     is refused changes nothing.
     */
    method CreateContainer(config: Option<ContainerConfig>, sandboxConfig: Option<SandboxConfig>,
                           cid: string, now: int, hostname: string, linkable: set<Mount>)
      returns (r: Result<string>, ghost stored: Option<Container>)
      requires Valid() && cid !in created
      requires TargetPod(sandboxConfig).Some? ==> Handler(TargetPod(sandboxConfig).value) == None
      modifies this
      ensures Valid()
      ensures r == Err(SymlinkFailed) <==> IsComplete(config, sandboxConfig) && !Mountable(config.value.mounts, linkable)
      ensures r.Ok? <==>
                && IsComplete(config, sandboxConfig) && Mountable(config.value.mounts, linkable)
                && TargetPod(sandboxConfig).value in old(sandboxes)
                && old(sandboxes)[TargetPod(sandboxConfig).value].state == Ready
      ensures r.Err? ==> (r.error == SymlinkFailed || r.error == InvalidParameter) && Snapshot() == old(Snapshot())
      ensures r.Ok? ==> r.value == cid && stored.Some?
      ensures r.Ok? ==>
                var p := TargetPod(sandboxConfig).value;
                && IsContainerOf(stored.value, cid, p, now, config.value, old(sandboxes)[p], hostname)
                && Adds(old(trace), trace, p, [BeginCreate(stored.value), Resume(p)])
                && GetSandbox(p) == Some(old(sandboxes)[p].(containers := old(sandboxes)[p].containers + [cid]))
                && Handler(p) == None
                && (WholeRun(trace) ==> cid in containers && containers[cid].podID == p)
    {
      stored := None;
      if config.None? || config.value.metadata.None? || config.value.image.None? {
        return Err(InvalidParameter), stored;
      }
      if sandboxConfig.None? || sandboxConfig.value.metadata.None? {
        return Err(InvalidParameter), stored;
      }
      var linked := SymlinkMounts(config.value.mounts, linkable);
      if !linked {
        return Err(SymlinkFailed), stored;
      }
      var p := MakePodID(sandboxConfig.value.metadata.value.namespace, sandboxConfig.value.metadata.value.name);
      var found := GetSandbox(p);
      if found.None? || found.value.state != Ready {
        return Err(InvalidParameter), stored;
      }
      var pod := found.value.(containers := found.value.containers + [cid]);
      var container := NewContainer(config.value, pod, p, cid, now, hostname);
      stored := Some(container);
      StoreAndList(p, pod, container);
      r := Ok(cid);
    }

    method NewContainer(config: ContainerConfig, pod: Sandbox, p: string, cid: string, now: int, hostname: string)
      returns (container: Container)
      requires config.metadata.Some? && config.image.Some?
      ensures IsContainerOf(container, cid, p, now, config, pod, hostname)
    {
      var logPath := "";
      if config.logPath != "" {
        logPath := Paths.JoinPath(pod.logDirectory, config.logPath);
        LogPathOf(pod.logDirectory, config.logPath);
      }
      var env := Environment.MakeEnvList(hostname, config.envs);
      container := Container(cid, p, config.metadata.value.name, config.metadata.value.attempt, config.args, config.command,
                             env, config.workingDir, logPath, 0, now, 0, 0, 0, config.image.value, Created,
                             config.labels, config.annotations);
    }

    /** putContainer, then putSandbox. */
    method StoreAndList(p: string, pod: Sandbox, container: Container)
      requires Valid() && Handler(p) == None && GetSandbox(p).Some? && sandboxes[p].state == Ready
      requires pod == sandboxes[p].(containers := sandboxes[p].containers + [container.id])
      requires container.podID == p && IsNewContainer(container) && container.id !in created
      modifies this
      ensures Valid() && Adds(old(trace), trace, p, [BeginCreate(container), Resume(p)])
      ensures Handler(p) == None && GetSandbox(p) == Some(pod)
      ensures WholeRun(trace) ==> container.id in containers && containers[container.id].podID == p
    {
      ghost var before := Snapshot();
      TakesCreate(before, container);
      containers := containers[container.id := container];
      created := created[container.id := p];
      ops := ops[p := Creating(pod, container.id)];
      Record(BeginCreate(container), before, p);
      ghost var began := trace;
      ListCreated(p, pod, container.id);
      AddsMore(old(trace), began, trace, p, [BeginCreate(container)], [Resume(p)]);
      assert [BeginCreate(container)] + [Resume(p)] == [BeginCreate(container), Resume(p)];
      ListedIsStored(trace, Snapshot(), p, container.id);
    }

    method ListCreated(p: string, pod: Sandbox, cid: string)
      requires Valid() && Handler(p) == Some(Creating(pod, cid))
      modifies this
      ensures Valid() && Adds(old(trace), trace, p, [Resume(p)])
      ensures Handler(p) == None && GetSandbox(p) == Some(pod)
    {
      Pause(p);
      ghost var paused, before := trace, Snapshot();
      TakesListing(before, p, pod, cid);
      sandboxes := sandboxes[p := pod];
      ops := ops - {p};
      Record(Resume(p), before, p);
      AddsAfterPause(old(trace), paused, trace, p, [Resume(p)]);
    }

    /**
     The process is spawned, then the RUNNING record stored, then the tracker set to wait.  `spawned` is
     the fresh Pid the operating system hands out, or None when the spawn fails.  When the process that the
     record named before is alive, it is lost.
     */
    method StartContainer(cid: string, spawned: Option<int>, now: int) returns (r: Result<()>, ghost own: seq<Step>)
      requires Valid() && (cid in containers ==> Handler(containers[cid].podID) == None)
      requires spawned.Some? ==> spawned.value > 0 && spawned.value !in procs
      modifies this
      ensures Valid()
      ensures r == Err(NotFound) <==> cid !in old(containers)
      ensures r == Err(StartFailed) <==>
                cid in old(containers) && ((old(containers)[cid].command == [] && old(containers)[cid].args == []) || spawned.None?)
      ensures r.Err? ==> Snapshot() == old(Snapshot()) && (r.error == NotFound || r.error == StartFailed)
      ensures r.Ok? ==>
                var p := old(containers)[cid].podID;
                && Adds(old(trace), trace, p, [BeginStart(p, cid), Spawn(p, spawned.value, now), Resume(p), Resume(p)])
                && Handler(p) == None && GetSandbox(p) == old(GetSandbox(p))
                && Waiting(cid, spawned.value) in trackers
                && (WholeRun(trace) ==> cid in containers && IsStartOf(containers[cid], old(containers)[cid], spawned.value, now))
                && (WholeRun(trace) && cid in containers && containers[cid].state == Exited ==>
                      spawned.value in procs && procs[spawned.value].exit == Some(containers[cid].exitCode))
                && (WholeRun(trace) && !MayStart(old(Snapshot()), BeginStart(p, cid), false) ==>
                      Lost(Snapshot(), old(containers)[cid].pid))
    {
      own := [];
      var found := GetContainer(cid);
      if found.None? {
        return Err(NotFound), own;
      }
      if !HasCommand(found.value) || spawned.None? {
        return Err(StartFailed), own;
      }
      var container := WithLogPath(found.value);
      var p := container.podID;
      ghost var before := Snapshot();
      StoredRecord(trace, before, cid);
      SpawnProcess(p, container, spawned.value, now);
      ghost var began := trace;
      container := container.(pid := spawned.value, state := Running, exitCode := 0, startedAt := now);
      TrackStarted(p, container);
      own := [BeginStart(p, cid), Spawn(p, spawned.value, now)] + [Resume(p), Resume(p)];
      AddsMore(old(trace), began, trace, p, [BeginStart(p, cid), Spawn(p, spawned.value, now)], [Resume(p), Resume(p)]);
      assert own == [BeginStart(p, cid), Spawn(p, spawned.value, now), Resume(p), Resume(p)];
      StartLoses(old(trace), before, trace, Snapshot(), p, cid, own);
      return Ok(()), own;
    }

    method SpawnProcess(p: string, container: Container, pid: int, now: int)
      requires Valid() && Handler(p) == None && container.podID == p
      requires container.id in containers && containers[container.id].podID == p && HasCommand(containers[container.id])
      requires container == WithLogPath(containers[container.id])
      requires pid > 0 && pid !in procs
      modifies this`procs, this`ops, this`trace
      ensures Valid() && Adds(old(trace), trace, p, [BeginStart(p, container.id), Spawn(p, pid, now)])
      ensures old(trace) + [BeginStart(p, container.id)] <= trace
      ensures Handler(p) == Some(StartSpawned(container.(pid := pid, state := Running, exitCode := 0, startedAt := now)))
    {
      ghost var before := Snapshot();
      TakesStart(before, p, container.id);
      ops := ops[p := StartRead(container)];
      Record(BeginStart(p, container.id), before, p);
      ghost var began := trace;
      before := Snapshot();
      TakesSpawn(before, p, pid, now);
      procs := procs[pid := Proc(container.id, p, false, None)];
      ops := ops[p := StartSpawned(container.(pid := pid, state := Running, exitCode := 0, startedAt := now))];
      Record(Spawn(p, pid, now), before, p);
      AddsMore(old(trace), began, trace, p, [BeginStart(p, container.id)], [Spawn(p, pid, now)]);
      assert [BeginStart(p, container.id)] + [Spawn(p, pid, now)] == [BeginStart(p, container.id), Spawn(p, pid, now)];
    }

    /** putContainer, then the tracker goroutine. */
    method TrackStarted(p: string, container: Container)
      requires Valid() && Handler(p) == Some(StartSpawned(container)) && container.podID == p
      modifies this
      ensures Valid() && Adds(old(trace), trace, p, [Resume(p), Resume(p)])
      ensures Handler(p) == None && GetSandbox(p) == old(GetSandbox(p))
      ensures Waiting(container.id, container.pid) in trackers
      ensures WholeRun(trace) ==> SameOrExited(Snapshot(), container)
    {
      StoreStartedRecord(p, container);
      ghost var stored := trace;
      SpawnTrackerFor(p, container);
      AddsMore(old(trace), stored, trace, p, [Resume(p)], [Resume(p)]);
      assert [Resume(p)] + [Resume(p)] == [Resume(p), Resume(p)];
    }

    method StoreStartedRecord(p: string, container: Container)
      requires Valid() && Handler(p) == Some(StartSpawned(container))
      modifies this
      ensures Valid() && Adds(old(trace), trace, p, [Resume(p)])
      ensures Handler(p) == Some(StartStored(container)) && GetSandbox(p) == old(GetSandbox(p))
      ensures GetContainer(container.id) == Some(container)
    {
      Pause(p);
      ghost var paused, before := trace, Snapshot();
      TakesStored(before, p, container);
      containers := containers[container.id := container];
      ops := ops[p := StartStored(container)];
      Record(Resume(p), before, p);
      AddsAfterPause(old(trace), paused, trace, p, [Resume(p)]);
    }

    method SpawnTrackerFor(p: string, container: Container)
      requires Valid() && Handler(p) == Some(StartStored(container))
      requires GetContainer(container.id) == Some(container) && container.podID == p
      modifies this
      ensures Valid() && Adds(old(trace), trace, p, [Resume(p)])
      ensures Handler(p) == None && GetSandbox(p) == old(GetSandbox(p))
      ensures Waiting(container.id, container.pid) in trackers
      ensures WholeRun(trace) ==> SameOrExited(Snapshot(), container)
    {
      ghost var start, stored := trace, Snapshot();
      Pause(p);
      ghost var paused, before := trace, Snapshot();
      StillRecorded(start, stored, paused, before, p, container);
      TakesTracking(before, p, container);
      trackers := trackers + multiset{Waiting(container.id, container.pid)};
      ops := ops - {p};
      Record(Resume(p), before, p);
      AddsAfterPause(old(trace), paused, trace, p, [Resume(p)]);
      WholePrefix(paused, trace);
    }

    /**
     The tracker goroutine of a process that has exited: the exit code goes into the record if the record
     still names that process, and nothing else changes.
     */
    method TrackContainerProcess(cid: string, pid: int)
      requires Valid() && TrackerReady(Snapshot(), cid, pid)
      modifies this`containers, this`trackers, this`trace
      ensures Valid()
      ensures trackers == old(trackers) - multiset{Waiting(cid, pid)}
      ensures cid !in old(containers) || old(containers[cid]).pid != pid ==> containers == old(containers)
      ensures cid in old(containers) && old(containers[cid]).pid == pid ==>
                containers == old(containers)[cid := old(containers[cid]).(state := Exited, exitCode := procs[pid].exit.value)]
    {
      ghost var before := Snapshot();
      TakesTrack(before, cid, pid);
      trackers := trackers - multiset{Waiting(cid, pid)};
      var cnt := GetContainer(cid);
      if cnt.Some? && cnt.value.pid == pid {
        containers := containers[cid := cnt.value.(exitCode := procs[pid].exit.value, state := Exited)];
      }
      Record(Track(cid, pid), before, "");
    }

    // -------------------------------------------------------------- ending containers

    /**
     StopContainer returns an error exactly when the context ends before the container does, SIGTERM fails or
     the grace period elapses.  It returns nil only when the container is not running any more or SIGKILL was
     sent to its process, and even when it is cancelled SIGKILL was sent; a container that ends in time is not
     sent SIGKILL, and one that is not running is left alone.
     */
    method StopContainer(cid: string) returns (r: Result<()>, ghost wait: Wait, ghost own: seq<Step>)
      requires Valid() && (cid in containers ==> Handler(containers[cid].podID) == None)
      modifies this
      ensures Valid()
      ensures cid !in old(containers) ==> r == Err(NotFound) && Snapshot() == old(Snapshot()) && events == old(events)
      ensures cid in old(containers) ==>
                var container := old(containers[cid]);
                && Adds(old(trace), trace, container.podID, [BeginStop(container.podID, cid)] + own) && GoesOn(own)
                && Ended(container) && (r.Err? ==> r.error == ContextDone && CutOff(container))
                && Handler(container.podID) == None && GetSandbox(container.podID) == old(GetSandbox(container.podID))
                && (container.state != Running ==> r.Ok? && Snapshot() == old(Snapshot()))
                && Took(wait, old(events), events) && (wait.NoWait? <==> container.state != Running)
                && (r.Err? <==> ContextOver(wait)) && Concluded(wait, container)
                && (wait.NoWait? || (wait.EndedBy? && wait.event.TickFires?) ==> Gentle(container.podID, own))
    {
      wait, own := NoWait, [];
      var container := GetContainer(cid);
      if container.None? {
        return Err(NotFound), wait, own;
      }
      var p := container.value.podID;
      ghost var before := Snapshot();
      StoredRecord(trace, before, cid);
      TakesStop(before, p, cid);
      r, wait, own := TerminateContainer(p, StopCaller, container.value, before, BeginStop(p, cid));
      assert container.value.state != Running ==> ops == old(ops);
    }

    /** The id is taken off the list of its pod, if the pod exists and lists it. */
    method Unlist(p: string, cid: string)
      modifies this`sandboxes
      ensures Snapshot() == Unlisted(old(Snapshot()), p, cid)
    {
      var pod := GetSandbox(p);
      if pod.Some? {
        var list := pod.value.containers;
        for i := 0 to |list|
          invariant cid !in list[..i] && sandboxes == old(sandboxes)
        {
          if list[i] == cid {
            SpliceFirst(list, i, cid);
            sandboxes := sandboxes[p := pod.value.(containers := list[..i] + list[i + 1..])];
            return;
          }
        }
        assert list[..|list|] == list;
      }
    }

    /**
     A missing container is no error.  Otherwise the id is unlisted; an error is returned exactly when the
     context ends before the container does, SIGTERM fails or the zero timeout fires; nil means that the record is deleted and
     that no process ever started for the container is left alone, an error that SIGKILL was sent and that
     the record is still stored.
     */
    method RemoveContainer(cid: string) returns (r: Result<()>, ghost wait: Wait, ghost own: seq<Step>)
      requires Valid() && (cid in containers ==> Handler(containers[cid].podID) == None)
      modifies this
      ensures Valid()
      ensures cid !in old(containers) ==> r.Ok? && Snapshot() == old(Snapshot()) && events == old(events)
      ensures cid in old(containers) ==>
                var container := old(containers[cid]);
                && Adds(old(trace), trace, container.podID, [BeginRemove(container.podID, cid)] + own) && GoesOn(own)
                && Handler(container.podID) == None
                && GetSandbox(container.podID) == (match old(GetSandbox(container.podID))
                                                   case None => None
                                                   case Some(pod) => Some(pod.(containers := Splice(pod.containers, cid))))
                && (r.Ok? ==> cid !in containers)
                && (r.Err? ==> r.error == ContextDone && cid in cancelled && CutOff(container))
                && (r.Ok? && WholeRun(trace) && SafeStarts(trace, false) ==> NoneAlive(Snapshot(), cid))
                && Took(wait, old(events), events) && (wait.NoWait? <==> container.state != Running)
                && (r.Err? <==> ContextOver(wait))
                && (wait.NoWait? || (wait.EndedBy? && wait.event.TickFires?) ==> Gentle(container.podID, own))
    {
      wait, own := NoWait, [];
      var found := GetContainer(cid);
      if found.None? {
        return Ok(()), wait, own;
      }
      var container := found.value;
      var p := container.podID;
      ghost var before := Snapshot();
      StoredRecord(trace, before, cid);
      TakesRemove(before, p, cid);
      Unlist(p, cid);
      SpliceAbsent(before, p, cid);
      r, wait, own := EndAndDelete(p, container, before);
      if r.Ok? {
        RemovedIsEnded(old(trace), before, trace, Snapshot(), p, cid);
      }
    }

    /** The container is terminated and, when that returns nil, deleted. */
    method EndAndDelete(p: string, container: Container, ghost before: State)
      returns (r: Result<()>, ghost wait: Wait, ghost own: seq<Step>)
      requires GetContainer(container.id) == Some(container) && (container.state == Running ==> container.pid != 0)
      requires Reached(trace, before)
      requires Takes(before, BeginRemove(p, container.id), EnterTerminate(Snapshot(), p, RemoveCaller, container))
      modifies this
      ensures Valid() && Adds(old(trace), trace, p, [BeginRemove(p, container.id)] + own) && GoesOn(own)
      ensures Handler(p) == None && GetSandbox(p) == old(GetSandbox(p))
      ensures r.Ok? ==> container.id !in containers
      ensures r.Err? ==> r.error == ContextDone && container.id in cancelled && CutOff(container)
      ensures Took(wait, old(events), events) && (wait.NoWait? <==> container.state != Running)
      ensures r.Err? <==> ContextOver(wait)
      ensures wait.NoWait? || (wait.EndedBy? && wait.event.TickFires?) ==> Gentle(p, own)
    {
      var cid := container.id;
      r, wait, own := TerminateContainer(p, RemoveCaller, container, before, BeginRemove(p, cid));
      if r.Ok? {
        ghost var ended := trace;
        DeleteRemoved(p, cid);
        AddsMore(old(trace), ended, trace, p, [BeginRemove(p, cid)] + own, [Resume(p)]);
        assert [BeginRemove(p, cid)] + own + [Resume(p)] == [BeginRemove(p, cid)] + (own + [Resume(p)]);
        own := own + [Resume(p)];
      }
    }

    method DeleteRemoved(p: string, cid: string)
      requires Valid() && Handler(p) == Some(Terminated(RemoveCaller, cid))
      modifies this
      ensures Valid() && Adds(old(trace), trace, p, [Resume(p)])
      ensures Handler(p) == None && GetSandbox(p) == old(GetSandbox(p)) && cid !in containers && events == old(events)
    {
      Pause(p);
      ghost var paused := trace;
      ghost var before := Snapshot();
      TakesDelete(before, p, RemoveCaller, cid);
      containers := containers - {cid};
      ops := ops - {p};
      Record(Resume(p), before, p);
      AddsAfterPause(old(trace), paused, trace, p, [Resume(p)]);
    }

    // -------------------------------------------------------------- tearing a pod down

    /** The record of the head of the list is deleted. */
    method DeleteHead(pod: Sandbox, force: bool, cid: string)
      requires Valid() && Handler(pod.id) == Some(Terminated(TeardownCaller(pod, force), cid))
      modifies this
      ensures Valid() && Adds(old(trace), trace, pod.id, [Resume(pod.id)])
      ensures Handler(pod.id) == Some(Unlisting(pod, force)) && GetSandbox(pod.id) == old(GetSandbox(pod.id))
      ensures events == old(events)
    {
      Pause(pod.id);
      ghost var paused := trace;
      ghost var before := Snapshot();
      TakesDelete(before, pod.id, TeardownCaller(pod, force), cid);
      containers := containers - {cid};
      ops := ops[pod.id := Unlisting(pod, force)];
      Record(Resume(pod.id), before, pod.id);
      AddsAfterPause(old(trace), paused, trace, pod.id, [Resume(pod.id)]);
    }

    /** The record of the head is gone already. */
    method SkipHead(pod: Sandbox, force: bool)
      requires Valid() && Handler(pod.id) == Some(LoopHead(pod, force))
      requires pod.containers != [] && pod.containers[0] !in containers
      modifies this`ops, this`trace
      ensures Valid() && Adds(old(trace), trace, pod.id, [Resume(pod.id)])
      ensures Handler(pod.id) == Some(Unlisting(pod, force))
    {
      ghost var before := Snapshot();
      TakesNext(before, pod.id, pod, force);
      ops := ops[pod.id := Unlisting(pod, force)];
      Record(Resume(pod.id), before, pod.id);
    }

    /** The shorter list is stored. */
    method PutShorter(pod: Sandbox, shorter: Sandbox, force: bool)
      requires Valid() && Handler(pod.id) == Some(Unlisting(pod, force))
      requires pod.containers != [] && shorter == pod.(containers := pod.containers[1..])
      modifies this
      ensures Valid() && Adds(old(trace), trace, pod.id, [Resume(pod.id)])
      ensures Handler(pod.id) == Some(LoopHead(shorter, force)) && GetSandbox(pod.id) == Some(shorter) && events == old(events)
    {
      Pause(pod.id);
      ghost var paused, before := trace, Snapshot();
      TakesShorten(before, pod.id, pod, force);
      sandboxes := sandboxes[pod.id := shorter];
      ops := ops[pod.id := LoopHead(shorter, force)];
      Record(Resume(pod.id), before, pod.id);
      AddsAfterPause(old(trace), paused, trace, pod.id, [Resume(pod.id)]);
    }

    /** The emptied sandbox is stored as NOTREADY. */
    method PutNotReady(pod: Sandbox, force: bool)
      requires Valid() && Handler(pod.id) == Some(LoopHead(pod, force)) && pod.containers == []
      modifies this
      ensures Valid() && Adds(old(trace), trace, pod.id, [Resume(pod.id)])
      ensures Handler(pod.id) == (if force then Some(Emptied) else None) && GetSandbox(pod.id) == Some(pod.(state := NotReady))
      ensures events == old(events)
    {
      Pause(pod.id);
      ghost var paused, before := trace, Snapshot();
      TakesNext(before, pod.id, pod, force);
      sandboxes := sandboxes[pod.id := pod.(state := NotReady)];
      ops := if force then ops[pod.id := Emptied] else ops - {pod.id};
      Record(Resume(pod.id), before, pod.id);
      AddsAfterPause(old(trace), paused, trace, pod.id, [Resume(pod.id)]);
    }

    /** One pass of the loop for the head of the list, up to but not including the write of the shorter list. */
    method EndHead(pod: Sandbox, force: bool) returns (r: Result<()>, ghost consumed: seq<Event>, ghost own: seq<Step>)
      requires Valid() && Handler(pod.id) == Some(LoopHead(pod, force)) && pod.containers != []
      modifies this
      ensures Valid() && Adds(old(trace), trace, pod.id, own) && GoesOn(own)
      ensures GetSandbox(pod.id) == old(GetSandbox(pod.id))
      ensures r.Ok? ==> Handler(pod.id) == Some(Unlisting(pod, force))
      ensures r.Err? ==> Handler(pod.id) == None && r.error == ContextDone
      ensures old(events) == consumed + events && Answered(r, consumed, events)
    {
      var p, cid := pod.id, pod.containers[0];
      var cnt := GetContainer(cid);
      if cnt.None? {
        SkipHead(pod, force);
        return Ok(()), [], [Resume(p)];
      }
      ghost var before := Snapshot();
      StoredRecord(trace, before, cid);
      TakesNext(before, p, pod, force);
      ghost var wait;
      r, wait, own := TerminateContainer(p, TeardownCaller(pod, force), cnt.value, before, Resume(p));
      own := [Resume(p)] + own;
      consumed := WaitAnswers(wait, old(events), events, r);
      if r.Err? {
        return;
      }
      ghost var ended := trace;
      DeleteHead(pod, force, cid);
      AddsMore(old(trace), ended, trace, p, own, [Resume(p)]);
      own := own + [Resume(p)];
    }

    /**
     The loop of StopPodSandbox and RemovePodSandbox.  When it is cancelled the stored list is the part
     of the original that is still to be done, and the sandbox is otherwise as it was.
     */
    method TerminateSandboxContainers(pod: Sandbox, force: bool)
      returns (r: Result<()>, ghost consumed: seq<Event>, ghost own: seq<Step>)
      requires Valid() && Handler(pod.id) == Some(LoopHead(pod, force)) && GetSandbox(pod.id) == Some(pod)
      modifies this
      ensures Valid() && Adds(old(trace), trace, pod.id, own) && GoesOn(own)
      ensures r.Ok? ==> GetSandbox(pod.id) == Some(pod.(containers := [], state := NotReady))
      ensures r.Ok? ==> Handler(pod.id) == if force then Some(Emptied) else None
      ensures r.Err? ==> Handler(pod.id) == None && r.error == ContextDone
      ensures r.Err? ==> CutShort(pod, GetSandbox(pod.id))
      ensures old(events) == consumed + events && Answered(r, consumed, events)
    {
      consumed, own := [], [];
      AddsNothing(trace, pod.id);
      var current := pod;
      for i := 0 to |pod.containers|
        invariant Valid() && Adds(old(trace), trace, pod.id, own) && GoesOn(own)
        invariant current == pod.(containers := pod.containers[i..])
        invariant Handler(pod.id) == Some(LoopHead(current, force)) && GetSandbox(pod.id) == Some(current)
        invariant old(events) == consumed + events && ContextEnds !in consumed
      {
        ghost var start, more, pass := trace, [], [];
        r, more, pass := OnePassOf(current, force);
        AnswersMore(consumed, r, more, events);
        assert consumed + (more + events) == consumed + more + events;
        consumed := consumed + more;
        AddsMore(old(trace), start, trace, pod.id, own, pass);
        own := own + pass;
        if r.Err? {
          assert CutShort(pod, GetSandbox(pod.id)) by { assert GetSandbox(pod.id) == Some(pod.(containers := pod.containers[i..])); }
          return;
        }
        assert pod.containers[i..][1..] == pod.containers[i + 1..];
        current := current.(containers := current.containers[1..]);
      }
      ghost var start := trace;
      PutNotReady(current, force);
      AddsMore(old(trace), start, trace, pod.id, own, [Resume(pod.id)]);
      own := own + [Resume(pod.id)];
      r := Ok(());
    }

    method OnePassOf(pod: Sandbox, force: bool) returns (r: Result<()>, ghost consumed: seq<Event>, ghost own: seq<Step>)
      requires Valid() && Handler(pod.id) == Some(LoopHead(pod, force)) && pod.containers != []
      modifies this
      ensures Valid() && Adds(old(trace), trace, pod.id, own) && GoesOn(own)
      ensures r.Ok? ==> var shorter := pod.(containers := pod.containers[1..]);
                        Handler(pod.id) == Some(LoopHead(shorter, force)) && GetSandbox(pod.id) == Some(shorter)
      ensures r.Err? ==> Handler(pod.id) == None && r.error == ContextDone && GetSandbox(pod.id) == old(GetSandbox(pod.id))
      ensures old(events) == consumed + events && Answered(r, consumed, events)
    {
      Pause(pod.id);
      ghost var start := trace;
      r, consumed, own := EndHead(pod, force);
      AddsAfterPause(old(trace), start, trace, pod.id, own);
      if r.Err? {
        return;
      }
      start := trace;
      PutShorter(pod, pod.(containers := pod.containers[1..]), force);
      AddsMore(old(trace), start, trace, pod.id, own, [Resume(pod.id)]);
      own := own + [Resume(pod.id)];
    }

    method BeginTearingDown(p: string, force: bool) returns (pod: Sandbox)
      requires Valid() && p in sandboxes && Handler(p) == None
      modifies this`ops, this`trace
      ensures Valid() && Adds(old(trace), trace, p, [BeginTeardown(p, force)])
      ensures GetSandbox(p) == Some(pod) && pod.id == p && Handler(p) == Some(LoopHead(pod, force))
    {
      ghost var before := Snapshot();
      StoredSandbox(trace, before, p);
      TakesTeardown(before, p, force);
      pod := sandboxes[p];
      ops := ops[p := LoopHead(pod, force)];
      Record(BeginTeardown(p, force), before, p);
    }

    /**
     A missing sandbox is no error.  When the call returns nil the sandbox is NOTREADY and lists nothing,
     exactly the containers it listed are deleted, and every process started for the pod was ended; when
     it is cancelled the sandbox is as it was with a suffix of its list.
     */
    method StopPodSandbox(p: string) returns (r: Result<()>, ghost consumed: seq<Event>, ghost own: seq<Step>)
      requires Valid() && Handler(p) == None
      modifies this
      ensures Valid() && Handler(p) == None
      ensures old(GetSandbox(p)) == None ==> r.Ok? && Snapshot() == old(Snapshot()) && events == old(events)
      ensures r.Err? ==> r.error == ContextDone
      ensures old(events) == consumed + events && Answered(r, consumed, events)
      ensures old(GetSandbox(p)).Some? ==> Adds(old(trace), trace, p, [BeginTeardown(p, false)] + own) && GoesOn(own)
      ensures old(GetSandbox(p)).Some? && r.Ok? ==>
                GetSandbox(p) == Some(old(sandboxes[p]).(containers := [], state := NotReady))
      ensures old(GetSandbox(p)).Some? && r.Ok? ==> TornDown(old(Snapshot()), Snapshot(), trace, p)
      ensures old(GetSandbox(p)).Some? && r.Err? ==> CutShort(old(sandboxes[p]), GetSandbox(p))
    {
      consumed, own := [], [];
      if p !in sandboxes {
        return Ok(()), consumed, own;
      }
      ghost var before := Snapshot();
      var pod := BeginTearingDown(p, false);
      ghost var begun := trace;
      r, consumed, own := TerminateSandboxContainers(pod, false);
      AddsMore(old(trace), begun, trace, p, [BeginTeardown(p, false)], own);
      if r.Ok? {
        TeardownResult(old(trace), before, trace, Snapshot(), p, false, own);
      }
    }

    /** As StopPodSandbox, but a call that returns nil leaves no sandbox. */
    method RemovePodSandbox(p: string) returns (r: Result<()>, ghost consumed: seq<Event>, ghost own: seq<Step>)
      requires Valid() && Handler(p) == None
      modifies this
      ensures Valid() && Handler(p) == None
      ensures old(GetSandbox(p)) == None ==> r.Ok? && Snapshot() == old(Snapshot()) && events == old(events)
      ensures r.Err? ==> r.error == ContextDone
      ensures old(events) == consumed + events && Answered(r, consumed, events)
      ensures old(GetSandbox(p)).Some? ==> Adds(old(trace), trace, p, [BeginTeardown(p, true)] + own) && GoesOn(own)
      ensures r.Ok? ==> GetSandbox(p) == None
      ensures old(GetSandbox(p)).Some? && r.Ok? ==> TornDown(old(Snapshot()), Snapshot(), trace, p)
      ensures old(GetSandbox(p)).Some? && r.Err? ==> CutShort(old(sandboxes[p]), GetSandbox(p))
    {
      consumed, own := [], [];
      if p !in sandboxes {
        return Ok(()), consumed, own;
      }
      ghost var before := Snapshot();
      var pod := BeginTearingDown(p, true);
      ghost var begun := trace;
      r, consumed, own := TerminateSandboxContainers(pod, true);
      AddsMore(old(trace), begun, trace, p, [BeginTeardown(p, true)], own);
      if r.Ok? {
        ghost var emptied := trace;
        DeleteSandbox(p);
        AddsMore(old(trace), emptied, trace, p, [BeginTeardown(p, true)] + own, [Resume(p)]);
        assert [BeginTeardown(p, true)] + own + [Resume(p)] == [BeginTeardown(p, true)] + (own + [Resume(p)]);
        own := own + [Resume(p)];
        TeardownResult(old(trace), before, trace, Snapshot(), p, true, own);
      }
    }

    method DeleteSandbox(p: string)
      requires Valid() && Handler(p) == Some(Emptied)
      modifies this
      ensures Valid() && Adds(old(trace), trace, p, [Resume(p)])
      ensures Handler(p) == None && GetSandbox(p) == None && events == old(events)
    {
      Pause(p);
      ghost var paused, before := trace, Snapshot();
      TakesEmptied(before, p);
      sandboxes := sandboxes - {p};
      ops := ops - {p};
      Record(Resume(p), before, p);
      AddsAfterPause(old(trace), paused, trace, p, [Resume(p)]);
    }
  }

  // ---------------------------------------------------------------- what a teardown achieves

  ghost predicate AllEnded(s: State, p: string) {
    forall pid | pid in s.procs && s.procs[pid].podID == p :: s.procs[pid].killed || s.procs[pid].exit.Some?
  }

  /**
   When the trackers of the run read and write in one step, exactly the listed containers are deleted;
   when, besides, only containers were started whose process was not alive and whose removal was not
   cancelled, no process of the pod is left alone.
   */
  ghost predicate TornDown(before: State, after: State, trace: seq<Step>, p: string)
    requires p in before.sandboxes
  {
    && (WholeRun(trace) ==> Own(after, p) == Own(before, p) - Elements(before.sandboxes[p].containers))
    && (WholeRun(trace) && SafeStarts(trace, true) ==> AllEnded(after, p))
  }

  ghost predicate CutShort(pod: Sandbox, stored: Option<Sandbox>) {
    exists i | 0 <= i < |pod.containers| :: stored == Some(pod.(containers := pod.containers[i..]))
  }

  lemma OnlyTeardowns(steps: seq<Step>, p: string, own: seq<Step>)
    requires WholeRun(steps) && StepsOf(steps, p) == own
    requires forall step | step in own && Begins(step) :: step.BeginTeardown?
    ensures Attempts(p, steps)
  {
    forall i | 0 <= i < |steps| ensures AttemptStep(p, steps[i]) {
      assert Whole(steps[i]);
      if Actor(steps[i]) == Some(p) {
        StepsOfAll(steps, i, p);
      }
    }
  }

  lemma TeardownResult(before: seq<Step>, s0: State, after: seq<Step>, s: State, p: string, remove: bool, own: seq<Step>)
    requires Reached(before, s0) && Reached(after, s) && Adds(before, after, p, [BeginTeardown(p, remove)] + own) && GoesOn(own)
    requires p in s0.sandboxes && p !in s0.ops && p !in s.ops && (p in s.sandboxes ==> s.sandboxes[p].state == NotReady)
    ensures TornDown(s0, s, after, p)
  {
    if WholeRun(after) {
      var steps := after[|before|..];
      ReachedIs(before, s0);
      ReachedIs(after, s);
      RestOfRun(before, s0, after, s);
      assert forall i | 0 <= i < |before| :: before[i] == after[i];
      EmptyIntegrity();
      RunIntegrity(INIT, before);
      assert forall i | 0 <= i < |steps| :: steps[i] == after[|before| + i];
      OnlyTeardowns(steps, p, [BeginTeardown(p, remove)] + own);
      FinishedTeardown(s0, steps, s, p);
      if SafeStarts(after, true) {
        TeardownIsComplete(after, s, p);
      }
    }
  }

  // ---------------------------------------------------------------- what a reached state says of a record

  lemma StoredRecord(steps: seq<Step>, s: State, cid: string)
    requires Reached(steps, s) && cid in s.containers
    ensures s.containers[cid].id == cid && (s.containers[cid].state == Running ==> s.containers[cid].pid > 0)
  {
    ReachedIs(steps, s);
    assert RecordOk(s, s.containers[cid]);
  }

  /** The process is neither signalled nor in its record. */
  ghost predicate Lost(s: State, pid: int) {
    pid in s.procs && !s.procs[pid].killed && !InRecord(s, pid)
  }

  lemma StartLoses(before: seq<Step>, s0: State, after: seq<Step>, s: State, p: string, cid: string, own: seq<Step>)
    requires Reached(before, s0) && Reached(after, s) && before + [BeginStart(p, cid)] <= after
    requires Adds(before, after, p, own) && SpawnFails(p) !in own && p !in s.ops
    requires CanBegin(s0, p, cid) && HasCommand(s0.containers[cid])
    ensures WholeRun(after) && !MayStart(s0, BeginStart(p, cid), false) ==> Lost(s, s0.containers[cid].pid)
  {
    if WholeRun(after) && !MayStart(s0, BeginStart(p, cid), false) {
      var begun := before + [BeginStart(p, cid)];
      var during := after[|begun|..];
      TakesStart(s0, p, cid);
      LeadsNext(INIT, before, s0, BeginStart(p, cid), DoBeginStart(s0, p, cid));
      RestOfRun(begun, DoBeginStart(s0, p, cid), after, s);
      assert forall i | 0 <= i < |during| :: during[i] == after[|begun| + i] && Whole(during[i]);
      var steps := after[|before|..];
      assert StepsOf(steps, p) == own;
      forall i | 0 <= i < |during| ensures during[i] != SpawnFails(p) {
        assert steps[i + 1] == during[i];
        if Actor(steps[i + 1]) == Some(p) {
          StepsOfAll(steps, i + 1, p);
        }
      }
      ReachedIs(before, s0);
      LeadsNowhere(s);
      RestartLosesTheProcess(s0, p, cid, during, s, [], s);
    }
  }

  /** Two reached states of one run are joined by the steps between them. */
  lemma RestOfRun(before: seq<Step>, s0: State, after: seq<Step>, s: State)
    requires Reached(before, s0) && Reached(after, s) && before <= after
    ensures Leads(s0, after[|before|..], s)
  {
    assert after == before + after[|before|..];
    ExecAppend(INIT, before, after[|before|..]);
    assert Exec(INIT, before) == s0 && Exec(INIT, after) == s;
    LeadsIs(s0, after[|before|..], s);
  }

  ghost predicate NoneAlive(s: State, cid: string) {
    forall pid | pid in s.procs && s.procs[pid].cid == cid :: !s.procs[pid].Live()
  }

  lemma RemovedIsEnded(before: seq<Step>, s0: State, after: seq<Step>, s: State, p: string, cid: string)
    requires Reached(before, s0) && Reached(after, s) && before <= after
    requires cid in s0.containers && s0.containers[cid].podID == p && cid !in s.containers && p !in s.ops
    ensures WholeRun(after) && SafeStarts(after, false) ==> NoneAlive(s, cid)
  {
    if WholeRun(after) && SafeStarts(after, false) {
      ReachedIs(before, s0);
      ReachedIs(after, s);
      RestOfRun(before, s0, after, s);
      assert Exec(s0, after[|before|..]) == s;
      RunGrows(s0, after[|before|..]);
      assert RecordOk(s0, s0.containers[cid]);
      forall pid | pid in s.procs && s.procs[pid].cid == cid ensures !s.procs[pid].Live() {
        LiveProcessesAreOnRecord(after, s, pid);
      }
    }
  }

  lemma {:induction false} TicksNext(p: string, passed: seq<Event>, event: Event)
    ensures Ticks(p, passed + [event]) == Ticks(p, passed) + if event.TickFires? then [Tick(p)] else []
  {
    assert (passed + [event])[..|passed|] == passed;
  }

  /** A wait goes on to its end, and one that a tick ends, or that is none, sends no SIGKILL. */
  lemma WaitGoesOn(p: string, wait: Wait, own: seq<Step>)
    requires Waited(p, wait, own)
    ensures GoesOn(own) && (wait.NoWait? || (wait.EndedBy? && wait.event.TickFires?) ==> Gentle(p, own))
  {
    if wait.EndedBy? || wait.UsedUp? {
      TicksAreTicks(p, wait.passed);
    }
  }

  lemma SignallingHasProcess(steps: seq<Step>, s: State, p: string, caller: Caller, cnt: Container)
    requires Reached(steps, s) && p in s.ops && s.ops[p] == Signalling(caller, cnt)
    ensures cnt.pid in s.procs
  {
    ReachedIs(steps, s);
    assert OpOk(s, p, s.ops[p]);
  }

  lemma PollingIsStored(steps: seq<Step>, s: State, p: string, caller: Caller, cnt: Container)
    requires Reached(steps, s) && p in s.ops && s.ops[p] == Polling(caller, cnt)
    ensures cnt.pid in s.procs
    ensures WholeRun(steps) ==> cnt.id in s.containers && s.containers[cnt.id].pid == cnt.pid
  {
    ReachedIs(steps, s);
    assert OpOk(s, p, s.ops[p]);
    if WholeRun(steps) {
      EmptyIntegrity();
      RunIntegrity(INIT, steps);
      assert PodIntegrity(s, p);
    }
  }

  lemma LogPathOf(directory: string, name: string)
    requires name != ""
    ensures IsLogPath(Paths.JoinPath(directory, name), directory, name)
  {
    if directory != "" && Paths.StaysBelow(name) {
      Paths.JoinDescends(directory, name);
    }
  }

  lemma WholePrefix(before: seq<Step>, after: seq<Step>)
    requires before <= after
    ensures WholeRun(after) ==> WholeRun(before)
  {
    assert forall i | 0 <= i < |before| :: before[i] == after[i];
  }

  lemma ListedIsStored(steps: seq<Step>, s: State, p: string, cid: string)
    requires Reached(steps, s) && p !in s.ops && Listed(s, p, cid)
    ensures WholeRun(steps) ==> cid in s.containers && s.containers[cid].podID == p
  {
    if WholeRun(steps) {
      ReachedIs(steps, s);
      ListedContainersAreStored(steps, s, p);
    }
  }

  lemma StillRecorded(before: seq<Step>, s0: State, after: seq<Step>, s: State, p: string, cnt: Container)
    requires Reached(before, s0) && Reached(after, s) && Adds(before, after, p, [])
    requires SameOrExited(s0, cnt) && cnt.podID == p
    ensures WholeRun(after) ==> SameOrExited(s, cnt)
  {
    if WholeRun(after) {
      var steps := after[|before|..];
      ReachedIs(before, s0);
      RestOfRun(before, s0, after, s);
      assert StepsOf(steps, p) == [];
      forall i | 0 <= i < |steps| ensures Actor(steps[i]) != Some(p) && Whole(steps[i]) {
        assert steps[i] == after[|before| + i];
        if Actor(steps[i]) == Some(p) {
          StepsOfAll(steps, i, p);
          assert false;
        }
      }
      OthersKeepRecord(s0, steps, s, cnt);
    }
  }

  lemma StoredSandbox(steps: seq<Step>, s: State, p: string)
    requires Reached(steps, s) && p in s.sandboxes
    ensures s.sandboxes[p].id == p
  {
    ReachedIs(steps, s);
    assert SandboxOk(s, p, s.sandboxes[p]);
  }

  lemma {:induction false} SpliceMissing(list: seq<string>, cid: string)
    requires cid !in list
    ensures Splice(list, cid) == list
  {
    if list != [] {
      SpliceMissing(list[1..], cid);
    }
  }

  lemma SpliceAbsent(s: State, p: string, cid: string)
    ensures p !in s.sandboxes ==> Unlisted(s, p, cid) == s
    ensures p in s.sandboxes ==>
              Unlisted(s, p, cid).sandboxes == s.sandboxes[p := s.sandboxes[p].(containers := Splice(s.sandboxes[p].containers, cid))]
  {
    if p in s.sandboxes && cid !in s.sandboxes[p].containers {
      SpliceMissing(s.sandboxes[p].containers, cid);
    }
  }
}
