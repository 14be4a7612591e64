/**
 The pod and container lifecycle as a step system.

 A state holds the two maps of the data store, the process table, one tracker per started process
 and, for every pod, the handler that is at work on it.  A step is one store write (with the reads
 and local decisions around it), one signal, one outcome of the wait in `terminateContainer`, the
 exit of a process, or an action of a tracker goroutine.  Handlers of different pods, trackers and
 processes interleave freely; a handler begins only on a pod that has no handler at work.
 */
module Lifecycle {
  import opened Records

  /** A main process: the container and pod it was spawned for, whether SIGKILL was sent, its exit code. */
  datatype Proc = Proc(cid: string, podID: string, killed: bool, exit: Option<int>) {
    predicate Live() {
      !killed && exit.None?
    }
  }

  /** A `trackContainerProcess` goroutine: before its read, or between its read and its write. */
  datatype Tracker =
    | Waiting(cid: string, pid: int)
    | Holding(cid: string, pid: int, record: Container)

  /** Who called `terminateContainer`. */
  datatype Caller = StopCaller | RemoveCaller | TeardownCaller(pod: Sandbox, remove: bool)

  /** A handler at work, with the local copies it will use next. */
  datatype Op =
    | Creating(pod: Sandbox, cid: string)           // container stored, pod list not yet
    | StartRead(cnt: Container)                     // record read, nothing spawned
    | StartSpawned(cnt: Container)                  // process spawned, record not stored
    | StartStored(cnt: Container)                   // record stored, tracker not spawned
    | LoopHead(pod: Sandbox, remove: bool)          // top of the teardown loop
    | Signalling(caller: Caller, cnt: Container)    // about to send SIGTERM
    | Polling(caller: Caller, cnt: Container)       // in the select loop
    | Terminated(caller: Caller, cid: string)       // terminateContainer returned nil
    | Unlisting(pod: Sandbox, remove: bool)         // record gone, shorter list not stored
    | Emptied                                       // NOTREADY stored, sandbox to be deleted

  datatype State = State(
    sandboxes: map<string, Sandbox>,
    containers: map<string, Container>,
    procs: map<int, Proc>,
    trackers: multiset<Tracker>,
    ops: map<string, Op>,
    created: map<string, string>,    // history: every container id ever stored, and its pod
    cancelled: set<string>)          // history: containers whose RemoveContainer returned an error

  const INIT := State(map[], map[], map[], multiset{}, map[], map[], {})

  datatype Step =
    | RunSandbox(sb: Sandbox)
    | BeginCreate(cnt: Container)
    | BeginStart(podID: string, cid: string)
    | BeginStop(podID: string, cid: string)
    | BeginRemove(podID: string, cid: string)
    | BeginTeardown(podID: string, remove: bool)
    | Spawn(podID: string, pid: int, now: int)
    | SpawnFails(podID: string)
    | Signal(podID: string, delivered: bool)
    | Tick(podID: string)
    | Timeout(podID: string)
    | Cancel(podID: string)
    | Resume(podID: string)
    | Abandon(podID: string)
    | ProcExit(pid: int, code: int)
    | Track(cid: string, pid: int)
    | TrackRead(cid: string, pid: int)
    | TrackWrite(held: Tracker)

  /** The pod whose handler takes the step; processes and trackers belong to no handler. */
  function Actor(step: Step): Option<string> {
    match step
    case RunSandbox(sb) => Some(sb.id)
    case BeginCreate(cnt) => Some(cnt.podID)
    case ProcExit(_, _) => None
    case Track(_, _) => None
    case TrackRead(_, _) => None
    case TrackWrite(_) => None
    case _ => Some(step.podID)
  }

  // ---------------------------------------------------------------- handlers begin

  predicate IsNewSandbox(sb: Sandbox) {
    sb.state == Ready && sb.containers == []
  }

  function DoRunSandbox(s: State, sb: Sandbox): State {
    if sb.id in s.ops || sb.id in s.sandboxes || !IsNewSandbox(sb) then s
    else s.(sandboxes := s.sandboxes[sb.id := sb])
  }

  predicate IsNewContainer(cnt: Container) {
    cnt.state == Created && cnt.pid == 0
  }

  /** CreateContainer up to its first write: the record is stored, the pod's list is not. */
  function DoBeginCreate(s: State, cnt: Container): State {
    var p := cnt.podID;
    if p in s.ops || p !in s.sandboxes || s.sandboxes[p].state != Ready || cnt.id in s.created || !IsNewContainer(cnt) then s
    else
      var pod := s.sandboxes[p];
      s.(containers := s.containers[cnt.id := cnt],
      created := s.created[cnt.id := p],
      ops := s.ops[p := Creating(pod.(containers := pod.containers + [cnt.id]), cnt.id)])
  }

  predicate CanBegin(s: State, p: string, cid: string) {
    p !in s.ops && cid in s.containers && s.containers[cid].podID == p
  }

  const DEFAULT_LOG_PATH := "/tmp/cnt.log"

  function WithLogPath(cnt: Container): Container {
    if cnt.logPath == "" then cnt.(logPath := DEFAULT_LOG_PATH) else cnt
  }

  predicate HasCommand(cnt: Container) {
    cnt.command + cnt.args != []
  }

  /** StartContainer up to the spawn; without a command it returns an error and changes nothing. */
  function DoBeginStart(s: State, p: string, cid: string): State {
    if !CanBegin(s, p, cid) || !HasCommand(s.containers[cid]) then s
    else s.(ops := s.ops[p := StartRead(WithLogPath(s.containers[cid]))])
  }

  function DoBeginStop(s: State, p: string, cid: string): State {
    if !CanBegin(s, p, cid) then s
    else EnterTerminate(s, p, StopCaller, s.containers[cid])
  }

  /** The list without its first occurrence of cid. */
  function Splice(list: seq<string>, cid: string): seq<string> {
    if list == [] then []
    else if list[0] == cid then list[1..]
    else [list[0]] + Splice(list[1..], cid)
  }

  /** RemoveContainer takes the id off the pod's list, if it is there, before it terminates. */
  function Unlisted(s: State, p: string, cid: string): State {
    if p !in s.sandboxes || cid !in s.sandboxes[p].containers then s
    else
      var pod := s.sandboxes[p];
      s.(sandboxes := s.sandboxes[p := pod.(containers := Splice(pod.containers, cid))])
  }

  function DoBeginRemove(s: State, p: string, cid: string): State {
    if !CanBegin(s, p, cid) then s
    else EnterTerminate(Unlisted(s, p, cid), p, RemoveCaller, s.containers[cid])
  }

  function DoBeginTeardown(s: State, p: string, remove: bool): State {
    if p in s.ops || p !in s.sandboxes then s
    else s.(ops := s.ops[p := LoopHead(s.sandboxes[p], remove)])
  }

  // ---------------------------------------------------------------- terminateContainer

  function EnterTerminate(s: State, p: string, caller: Caller, cnt: Container): State {
    if cnt.state != Running then AfterTerminate(s, p, caller, cnt.id)
    else if cnt.pid == 0 then Fail(s, p, caller, cnt.id)
    else s.(ops := s.ops[p := Signalling(caller, cnt)])
  }

  /** terminateContainer returns nil: StopContainer is done, the other callers go on to delete. */
  function AfterTerminate(s: State, p: string, caller: Caller, cid: string): State {
    if caller.StopCaller? then s.(ops := s.ops - {p})
    else s.(ops := s.ops[p := Terminated(caller, cid)])
  }

  /** terminateContainer returns an error, and so does its caller. */
  function Fail(s: State, p: string, caller: Caller, cid: string): State {
    s.(ops := s.ops - {p},
    cancelled := if caller.RemoveCaller? then s.cancelled + {cid} else s.cancelled)
  }

  function Kill(s: State, pid: int): State {
    if pid !in s.procs then s
    else s.(procs := s.procs[pid := s.procs[pid].(killed := true)])
  }

  /** SIGTERM; when it cannot be delivered SIGKILL follows at once and nil is returned. */
  function DoSignal(s: State, p: string, delivered: bool): State {
    if p !in s.ops || !s.ops[p].Signalling? then s
    else
      var Signalling(caller, cnt) := s.ops[p];
      if delivered then s.(ops := s.ops[p := Polling(caller, cnt)])
      else AfterTerminate(Kill(s, cnt.pid), p, caller, cnt.id)
  }

  function DoTick(s: State, p: string): State {
    if p !in s.ops || !s.ops[p].Polling? then s
    else
      var Polling(caller, cnt) := s.ops[p];
      if cnt.id in s.containers && s.containers[cnt.id].state == Running then s
      else AfterTerminate(s, p, caller, cnt.id)
  }

  function DoTimeout(s: State, p: string): State {
    if p !in s.ops || !s.ops[p].Polling? then s
    else
      var Polling(caller, cnt) := s.ops[p];
      AfterTerminate(Kill(s, cnt.pid), p, caller, cnt.id)
  }

  function DoCancel(s: State, p: string): State {
    if p !in s.ops || !s.ops[p].Polling? then s
    else
      var Polling(caller, cnt) := s.ops[p];
      Fail(Kill(s, cnt.pid), p, caller, cnt.id)
  }

  // ---------------------------------------------------------------- handlers go on

  function DoSpawn(s: State, p: string, pid: int, now: int): State {
    if p !in s.ops || !s.ops[p].StartRead? || pid <= 0 || pid in s.procs then s
    else
      var cnt := s.ops[p].cnt;
      s.(procs := s.procs[pid := Proc(cnt.id, p, false, None)],
      ops := s.ops[p := StartSpawned(cnt.(pid := pid, state := Running, exitCode := 0, startedAt := now))])
  }

  function DoSpawnFails(s: State, p: string): State {
    if p !in s.ops || !s.ops[p].StartRead? then s
    else s.(ops := s.ops - {p})
  }

  function FinishCreate(s: State, p: string, pod: Sandbox): State {
    s.(sandboxes := s.sandboxes[p := pod], ops := s.ops - {p})
  }

  function StoreStarted(s: State, p: string, cnt: Container): State {
    s.(containers := s.containers[cnt.id := cnt], ops := s.ops[p := StartStored(cnt)])
  }

  function SpawnTracker(s: State, p: string, cnt: Container): State {
    s.(trackers := s.trackers + multiset{Waiting(cnt.id, cnt.pid)}, ops := s.ops - {p})
  }

  function NextInLoop(s: State, p: string, pod: Sandbox, remove: bool): State {
    if pod.containers == [] then
      s.(sandboxes := s.sandboxes[p := pod.(state := NotReady)],
      ops := if remove then s.ops[p := Emptied] else s.ops - {p})
    else if pod.containers[0] !in s.containers then
      s.(ops := s.ops[p := Unlisting(pod, remove)])
    else
      EnterTerminate(s, p, TeardownCaller(pod, remove), s.containers[pod.containers[0]])
  }

  function DeleteTerminated(s: State, p: string, caller: Caller, cid: string): State {
    var s' := s.(containers := s.containers - {cid});
    if caller.TeardownCaller? then s'.(ops := s.ops[p := Unlisting(caller.pod, caller.remove)])
    else s'.(ops := s.ops - {p})
  }

  function StoreShorterList(s: State, p: string, pod: Sandbox, remove: bool): State {
    if pod.containers == [] then s
    else
      var pod' := pod.(containers := pod.containers[1..]);
      s.(sandboxes := s.sandboxes[p := pod'], ops := s.ops[p := LoopHead(pod', remove)])
  }

  function DeleteEmptied(s: State, p: string): State {
    s.(sandboxes := s.sandboxes - {p}, ops := s.ops - {p})
  }

  /** The handler of p does the one thing it has to do next; waits and spawns have steps of their own. */
  function DoResume(s: State, p: string): State {
    if p !in s.ops then s
    else
      match s.ops[p]
      case Creating(pod, _) => FinishCreate(s, p, pod)
      case StartSpawned(cnt) => StoreStarted(s, p, cnt)
      case StartStored(cnt) => SpawnTracker(s, p, cnt)
      case LoopHead(pod, remove) => NextInLoop(s, p, pod, remove)
      case Terminated(caller, cid) => DeleteTerminated(s, p, caller, cid)
      case Unlisting(pod, remove) => StoreShorterList(s, p, pod, remove)
      case Emptied => DeleteEmptied(s, p)
      case _ => s
  }

  predicate IsTeardown(op: Op) {
    || op.LoopHead? || op.Unlisting? || op.Emptied?
    || ((op.Signalling? || op.Polling? || op.Terminated?) && op.caller.TeardownCaller?)
  }

  /** A teardown that simply stops between two of its writes. */
  function DoAbandon(s: State, p: string): State {
    if p !in s.ops || !IsTeardown(s.ops[p]) then s
    else s.(ops := s.ops - {p})
  }

  // ---------------------------------------------------------------- processes and trackers

  function DoProcExit(s: State, pid: int, code: int): State {
    if pid !in s.procs || s.procs[pid].exit.Some? then s
    else s.(procs := s.procs[pid := s.procs[pid].(exit := Some(code))])
  }

  predicate TrackerReady(s: State, cid: string, pid: int) {
    Waiting(cid, pid) in s.trackers && pid in s.procs && s.procs[pid].exit.Some?
  }

  function Tracked(record: Container, code: int): Container {
    record.(exitCode := code, state := Exited)
  }

  /** The tracker's get, compare and put in one step. */
  function DoTrack(s: State, cid: string, pid: int): State {
    if !TrackerReady(s, cid, pid) then s
    else
      var s' := s.(trackers := s.trackers - multiset{Waiting(cid, pid)});
      if cid !in s.containers || s.containers[cid].pid != pid then s'
      else s'.(containers := s.containers[cid := Tracked(s.containers[cid], s.procs[pid].exit.value)])
  }

  /** The tracker's get and compare alone ... */
  function DoTrackRead(s: State, cid: string, pid: int): State {
    if !TrackerReady(s, cid, pid) then s
    else
      var rest := s.trackers - multiset{Waiting(cid, pid)};
      if cid !in s.containers || s.containers[cid].pid != pid then s.(trackers := rest)
      else s.(trackers := rest + multiset{Holding(cid, pid, s.containers[cid])})
  }

  /** ... and its put, whatever happened to the record in between. */
  function DoTrackWrite(s: State, t: Tracker): State {
    if t !in s.trackers || !t.Holding? || t.pid !in s.procs || s.procs[t.pid].exit.None? then s
    else
      s.(trackers := s.trackers - multiset{t},
      containers := s.containers[t.cid := Tracked(t.record, s.procs[t.pid].exit.value)])
  }

  // ---------------------------------------------------------------- runs

  function Apply(s: State, step: Step): State {
    match step
    case RunSandbox(sb) => DoRunSandbox(s, sb)
    case BeginCreate(cnt) => DoBeginCreate(s, cnt)
    case BeginStart(p, cid) => DoBeginStart(s, p, cid)
    case BeginStop(p, cid) => DoBeginStop(s, p, cid)
    case BeginRemove(p, cid) => DoBeginRemove(s, p, cid)
    case BeginTeardown(p, remove) => DoBeginTeardown(s, p, remove)
    case Spawn(p, pid, now) => DoSpawn(s, p, pid, now)
    case SpawnFails(p) => DoSpawnFails(s, p)
    case Signal(p, delivered) => DoSignal(s, p, delivered)
    case Tick(p) => DoTick(s, p)
    case Timeout(p) => DoTimeout(s, p)
    case Cancel(p) => DoCancel(s, p)
    case Resume(p) => DoResume(s, p)
    case Abandon(p) => DoAbandon(s, p)
    case ProcExit(pid, code) => DoProcExit(s, pid, code)
    case Track(cid, pid) => DoTrack(s, cid, pid)
    case TrackRead(cid, pid) => DoTrackRead(s, cid, pid)
    case TrackWrite(t) => DoTrackWrite(s, t)
  }

  /** The state after a run; a step that is not enabled changes nothing. */
  function Exec(s: State, steps: seq<Step>): State {
    if steps == [] then s
    else Apply(Exec(s, steps[..|steps| - 1]), steps[|steps| - 1])
  }

  /** A run of these steps leads from one state to the other. */
  ghost predicate Leads(from: State, steps: seq<Step>, to: State) {
    forall start {:trigger Exec(start, steps)} | start == from :: Exec(start, steps) == to
  }

  /** A run of these steps, from the empty state, ends in s. */
  ghost predicate Reached(steps: seq<Step>, s: State) {
    Leads(INIT, steps, s)
  }

  lemma LeadsIs(from: State, steps: seq<Step>, to: State)
    ensures Leads(from, steps, to) <==> Exec(from, steps) == to
  {
  }

  /** The tracker's get, compare and put are one step, and no teardown is abandoned. */
  predicate Whole(step: Step) {
    !step.TrackRead? && !step.TrackWrite? && !step.Abandon?
  }

  predicate WholeRun(steps: seq<Step>) {
    forall i | 0 <= i < |steps| :: Whole(steps[i])
  }
}
