/**
 Runs that reach the states the limits speak of, so that none of the assumptions is idle: for every pod,
 container and Pid, a run after which a live process is lost, one after which a completed teardown has
 left a live process, and one after which a deleted record is back.
 */
module Witnesses {
  import opened Records
  import opened Lifecycle
  import opened WellFormedness
  import opened CrossMap
  import opened NoLostProcess
  import opened TeardownRetries
  import opened Tracing
  import opened Orphans
  import opened Limits

  // ---------------------------------------------------------------- putting runs together

  lemma LeadsFurther(from: State, a: seq<Step>, mid: State, b: seq<Step>, to: State)
    requires Leads(from, a, mid) && Leads(mid, b, to)
    ensures Leads(from, a + b, to)
  {
    ExecAppend(from, a, b);
    assert Exec(from, a) == mid && Exec(mid, b) == to;
    LeadsIs(from, a + b, to);
  }

  lemma LeadsTwo(s: State, first: Step, mid: State, second: Step, to: State)
    requires Takes(s, first, mid) && Takes(mid, second, to)
    ensures Leads(s, [first, second], to)
  {
    LeadsOne(s, first, mid);
    LeadsNext(s, [first], mid, second, to);
    assert [first] + [second] == [first, second];
  }

  lemma LeadsThree(s: State, first: Step, s1: State, second: Step, s2: State, third: Step, to: State)
    requires Takes(s, first, s1) && Takes(s1, second, s2) && Takes(s2, third, to)
    ensures Leads(s, [first, second, third], to)
  {
    LeadsTwo(s, first, s1, second, s2);
    LeadsNext(s, [first, second], s2, third, to);
    assert [first, second] + [third] == [first, second, third];
  }

  lemma SameOps(s: State, p: string, op: Op, next: Op)
    requires p !in s.ops
    ensures s.ops[p := op][p := next] == s.ops[p := next] && s.ops[p := op] - {p} == s.ops
  {
  }

  // ---------------------------------------------------------------- a whole StartContainer

  function WholeStart(p: string, cid: string, pid: int, now: int): seq<Step> {
    [BeginStart(p, cid), Spawn(p, pid, now)] + [Resume(p), Resume(p)]
  }

  /** The state after it. */
  function Started(s: State, p: string, cid: string, pid: int, now: int): State
    requires cid in s.containers
  {
    var cnt := WithLogPath(s.containers[cid]).(pid := pid, state := Running, exitCode := 0, startedAt := now);
    s.(procs := s.procs[pid := Proc(cid, p, false, None)],
    containers := s.containers[cid := cnt],
    trackers := s.trackers + multiset{Waiting(cid, pid)})
  }

  lemma StartRuns(s: State, p: string, cid: string, pid: int, now: int)
    requires CanBegin(s, p, cid) && s.containers[cid].id == cid && pid > 0 && pid !in s.procs && HasCommand(s.containers[cid])
    ensures Leads(s, WholeStart(p, cid, pid, now), Started(s, p, cid, pid, now))
  {
    var read := WithLogPath(s.containers[cid]);
    var cnt := read.(pid := pid, state := Running, exitCode := 0, startedAt := now);
    var s1 := s.(ops := s.ops[p := StartRead(read)]);
    var s2 := s.(procs := s.procs[pid := Proc(cid, p, false, None)], ops := s.ops[p := StartSpawned(cnt)]);
    var s3 := s2.(containers := s.containers[cid := cnt], ops := s.ops[p := StartStored(cnt)]);
    TakesStart(s, p, cid);
    TakesSpawn(s1, p, pid, now);
    assert DoSpawn(s1, p, pid, now) == s2 by { SameOps(s, p, StartRead(read), StartSpawned(cnt)); }
    TakesStored(s2, p, cnt);
    assert StoreStarted(s2, p, cnt) == s3 by { SameOps(s, p, StartSpawned(cnt), StartStored(cnt)); }
    TakesTracking(s3, p, cnt);
    assert SpawnTracker(s3, p, cnt) == Started(s, p, cid, pid, now) by { SameOps(s, p, StartStored(cnt), StartStored(cnt)); }
    LeadsTwo(s, BeginStart(p, cid), s1, Spawn(p, pid, now), s2);
    LeadsTwo(s2, Resume(p), s3, Resume(p), Started(s, p, cid, pid, now));
    LeadsFurther(s, [BeginStart(p, cid), Spawn(p, pid, now)], s2, [Resume(p), Resume(p)], Started(s, p, cid, pid, now));
  }

  // ---------------------------------------------------------------- a running container

  /** An idle pod whose one container is RUNNING, its process alive and its tracker waiting. */
  ghost predicate RunsAlone(s: State, p: string, cid: string, pid: int) {
    && p !in s.ops && p in s.sandboxes && s.sandboxes[p].state == Ready && s.sandboxes[p].containers == [cid]
    && cid in s.containers && s.containers[cid].id == cid && s.containers[cid].podID == p && cid in s.created && s.created[cid] == p
    && s.containers[cid].state == Running && s.containers[cid].pid == pid && HasCommand(s.containers[cid])
    && pid > 0 && pid in s.procs && s.procs[pid].Live() && s.procs[pid].podID == p
    && s.trackers == multiset{Waiting(cid, pid)} && cid !in s.cancelled
  }

  lemma CreateRuns(sb: Sandbox, cnt: Container) returns (s: State)
    requires IsNewSandbox(sb) && IsNewContainer(cnt) && cnt.podID == sb.id
    ensures Leads(INIT, [RunSandbox(sb), BeginCreate(cnt), Resume(sb.id)], s)
    ensures s == INIT.(sandboxes := map[sb.id := sb.(containers := [cnt.id])], containers := map[cnt.id := cnt], created := map[cnt.id := sb.id])
  {
    var p, pod := sb.id, sb.(containers := [cnt.id]);
    var s1 := INIT.(sandboxes := map[p := sb]);
    var s2 := s1.(containers := map[cnt.id := cnt], created := map[cnt.id := p], ops := map[p := Creating(pod, cnt.id)]);
    s := s2.(sandboxes := map[p := pod], ops := map[]);
    TakesRun(INIT, sb);
    assert DoRunSandbox(INIT, sb) == s1;
    TakesCreate(s1, cnt);
    assert sb.containers + [cnt.id] == [cnt.id];
    assert DoBeginCreate(s1, cnt) == s2;
    TakesListing(s2, p, pod, cnt.id);
    assert FinishCreate(s2, p, pod) == s;
    LeadsThree(INIT, RunSandbox(sb), s1, BeginCreate(cnt), s2, Resume(p), s);
  }

  /** Every new pod and container can come to run; starting the container again then violates MayStart. */
  lemma RunningIsReachable(sb: Sandbox, cnt: Container, pid: int, now: int) returns (steps: seq<Step>, s: State)
    requires IsNewSandbox(sb) && IsNewContainer(cnt) && cnt.podID == sb.id && HasCommand(cnt) && pid > 0
    ensures Reached(steps, s) && WholeRun(steps) && RunsAlone(s, sb.id, cnt.id, pid) && s.procs.Keys == {pid}
    ensures !MayStart(s, BeginStart(sb.id, cnt.id), false)
  {
    var begun := CreateRuns(sb, cnt);
    steps := [RunSandbox(sb), BeginCreate(cnt), Resume(sb.id)];
    StartRuns(begun, sb.id, cnt.id, pid, now);
    s := Started(begun, sb.id, cnt.id, pid, now);
    LeadsFurther(INIT, steps, begun, WholeStart(sb.id, cnt.id, pid, now), s);
    steps := steps + WholeStart(sb.id, cnt.id, pid, now);
    assert s.trackers == multiset{Waiting(cnt.id, pid)};
  }

  // ---------------------------------------------------------------- a lost process

  /**
   Without the first condition a process is lost: a whole run after which, with no handler at work, a live
   process is in no record.
   */
  lemma LostProcessIsReachable(sb: Sandbox, cnt: Container, pid: int, other: int, now: int) returns (steps: seq<Step>, s: State)
    requires IsNewSandbox(sb) && IsNewContainer(cnt) && cnt.podID == sb.id && HasCommand(cnt) && pid > 0 && other > 0 && other != pid
    ensures Reached(steps, s) && WholeRun(steps) && sb.id !in s.ops
    ensures pid in s.procs && s.procs[pid].Live() && !InRecord(s, pid)
  {
    var running;
    steps, running := RunningIsReachable(sb, cnt, pid, now);
    StartRuns(running, sb.id, cnt.id, other, now);
    s := Started(running, sb.id, cnt.id, other, now);
    LeadsFurther(INIT, steps, running, WholeStart(sb.id, cnt.id, other, now), s);
    ReachedIs(steps, running);
    assert RecordOk(running, running.containers[cnt.id]);
    steps := steps + WholeStart(sb.id, cnt.id, other, now);
  }

  // ---------------------------------------------------------------- a cancelled removal

  /** The state after a RemoveContainer whose context ended. */
  function RemovalCancelled(s: State, p: string, cid: string): State
    requires p in s.sandboxes && cid in s.containers && s.containers[cid].pid in s.procs
  {
    var pid := s.containers[cid].pid;
    s.(sandboxes := s.sandboxes[p := s.sandboxes[p].(containers := [])],
    procs := s.procs[pid := s.procs[pid].(killed := true)],
    cancelled := s.cancelled + {cid})
  }

  lemma UnlistsOnly(s: State, p: string, cid: string)
    requires p in s.sandboxes && s.sandboxes[p].containers == [cid]
    ensures Unlisted(s, p, cid) == s.(sandboxes := s.sandboxes[p := s.sandboxes[p].(containers := [])])
  {
    assert Splice([cid], cid) == [];
  }

  lemma RemovalIsCancelled(s: State, p: string, cid: string, pid: int)
    requires RunsAlone(s, p, cid, pid)
    ensures Leads(s, [BeginRemove(p, cid), Signal(p, true), Cancel(p)], RemovalCancelled(s, p, cid))
  {
    var cnt, unlisted := s.containers[cid], Unlisted(s, p, cid);
    UnlistsOnly(s, p, cid);
    var s1 := unlisted.(ops := s.ops[p := Signalling(RemoveCaller, cnt)]);
    var s2 := unlisted.(ops := s.ops[p := Polling(RemoveCaller, cnt)]);
    TakesRemove(s, p, cid);
    TakesSignal(s1, p, RemoveCaller, cnt);
    SameOps(s, p, Signalling(RemoveCaller, cnt), Polling(RemoveCaller, cnt));
    TakesEnd(s2, p, RemoveCaller, cnt);
    SameOps(s, p, Polling(RemoveCaller, cnt), Polling(RemoveCaller, cnt));
    assert Fail(Kill(s2, cnt.pid), p, RemoveCaller, cid) == RemovalCancelled(s, p, cid);
    LeadsThree(s, BeginRemove(p, cid), s1, Signal(p, true), s2, Cancel(p), RemovalCancelled(s, p, cid));
  }

  /** A container that is stored, startable and unlisted, with a dead process: only the second condition forbids its start. */
  lemma CancelledRemovalIsReachable(sb: Sandbox, cnt: Container, pid: int, now: int) returns (steps: seq<Step>, s: State)
    requires IsNewSandbox(sb) && IsNewContainer(cnt) && cnt.podID == sb.id && HasCommand(cnt) && pid > 0
    ensures Reached(steps, s) && WholeRun(steps) && CanBegin(s, sb.id, cnt.id) && HasCommand(s.containers[cnt.id])
    ensures MayStart(s, BeginStart(sb.id, cnt.id), false) && !MayStart(s, BeginStart(sb.id, cnt.id), true)
    ensures sb.id in s.sandboxes && s.sandboxes[sb.id].containers == [] && s.sandboxes[sb.id].state == Ready
    ensures s.procs.Keys == {pid} && s.containers[cnt.id].id == cnt.id
  {
    var running;
    steps, running := RunningIsReachable(sb, cnt, pid, now);
    var removal: seq<Step> := [BeginRemove(sb.id, cnt.id), Signal(sb.id, true), Cancel(sb.id)];
    RemovalIsCancelled(running, sb.id, cnt.id, pid);
    s := RemovalCancelled(running, sb.id, cnt.id);
    LeadsFurther(INIT, steps, running, removal, s);
    steps := steps + removal;
  }

  lemma EmptyTeardownRuns(s: State, p: string)
    requires p in s.sandboxes && s.sandboxes[p].containers == [] && p !in s.ops
    ensures Leads(s, [BeginTeardown(p, false), Resume(p)], s.(sandboxes := s.sandboxes[p := s.sandboxes[p].(state := NotReady)]))
  {
    var pod := s.sandboxes[p];
    var s1 := s.(ops := s.ops[p := LoopHead(pod, false)]);
    TakesTeardown(s, p, false);
    TakesNext(s1, p, pod, false);
    SameOps(s, p, LoopHead(pod, false), LoopHead(pod, false));
    LeadsTwo(s, BeginTeardown(p, false), s1, Resume(p), s.(sandboxes := s.sandboxes[p := pod.(state := NotReady)]));
  }

  /**
   Without the second condition a completed StopPodSandbox leaves a live process: a whole run after which
   the sandbox is NOTREADY, no handler is at work, and a process of the pod is alive.
   */
  lemma EscapedProcessIsReachable(sb: Sandbox, cnt: Container, pid: int, other: int, now: int) returns (steps: seq<Step>, s: State)
    requires IsNewSandbox(sb) && IsNewContainer(cnt) && cnt.podID == sb.id && HasCommand(cnt) && pid > 0 && other > 0 && other != pid
    ensures Reached(steps, s) && WholeRun(steps) && sb.id !in s.ops
    ensures sb.id in s.sandboxes && s.sandboxes[sb.id].state == NotReady
    ensures other in s.procs && s.procs[other].podID == sb.id && s.procs[other].Live()
  {
    var removed;
    steps, removed := CancelledRemovalIsReachable(sb, cnt, pid, now);
    var start := WholeStart(sb.id, cnt.id, other, now);
    StartRuns(removed, sb.id, cnt.id, other, now);
    var started := Started(removed, sb.id, cnt.id, other, now);
    LeadsFurther(INIT, steps, removed, start, started);
    EmptyTeardownRuns(started, sb.id);
    s := started.(sandboxes := started.sandboxes[sb.id := started.sandboxes[sb.id].(state := NotReady)]);
    LeadsFurther(INIT, steps + start, started, [BeginTeardown(sb.id, false), Resume(sb.id)], s);
    steps := steps + start + [BeginTeardown(sb.id, false), Resume(sb.id)];
  }

  // ---------------------------------------------------------------- a revived record

  lemma TrackerHolds(s: State, p: string, cid: string, pid: int, code: int) returns (s': State)
    requires RunsAlone(s, p, cid, pid)
    ensures Leads(s, [ProcExit(pid, code), TrackRead(cid, pid)], s')
    ensures s' == s.(procs := s.procs[pid := s.procs[pid].(exit := Some(code))], trackers := multiset{Holding(cid, pid, s.containers[cid])})
  {
    var s1 := s.(procs := s.procs[pid := s.procs[pid].(exit := Some(code))]);
    s' := s1.(trackers := multiset{Holding(cid, pid, s.containers[cid])});
    TakesExit(s, pid, code);
    TakesTrackRead(s1, cid, pid);
    assert s.trackers - multiset{Waiting(cid, pid)} == multiset{};
    assert DoTrackRead(s1, cid, pid) == s';
    LeadsTwo(s, ProcExit(pid, code), s1, TrackRead(cid, pid), s');
  }

  lemma TakesExit(s: State, pid: int, code: int)
    ensures Takes(s, ProcExit(pid, code), DoProcExit(s, pid, code))
  {
  }

  lemma TakesTrackRead(s: State, cid: string, pid: int)
    ensures Takes(s, TrackRead(cid, pid), DoTrackRead(s, cid, pid))
  {
  }

  lemma TakesTrackWrite(s: State, t: Tracker)
    ensures Takes(s, TrackWrite(t), DoTrackWrite(s, t))
  {
  }

  lemma RemovalRuns(s: State, p: string, cid: string, pid: int) returns (s': State)
    requires p !in s.ops && p in s.sandboxes && s.sandboxes[p].containers == [cid]
    requires cid in s.containers && s.containers[cid].id == cid && s.containers[cid].podID == p
    requires s.containers[cid].state == Running && s.containers[cid].pid == pid && pid > 0 && pid in s.procs
    ensures Leads(s, [BeginRemove(p, cid), Signal(p, false), Resume(p)], s')
    ensures s' == s.(sandboxes := s.sandboxes[p := s.sandboxes[p].(containers := [])],
                  procs := s.procs[pid := s.procs[pid].(killed := true)], containers := s.containers - {cid})
  {
    var cnt, unlisted := s.containers[cid], Unlisted(s, p, cid);
    UnlistsOnly(s, p, cid);
    var s1 := unlisted.(ops := s.ops[p := Signalling(RemoveCaller, cnt)]);
    var s2 := unlisted.(procs := s.procs[pid := s.procs[pid].(killed := true)], ops := s.ops[p := Terminated(RemoveCaller, cid)]);
    s' := s2.(containers := s.containers - {cid}, ops := s.ops);
    TakesRemove(s, p, cid);
    TakesSignal(s1, p, RemoveCaller, cnt);
    SameOps(s, p, Signalling(RemoveCaller, cnt), Terminated(RemoveCaller, cid));
    assert AfterTerminate(Kill(s1, pid), p, RemoveCaller, cid) == s2;
    TakesDelete(s2, p, RemoveCaller, cid);
    SameOps(s, p, Terminated(RemoveCaller, cid), Terminated(RemoveCaller, cid));
    assert DeleteTerminated(s2, p, RemoveCaller, cid) == s';
    LeadsThree(s, BeginRemove(p, cid), s1, Signal(p, false), s2, Resume(p), s');
  }

  /** A tracker can come to hold a record that is deleted. */
  lemma HeldTrackerIsReachable(sb: Sandbox, cnt: Container, pid: int, code: int, now: int)
    returns (steps: seq<Step>, s: State, held: Tracker)
    requires IsNewSandbox(sb) && IsNewContainer(cnt) && cnt.podID == sb.id && HasCommand(cnt) && pid > 0
    ensures Reached(steps, s) && held in s.trackers && held.Holding? && held.cid == cnt.id && held.record.podID == sb.id
    ensures cnt.id !in s.containers && Gone(s, sb.id, cnt.id) && sb.id !in s.ops && cnt.id !in s.cancelled
  {
    var running;
    steps, running := RunningIsReachable(sb, cnt, pid, now);
    held := Holding(cnt.id, pid, running.containers[cnt.id]);
    var holding := TrackerHolds(running, sb.id, cnt.id, pid, code);
    var read: seq<Step> := [ProcExit(pid, code), TrackRead(cnt.id, pid)];
    LeadsFurther(INIT, steps, running, read, holding);
    s := RemovalRuns(holding, sb.id, cnt.id, pid);
    var removal: seq<Step> := [BeginRemove(sb.id, cnt.id), Signal(sb.id, false), Resume(sb.id)];
    LeadsFurther(INIT, steps + read, holding, removal, s);
    steps := steps + read + removal;
  }

  /**
   With a tracker's read and write apart, a record can be stored that no sandbox lists although no removal
   of it was cancelled: StoredContainersAreListed needs its assumption.
   */
  lemma RevivedRecordIsReachable(sb: Sandbox, cnt: Container, pid: int, code: int, now: int) returns (steps: seq<Step>, s: State)
    requires IsNewSandbox(sb) && IsNewContainer(cnt) && cnt.podID == sb.id && HasCommand(cnt) && pid > 0
    ensures Reached(steps, s) && sb.id !in s.ops
    ensures cnt.id in s.containers && s.containers[cnt.id].podID == sb.id && cnt.id !in s.cancelled && !Listed(s, sb.id, cnt.id)
  {
    var deleted, held;
    steps, deleted, held := HeldTrackerIsReachable(sb, cnt, pid, code, now);
    ReachedIs(steps, deleted);
    assert TrackerOk(deleted, held);
    TakesTrackWrite(deleted, held);
    s := DoTrackWrite(deleted, held);
    LeadsNext(INIT, steps, deleted, TrackWrite(held), s);
    steps := steps + [TrackWrite(held)];
  }
}
