/**
 No process is lost: runs in which, besides, StartContainer is not called on a container whose process
 is alive.  That includes all runs in which it is called on CREATED containers only.
 */
module NoLostProcess {
  import opened Records
  import opened Lifecycle
  import opened WellFormedness
  import opened Locality
  import opened CrossMap

  // ---------------------------------------------------------------- which starts are safe

  /** The record's process cannot be lost any more: it was never started, or it is dead. */
  predicate Harmless(s: State, c: Container) {
    c.state == Running ==> c.pid in s.procs ==> !s.procs[c.pid].Live()
  }

  /** The container's process is not alive; in strict runs, moreover, no removal of it was cancelled. */
  predicate MayStart(s: State, step: Step, strict: bool) {
    step.BeginStart? && CanBegin(s, step.podID, step.cid) ==>
      Harmless(s, s.containers[step.cid]) && (strict ==> step.cid !in s.cancelled)
  }

  /** Whatever state the run has reached, its next step may start what it starts. */
  ghost predicate SafeStarts(steps: seq<Step>, strict: bool) {
    forall i, t {:trigger Reached(steps[..i], t)} | 0 <= i < |steps| && Reached(steps[..i], t) :: MayStart(t, steps[i], strict)
  }

  lemma SafePrefix(steps: seq<Step>, strict: bool)
    requires steps != [] && SafeStarts(steps, strict)
    ensures var init := steps[..|steps| - 1];
            SafeStarts(init, strict) && MayStart(Exec(INIT, init), steps[|steps| - 1], strict)
  {
    var init := steps[..|steps| - 1];
    LeadsIs(INIT, init, Exec(INIT, init));
    assert Reached(steps[..|steps| - 1], Exec(INIT, init));
    forall i, t | 0 <= i < |init| && Reached(init[..i], t) ensures MayStart(t, init[i], strict) {
      assert init[..i] == steps[..i];
      assert Reached(steps[..i], t);
    }
  }

  // ---------------------------------------------------------------- the invariant, pod by pod

  /** The process is the Pid of a stored RUNNING record. */
  ghost predicate InRecord(s: State, pid: int) {
    pid in s.procs &&
    var cid := s.procs[pid].cid;
    cid in s.containers && s.containers[cid].state == Running && s.containers[cid].pid == pid
  }

  /** StartContainer has spawned the process and stores the record next. */
  ghost predicate JustSpawned(s: State, p: string, pid: int) {
    p in s.ops && s.ops[p].StartSpawned? && s.ops[p].cnt.pid == pid
  }

  ghost predicate LiveAreRecorded(s: State, p: string) {
    forall pid | pid in s.procs && s.procs[pid].podID == p && s.procs[pid].Live() ::
      InRecord(s, pid) || JustSpawned(s, p, pid)
  }

  /** A container whose removal was cancelled was sent SIGKILL. */
  ghost predicate CancelledAreKilled(s: State, p: string) {
    forall c | c in s.cancelled && c in s.containers && s.containers[c].podID == p ::
      s.containers[c].state != Created && Harmless(s, s.containers[c])
  }

  ghost predicate Startable(s: State, cid: string, strict: bool) {
    cid in s.containers && Harmless(s, s.containers[cid]) && (strict ==> cid !in s.cancelled)
  }

  ghost predicate OpSafe(s: State, op: Op, strict: bool) {
    match op
    case StartRead(cnt) => Startable(s, cnt.id, strict)
    case StartSpawned(cnt) => Startable(s, cnt.id, strict)
    case Terminated(_, cid) => cid in s.containers && Harmless(s, s.containers[cid])
    case _ => true
  }

  ghost predicate HandlerIsSafe(s: State, p: string, strict: bool) {
    p in s.ops ==> OpSafe(s, s.ops[p], strict)
  }

  ghost predicate PodSafe(s: State, p: string, strict: bool) {
    LiveAreRecorded(s, p) && (strict ==> CancelledAreKilled(s, p)) && HandlerIsSafe(s, p, strict)
  }

  ghost predicate CancelledWereCreated(s: State) {
    forall c | c in s.cancelled :: c in s.created
  }

  ghost predicate Safe(s: State, strict: bool) {
    CancelledWereCreated(s) && forall p :: PodSafe(s, p, strict)
  }

  // ---------------------------------------------------------------- other pods

  lemma OtherPodSafe(s: State, s': State, p: string, q: string, strict: bool)
    requires WellFormed(s) && WellFormed(s') && OnlyPod(s, s', p) && q != p && PodSafe(s, q, strict)
    ensures PodSafe(s', q, strict)
  {
    OtherPodLive(s, s', p, q);
    OtherPodHandler(s, s', p, q, strict);
    if strict {
      OtherPodCancelled(s, s', p, q);
    }
  }

  lemma OtherPodHandler(s: State, s': State, p: string, q: string, strict: bool)
    requires WellFormed(s) && WellFormed(s') && OnlyPod(s, s', p) && q != p && HandlerIsSafe(s, q, strict)
    ensures HandlerIsSafe(s', q, strict)
  {
    if q in s.ops {
      assert OpOk(s, q, s.ops[q]);
    }
  }

  lemma OtherPodLive(s: State, s': State, p: string, q: string)
    requires WellFormed(s) && WellFormed(s') && OnlyPod(s, s', p) && q != p && LiveAreRecorded(s, q)
    ensures LiveAreRecorded(s', q)
  {
  }

  lemma OtherPodCancelled(s: State, s': State, p: string, q: string)
    requires WellFormed(s) && WellFormed(s') && OnlyPod(s, s', p) && q != p && CancelledAreKilled(s, q)
    ensures CancelledAreKilled(s', q)
  {
  }

  // ---------------------------------------------------------------- the pod itself

  lemma BeginSafe(s: State, step: Step, strict: bool)
    requires WellFormed(s) && CancelledWereCreated(s) && Begins(step) && MayStart(s, step, strict)
    requires PodIntegrity(s, About(s, step)) && PodSafe(s, About(s, step), strict)
    ensures PodSafe(Apply(s, step), About(s, step), strict)
  {
    match step
    case RunSandbox(_) =>
    case BeginCreate(cnt) => BeginCreateSafe(s, cnt, strict);
    case BeginStart(p, cid) => BeginStartSafe(s, p, cid, strict);
    case BeginTeardown(_, _) =>
    case BeginStop(p, cid) => BeginStopSafe(s, p, cid, strict);
    case BeginRemove(p, cid) => BeginStopSafe(s, p, cid, strict);
  }

  lemma BeginCreateSafe(s: State, cnt: Container, strict: bool)
    requires WellFormed(s) && CancelledWereCreated(s) && PodSafe(s, cnt.podID, strict)
    ensures PodSafe(DoBeginCreate(s, cnt), cnt.podID, strict)
  {
  }

  lemma BeginStartSafe(s: State, p: string, cid: string, strict: bool)
    requires WellFormed(s) && PodSafe(s, p, strict) && MayStart(s, BeginStart(p, cid), strict)
    ensures PodSafe(DoBeginStart(s, p, cid), p, strict)
  {
  }

  lemma EnterTerminateSafe(s: State, p: string, caller: Caller, cnt: Container, strict: bool)
    requires PodSafe(s, p, strict) && (p in s.ops ==> s.ops[p].LoopHead?)
    requires cnt.id in s.containers && s.containers[cnt.id] == cnt && RecordOk(s, cnt)
    ensures PodSafe(EnterTerminate(s, p, caller, cnt), p, strict)
  {
  }

  lemma BeginStopSafe(s: State, p: string, cid: string, strict: bool)
    requires WellFormed(s) && PodSafe(s, p, strict)
    ensures PodSafe(DoBeginStop(s, p, cid), p, strict) && PodSafe(DoBeginRemove(s, p, cid), p, strict)
  {
    if CanBegin(s, p, cid) {
      EnterTerminateSafe(s, p, StopCaller, s.containers[cid], strict);
      EnterTerminateSafe(Unlisted(s, p, cid), p, RemoveCaller, s.containers[cid], strict);
    }
  }

  lemma SpawnSafe(s: State, p: string, pid: int, now: int, strict: bool)
    requires WellFormed(s) && PodSafe(s, p, strict)
    ensures PodSafe(DoSpawn(s, p, pid, now), p, strict)
  {
    if p in s.ops && s.ops[p].StartRead? {
      assert OpOk(s, p, s.ops[p]);
    }
  }

  lemma SpawnFailsSafe(s: State, p: string, strict: bool)
    requires PodSafe(s, p, strict)
    ensures PodSafe(DoSpawnFails(s, p), p, strict)
  {
  }

  /** terminateContainer returns nil after SIGKILL, or an error after SIGKILL. */
  lemma KilledSafe(s: State, p: string, strict: bool)
    requires WellFormed(s) && PodIntegrity(s, p) && PodSafe(s, p, strict) && p in s.ops && (s.ops[p].Signalling? || s.ops[p].Polling?)
    ensures var op := s.ops[p];
            && PodSafe(AfterTerminate(Kill(s, op.cnt.pid), p, op.caller, op.cnt.id), p, strict)
            && PodSafe(Fail(Kill(s, op.cnt.pid), p, op.caller, op.cnt.id), p, strict)
  {
    assert OpOk(s, p, s.ops[p]);
    var op := s.ops[p];
    KillSafe(s, p, op.cnt, strict);
    LeaveSafe(Kill(s, op.cnt.pid), p, op.caller, op.cnt, strict);
  }

  lemma KillSafe(s: State, p: string, cnt: Container, strict: bool)
    requires PodSafe(s, p, strict) && Stored(s, cnt) && cnt.pid in s.procs
    ensures PodSafe(Kill(s, cnt.pid), p, strict) && Harmless(Kill(s, cnt.pid), s.containers[cnt.id])
  {
  }

  lemma LeaveSafe(s: State, p: string, caller: Caller, cnt: Container, strict: bool)
    requires PodSafe(s, p, strict) && p in s.ops && (s.ops[p].Signalling? || s.ops[p].Polling?)
    requires Stored(s, cnt) && cnt.state == Running && Harmless(s, s.containers[cnt.id])
    ensures PodSafe(AfterTerminate(s, p, caller, cnt.id), p, strict) && PodSafe(Fail(s, p, caller, cnt.id), p, strict)
  {
  }

  lemma SignalSafe(s: State, p: string, delivered: bool, strict: bool)
    requires WellFormed(s) && PodIntegrity(s, p) && PodSafe(s, p, strict)
    ensures PodSafe(DoSignal(s, p, delivered), p, strict)
  {
    if p in s.ops && s.ops[p].Signalling? {
      KilledSafe(s, p, strict);
    }
  }

  lemma PollSafe(s: State, p: string, strict: bool)
    requires WellFormed(s) && PodIntegrity(s, p) && PodSafe(s, p, strict)
    ensures PodSafe(DoTick(s, p), p, strict) && PodSafe(DoTimeout(s, p), p, strict) && PodSafe(DoCancel(s, p), p, strict)
  {
    if p in s.ops && s.ops[p].Polling? {
      KilledSafe(s, p, strict);
      assert PodSafe(DoTick(s, p), p, strict);
    }
  }

  lemma FinishCreateSafe(s: State, p: string, pod: Sandbox, strict: bool)
    requires PodSafe(s, p, strict) && p in s.ops && s.ops[p].Creating?
    ensures PodSafe(FinishCreate(s, p, pod), p, strict)
  {
  }

  lemma StartedSafe(s: State, p: string, cnt: Container, strict: bool)
    requires WellFormed(s) && PodSafe(s, p, strict) && p in s.ops
    ensures s.ops[p] == StartSpawned(cnt) ==> PodSafe(StoreStarted(s, p, cnt), p, strict)
    ensures s.ops[p] == StartStored(cnt) ==> PodSafe(SpawnTracker(s, p, cnt), p, strict)
  {
    assert OpOk(s, p, s.ops[p]);
  }

  lemma NextInLoopSafe(s: State, p: string, pod: Sandbox, remove: bool, strict: bool)
    requires WellFormed(s) && PodSafe(s, p, strict) && p in s.ops && s.ops[p] == LoopHead(pod, remove)
    ensures PodSafe(NextInLoop(s, p, pod, remove), p, strict)
  {
    if pod.containers != [] && pod.containers[0] in s.containers {
      EnterTerminateSafe(s, p, TeardownCaller(pod, remove), s.containers[pod.containers[0]], strict);
    }
  }

  lemma DeleteSafe(s: State, p: string, caller: Caller, cid: string, strict: bool)
    requires WellFormed(s) && PodSafe(s, p, strict) && p in s.ops && s.ops[p] == Terminated(caller, cid)
    ensures PodSafe(DeleteTerminated(s, p, caller, cid), p, strict)
  {
    assert OpOk(s, p, s.ops[p]);
  }

  lemma StoreListSafe(s: State, p: string, pod: Sandbox, remove: bool, strict: bool)
    requires PodSafe(s, p, strict) && p in s.ops
    ensures s.ops[p] == Unlisting(pod, remove) ==> PodSafe(StoreShorterList(s, p, pod, remove), p, strict)
    ensures s.ops[p] == Emptied ==> PodSafe(DeleteEmptied(s, p), p, strict)
  {
  }

  lemma ResumeSafe(s: State, p: string, strict: bool)
    requires WellFormed(s) && PodSafe(s, p, strict)
    ensures PodSafe(DoResume(s, p), p, strict)
  {
    if p in s.ops {
      match s.ops[p]
      case Creating(pod, _) => FinishCreateSafe(s, p, pod, strict);
      case StartSpawned(cnt) => StartedSafe(s, p, cnt, strict);
      case StartStored(cnt) => StartedSafe(s, p, cnt, strict);
      case LoopHead(pod, remove) => NextInLoopSafe(s, p, pod, remove, strict);
      case Terminated(caller, cid) => DeleteSafe(s, p, caller, cid, strict);
      case Unlisting(pod, remove) => StoreListSafe(s, p, pod, remove, strict);
      case Emptied => StoreListSafe(s, p, s.sandboxes[p], false, strict);
      case _ =>
    }
  }

  lemma ProcExitSafe(s: State, pid: int, code: int, p: string, strict: bool)
    requires PodSafe(s, p, strict)
    ensures PodSafe(DoProcExit(s, pid, code), p, strict)
  {
  }

  lemma TrackSafe(s: State, cid: string, pid: int, p: string, strict: bool)
    requires WellFormed(s) && PodSafe(s, p, strict) && p == About(s, Track(cid, pid))
    ensures PodSafe(DoTrack(s, cid, pid), p, strict)
  {
    if TrackerReady(s, cid, pid) && cid in s.containers && s.containers[cid].pid == pid {
      assert TrackerOk(s, Waiting(cid, pid)) && RecordOk(s, s.containers[cid]);
      ExitedSafe(s, cid, s.procs[pid].exit.value, DoTrack(s, cid, pid).trackers, p, strict);
    }
  }

  lemma ExitedSafe(s: State, cid: string, code: int, trackers: multiset<Tracker>, p: string, strict: bool)
    requires PodSafe(s, p, strict) && cid in s.containers && s.containers[cid].podID == p && s.containers[cid].state != Created
    requires s.containers[cid].pid in s.procs && s.procs[s.containers[cid].pid].exit.Some?
    ensures PodSafe(s.(trackers := trackers, containers := s.containers[cid := Tracked(s.containers[cid], code)]), p, strict)
  {
  }

  lemma AboutSafe(s: State, step: Step, strict: bool)
    requires WellFormed(s) && CancelledWereCreated(s) && Whole(step) && MayStart(s, step, strict)
    requires PodIntegrity(s, About(s, step)) && PodSafe(s, About(s, step), strict)
    ensures PodSafe(Apply(s, step), About(s, step), strict)
  {
    if Begins(step) {
      BeginSafe(s, step, strict);
    } else {
      match step
      case Spawn(p, pid, now) => SpawnSafe(s, p, pid, now, strict);
      case SpawnFails(p) => SpawnFailsSafe(s, p, strict);
      case Signal(p, delivered) => SignalSafe(s, p, delivered, strict);
      case Tick(p) => PollSafe(s, p, strict);
      case Timeout(p) => PollSafe(s, p, strict);
      case Cancel(p) => PollSafe(s, p, strict);
      case Resume(p) => ResumeSafe(s, p, strict);
      case ProcExit(pid, code) => ProcExitSafe(s, pid, code, About(s, step), strict);
      case Track(cid, pid) => TrackSafe(s, cid, pid, About(s, step), strict);
    }
  }

  // ---------------------------------------------------------------- all runs

  lemma StepSafe(s: State, step: Step, strict: bool)
    requires WellFormed(s) && Integrity(s) && Safe(s, strict) && Whole(step) && MayStart(s, step, strict)
    ensures Safe(Apply(s, step), strict)
  {
    var s', p := Apply(s, step), About(s, step);
    StepLocal(s, step);
    StepKeeps(s, step);
    assert PodIntegrity(s, p) && PodSafe(s, p, strict);
    AboutSafe(s, step, strict);
    forall q ensures PodSafe(s', q, strict) {
      assert PodSafe(s, q, strict);
      if q != p {
        OtherPodSafe(s, s', p, q, strict);
      }
    }
  }

  lemma {:induction false} RunSafe(steps: seq<Step>, strict: bool)
    requires WholeRun(steps) && SafeStarts(steps, strict)
    ensures var s := Exec(INIT, steps); WellFormed(s) && Integrity(s) && Safe(s, strict)
  {
    EmptyIntegrity();
    RunIntegrity(INIT, steps);
    if steps == [] {
      forall p ensures PodSafe(INIT, p, strict) {
      }
    } else {
      var init := steps[..|steps| - 1];
      SafePrefix(steps, strict);
      RunSafe(init, strict);
      StepSafe(Exec(INIT, init), steps[|steps| - 1], strict);
    }
  }

  /**
   No lost process: in every reachable state a main process that has neither exited nor been sent
   SIGKILL is the Pid of the stored RUNNING record of its container (or StartContainer has spawned it
   this instant and stores that record next).
   */
  lemma LiveProcessesAreOnRecord(steps: seq<Step>, s: State, pid: int)
    requires Reached(steps, s) && WholeRun(steps) && SafeStarts(steps, false)
    ensures pid in s.procs && s.procs[pid].Live() ==> InRecord(s, pid) || JustSpawned(s, s.procs[pid].podID, pid)
  {
    RunSafe(steps, false);
    if pid in s.procs {
      assert PodSafe(s, s.procs[pid].podID, false);
    }
  }

  /**
   Teardown is complete: when no handler is at work on a pod whose sandbox is NOTREADY or gone, every
   process ever started for the pod has exited or been sent SIGKILL, whatever Stop and Remove calls
   were cancelled before.
   */
  lemma TeardownIsComplete(steps: seq<Step>, s: State, p: string)
    requires Reached(steps, s) && WholeRun(steps) && SafeStarts(steps, true)
    requires p !in s.ops && (p in s.sandboxes ==> s.sandboxes[p].state == NotReady)
    ensures forall pid | pid in s.procs && s.procs[pid].podID == p :: s.procs[pid].killed || s.procs[pid].exit.Some?
  {
    RunSafe(steps, true);
    forall pid | pid in s.procs && s.procs[pid].podID == p
      ensures s.procs[pid].killed || s.procs[pid].exit.Some?
    {
      LiveIsListed(s, pid);
      if p in s.sandboxes {
        assert SandboxOk(s, p, s.sandboxes[p]);
      }
    }
  }

  /** A live process of an idle pod belongs to a container on the list of its sandbox. */
  lemma LiveIsListed(s: State, pid: int)
    requires WellFormed(s) && Integrity(s) && Safe(s, true) && pid in s.procs && s.procs[pid].podID !in s.ops
    ensures s.procs[pid].Live() ==> Listed(s, s.procs[pid].podID, s.procs[pid].cid)
  {
    var p, cid := s.procs[pid].podID, s.procs[pid].cid;
    assert PodSafe(s, p, true) && PodIntegrity(s, p);
    if s.procs[pid].Live() {
      assert InRecord(s, pid);
      assert RecordOk(s, s.containers[cid]) && BelongsTo(s, cid, p);
      assert Accounted(s, p, cid);
    }
  }

  // ---------------------------------------------------------------- starting once

  /** StartContainer is called on a CREATED container only. */
  predicate StartsOnce(s: State, step: Step) {
    step.BeginStart? && CanBegin(s, step.podID, step.cid) ==> s.containers[step.cid].state == Created
  }

  ghost predicate StartOnceRun(steps: seq<Step>) {
    forall i, t {:trigger Reached(steps[..i], t)} | 0 <= i < |steps| && Reached(steps[..i], t) :: StartsOnce(t, steps[i])
  }

  /** Starting every container once is safe: a CREATED container has no process and no cancelled removal. */
  lemma {:induction false} StartOnceIsSafe(steps: seq<Step>, strict: bool)
    requires WholeRun(steps) && StartOnceRun(steps)
    ensures SafeStarts(steps, strict)
  {
    if steps != [] {
      var init := steps[..|steps| - 1];
      forall i, t | 0 <= i < |init| && Reached(init[..i], t) ensures StartsOnce(t, init[i]) {
        assert init[..i] == steps[..i];
        assert Reached(steps[..i], t);
      }
      StartOnceIsSafe(init, strict);
      forall i, t | 0 <= i < |steps| && Reached(steps[..i], t) ensures MayStart(t, steps[i], strict) {
        if i < |init| {
          assert init[..i] == steps[..i];
          assert Reached(init[..i], t);
        } else {
          CreatedMayStart(init, t, steps[i], strict);
        }
      }
    }
  }

  lemma CreatedMayStart(steps: seq<Step>, s: State, step: Step, strict: bool)
    requires Reached(steps, s) && WholeRun(steps) && SafeStarts(steps, strict) && StartsOnce(s, step)
    ensures MayStart(s, step, strict)
  {
    RunSafe(steps, strict);
    if step.BeginStart? && CanBegin(s, step.podID, step.cid) {
      assert PodSafe(s, step.podID, strict);
    }
  }
}
