/**
 Integrity of the two maps against each other, and of records against trackers, in every run whose
 trackers read and write in one step and whose teardowns are not abandoned.
 */
module CrossMap {
  import opened Records
  import opened Lifecycle
  import opened WellFormedness
  import opened Locality
  import opened Sequences

  // ---------------------------------------------------------------- the invariant, pod by pod

  /** The one moment a listed container may be missing: its teardown deleted it and writes the list next. */
  ghost predicate DanglingHead(s: State, p: string, cid: string) {
    p in s.ops && s.ops[p].Unlisting? && s.ops[p].pod.containers != [] && s.ops[p].pod.containers[0] == cid
  }

  ghost predicate ListedAreStored(s: State, p: string) {
    p in s.sandboxes ==> forall c | c in s.sandboxes[p].containers :: c in s.containers || DanglingHead(s, p, c)
  }

  ghost predicate Listed(s: State, p: string, cid: string) {
    p in s.sandboxes && cid in s.sandboxes[p].containers
  }

  /** CreateContainer has stored the record and writes the list next. */
  ghost predicate BeingCreated(op: Op, cid: string) {
    op.Creating? && op.cid == cid
  }

  /** RemoveContainer has taken the id off the list and is terminating or about to delete. */
  ghost predicate BeingRemoved(op: Op, cid: string) {
    || ((op.Signalling? || op.Polling?) && op.caller.RemoveCaller? && op.cnt.id == cid)
    || (op.Terminated? && op.caller.RemoveCaller? && op.cid == cid)
  }

  ghost predicate Accounted(s: State, p: string, cid: string) {
    || cid in s.cancelled
    || Listed(s, p, cid)
    || (p in s.ops && (BeingCreated(s.ops[p], cid) || BeingRemoved(s.ops[p], cid)))
  }

  ghost predicate StoredAreListed(s: State, p: string) {
    forall c | c in s.containers && s.containers[c].podID == p :: Accounted(s, p, c)
  }

  /** StartContainer has stored the RUNNING record and spawns the tracker next. */
  ghost predicate TrackerPending(s: State, p: string, cid: string, pid: int) {
    p in s.ops && s.ops[p].StartStored? && s.ops[p].cnt.id == cid && s.ops[p].cnt.pid == pid
  }

  /** A RUNNING record has exactly one tracker, waiting already or about to be spawned. */
  ghost predicate RunningAreTracked(s: State, p: string) {
    forall c | c in s.containers && s.containers[c].podID == p && s.containers[c].state == Running ::
      s.trackers[Waiting(c, s.containers[c].pid)] == if TrackerPending(s, p, c, s.containers[c].pid) then 0 else 1
  }

  /** The record behind a handler's local copy is still stored, under the same Pid. */
  ghost predicate Stored(s: State, cnt: Container) {
    && cnt.id in s.containers
    && s.containers[cnt.id].pid == cnt.pid
    && (cnt.state != Created ==> s.containers[cnt.id].state != Created)
  }

  ghost predicate OpStored(s: State, op: Op) {
    match op
    case Creating(_, cid) => cid in s.containers
    case StartRead(cnt) => cnt.id in s.containers
    case StartSpawned(cnt) => cnt.id in s.containers && s.trackers[Waiting(cnt.id, cnt.pid)] == 0
    case StartStored(cnt) => Stored(s, cnt) && s.trackers[Waiting(cnt.id, cnt.pid)] == 0
    case Signalling(_, cnt) => Stored(s, cnt)
    case Polling(_, cnt) => Stored(s, cnt)
    case Terminated(_, cid) => cid in s.containers
    case Unlisting(pod, _) => pod.containers != [] ==> pod.containers[0] !in s.containers
    case _ => true
  }

  ghost predicate HandlerIsCurrent(s: State, p: string) {
    p in s.ops ==>
      && OpStored(s, s.ops[p])
      && (p in s.sandboxes ==> forall c | c in s.sandboxes[p].containers :: !BeingRemoved(s.ops[p], c))
  }

  ghost predicate PodIntegrity(s: State, p: string) {
    ListedAreStored(s, p) && StoredAreListed(s, p) && RunningAreTracked(s, p) && HandlerIsCurrent(s, p)
  }

  ghost predicate NoHolding(s: State) {
    forall t | t in s.trackers :: t.Waiting?
  }

  ghost predicate Integrity(s: State) {
    NoHolding(s) && forall p :: PodIntegrity(s, p)
  }

  // ---------------------------------------------------------------- other pods

  lemma OtherHandlerKeeps(s: State, s': State, p: string, q: string)
    requires WellFormed(s) && ContainersOk(s') && OnlyPod(s, s', p) && q != p && HandlerIsCurrent(s, q)
    ensures HandlerIsCurrent(s', q)
  {
    if q in s.ops {
      assert OpOk(s, q, s.ops[q]);
      if s.ops[q].Unlisting? {
        var head := s.ops[q].pod.containers[0];
        assert SandboxOk(s, q, s.sandboxes[q]) && BelongsTo(s, head, q);
        assert head in s'.containers ==> RecordOk(s', s'.containers[head]);
      }
    }
  }

  lemma OtherPodKeeps(s: State, s': State, p: string, q: string)
    requires WellFormed(s) && ContainersOk(s') && OnlyPod(s, s', p) && q != p && PodIntegrity(s, q)
    ensures PodIntegrity(s', q)
  {
    OtherHandlerKeeps(s, s', p, q);
    if q in s.sandboxes {
      assert SandboxOk(s, q, s.sandboxes[q]);
    }
    assert ListedAreStored(s', q);
    assert StoredAreListed(s', q);
    assert RunningAreTracked(s', q);
  }

  // ---------------------------------------------------------------- the wait

  ghost predicate InTerminate(s: State, p: string, caller: Caller, cid: string) {
    p in s.ops && (s.ops[p].Signalling? || s.ops[p].Polling?) && s.ops[p].caller == caller && s.ops[p].cnt.id == cid
  }

  lemma LeaveTerminate(s: State, p: string, caller: Caller, cid: string)
    requires PodIntegrity(s, p) && InTerminate(s, p, caller, cid)
    ensures PodIntegrity(AfterTerminate(s, p, caller, cid), p)
    ensures PodIntegrity(Fail(s, p, caller, cid), p)
  {
  }

  lemma WaitIntegrity(s: State, p: string, delivered: bool)
    requires PodIntegrity(s, p)
    ensures PodIntegrity(DoSignal(s, p, delivered), p) && PodIntegrity(DoTick(s, p), p)
    ensures PodIntegrity(DoTimeout(s, p), p) && PodIntegrity(DoCancel(s, p), p)
  {
    if p in s.ops && (s.ops[p].Signalling? || s.ops[p].Polling?) {
      var caller, cnt := s.ops[p].caller, s.ops[p].cnt;
      LeaveTerminate(s, p, caller, cnt.id);
      KillIntegrity(s, p, cnt.pid);
      LeaveTerminate(Kill(s, cnt.pid), p, caller, cnt.id);
      if delivered && s.ops[p].Signalling? {
        StartPolling(s, p);
      }
    }
  }

  lemma KillIntegrity(s: State, p: string, pid: int)
    requires PodIntegrity(s, p)
    ensures PodIntegrity(Kill(s, pid), p)
  {
  }

  lemma StartPolling(s: State, p: string)
    requires PodIntegrity(s, p) && p in s.ops && s.ops[p].Signalling?
    ensures PodIntegrity(DoSignal(s, p, true), p)
  {
  }

  // ---------------------------------------------------------------- handlers begin

  lemma BeginCreateIntegrity(s: State, cnt: Container)
    requires WellFormed(s) && PodIntegrity(s, cnt.podID)
    ensures PodIntegrity(DoBeginCreate(s, cnt), cnt.podID)
  {
  }

  lemma BeginStartIntegrity(s: State, p: string, cid: string)
    requires WellFormed(s) && PodIntegrity(s, p)
    ensures PodIntegrity(DoBeginStart(s, p, cid), p)
  {
    if CanBegin(s, p, cid) {
      assert RecordOk(s, s.containers[cid]);
    }
  }

  lemma BeginTeardownIntegrity(s: State, p: string, remove: bool)
    requires PodIntegrity(s, p)
    ensures PodIntegrity(DoBeginTeardown(s, p, remove), p)
  {
  }

  lemma BeginStopIntegrity(s: State, p: string, cid: string)
    requires WellFormed(s) && PodIntegrity(s, p)
    ensures PodIntegrity(DoBeginStop(s, p, cid), p)
  {
  }

  lemma RunSandboxIntegrity(s: State, sb: Sandbox)
    requires PodIntegrity(s, sb.id)
    ensures PodIntegrity(DoRunSandbox(s, sb), sb.id)
  {
  }

  lemma BeginRemoveIntegrity(s: State, p: string, cid: string)
    requires WellFormed(s) && PodIntegrity(s, p)
    ensures PodIntegrity(DoBeginRemove(s, p, cid), p)
  {
    if CanBegin(s, p, cid) {
      assert RecordOk(s, s.containers[cid]);
      if p in s.sandboxes {
        assert SandboxOk(s, p, s.sandboxes[p]);
        SpliceKeeps(s.sandboxes[p].containers, cid);
      }
      EnterRemoveIntegrity(s, Unlisted(s, p, cid), p, s.containers[cid]);
    }
  }

  lemma EnterRemoveIntegrity(s: State, s1: State, p: string, cnt: Container)
    requires PodIntegrity(s, p) && p !in s.ops && s1 == s.(sandboxes := s1.sandboxes)
    requires RecordOk(s, cnt) && cnt.id in s.containers && s.containers[cnt.id] == cnt
    requires forall c :: Listed(s1, p, c) <==> Listed(s, p, c) && c != cnt.id
    ensures PodIntegrity(EnterTerminate(s1, p, RemoveCaller, cnt), p)
  {
    var s' := EnterTerminate(s1, p, RemoveCaller, cnt);
    forall c | Listed(s', p, c) ensures c in s.containers {
      assert Listed(s1, p, c);
    }
    forall c | c in s'.containers && s'.containers[c].podID == p ensures Accounted(s', p, c) {
      assert Accounted(s, p, c);
    }
    forall c | Listed(s', p, c) ensures !BeingRemoved(s'.ops[p], c) {
      assert Listed(s1, p, c);
    }
  }

  // ---------------------------------------------------------------- handlers go on

  lemma SpawnIntegrity(s: State, p: string, pid: int, now: int)
    requires WellFormed(s) && PodIntegrity(s, p)
    ensures PodIntegrity(DoSpawn(s, p, pid, now), p)
  {
    if p in s.ops && s.ops[p].StartRead? && Waiting(s.ops[p].cnt.id, pid) in s.trackers {
      assert TrackerOk(s, Waiting(s.ops[p].cnt.id, pid));
    }
  }

  lemma SpawnFailsIntegrity(s: State, p: string)
    requires PodIntegrity(s, p)
    ensures PodIntegrity(DoSpawnFails(s, p), p)
  {
  }

  lemma FinishCreateIntegrity(s: State, p: string, pod: Sandbox, cid: string)
    requires WellFormed(s) && PodIntegrity(s, p) && p in s.ops && s.ops[p] == Creating(pod, cid)
    ensures PodIntegrity(FinishCreate(s, p, pod), p)
  {
    assert OpOk(s, p, s.ops[p]);
    assert cid in pod.containers;
  }

  lemma StoreStartedIntegrity(s: State, p: string, cnt: Container)
    requires WellFormed(s) && PodIntegrity(s, p) && p in s.ops && s.ops[p] == StartSpawned(cnt)
    ensures PodIntegrity(StoreStarted(s, p, cnt), p)
  {
    assert OpOk(s, p, s.ops[p]);
  }

  lemma SpawnTrackerIntegrity(s: State, p: string, cnt: Container)
    requires WellFormed(s) && PodIntegrity(s, p) && p in s.ops && s.ops[p] == StartStored(cnt)
    ensures PodIntegrity(SpawnTracker(s, p, cnt), p)
  {
    assert OpOk(s, p, s.ops[p]);
  }

  lemma NextInLoopIntegrity(s: State, p: string, pod: Sandbox, remove: bool)
    requires WellFormed(s) && PodIntegrity(s, p) && p in s.ops && s.ops[p] == LoopHead(pod, remove)
    ensures PodIntegrity(NextInLoop(s, p, pod, remove), p)
  {
    assert OpOk(s, p, s.ops[p]);
    if pod.containers == [] {
      FinishLoopIntegrity(s, p, pod, remove);
    } else if pod.containers[0] in s.containers {
      EnterLoopIntegrity(s, p, pod, remove, s.containers[pod.containers[0]]);
    }
  }

  lemma FinishLoopIntegrity(s: State, p: string, pod: Sandbox, remove: bool)
    requires InSync(s, p, pod) && PodIntegrity(s, p) && p in s.ops && s.ops[p].LoopHead? && pod.containers == []
    ensures PodIntegrity(NextInLoop(s, p, pod, remove), p)
  {
  }

  lemma EnterLoopIntegrity(s: State, p: string, pod: Sandbox, remove: bool, cnt: Container)
    requires InSync(s, p, pod) && PodIntegrity(s, p) && p in s.ops && s.ops[p].LoopHead?
    requires RecordOk(s, cnt) && cnt.id in s.containers && s.containers[cnt.id] == cnt
    ensures PodIntegrity(EnterTerminate(s, p, TeardownCaller(pod, remove), cnt), p)
  {
  }

  lemma DeleteTerminatedIntegrity(s: State, p: string, caller: Caller, cid: string)
    requires WellFormed(s) && PodIntegrity(s, p) && p in s.ops && s.ops[p] == Terminated(caller, cid)
    ensures PodIntegrity(DeleteTerminated(s, p, caller, cid), p)
  {
    assert OpOk(s, p, s.ops[p]);
    if caller.TeardownCaller? {
      TeardownDeleteIntegrity(s, p, caller, cid);
    } else {
      RemoveDeleteIntegrity(s, p, caller, cid);
    }
  }

  lemma TeardownDeleteIntegrity(s: State, p: string, caller: Caller, cid: string)
    requires PodIntegrity(s, p) && p in s.ops && s.ops[p] == Terminated(caller, cid)
    requires caller.TeardownCaller? && CallerOk(s, p, caller, cid)
    ensures PodIntegrity(DeleteTerminated(s, p, caller, cid), p)
  {
  }

  lemma RemoveDeleteIntegrity(s: State, p: string, caller: Caller, cid: string)
    requires PodIntegrity(s, p) && p in s.ops && s.ops[p] == Terminated(caller, cid) && caller.RemoveCaller?
    ensures PodIntegrity(DeleteTerminated(s, p, caller, cid), p)
  {
    assert p in s.sandboxes ==> forall c | c in s.sandboxes[p].containers :: c != cid;
  }

  lemma StoreShorterListIntegrity(s: State, p: string, pod: Sandbox, remove: bool)
    requires WellFormed(s) && PodIntegrity(s, p) && p in s.ops && s.ops[p] == Unlisting(pod, remove)
    ensures PodIntegrity(StoreShorterList(s, p, pod, remove), p)
  {
    assert OpOk(s, p, s.ops[p]) && SandboxOk(s, p, pod);
  }

  lemma DeleteEmptiedIntegrity(s: State, p: string)
    requires WellFormed(s) && PodIntegrity(s, p) && p in s.ops && s.ops[p] == Emptied
    ensures PodIntegrity(DeleteEmptied(s, p), p)
  {
    assert OpOk(s, p, s.ops[p]) && SandboxOk(s, p, s.sandboxes[p]);
  }

  lemma ResumeIntegrity(s: State, p: string)
    requires WellFormed(s) && PodIntegrity(s, p)
    ensures PodIntegrity(DoResume(s, p), p)
  {
    if p in s.ops {
      match s.ops[p]
      case Creating(pod, cid) => FinishCreateIntegrity(s, p, pod, cid);
      case StartSpawned(cnt) => StoreStartedIntegrity(s, p, cnt);
      case StartStored(cnt) => SpawnTrackerIntegrity(s, p, cnt);
      case LoopHead(pod, remove) => NextInLoopIntegrity(s, p, pod, remove);
      case Terminated(caller, cid) => DeleteTerminatedIntegrity(s, p, caller, cid);
      case Unlisting(pod, remove) => StoreShorterListIntegrity(s, p, pod, remove);
      case Emptied => DeleteEmptiedIntegrity(s, p);
      case _ =>
    }
  }

  // ---------------------------------------------------------------- trackers

  lemma DropTrackerIntegrity(s: State, cid: string, pid: int, p: string)
    requires PodIntegrity(s, p)
    requires cid in s.containers && s.containers[cid].podID == p ==> s.containers[cid].pid != pid
    requires BelongsTo(s, cid, p) && ContainersOk(s)
    ensures PodIntegrity(s.(trackers := s.trackers - multiset{Waiting(cid, pid)}), p)
  {
  }

  lemma StoreExitedIntegrity(s: State, cid: string, code: int, trackers: multiset<Tracker>, p: string)
    requires PodIntegrity(s, p) && BelongsTo(s, cid, p) && ContainersOk(s) && cid in s.containers
    requires s.containers[cid].state != Created
    requires forall t: Tracker | t.cid != cid :: trackers[t] == s.trackers[t]
    requires forall t :: trackers[t] <= s.trackers[t]
    ensures PodIntegrity(s.(trackers := trackers, containers := s.containers[cid := Tracked(s.containers[cid], code)]), p)
  {
  }

  lemma TrackIntegrity(s: State, cid: string, pid: int, p: string)
    requires WellFormed(s) && PodIntegrity(s, p) && p == About(s, Track(cid, pid))
    ensures PodIntegrity(DoTrack(s, cid, pid), p)
  {
    if TrackerReady(s, cid, pid) {
      assert TrackerOk(s, Waiting(cid, pid));
      if cid !in s.containers || s.containers[cid].pid != pid {
        DropTrackerIntegrity(s, cid, pid, p);
      } else {
        assert RecordOk(s, s.containers[cid]);
        StoreExitedIntegrity(s, cid, s.procs[pid].exit.value, s.trackers - multiset{Waiting(cid, pid)}, p);
      }
    }
  }

  // ---------------------------------------------------------------- all runs

  lemma AboutBegin(s: State, step: Step)
    requires WellFormed(s) && PodIntegrity(s, About(s, step)) && Begins(step)
    ensures PodIntegrity(Apply(s, step), About(s, step))
  {
    match step
    case RunSandbox(sb) => RunSandboxIntegrity(s, sb);
    case BeginCreate(cnt) => BeginCreateIntegrity(s, cnt);
    case BeginStart(p, cid) => BeginStartIntegrity(s, p, cid);
    case BeginTeardown(p, remove) => BeginTeardownIntegrity(s, p, remove);
    case BeginStop(p, cid) => BeginStopIntegrity(s, p, cid);
    case BeginRemove(p, cid) => BeginRemoveIntegrity(s, p, cid);
  }

  lemma AboutHandler(s: State, step: Step)
    requires WellFormed(s) && PodIntegrity(s, About(s, step)) && !Begins(step) && !Background(step) && Whole(step)
    ensures PodIntegrity(Apply(s, step), About(s, step))
  {
    match step
    case Spawn(p, pid, now) => SpawnIntegrity(s, p, pid, now);
    case SpawnFails(p) => SpawnFailsIntegrity(s, p);
    case Signal(p, delivered) => WaitIntegrity(s, p, delivered);
    case Tick(p) => WaitIntegrity(s, p, false);
    case Timeout(p) => WaitIntegrity(s, p, false);
    case Cancel(p) => WaitIntegrity(s, p, false);
    case Resume(p) => ResumeIntegrity(s, p);
  }

  lemma AboutKeeps(s: State, step: Step)
    requires WellFormed(s) && PodIntegrity(s, About(s, step)) && Whole(step)
    ensures PodIntegrity(Apply(s, step), About(s, step))
  {
    if Begins(step) {
      AboutBegin(s, step);
    } else if step.Track? {
      TrackIntegrity(s, step.cid, step.pid, About(s, step));
    } else if !step.ProcExit? {
      AboutHandler(s, step);
    }
  }

  lemma NoHoldingKeeps(s: State, step: Step)
    requires NoHolding(s) && !step.TrackRead? && !step.TrackWrite?
    ensures NoHolding(Apply(s, step))
  {
    match step
    case Resume(p) => ResumeNoHolding(s, p);
    case Track(cid, pid) => assert NoHolding(DoTrack(s, cid, pid));
    case _ => QuietTrackers(s, step);
  }

  lemma ResumeNoHolding(s: State, p: string)
    requires NoHolding(s)
    ensures NoHolding(DoResume(s, p))
  {
    assert forall t | t in DoResume(s, p).trackers :: t in s.trackers || t.Waiting?;
  }

  lemma QuietTrackers(s: State, step: Step)
    requires !step.Resume? && !step.Track? && !step.TrackRead? && !step.TrackWrite?
    ensures Apply(s, step).trackers == s.trackers
  {
    if Begins(step) {
      BeginQuietTrackers(s, step);
    }
  }

  lemma BeginQuietTrackers(s: State, step: Step)
    requires Begins(step)
    ensures Apply(s, step).trackers == s.trackers
  {
  }

  lemma StepIntegrity(s: State, step: Step)
    requires WellFormed(s) && Integrity(s) && Whole(step)
    ensures Integrity(Apply(s, step))
  {
    NoHoldingKeeps(s, step);
    StepLocal(s, step);
    StepKeeps(s, step);
    var s', p := Apply(s, step), About(s, step);
    forall q ensures PodIntegrity(s', q) {
      assert PodIntegrity(s, q);
      if q == p {
        AboutKeeps(s, step);
      } else {
        OtherPodKeeps(s, s', p, q);
      }
    }
  }

  lemma {:induction false} RunIntegrity(s: State, steps: seq<Step>)
    requires WellFormed(s) && Integrity(s) && WholeRun(steps)
    ensures WellFormed(Exec(s, steps)) && Integrity(Exec(s, steps))
  {
    if steps != [] {
      var init := steps[..|steps| - 1];
      RunIntegrity(s, init);
      StepKeeps(Exec(s, init), steps[|steps| - 1]);
      StepIntegrity(Exec(s, init), steps[|steps| - 1]);
    }
  }

  lemma EmptyIntegrity()
    ensures WellFormed(INIT) && Integrity(INIT)
  {
    forall p ensures PodIntegrity(INIT, p) {
    }
  }

  /**
   The two maps agree in every state of every run: the ids in a sandbox's list are distinct and in no
   other list, and every listed id is stored, with a back-pointer to that sandbox.  The only exception
   is the head of a list whose teardown has just deleted that record and is about to store the list;
   between the two writes of CreateContainer, and of RemoveContainer, there is none.
   */
  lemma ListedContainersAreStored(steps: seq<Step>, s: State, p: string)
    requires Reached(steps, s) && WholeRun(steps)
    ensures p in s.sandboxes ==>
              var list := s.sandboxes[p].containers;
              && NoDuplicates(list)
              && (forall q, c | q in s.sandboxes && q != p && c in list :: c !in s.sandboxes[q].containers)
              && (forall c | c in list && !DanglingHead(s, p, c) :: c in s.containers && s.containers[c].podID == p)
  {
    EmptyIntegrity();
    RunIntegrity(INIT, steps);
    assert PodIntegrity(s, p);
    if p in s.sandboxes {
      assert SandboxOk(s, p, s.sandboxes[p]);
      forall q, c | q in s.sandboxes && q != p && c in s.sandboxes[p].containers
        ensures c !in s.sandboxes[q].containers
      {
        assert SandboxOk(s, q, s.sandboxes[q]);
      }
    }
  }

  /**
   When no handler is at work on its pod, every stored container is listed by an existing sandbox,
   unless a RemoveContainer of it was cancelled.
   */
  lemma StoredContainersAreListed(steps: seq<Step>, s: State, cid: string)
    requires Reached(steps, s) && WholeRun(steps)
    ensures cid in s.containers && s.containers[cid].podID !in s.ops && cid !in s.cancelled ==>
              s.containers[cid].podID in s.sandboxes && cid in s.sandboxes[s.containers[cid].podID].containers
  {
    EmptyIntegrity();
    RunIntegrity(INIT, steps);
    if cid in s.containers {
      assert PodIntegrity(s, s.containers[cid].podID);
    }
  }

  /**
   In every state of every run a RUNNING record has a nonzero Pid that names a process of this
   container and, unless StartContainer is just about to spawn it, exactly one tracker; once that
   process has exited, the tracker's step alone makes the record EXITED with its exit code.
   */
  lemma ExitIsRecorded(steps: seq<Step>, s: State, cid: string)
    requires Reached(steps, s) && WholeRun(steps)
    ensures cid in s.containers && s.containers[cid].state == Running ==> ExitWillBeRecorded(s, s.containers[cid])
  {
    EmptyIntegrity();
    RunIntegrity(INIT, steps);
    RunningIsTracked(s, cid);
  }

  ghost predicate ExitWillBeRecorded(s: State, cnt: Container) {
    && cnt.pid > 0 && Spawned(s, cnt.id, cnt.pid)
    && (!TrackerPending(s, cnt.podID, cnt.id, cnt.pid) ==>
          && s.trackers[Waiting(cnt.id, cnt.pid)] == 1
          && (forall code | s.procs[cnt.pid].exit == Some(code) ::
                Apply(s, Track(cnt.id, cnt.pid)).containers == s.containers[cnt.id := cnt.(state := Exited, exitCode := code)]))
  }

  lemma RunningIsTracked(s: State, cid: string)
    requires WellFormed(s) && Integrity(s)
    ensures cid in s.containers && s.containers[cid].state == Running ==> ExitWillBeRecorded(s, s.containers[cid])
  {
    if cid in s.containers && s.containers[cid].state == Running {
      var cnt := s.containers[cid];
      assert PodIntegrity(s, cnt.podID) && RecordOk(s, cnt);
      assert !TrackerPending(s, cnt.podID, cid, cnt.pid) ==> s.trackers[Waiting(cid, cnt.pid)] == 1;
    }
  }
}
