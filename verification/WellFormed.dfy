/**
 What every state of every run keeps: also when StartContainer is repeated, when a tracker reads and
 writes in separate steps, and when a teardown is abandoned half way.
 */
module WellFormedness {
  import opened Records
  import opened Lifecycle
  import opened Sequences

  /** The container was created for pod p. */
  ghost predicate BelongsTo(s: State, cid: string, p: string) {
    cid in s.created && s.created[cid] == p
  }

  ghost predicate Spawned(s: State, cid: string, pid: int) {
    pid > 0 && pid in s.procs && s.procs[pid].cid == cid
  }

  /** A record, stored or held in a handler's or a tracker's local copy, tells the truth. */
  ghost predicate RecordOk(s: State, c: Container) {
    && BelongsTo(s, c.id, c.podID)
    && (c.state == Created ==> c.pid == 0)
    && (c.state != Created ==> Spawned(s, c.id, c.pid))
    && (c.state == Exited ==> s.procs[c.pid].exit == Some(c.exitCode))
  }

  ghost predicate ContainersOk(s: State) {
    forall c | c in s.containers :: s.containers[c].id == c && RecordOk(s, s.containers[c])
  }

  ghost predicate ProcsOk(s: State) {
    forall pid | pid in s.procs :: pid > 0 && BelongsTo(s, s.procs[pid].cid, s.procs[pid].podID)
  }

  ghost predicate TrackerOk(s: State, t: Tracker) {
    && Spawned(s, t.cid, t.pid)
    && (t.Holding? ==>
          && t.record.id == t.cid && t.record.pid == t.pid
          && RecordOk(s, t.record) && t.record.state != Created
          && s.procs[t.pid].exit.Some?)
  }

  ghost predicate TrackersOk(s: State) {
    forall t | t in s.trackers :: TrackerOk(s, t)
  }

  ghost predicate SandboxOk(s: State, p: string, sb: Sandbox) {
    && sb.id == p
    && NoDuplicates(sb.containers)
    && (forall c | c in sb.containers :: BelongsTo(s, c, p))
    && (sb.state == NotReady ==> sb.containers == [])
  }

  ghost predicate SandboxesOk(s: State) {
    forall p | p in s.sandboxes :: SandboxOk(s, p, s.sandboxes[p])
  }

  /** A teardown's copy of the sandbox is the stored one. */
  ghost predicate InSync(s: State, p: string, pod: Sandbox) {
    p in s.sandboxes && s.sandboxes[p] == pod
  }

  ghost predicate CallerOk(s: State, p: string, caller: Caller, cid: string) {
    && BelongsTo(s, cid, p)
    && (caller.TeardownCaller? ==>
          InSync(s, p, caller.pod) && caller.pod.containers != [] && caller.pod.containers[0] == cid)
  }

  ghost predicate OpOk(s: State, p: string, op: Op) {
    match op
    case Creating(pod, cid) =>
      && p in s.sandboxes && s.sandboxes[p].state == Ready
      && BelongsTo(s, cid, p) && cid !in s.sandboxes[p].containers
      && pod == s.sandboxes[p].(containers := s.sandboxes[p].containers + [cid])
    case StartRead(cnt) => cnt.podID == p && RecordOk(s, cnt)
    case StartSpawned(cnt) => cnt.podID == p && RecordOk(s, cnt) && cnt.state == Running && s.procs[cnt.pid].podID == p
    case StartStored(cnt) => cnt.podID == p && RecordOk(s, cnt) && cnt.state == Running
    case LoopHead(pod, _) => InSync(s, p, pod)
    case Signalling(caller, cnt) =>
      CallerOk(s, p, caller, cnt.id) && cnt.podID == p && RecordOk(s, cnt) && cnt.state == Running
    case Polling(caller, cnt) =>
      CallerOk(s, p, caller, cnt.id) && cnt.podID == p && RecordOk(s, cnt) && cnt.state == Running
    case Terminated(caller, cid) => !caller.StopCaller? && CallerOk(s, p, caller, cid)
    case Unlisting(pod, _) => InSync(s, p, pod) && pod.containers != []
    case Emptied => p in s.sandboxes && s.sandboxes[p].state == NotReady
  }

  ghost predicate OpsOk(s: State) {
    forall p | p in s.ops :: OpOk(s, p, s.ops[p])
  }

  ghost predicate WellFormed(s: State) {
    ContainersOk(s) && ProcsOk(s) && TrackersOk(s) && SandboxesOk(s) && OpsOk(s)
  }

  // ---------------------------------------------------------------- primitive changes

  lemma SetOp(s: State, p: string, op: Op)
    requires WellFormed(s) && OpOk(s, p, op)
    ensures WellFormed(s.(ops := s.ops[p := op]))
  {
    var s' := s.(ops := s.ops[p := op]);
    forall q | q in s'.ops ensures OpOk(s', q, s'.ops[q]) {
      assert OpOk(s, q, s'.ops[q]);
    }
    assert ContainersOk(s') && ProcsOk(s') && TrackersOk(s') && SandboxesOk(s');
  }

  lemma DropOp(s: State, p: string, cancelled: set<string>)
    requires WellFormed(s)
    ensures WellFormed(s.(ops := s.ops - {p}, cancelled := cancelled))
  {
  }

  lemma PutSandbox(s: State, p: string, sb: Sandbox)
    requires WellFormed(s) && p !in s.ops && SandboxOk(s, p, sb)
    ensures WellFormed(s.(sandboxes := s.sandboxes[p := sb]))
  {
    var s' := s.(sandboxes := s.sandboxes[p := sb]);
    forall q | q in s'.ops ensures OpOk(s', q, s'.ops[q]) {
      assert q != p && OpOk(s, q, s.ops[q]);
    }
  }

  lemma DeleteSandbox(s: State, p: string)
    requires WellFormed(s) && p !in s.ops
    ensures WellFormed(s.(sandboxes := s.sandboxes - {p}))
  {
    var s' := s.(sandboxes := s.sandboxes - {p});
    forall q | q in s'.ops ensures OpOk(s', q, s'.ops[q]) {
      assert q != p && OpOk(s, q, s.ops[q]);
    }
  }

  lemma PutContainer(s: State, cid: string, cnt: Container)
    requires WellFormed(s) && cnt.id == cid && RecordOk(s, cnt)
    ensures WellFormed(s.(containers := s.containers[cid := cnt]))
  {
  }

  lemma DeleteContainer(s: State, cid: string)
    requires WellFormed(s)
    ensures WellFormed(s.(containers := s.containers - {cid}))
  {
  }

  lemma PutTrackers(s: State, trackers: multiset<Tracker>)
    requires WellFormed(s)
    requires forall t | t in trackers :: t in s.trackers || TrackerOk(s, t)
    ensures WellFormed(s.(trackers := trackers))
  {
  }

  /** History and processes only grow; a process keeps its identity and, once set, its exit code. */
  ghost predicate Grows(s: State, s': State) {
    && (forall c | c in s.created :: c in s'.created && s'.created[c] == s.created[c])
    && (forall pid | pid in s.procs ::
          && pid in s'.procs
          && s'.procs[pid].cid == s.procs[pid].cid && s'.procs[pid].podID == s.procs[pid].podID
          && (s.procs[pid].exit.Some? ==> s'.procs[pid].exit == s.procs[pid].exit)
          && (s.procs[pid].killed ==> s'.procs[pid].killed))
  }

  lemma PutProc(s: State, pid: int, proc: Proc)
    requires WellFormed(s)
    requires pid > 0 && BelongsTo(s, proc.cid, proc.podID)
    requires pid in s.procs ==>
               && proc.cid == s.procs[pid].cid && proc.podID == s.procs[pid].podID
               && (s.procs[pid].exit.Some? ==> proc.exit == s.procs[pid].exit)
    ensures WellFormed(s.(procs := s.procs[pid := proc]))
  {
  }

  lemma KillKeeps(s: State, pid: int)
    requires WellFormed(s)
    ensures WellFormed(Kill(s, pid))
  {
    if pid in s.procs {
      PutProc(s, pid, s.procs[pid].(killed := true));
    }
  }

  lemma AddCreated(s: State, cid: string, p: string)
    requires WellFormed(s) && cid !in s.created
    ensures WellFormed(s.(created := s.created[cid := p]))
  {
  }

  // ---------------------------------------------------------------- the wait

  lemma AfterTerminateKeeps(s: State, p: string, caller: Caller, cid: string)
    requires WellFormed(s) && CallerOk(s, p, caller, cid)
    ensures WellFormed(AfterTerminate(s, p, caller, cid))
  {
    if caller.StopCaller? {
      DropOp(s, p, s.cancelled);
    } else {
      SetOp(s, p, Terminated(caller, cid));
    }
  }

  lemma FailKeeps(s: State, p: string, caller: Caller, cid: string)
    requires WellFormed(s)
    ensures WellFormed(Fail(s, p, caller, cid))
  {
    DropOp(s, p, if caller.RemoveCaller? then s.cancelled + {cid} else s.cancelled);
  }

  lemma EnterTerminateKeeps(s: State, p: string, caller: Caller, cnt: Container)
    requires WellFormed(s) && CallerOk(s, p, caller, cnt.id) && cnt.podID == p && RecordOk(s, cnt)
    ensures WellFormed(EnterTerminate(s, p, caller, cnt))
  {
    if cnt.state != Running {
      AfterTerminateKeeps(s, p, caller, cnt.id);
    } else {
      SetOp(s, p, Signalling(caller, cnt));
    }
  }

  lemma SignalKeeps(s: State, p: string, delivered: bool)
    requires WellFormed(s)
    ensures WellFormed(DoSignal(s, p, delivered))
  {
    if p in s.ops && s.ops[p].Signalling? {
      var Signalling(caller, cnt) := s.ops[p];
      assert OpOk(s, p, s.ops[p]);
      if delivered {
        SetOp(s, p, Polling(caller, cnt));
      } else {
        KillKeeps(s, cnt.pid);
        AfterTerminateKeeps(Kill(s, cnt.pid), p, caller, cnt.id);
      }
    }
  }

  lemma PollKeeps(s: State, p: string)
    requires WellFormed(s)
    ensures WellFormed(DoTick(s, p)) && WellFormed(DoTimeout(s, p)) && WellFormed(DoCancel(s, p))
  {
    if p in s.ops && s.ops[p].Polling? {
      var Polling(caller, cnt) := s.ops[p];
      assert OpOk(s, p, s.ops[p]);
      AfterTerminateKeeps(s, p, caller, cnt.id);
      KillKeeps(s, cnt.pid);
      AfterTerminateKeeps(Kill(s, cnt.pid), p, caller, cnt.id);
      FailKeeps(Kill(s, cnt.pid), p, caller, cnt.id);
    }
  }

  // ---------------------------------------------------------------- handlers begin

  lemma BeginCreateKeeps(s: State, cnt: Container)
    requires WellFormed(s)
    ensures WellFormed(DoBeginCreate(s, cnt))
  {
    var p, s' := cnt.podID, DoBeginCreate(s, cnt);
    if s' != s {
      var s1 := s.(created := s.created[cnt.id := p]);
      AddCreated(s, cnt.id, p);
      var s2 := s1.(containers := s.containers[cnt.id := cnt]);
      PutContainer(s1, cnt.id, cnt);
      assert SandboxOk(s, p, s.sandboxes[p]);
      SetOp(s2, p, s'.ops[p]);
    }
  }

  lemma {:induction false} SpliceKeeps(list: seq<string>, cid: string)
    requires NoDuplicates(list)
    ensures NoDuplicates(Splice(list, cid))
    ensures forall c :: c in Splice(list, cid) <==> c in list && c != cid
  {
    if list != [] && list[0] != cid {
      SpliceKeeps(list[1..], cid);
      assert list[0] !in list[1..];
    }
  }

  lemma BeginRemoveKeeps(s: State, p: string, cid: string)
    requires WellFormed(s)
    ensures WellFormed(DoBeginRemove(s, p, cid))
  {
    if CanBegin(s, p, cid) {
      var s1 := Unlisted(s, p, cid);
      assert RecordOk(s, s.containers[cid]);
      if s1 != s {
        assert SandboxOk(s, p, s.sandboxes[p]);
        SpliceKeeps(s.sandboxes[p].containers, cid);
        PutSandbox(s, p, s1.sandboxes[p]);
      }
      EnterTerminateKeeps(s1, p, RemoveCaller, s.containers[cid]);
    }
  }

  lemma BeginStartKeeps(s: State, p: string, cid: string)
    requires WellFormed(s)
    ensures WellFormed(DoBeginStart(s, p, cid))
  {
    if CanBegin(s, p, cid) {
      assert RecordOk(s, s.containers[cid]);
      SetOp(s, p, StartRead(WithLogPath(s.containers[cid])));
    }
  }

  lemma BeginStopKeeps(s: State, p: string, cid: string)
    requires WellFormed(s)
    ensures WellFormed(DoBeginStop(s, p, cid))
  {
    if CanBegin(s, p, cid) {
      assert RecordOk(s, s.containers[cid]);
      EnterTerminateKeeps(s, p, StopCaller, s.containers[cid]);
    }
  }

  lemma BeginTeardownKeeps(s: State, p: string, remove: bool)
    requires WellFormed(s)
    ensures WellFormed(DoBeginTeardown(s, p, remove))
  {
    if p in s.sandboxes {
      SetOp(s, p, LoopHead(s.sandboxes[p], remove));
    }
  }

  lemma RunSandboxKeeps(s: State, sb: Sandbox)
    requires WellFormed(s)
    ensures WellFormed(DoRunSandbox(s, sb))
  {
    if sb.id !in s.ops && IsNewSandbox(sb) {
      PutSandbox(s, sb.id, sb);
    }
  }

  // ---------------------------------------------------------------- handlers go on

  lemma SpawnKeeps(s: State, p: string, pid: int, now: int)
    requires WellFormed(s)
    ensures WellFormed(DoSpawn(s, p, pid, now)) && WellFormed(DoSpawnFails(s, p))
  {
    DropOp(s, p, s.cancelled);
    var s' := DoSpawn(s, p, pid, now);
    if s' != s {
      assert OpOk(s, p, s.ops[p]);
      var s1 := s.(procs := s'.procs);
      PutProc(s, pid, s'.procs[pid]);
      SetOp(s1, p, s'.ops[p]);
    }
  }

  lemma FinishCreateKeeps(s: State, p: string, pod: Sandbox, cid: string)
    requires WellFormed(s) && p in s.ops && s.ops[p] == Creating(pod, cid)
    ensures WellFormed(FinishCreate(s, p, pod))
  {
    assert OpOk(s, p, s.ops[p]) && SandboxOk(s, p, s.sandboxes[p]);
    DropOp(s, p, s.cancelled);
    PutSandbox(s.(ops := s.ops - {p}), p, pod);
  }

  lemma StartedKeeps(s: State, p: string, cnt: Container)
    requires WellFormed(s) && p in s.ops
    ensures s.ops[p] == StartSpawned(cnt) ==> WellFormed(StoreStarted(s, p, cnt))
    ensures s.ops[p] == StartStored(cnt) ==> WellFormed(SpawnTracker(s, p, cnt))
  {
    assert OpOk(s, p, s.ops[p]);
    if s.ops[p] == StartSpawned(cnt) {
      PutContainer(s, cnt.id, cnt);
      SetOp(s.(containers := s.containers[cnt.id := cnt]), p, StartStored(cnt));
    } else if s.ops[p] == StartStored(cnt) {
      DropOp(s, p, s.cancelled);
      PutTrackers(s.(ops := s.ops - {p}), s.trackers + multiset{Waiting(cnt.id, cnt.pid)});
    }
  }

  lemma NextInLoopKeeps(s: State, p: string, pod: Sandbox, remove: bool)
    requires WellFormed(s) && InSync(s, p, pod)
    ensures WellFormed(NextInLoop(s, p, pod, remove))
  {
    assert SandboxOk(s, p, pod);
    if pod.containers == [] {
      var s1 := s.(ops := s.ops - {p});
      DropOp(s, p, s.cancelled);
      var s2 := s1.(sandboxes := s.sandboxes[p := pod.(state := NotReady)]);
      PutSandbox(s1, p, pod.(state := NotReady));
      if remove {
        SetOp(s2, p, Emptied);
        assert s2.ops[p := Emptied] == s.ops[p := Emptied];
      }
    } else if pod.containers[0] !in s.containers {
      SetOp(s, p, Unlisting(pod, remove));
    } else {
      assert pod.containers[0] in pod.containers;
      EnterTerminateKeeps(s, p, TeardownCaller(pod, remove), s.containers[pod.containers[0]]);
    }
  }

  lemma DeleteTerminatedKeeps(s: State, p: string, caller: Caller, cid: string)
    requires WellFormed(s) && CallerOk(s, p, caller, cid)
    ensures WellFormed(DeleteTerminated(s, p, caller, cid))
  {
    DeleteContainer(s, cid);
    var s1 := s.(containers := s.containers - {cid});
    if caller.TeardownCaller? {
      SetOp(s1, p, Unlisting(caller.pod, caller.remove));
    } else {
      DropOp(s1, p, s.cancelled);
    }
  }

  lemma StoreShorterListKeeps(s: State, p: string, pod: Sandbox, remove: bool)
    requires WellFormed(s) && InSync(s, p, pod)
    ensures WellFormed(StoreShorterList(s, p, pod, remove))
  {
    if pod.containers != [] {
      assert SandboxOk(s, p, pod);
      var pod' := pod.(containers := pod.containers[1..]);
      var s1 := s.(ops := s.ops - {p});
      DropOp(s, p, s.cancelled);
      var s2 := s1.(sandboxes := s.sandboxes[p := pod']);
      PutSandbox(s1, p, pod');
      SetOp(s2, p, LoopHead(pod', remove));
      assert s2.ops[p := LoopHead(pod', remove)] == s.ops[p := LoopHead(pod', remove)];
    }
  }

  lemma ResumeKeeps(s: State, p: string)
    requires WellFormed(s)
    ensures WellFormed(DoResume(s, p)) && WellFormed(DoAbandon(s, p))
  {
    DropOp(s, p, s.cancelled);
    if p in s.ops {
      assert OpOk(s, p, s.ops[p]);
      match s.ops[p]
      case Creating(pod, cid) => FinishCreateKeeps(s, p, pod, cid);
      case StartSpawned(cnt) => StartedKeeps(s, p, cnt);
      case StartStored(cnt) => StartedKeeps(s, p, cnt);
      case LoopHead(pod, remove) => NextInLoopKeeps(s, p, pod, remove);
      case Terminated(caller, cid) => DeleteTerminatedKeeps(s, p, caller, cid);
      case Unlisting(pod, remove) => StoreShorterListKeeps(s, p, pod, remove);
      case Emptied => DeleteSandbox(s.(ops := s.ops - {p}), p);
      case _ =>
    }
  }

  // ---------------------------------------------------------------- processes and trackers

  lemma ProcExitKeeps(s: State, pid: int, code: int)
    requires WellFormed(s)
    ensures WellFormed(DoProcExit(s, pid, code))
  {
    if pid in s.procs && s.procs[pid].exit.None? {
      PutProc(s, pid, s.procs[pid].(exit := Some(code)));
    }
  }

  lemma TrackKeeps(s: State, cid: string, pid: int)
    requires WellFormed(s)
    ensures WellFormed(DoTrack(s, cid, pid)) && WellFormed(DoTrackRead(s, cid, pid))
  {
    if TrackerReady(s, cid, pid) {
      assert TrackerOk(s, Waiting(cid, pid));
      var rest := s.trackers - multiset{Waiting(cid, pid)};
      PutTrackers(s, rest);
      if cid in s.containers && s.containers[cid].pid == pid {
        assert RecordOk(s, s.containers[cid]);
        PutContainer(s.(trackers := rest), cid, Tracked(s.containers[cid], s.procs[pid].exit.value));
        PutTrackers(s, rest + multiset{Holding(cid, pid, s.containers[cid])});
      }
    }
  }

  lemma TrackWriteKeeps(s: State, t: Tracker)
    requires WellFormed(s)
    ensures WellFormed(DoTrackWrite(s, t))
  {
    if DoTrackWrite(s, t) != s {
      assert TrackerOk(s, t);
      PutTrackers(s, s.trackers - multiset{t});
      PutContainer(s.(trackers := s.trackers - multiset{t}), t.cid, Tracked(t.record, s.procs[t.pid].exit.value));
    }
  }

  // ---------------------------------------------------------------- all runs

  predicate Begins(step: Step) {
    step.RunSandbox? || step.BeginCreate? || step.BeginStart? || step.BeginStop? || step.BeginRemove? || step.BeginTeardown?
  }

  lemma BeginKeeps(s: State, step: Step)
    requires WellFormed(s) && Begins(step)
    ensures WellFormed(Apply(s, step))
  {
    match step
    case RunSandbox(sb) => RunSandboxKeeps(s, sb);
    case BeginCreate(cnt) => BeginCreateKeeps(s, cnt);
    case BeginStart(p, cid) => BeginStartKeeps(s, p, cid);
    case BeginStop(p, cid) => BeginStopKeeps(s, p, cid);
    case BeginRemove(p, cid) => BeginRemoveKeeps(s, p, cid);
    case BeginTeardown(p, remove) => BeginTeardownKeeps(s, p, remove);
  }

  predicate Background(step: Step) {
    step.ProcExit? || step.Track? || step.TrackRead? || step.TrackWrite?
  }

  lemma BackgroundKeeps(s: State, step: Step)
    requires WellFormed(s) && Background(step)
    ensures WellFormed(Apply(s, step))
  {
    match step
    case ProcExit(pid, code) => ProcExitKeeps(s, pid, code);
    case Track(cid, pid) => TrackKeeps(s, cid, pid);
    case TrackRead(cid, pid) => TrackKeeps(s, cid, pid);
    case TrackWrite(t) => TrackWriteKeeps(s, t);
  }

  lemma StepKeeps(s: State, step: Step)
    requires WellFormed(s)
    ensures WellFormed(Apply(s, step))
  {
    if Begins(step) {
      BeginKeeps(s, step);
    } else if Background(step) {
      BackgroundKeeps(s, step);
    } else {
      match step
      case Spawn(p, pid, now) => SpawnKeeps(s, p, pid, now);
      case SpawnFails(p) => SpawnKeeps(s, p, 0, 0);
      case Signal(p, delivered) => SignalKeeps(s, p, delivered);
      case Tick(p) => PollKeeps(s, p);
      case Timeout(p) => PollKeeps(s, p);
      case Cancel(p) => PollKeeps(s, p);
      case Resume(p) => ResumeKeeps(s, p);
      case Abandon(p) => ResumeKeeps(s, p);
    }
  }

  /** Every run keeps a well-formed state well formed, whatever its steps are. */
  lemma {:induction false} RunKeeps(s: State, steps: seq<Step>)
    requires WellFormed(s)
    ensures WellFormed(Exec(s, steps))
  {
    if steps != [] {
      RunKeeps(s, steps[..|steps| - 1]);
      StepKeeps(Exec(s, steps[..|steps| - 1]), steps[|steps| - 1]);
    }
  }

  /**
   Exit codes are attributed correctly in every run: an EXITED record holds the exit code of the
   exited process that its own Pid names, and that process was spawned for this very container.
   */
  lemma ExitCodesAreAttributed(steps: seq<Step>, s: State, cid: string)
    requires Reached(steps, s)
    ensures cid in s.containers && s.containers[cid].state == Exited ==>
              && s.containers[cid].pid in s.procs
              && s.procs[s.containers[cid].pid].cid == cid
              && s.procs[s.containers[cid].pid].exit == Some(s.containers[cid].exitCode)
  {
    RunKeeps(INIT, steps);
  }

  /** A NOTREADY sandbox lists no container, in every state of every run. */
  lemma NotReadyIsEmpty(steps: seq<Step>, s: State, p: string)
    requires Reached(steps, s)
    ensures p in s.sandboxes && s.sandboxes[p].state == NotReady ==> s.sandboxes[p].containers == []
  {
    RunKeeps(INIT, steps);
    assert p in s.sandboxes ==> SandboxOk(s, p, s.sandboxes[p]);
  }
}
