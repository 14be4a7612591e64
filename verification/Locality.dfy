/** Every step is about one pod and leaves everything of every other pod exactly as it is. */
module Locality {
  import opened Records
  import opened Lifecycle
  import opened WellFormedness

  ghost predicate SandboxesLocal(s: State, s': State, p: string) {
    forall q | q != p :: (q in s.sandboxes <==> q in s'.sandboxes) && (q in s.sandboxes ==> s'.sandboxes[q] == s.sandboxes[q])
  }

  ghost predicate OpsLocal(s: State, s': State, p: string) {
    forall q | q != p :: (q in s.ops <==> q in s'.ops) && (q in s.ops ==> s'.ops[q] == s.ops[q])
  }

  ghost predicate ContainersLocal(s: State, s': State, p: string) {
    && (forall c | c in s.containers && s.containers[c].podID != p :: c in s'.containers && s'.containers[c] == s.containers[c])
    && (forall c | c in s'.containers && s'.containers[c].podID != p :: c in s.containers && s.containers[c] == s'.containers[c])
  }

  ghost predicate ProcsLocal(s: State, s': State, p: string) {
    && (forall pid | pid in s.procs && s.procs[pid].podID != p :: pid in s'.procs && s'.procs[pid] == s.procs[pid])
    && (forall pid | pid in s'.procs && s'.procs[pid].podID != p :: pid in s.procs && s.procs[pid] == s'.procs[pid])
  }

  ghost predicate TrackersLocal(s: State, s': State, p: string) {
    forall t: Tracker | t.cid in s.created && s.created[t.cid] != p :: s'.trackers[t] == s.trackers[t]
  }

  ghost predicate CancelledLocal(s: State, s': State, p: string) {
    && s.cancelled <= s'.cancelled
    && (forall c | c in s'.cancelled && c !in s.cancelled :: BelongsTo(s', c, p))
  }

  ghost predicate Local(s: State, s': State, p: string) {
    && SandboxesLocal(s, s', p) && OpsLocal(s, s', p) && ContainersLocal(s, s', p)
    && ProcsLocal(s, s', p) && TrackersLocal(s, s', p) && CancelledLocal(s, s', p)
  }

  /** The pod a step is about: the handler's own, or the one whose process exits or is tracked. */
  ghost function About(s: State, step: Step): string {
    match step
    case ProcExit(pid, _) => if pid in s.procs then s.procs[pid].podID else ""
    case Track(cid, _) => if cid in s.created then s.created[cid] else ""
    case TrackRead(cid, _) => if cid in s.created then s.created[cid] else ""
    case TrackWrite(t) => if t.cid in s.created then s.created[t.cid] else ""
    case _ => Actor(step).value
  }

  /** Local changes that also only grow history and processes. */
  ghost predicate OnlyPod(s: State, s': State, p: string) {
    Grows(s, s') && Local(s, s', p)
  }

  lemma Compose(s: State, mid: State, s': State, p: string)
    requires OnlyPod(s, mid, p) && OnlyPod(mid, s', p)
    ensures OnlyPod(s, s', p)
  {
  }

  lemma OwnProcess(s: State, c: Container)
    requires WellFormed(s) && RecordOk(s, c) && c.state != Created
    ensures c.pid in s.procs && s.procs[c.pid].podID == c.podID
  {
    assert BelongsTo(s, s.procs[c.pid].cid, s.procs[c.pid].podID);
  }

  lemma KillLocal(s: State, p: string, pid: int)
    requires pid in s.procs ==> s.procs[pid].podID == p
    ensures OnlyPod(s, Kill(s, pid), p)
  {
  }

  /** The handler moves on, or ends. */
  lemma OpLocal(s: State, p: string, op: Op)
    ensures OnlyPod(s, s.(ops := s.ops[p := op]), p)
    ensures OnlyPod(s, s.(ops := s.ops - {p}), p)
  {
  }

  lemma FailLocal(s: State, p: string, caller: Caller, cid: string)
    requires BelongsTo(s, cid, p)
    ensures OnlyPod(s, Fail(s, p, caller, cid), p)
  {
  }

  lemma EnterTerminateLocal(s: State, p: string, caller: Caller, cnt: Container)
    requires BelongsTo(s, cnt.id, p)
    ensures OnlyPod(s, EnterTerminate(s, p, caller, cnt), p)
  {
    OpLocal(s, p, Signalling(caller, cnt));
    OpLocal(s, p, Terminated(caller, cnt.id));
    FailLocal(s, p, caller, cnt.id);
  }

  lemma SignalLocal(s: State, p: string, delivered: bool)
    requires WellFormed(s)
    ensures OnlyPod(s, DoSignal(s, p, delivered), p)
  {
    if p in s.ops && s.ops[p].Signalling? {
      var Signalling(caller, cnt) := s.ops[p];
      assert OpOk(s, p, s.ops[p]);
      OpLocal(s, p, Polling(caller, cnt));
      KilledLocal(s, p, caller, cnt);
    }
  }

  lemma KilledLocal(s: State, p: string, caller: Caller, cnt: Container)
    requires WellFormed(s) && RecordOk(s, cnt) && cnt.state == Running && cnt.podID == p
    ensures OnlyPod(s, AfterTerminate(Kill(s, cnt.pid), p, caller, cnt.id), p)
    ensures OnlyPod(s, Fail(Kill(s, cnt.pid), p, caller, cnt.id), p)
  {
    OwnProcess(s, cnt);
    var s1 := Kill(s, cnt.pid);
    KillLocal(s, p, cnt.pid);
    OpLocal(s1, p, Terminated(caller, cnt.id));
    FailLocal(s1, p, caller, cnt.id);
    Compose(s, s1, AfterTerminate(s1, p, caller, cnt.id), p);
    Compose(s, s1, Fail(s1, p, caller, cnt.id), p);
  }

  lemma PollLocal(s: State, p: string)
    requires WellFormed(s)
    ensures OnlyPod(s, DoTick(s, p), p) && OnlyPod(s, DoTimeout(s, p), p) && OnlyPod(s, DoCancel(s, p), p)
  {
    if p in s.ops && s.ops[p].Polling? {
      var Polling(caller, cnt) := s.ops[p];
      assert OpOk(s, p, s.ops[p]);
      OpLocal(s, p, Terminated(caller, cnt.id));
      KilledLocal(s, p, caller, cnt);
    }
  }

  lemma BeginCreateLocal(s: State, cnt: Container)
    requires ContainersOk(s)
    ensures OnlyPod(s, DoBeginCreate(s, cnt), cnt.podID)
  {
  }

  lemma UnlistedLocal(s: State, p: string, cid: string)
    ensures OnlyPod(s, Unlisted(s, p, cid), p)
  {
  }

  lemma BeginStopLocal(s: State, p: string, cid: string)
    requires ContainersOk(s)
    ensures OnlyPod(s, DoBeginStop(s, p, cid), p) && OnlyPod(s, DoBeginRemove(s, p, cid), p)
  {
    if CanBegin(s, p, cid) {
      var s1 := Unlisted(s, p, cid);
      UnlistedLocal(s, p, cid);
      EnterTerminateLocal(s, p, StopCaller, s.containers[cid]);
      EnterTerminateLocal(s1, p, RemoveCaller, s.containers[cid]);
      Compose(s, s1, DoBeginRemove(s, p, cid), p);
    }
  }

  lemma BeginStartLocal(s: State, p: string, cid: string)
    ensures OnlyPod(s, DoBeginStart(s, p, cid), p)
  {
    if CanBegin(s, p, cid) {
      OpLocal(s, p, StartRead(WithLogPath(s.containers[cid])));
    }
  }

  lemma BeginTeardownLocal(s: State, p: string, remove: bool)
    ensures OnlyPod(s, DoBeginTeardown(s, p, remove), p)
  {
    if p in s.sandboxes {
      OpLocal(s, p, LoopHead(s.sandboxes[p], remove));
    }
  }

  lemma RunSandboxLocal(s: State, sb: Sandbox)
    ensures OnlyPod(s, DoRunSandbox(s, sb), sb.id)
  {
    SandboxLocal(s, sb.id, sb);
  }

  lemma SandboxLocal(s: State, p: string, sb: Sandbox)
    ensures OnlyPod(s, s.(sandboxes := s.sandboxes[p := sb]), p)
  {
  }

  lemma SpawnLocal(s: State, p: string, pid: int, now: int)
    ensures OnlyPod(s, DoSpawn(s, p, pid, now), p)
  {
  }

  lemma EndLocal(s: State, p: string)
    ensures OnlyPod(s, DoSpawnFails(s, p), p) && OnlyPod(s, DoAbandon(s, p), p)
  {
    OpLocal(s, p, Emptied);
  }

  lemma PutContainerLocal(s: State, p: string, cid: string, cnt: Container)
    requires cnt.podID == p && (cid in s.containers ==> s.containers[cid].podID == p)
    ensures OnlyPod(s, s.(containers := s.containers[cid := cnt]), p)
  {
  }

  lemma TrackersChangeLocal(s: State, p: string, trackers: multiset<Tracker>)
    requires forall t: Tracker | t.cid in s.created && s.created[t.cid] != p :: trackers[t] == s.trackers[t]
    ensures OnlyPod(s, s.(trackers := trackers), p)
  {
  }

  lemma StartedLocal(s: State, p: string, cnt: Container)
    requires ContainersOk(s) && cnt.podID == p && BelongsTo(s, cnt.id, p)
    ensures OnlyPod(s, StoreStarted(s, p, cnt), p)
    ensures OnlyPod(s, SpawnTracker(s, p, cnt), p)
  {
    var s1 := s.(containers := s.containers[cnt.id := cnt]);
    PutContainerLocal(s, p, cnt.id, cnt);
    OpLocal(s1, p, StartStored(cnt));
    Compose(s, s1, StoreStarted(s, p, cnt), p);
    var s2 := s.(trackers := s.trackers + multiset{Waiting(cnt.id, cnt.pid)});
    TrackersChangeLocal(s, p, s2.trackers);
    OpLocal(s2, p, Emptied);
    Compose(s, s2, SpawnTracker(s, p, cnt), p);
  }

  lemma DeleteLocal(s: State, p: string, caller: Caller, cid: string)
    requires ContainersOk(s) && BelongsTo(s, cid, p)
    ensures OnlyPod(s, DeleteTerminated(s, p, caller, cid), p)
  {
  }

  lemma FinishCreateLocal(s: State, p: string, pod: Sandbox)
    ensures OnlyPod(s, FinishCreate(s, p, pod), p)
  {
  }

  lemma StoreShorterListLocal(s: State, p: string, pod: Sandbox, remove: bool)
    ensures OnlyPod(s, StoreShorterList(s, p, pod, remove), p)
  {
    if pod.containers != [] {
      var pod' := pod.(containers := pod.containers[1..]);
      var s1 := s.(sandboxes := s.sandboxes[p := pod']);
      SandboxLocal(s, p, pod');
      OpLocal(s1, p, LoopHead(pod', remove));
      Compose(s, s1, StoreShorterList(s, p, pod, remove), p);
    }
  }

  lemma DeleteEmptiedLocal(s: State, p: string)
    ensures OnlyPod(s, DeleteEmptied(s, p), p)
  {
  }

  lemma NextInLoopLocal(s: State, p: string, pod: Sandbox, remove: bool)
    requires WellFormed(s) && InSync(s, p, pod)
    ensures OnlyPod(s, NextInLoop(s, p, pod, remove), p)
  {
    if pod.containers != [] {
      if pod.containers[0] in s.containers {
        assert SandboxOk(s, p, pod) && pod.containers[0] in pod.containers;
        EnterTerminateLocal(s, p, TeardownCaller(pod, remove), s.containers[pod.containers[0]]);
      } else {
        OpLocal(s, p, Unlisting(pod, remove));
      }
    }
  }

  lemma ResumeLocal(s: State, p: string)
    requires WellFormed(s)
    ensures OnlyPod(s, DoResume(s, p), p)
  {
    if p in s.ops {
      assert OpOk(s, p, s.ops[p]);
      match s.ops[p]
      case Creating(pod, _) => FinishCreateLocal(s, p, pod);
      case LoopHead(pod, remove) => NextInLoopLocal(s, p, pod, remove);
      case Terminated(caller, cid) => DeleteLocal(s, p, caller, cid);
      case StartSpawned(cnt) => StartedLocal(s, p, cnt);
      case StartStored(cnt) => StartedLocal(s, p, cnt);
      case Unlisting(pod, remove) => StoreShorterListLocal(s, p, pod, remove);
      case Emptied => DeleteEmptiedLocal(s, p);
      case _ =>
    }
  }

  lemma ProcExitLocal(s: State, pid: int, code: int)
    ensures OnlyPod(s, DoProcExit(s, pid, code), About(s, ProcExit(pid, code)))
  {
    if pid in s.procs && s.procs[pid].exit.None? {
      ExitLocal(s, pid, code);
    }
  }

  lemma ExitLocal(s: State, pid: int, code: int)
    requires pid in s.procs && s.procs[pid].exit.None?
    ensures OnlyPod(s, s.(procs := s.procs[pid := s.procs[pid].(exit := Some(code))]), s.procs[pid].podID)
  {
  }

  lemma TrackLocal(s: State, cid: string, pid: int)
    requires ContainersOk(s) && TrackersOk(s)
    ensures OnlyPod(s, DoTrack(s, cid, pid), About(s, Track(cid, pid)))
  {
    if TrackerReady(s, cid, pid) {
      assert TrackerOk(s, Waiting(cid, pid));
      var p := About(s, Track(cid, pid));
      var s1 := s.(trackers := s.trackers - multiset{Waiting(cid, pid)});
      TrackersChangeLocal(s, p, s1.trackers);
      if cid in s.containers && s.containers[cid].pid == pid {
        PutContainerLocal(s1, p, cid, Tracked(s.containers[cid], s.procs[pid].exit.value));
        Compose(s, s1, DoTrack(s, cid, pid), p);
      }
    }
  }

  lemma TrackReadLocal(s: State, cid: string, pid: int)
    requires TrackersOk(s)
    ensures OnlyPod(s, DoTrackRead(s, cid, pid), About(s, TrackRead(cid, pid)))
  {
    if TrackerReady(s, cid, pid) {
      assert TrackerOk(s, Waiting(cid, pid));
      TrackersChangeLocal(s, About(s, TrackRead(cid, pid)), DoTrackRead(s, cid, pid).trackers);
    }
  }

  lemma TrackWriteLocal(s: State, t: Tracker)
    requires ContainersOk(s) && TrackersOk(s)
    ensures OnlyPod(s, DoTrackWrite(s, t), About(s, TrackWrite(t)))
  {
    if DoTrackWrite(s, t) != s {
      assert TrackerOk(s, t);
    }
  }

  lemma BeginLocal(s: State, step: Step)
    requires WellFormed(s) && Begins(step)
    ensures OnlyPod(s, Apply(s, step), About(s, step))
  {
    match step
    case RunSandbox(sb) => RunSandboxLocal(s, sb);
    case BeginCreate(cnt) => BeginCreateLocal(s, cnt);
    case BeginStart(p, cid) => BeginStartLocal(s, p, cid);
    case BeginTeardown(p, remove) => BeginTeardownLocal(s, p, remove);
    case BeginStop(p, cid) => BeginStopLocal(s, p, cid);
    case BeginRemove(p, cid) => BeginStopLocal(s, p, cid);
  }

  lemma BackgroundLocal(s: State, step: Step)
    requires WellFormed(s) && Background(step)
    ensures OnlyPod(s, Apply(s, step), About(s, step))
  {
    match step
    case ProcExit(pid, code) => ProcExitLocal(s, pid, code);
    case Track(cid, pid) => TrackLocal(s, cid, pid);
    case TrackRead(cid, pid) => TrackReadLocal(s, cid, pid);
    case TrackWrite(t) => TrackWriteLocal(s, t);
  }

  lemma HandlerLocal(s: State, step: Step)
    requires WellFormed(s) && !Begins(step) && !Background(step)
    ensures OnlyPod(s, Apply(s, step), About(s, step))
  {
    match step
    case Spawn(p, pid, now) => SpawnLocal(s, p, pid, now);
    case SpawnFails(p) => EndLocal(s, p);
    case Signal(p, delivered) => SignalLocal(s, p, delivered);
    case Tick(p) => PollLocal(s, p);
    case Timeout(p) => PollLocal(s, p);
    case Cancel(p) => PollLocal(s, p);
    case Resume(p) => ResumeLocal(s, p);
    case Abandon(p) => EndLocal(s, p);
  }

  /** Whatever a step does to the state of one pod, it does nothing to any other. */
  lemma StepLocal(s: State, step: Step)
    requires WellFormed(s)
    ensures OnlyPod(s, Apply(s, step), About(s, step))
  {
    if Begins(step) {
      BeginLocal(s, step);
    } else if Background(step) {
      BackgroundLocal(s, step);
    } else {
      HandlerLocal(s, step);
    }
  }

  // ---------------------------------------------------------------- all runs

  /** The handler at work on p and the sandbox record of p are the same. */
  ghost predicate SamePod(s: State, s': State, p: string) {
    && (p in s'.ops <==> p in s.ops) && (p in s.ops ==> s'.ops[p] == s.ops[p])
    && (p in s'.sandboxes <==> p in s.sandboxes) && (p in s.sandboxes ==> s'.sandboxes[p] == s.sandboxes[p])
  }

  /** And so are the records and processes of its containers. */
  ghost predicate Untouched(s: State, s': State, p: string) {
    && SamePod(s, s', p)
    && (forall c | c in s.containers && s.containers[c].podID == p :: c in s'.containers && s'.containers[c] == s.containers[c])
    && (forall c | c in s'.containers && s'.containers[c].podID == p :: c in s.containers && s.containers[c] == s'.containers[c])
    && (forall pid | pid in s.procs && s.procs[pid].podID == p :: pid in s'.procs && s'.procs[pid] == s.procs[pid])
    && (forall pid | pid in s'.procs && s'.procs[pid].podID == p :: pid in s.procs && s.procs[pid] == s'.procs[pid])
  }

  lemma StepUntouched(s: State, step: Step, p: string)
    requires WellFormed(s) && About(s, step) != p
    ensures Untouched(s, Apply(s, step), p)
  {
    StepLocal(s, step);
    OnlyOther(s, Apply(s, step), About(s, step), p);
  }

  lemma OnlyOther(s: State, s': State, q: string, p: string)
    requires OnlyPod(s, s', q) && q != p
    ensures Untouched(s, s', p)
  {
  }

  /** Pods are isolated: a run whose steps are all about other pods leaves a pod exactly as it was. */
  lemma {:induction false} RunUntouched(s: State, steps: seq<Step>, s': State, p: string)
    requires WellFormed(s) && Leads(s, steps, s')
    requires forall i, t {:trigger Leads(s, steps[..i], t)} | 0 <= i < |steps| && Leads(s, steps[..i], t) :: About(t, steps[i]) != p
    ensures Untouched(s, s', p)
  {
    if steps == [] {
      assert Exec(s, steps) == s;
    } else {
      var init := steps[..|steps| - 1];
      var t := Exec(s, init);
      LeadsIs(s, init, t);
      assert Leads(s, steps[..|steps| - 1], t);
      forall i, u | 0 <= i < |init| && Leads(s, init[..i], u) ensures About(u, init[i]) != p {
        assert init[..i] == steps[..i];
        assert Leads(s, steps[..i], u);
      }
      RunUntouched(s, init, t, p);
      RunKeeps(s, init);
      StepUntouched(t, steps[|steps| - 1], p);
      assert s' == Exec(s, steps);
    }
  }
}
