/** Processes that no handler, record or tracker names any more, and containers that no list names any more. */
module Orphans {
  import opened Records
  import opened Lifecycle
  import opened WellFormedness
  import opened Locality
  import opened CrossMap
  import opened TeardownRetries
  import opened Tracing

  // ---------------------------------------------------------------- a process that no one can reach

  /**
   The handler will signal the process or store its Pid.  A StartContainer that has not spawned yet will
   do neither with the Pid it has read, and one of a container in `kept` may store it.
   */
  predicate NamedBy(op: Op, pid: int, kept: set<string>) {
    || ((op.StartSpawned? || op.StartStored?) && op.cnt.pid == pid && op.cnt.id !in kept)
    || ((op.Signalling? || op.Polling?) && op.cnt.pid == pid)
  }

  ghost predicate NoneHolds(trackers: multiset<Tracker>, pid: int) {
    forall t | t in trackers && t.Holding? :: t.record.pid != pid
  }

  /**
   No handler at work, no tracker about to write and no stored record names the process, except possibly
   for the containers in `kept`.
   */
  ghost predicate Orphan(s: State, pid: int, kept: set<string>) {
    && pid in s.procs && pid != 0
    && (forall c | c in s.containers && c !in kept :: s.containers[c].pid != pid)
    && (forall p | p in s.ops :: !NamedBy(s.ops[p], pid, kept))
    && NoneHolds(s.trackers, pid)
  }

  /** The step is no handler's turn to a container in `kept`. */
  ghost predicate Spares(s: State, step: Step, kept: set<string>) {
    match step
    case BeginStop(p, cid) => CanBegin(s, p, cid) ==> cid !in kept
    case BeginRemove(p, cid) => CanBegin(s, p, cid) ==> cid !in kept
    case TrackRead(cid, _) => cid !in kept
    case Resume(p) => p in s.ops && s.ops[p].LoopHead? && s.ops[p].pod.containers != [] ==> s.ops[p].pod.containers[0] !in kept
    case _ => true
  }

  /** It stays out of reach, and no signal is sent to it. */
  ghost predicate StillOrphan(s: State, s': State, pid: int, kept: set<string>) {
    Orphan(s, pid, kept) ==> Orphan(s', pid, kept) && s'.procs[pid].killed == s.procs[pid].killed
  }

  lemma KillSparesOrphan(s: State, other: int, pid: int, kept: set<string>)
    requires other != pid
    ensures StillOrphan(s, Kill(s, other), pid, kept)
  {
  }

  lemma LeaveKeepsOrphan(s: State, p: string, caller: Caller, cid: string, pid: int, kept: set<string>)
    ensures StillOrphan(s, AfterTerminate(s, p, caller, cid), pid, kept) && StillOrphan(s, Fail(s, p, caller, cid), pid, kept)
  {
  }

  lemma WorkKeepsOrphan(s: State, p: string, op: Op, pid: int, kept: set<string>)
    requires !NamedBy(op, pid, kept)
    ensures StillOrphan(s, s.(ops := s.ops[p := op]), pid, kept)
  {
  }

  lemma EnterKeepsOrphan(s: State, p: string, caller: Caller, cnt: Container, pid: int, kept: set<string>)
    requires cnt.pid != pid
    ensures StillOrphan(s, EnterTerminate(s, p, caller, cnt), pid, kept)
  {
    LeaveKeepsOrphan(s, p, caller, cnt.id, pid, kept);
    WorkKeepsOrphan(s, p, Signalling(caller, cnt), pid, kept);
  }

  lemma BeginCreateKeepsOrphan(s: State, cnt: Container, pid: int, kept: set<string>)
    ensures StillOrphan(s, DoBeginCreate(s, cnt), pid, kept)
  {
  }

  lemma BeginKeepsOrphan(s: State, step: Step, pid: int, kept: set<string>)
    requires Begins(step) && Spares(s, step, kept)
    ensures StillOrphan(s, Apply(s, step), pid, kept)
  {
    if Orphan(s, pid, kept) {
      match step
      case BeginCreate(cnt) => BeginCreateKeepsOrphan(s, cnt, pid, kept);
      case BeginStop(p, cid) => BeginEndKeepsOrphan(s, p, cid, pid, kept);
      case BeginRemove(p, cid) => BeginEndKeepsOrphan(s, p, cid, pid, kept);
      case BeginStart(p, cid) => assert StillOrphan(s, DoBeginStart(s, p, cid), pid, kept);
      case BeginTeardown(p, remove) => assert StillOrphan(s, DoBeginTeardown(s, p, remove), pid, kept);
      case RunSandbox(sb) => assert StillOrphan(s, DoRunSandbox(s, sb), pid, kept);
    }
  }

  lemma BeginEndKeepsOrphan(s: State, p: string, cid: string, pid: int, kept: set<string>)
    requires Orphan(s, pid, kept) && (CanBegin(s, p, cid) ==> cid !in kept)
    ensures StillOrphan(s, DoBeginStop(s, p, cid), pid, kept) && StillOrphan(s, DoBeginRemove(s, p, cid), pid, kept)
  {
    if CanBegin(s, p, cid) {
      EnterKeepsOrphan(s, p, StopCaller, s.containers[cid], pid, kept);
      EnterKeepsOrphan(Unlisted(s, p, cid), p, RemoveCaller, s.containers[cid], pid, kept);
    }
  }

  lemma WaitKeepsOrphan(s: State, p: string, delivered: bool, pid: int, kept: set<string>)
    requires Orphan(s, pid, kept)
    ensures StillOrphan(s, DoSignal(s, p, delivered), pid, kept) && StillOrphan(s, DoTick(s, p), pid, kept)
    ensures StillOrphan(s, DoTimeout(s, p), pid, kept) && StillOrphan(s, DoCancel(s, p), pid, kept)
  {
    if p in s.ops && (s.ops[p].Signalling? || s.ops[p].Polling?) {
      var caller, cnt := s.ops[p].caller, s.ops[p].cnt;
      assert cnt.pid != pid;
      KillSparesOrphan(s, cnt.pid, pid, kept);
      LeaveKeepsOrphan(s, p, caller, cnt.id, pid, kept);
      LeaveKeepsOrphan(Kill(s, cnt.pid), p, caller, cnt.id, pid, kept);
    }
  }

  lemma SpawnKeepsOrphan(s: State, p: string, other: int, now: int, pid: int, kept: set<string>)
    requires Orphan(s, pid, kept)
    ensures StillOrphan(s, DoSpawn(s, p, other, now), pid, kept) && StillOrphan(s, DoSpawnFails(s, p), pid, kept)
    ensures StillOrphan(s, DoAbandon(s, p), pid, kept)
  {
  }

  lemma ResumeKeepsOrphan(s: State, p: string, pid: int, kept: set<string>)
    requires Orphan(s, pid, kept) && Spares(s, Resume(p), kept)
    ensures StillOrphan(s, DoResume(s, p), pid, kept)
  {
    if p in s.ops {
      match s.ops[p]
      case StartSpawned(cnt) => StartedKeepsOrphan(s, p, cnt, pid, kept);
      case StartStored(cnt) => StartedKeepsOrphan(s, p, cnt, pid, kept);
      case LoopHead(pod, remove) => LoopKeepsOrphan(s, p, pod, remove, pid, kept);
      case Terminated(caller, cid) => DeleteKeepsOrphan(s, p, caller, cid, pid, kept);
      case Unlisting(pod, remove) => ListKeepsOrphan(s, p, pod, remove, pid, kept);
      case Creating(pod, _) => ListKeepsOrphan(s, p, pod, false, pid, kept);
      case Emptied => EmptiedKeepsOrphan(s, p, pid, kept);
      case _ =>
    }
  }

  lemma StartedKeepsOrphan(s: State, p: string, cnt: Container, pid: int, kept: set<string>)
    requires Orphan(s, pid, kept) && (cnt.pid == pid ==> cnt.id in kept)
    ensures StillOrphan(s, StoreStarted(s, p, cnt), pid, kept) && StillOrphan(s, SpawnTracker(s, p, cnt), pid, kept)
  {
  }

  lemma DeleteKeepsOrphan(s: State, p: string, caller: Caller, cid: string, pid: int, kept: set<string>)
    requires Orphan(s, pid, kept)
    ensures StillOrphan(s, DeleteTerminated(s, p, caller, cid), pid, kept)
  {
  }

  lemma EmptiedKeepsOrphan(s: State, p: string, pid: int, kept: set<string>)
    requires Orphan(s, pid, kept)
    ensures StillOrphan(s, DeleteEmptied(s, p), pid, kept)
  {
  }

  lemma ListKeepsOrphan(s: State, p: string, pod: Sandbox, remove: bool, pid: int, kept: set<string>)
    requires Orphan(s, pid, kept)
    ensures StillOrphan(s, FinishCreate(s, p, pod), pid, kept) && StillOrphan(s, StoreShorterList(s, p, pod, remove), pid, kept)
  {
  }

  lemma LoopKeepsOrphan(s: State, p: string, pod: Sandbox, remove: bool, pid: int, kept: set<string>)
    requires Orphan(s, pid, kept) && (pod.containers != [] ==> pod.containers[0] !in kept)
    ensures StillOrphan(s, NextInLoop(s, p, pod, remove), pid, kept)
  {
    if pod.containers != [] && pod.containers[0] in s.containers {
      EnterKeepsOrphan(s, p, TeardownCaller(pod, remove), s.containers[pod.containers[0]], pid, kept);
    }
  }

  lemma TrackKeepsOrphan(s: State, cid: string, other: int, pid: int, kept: set<string>)
    requires Orphan(s, pid, kept)
    ensures StillOrphan(s, DoTrack(s, cid, other), pid, kept)
  {
    var s1 := s.(trackers := s.trackers - multiset{Waiting(cid, other)});
    assert StillOrphan(s, s1, pid, kept);
  }

  lemma HoldOther(trackers: multiset<Tracker>, t: Tracker, held: Tracker, pid: int)
    requires NoneHolds(trackers, pid) && held.Holding? && held.record.pid != pid
    ensures NoneHolds(trackers - multiset{t}, pid) && NoneHolds(trackers - multiset{t} + multiset{held}, pid)
  {
  }

  lemma TrackersKeepOrphan(s: State, trackers: multiset<Tracker>, pid: int, kept: set<string>)
    requires Orphan(s, pid, kept) && NoneHolds(trackers, pid)
    ensures StillOrphan(s, s.(trackers := trackers), pid, kept)
  {
  }

  lemma TrackReadKeepsOrphan(s: State, cid: string, other: int, pid: int, kept: set<string>)
    requires Orphan(s, pid, kept) && cid !in kept
    ensures StillOrphan(s, DoTrackRead(s, cid, other), pid, kept)
  {
    if cid in s.containers {
      HoldOther(s.trackers, Waiting(cid, other), Holding(cid, other, s.containers[cid]), pid);
    }
    assert NoneHolds(s.trackers - multiset{Waiting(cid, other)}, pid);
    TrackersKeepOrphan(s, DoTrackRead(s, cid, other).trackers, pid, kept);
  }

  lemma TrackWriteKeepsOrphan(s: State, t: Tracker, pid: int, kept: set<string>)
    requires Orphan(s, pid, kept)
    ensures StillOrphan(s, DoTrackWrite(s, t), pid, kept)
  {
  }

  lemma ProcExitKeepsOrphan(s: State, other: int, code: int, pid: int, kept: set<string>)
    requires Orphan(s, pid, kept)
    ensures StillOrphan(s, DoProcExit(s, other, code), pid, kept)
  {
  }

  lemma BackgroundKeepsOrphan(s: State, step: Step, pid: int, kept: set<string>)
    requires Orphan(s, pid, kept) && Background(step) && Spares(s, step, kept)
    ensures StillOrphan(s, Apply(s, step), pid, kept)
  {
    match step
    case ProcExit(other, code) => ProcExitKeepsOrphan(s, other, code, pid, kept);
    case Track(cid, other) => TrackKeepsOrphan(s, cid, other, pid, kept);
    case TrackRead(cid, other) => TrackReadKeepsOrphan(s, cid, other, pid, kept);
    case TrackWrite(t) => TrackWriteKeepsOrphan(s, t, pid, kept);
  }

  lemma StepKeepsOrphan(s: State, step: Step, pid: int, kept: set<string>)
    requires Orphan(s, pid, kept) && Spares(s, step, kept)
    ensures StillOrphan(s, Apply(s, step), pid, kept)
  {
    if Begins(step) {
      BeginKeepsOrphan(s, step, pid, kept);
    } else if Background(step) {
      BackgroundKeepsOrphan(s, step, pid, kept);
    } else {
      HandlerKeepsOrphan(s, step, pid, kept);
    }
  }

  lemma HandlerKeepsOrphan(s: State, step: Step, pid: int, kept: set<string>)
    requires Orphan(s, pid, kept) && !Begins(step) && !Background(step) && Spares(s, step, kept)
    ensures StillOrphan(s, Apply(s, step), pid, kept)
  {
    match step
    case Spawn(p, other, now) => SpawnKeepsOrphan(s, p, other, now, pid, kept);
    case SpawnFails(p) => SpawnKeepsOrphan(s, p, 0, 0, pid, kept);
    case Abandon(p) => SpawnKeepsOrphan(s, p, 0, 0, pid, kept);
    case Signal(p, delivered) => WaitKeepsOrphan(s, p, delivered, pid, kept);
    case Tick(p) => WaitKeepsOrphan(s, p, true, pid, kept);
    case Timeout(p) => WaitKeepsOrphan(s, p, true, pid, kept);
    case Cancel(p) => WaitKeepsOrphan(s, p, true, pid, kept);
    case Resume(p) => ResumeKeepsOrphan(s, p, pid, kept);
  }

  /** Whatever happens afterwards, nothing will ever signal an orphan or name it in a record again. */
  lemma {:induction false} OrphansAreNeverSignalled(s: State, steps: seq<Step>, pid: int)
    requires Orphan(s, pid, {})
    ensures var s' := Exec(s, steps); Orphan(s', pid, {}) && s'.procs[pid].killed == s.procs[pid].killed
  {
    if steps != [] {
      var init := steps[..|steps| - 1];
      OrphansAreNeverSignalled(s, init, pid);
      StepKeepsOrphan(Exec(s, init), steps[|steps| - 1], pid, {});
    }
  }

  // ---------------------------------------------------------------- a container that no list can name

  /** History and processes only grow along a run. */
  lemma {:induction false} RunGrows(s: State, steps: seq<Step>)
    requires WellFormed(s)
    ensures Grows(s, Exec(s, steps))
  {
    if steps != [] {
      var init := steps[..|steps| - 1];
      RunGrows(s, init);
      RunKeeps(s, init);
      StepLocal(Exec(s, init), steps[|steps| - 1]);
    }
  }

  /** A container of p that was created, is not on the list of p and is not about to be put there. */
  ghost predicate Gone(s: State, p: string, cid: string) {
    BelongsTo(s, cid, p) && cid !in Remaining(s, p) && (p in s.ops && s.ops[p].Creating? ==> s.ops[p].cid != cid)
  }

  lemma BeginKeepsGone(s: State, step: Step, p: string, cid: string)
    requires WellFormed(s) && Gone(s, p, cid) && Begins(step) && Actor(step) == Some(p)
    ensures var s' := Apply(s, step); cid !in Remaining(s', p) && (p in s'.ops && s'.ops[p].Creating? ==> s'.ops[p].cid != cid)
  {
    match step
    case RunSandbox(sb) => assert DoRunSandbox(s, sb).ops == s.ops;
    case BeginCreate(cnt) => BeginCreateKeepsGone(s, cnt, cid);
    case BeginRemove(_, c) => BeginRemoveKeepsGone(s, p, c, cid);
    case BeginStop(_, c) => EndKeepsGone(s, p, c, cid);
    case BeginStart(_, c) => assert DoBeginStart(s, p, c).sandboxes == s.sandboxes;
    case BeginTeardown(_, remove) => assert DoBeginTeardown(s, p, remove).sandboxes == s.sandboxes;
  }

  lemma BeginCreateKeepsGone(s: State, cnt: Container, cid: string)
    requires Gone(s, cnt.podID, cid)
    ensures var p, s' := cnt.podID, DoBeginCreate(s, cnt);
            cid !in Remaining(s', p) && (p in s'.ops && s'.ops[p].Creating? ==> s'.ops[p].cid != cid)
  {
  }

  lemma EndKeepsGone(s: State, p: string, c: string, cid: string)
    requires Gone(s, p, cid)
    ensures var s' := DoBeginStop(s, p, c);
            cid !in Remaining(s', p) && (p in s'.ops && s'.ops[p].Creating? ==> s'.ops[p].cid != cid)
  {
  }

  lemma UnlistedKeepsGone(s: State, p: string, c: string, cid: string)
    requires SandboxesOk(s) && cid !in Remaining(s, p)
    ensures cid !in Remaining(Unlisted(s, p, c), p)
  {
    if p in s.sandboxes {
      assert SandboxOk(s, p, s.sandboxes[p]);
      SpliceKeeps(s.sandboxes[p].containers, c);
    }
  }

  lemma BeginRemoveKeepsGone(s: State, p: string, c: string, cid: string)
    requires WellFormed(s) && Gone(s, p, cid)
    ensures var s' := DoBeginRemove(s, p, c);
            cid !in Remaining(s', p) && (p in s'.ops && s'.ops[p].Creating? ==> s'.ops[p].cid != cid)
  {
    UnlistedKeepsGone(s, p, c, cid);
    if CanBegin(s, p, c) {
      EnterKeepsList(Unlisted(s, p, c), p, RemoveCaller, s.containers[c]);
    }
  }

  lemma EnterKeepsList(s: State, p: string, caller: Caller, cnt: Container)
    ensures var s' := EnterTerminate(s, p, caller, cnt);
            Remaining(s', p) == Remaining(s, p) && (p in s'.ops ==> !s'.ops[p].Creating?)
  {
  }

  lemma ResumeKeepsGone(s: State, p: string, cid: string)
    requires WellFormed(s) && Gone(s, p, cid)
    ensures var s' := DoResume(s, p); cid !in Remaining(s', p) && (p in s'.ops ==> !s'.ops[p].Creating?)
  {
    if p in s.ops {
      assert OpOk(s, p, s.ops[p]);
      match s.ops[p]
      case Creating(pod, c) => assert Remaining(FinishCreate(s, p, pod), p) == Remaining(s, p) + [c];
      case LoopHead(pod, remove) => NextKeepsGone(s, p, pod, remove, cid);
      case Unlisting(pod, remove) => assert Remaining(StoreShorterList(s, p, pod, remove), p) == Remaining(s, p)[1..];
      case Terminated(caller, c) => assert DeleteTerminated(s, p, caller, c).sandboxes == s.sandboxes;
      case _ =>
    }
  }

  lemma NextKeepsGone(s: State, p: string, pod: Sandbox, remove: bool, cid: string)
    requires InSync(s, p, pod) && cid !in Remaining(s, p) && p in s.ops && !s.ops[p].Creating?
    ensures var s' := NextInLoop(s, p, pod, remove); cid !in Remaining(s', p) && (p in s'.ops ==> !s'.ops[p].Creating?)
  {
  }

  /** The lists are the same, and no container is about to be listed that was not before. */
  ghost predicate SameLists(s: State, s': State, p: string) {
    s'.sandboxes == s.sandboxes && (p in s'.ops && s'.ops[p].Creating? ==> p in s.ops && s.ops[p] == s'.ops[p])
  }

  lemma LeaveKeepsLists(s: State, p: string, caller: Caller, cid: string)
    ensures SameLists(s, AfterTerminate(s, p, caller, cid), p) && SameLists(s, Fail(s, p, caller, cid), p)
  {
  }

  lemma WaitKeepsLists(s: State, p: string, delivered: bool)
    ensures SameLists(s, DoSignal(s, p, delivered), p) && SameLists(s, DoTick(s, p), p)
    ensures SameLists(s, DoTimeout(s, p), p) && SameLists(s, DoCancel(s, p), p)
  {
    if p in s.ops && (s.ops[p].Signalling? || s.ops[p].Polling?) {
      var caller, cnt := s.ops[p].caller, s.ops[p].cnt;
      LeaveKeepsLists(s, p, caller, cnt.id);
      LeaveKeepsLists(Kill(s, cnt.pid), p, caller, cnt.id);
    }
  }

  lemma SpawnKeepsLists(s: State, p: string, pid: int, now: int)
    ensures SameLists(s, DoSpawn(s, p, pid, now), p) && SameLists(s, DoSpawnFails(s, p), p) && SameLists(s, DoAbandon(s, p), p)
  {
  }

  lemma HandlerKeepsLists(s: State, step: Step, p: string)
    requires !Begins(step) && !step.Resume? && Actor(step) == Some(p)
    ensures SameLists(s, Apply(s, step), p)
  {
    match step
    case Spawn(_, pid, now) => SpawnKeepsLists(s, p, pid, now);
    case SpawnFails(_) => SpawnKeepsLists(s, p, 0, 0);
    case Abandon(_) => SpawnKeepsLists(s, p, 0, 0);
    case Signal(_, delivered) => WaitKeepsLists(s, p, delivered);
    case _ => WaitKeepsLists(s, p, true);
  }

  lemma StepKeepsGone(s: State, step: Step, p: string, cid: string)
    requires WellFormed(s) && Gone(s, p, cid)
    ensures Gone(Apply(s, step), p, cid)
  {
    StepLocal(s, step);
    if Actor(step) != Some(p) {
      ForeignStep(s, step, p);
    } else if Begins(step) {
      BeginKeepsGone(s, step, p, cid);
    } else if step.Resume? {
      ResumeKeepsGone(s, p, cid);
    } else {
      HandlerKeepsLists(s, step, p);
    }
  }

  /** Once off its list, never on it again. */
  lemma {:induction false} RunKeepsGone(s: State, steps: seq<Step>, p: string, cid: string)
    requires WellFormed(s) && Gone(s, p, cid)
    ensures Gone(Exec(s, steps), p, cid)
  {
    if steps != [] {
      var init := steps[..|steps| - 1];
      RunKeepsGone(s, init, p, cid);
      RunKeeps(s, init);
      StepKeepsGone(Exec(s, init), steps[|steps| - 1], p, cid);
    }
  }

  lemma EnterCancelsNothing(s: State, p: string, caller: Caller, cnt: Container)
    requires RecordOk(s, cnt) && ProcsOk(s)
    ensures EnterTerminate(s, p, caller, cnt).cancelled == s.cancelled
  {
  }

  lemma BeginCancelsNothing(s: State, p: string, cid: string)
    requires WellFormed(s)
    ensures DoBeginStop(s, p, cid).cancelled == s.cancelled == DoBeginRemove(s, p, cid).cancelled
  {
    if CanBegin(s, p, cid) {
      assert RecordOk(s, s.containers[cid]);
      EnterCancelsNothing(s, p, StopCaller, s.containers[cid]);
      EnterCancelsNothing(Unlisted(s, p, cid), p, RemoveCaller, s.containers[cid]);
    }
  }

  lemma WaitCancelsNothing(s: State, p: string, delivered: bool)
    ensures DoSignal(s, p, delivered).cancelled == s.cancelled == DoTick(s, p).cancelled
  {
  }

  lemma ResumeCancelsNothing(s: State, p: string)
    requires WellFormed(s)
    ensures DoResume(s, p).cancelled == s.cancelled
  {
    if p in s.ops && s.ops[p].LoopHead? {
      var pod := s.ops[p].pod;
      if pod.containers != [] && pod.containers[0] in s.containers {
        assert RecordOk(s, s.containers[pod.containers[0]]);
        EnterCancelsNothing(s, p, TeardownCaller(pod, s.ops[p].remove), s.containers[pod.containers[0]]);
      }
    } else {
      OtherResumeCancelsNothing(s, p);
    }
  }

  lemma OtherResumeCancelsNothing(s: State, p: string)
    requires p in s.ops ==> !s.ops[p].LoopHead?
    ensures DoResume(s, p).cancelled == s.cancelled
  {
  }

  lemma CancelCancels(s: State, p: string, cid: string)
    requires cid !in s.cancelled && cid in DoCancel(s, p).cancelled
    ensures p in s.ops && BeingRemoved(s.ops[p], cid)
  {
  }

  /** Only the end of the context adds a container to the cancelled ones. */
  lemma NewlyCancelled(s: State, step: Step, cid: string)
    requires WellFormed(s) && cid !in s.cancelled && cid in Apply(s, step).cancelled
    ensures step.Cancel? && step.podID in s.ops && BeingRemoved(s.ops[step.podID], cid)
  {
    match step
    case BeginStop(p, c) => BeginCancelsNothing(s, p, c);
    case BeginRemove(p, c) => BeginCancelsNothing(s, p, c);
    case Resume(p) => ResumeCancelsNothing(s, p);
    case Signal(p, delivered) => WaitCancelsNothing(s, p, delivered);
    case Tick(p) => WaitCancelsNothing(s, p, true);
    case Cancel(p) => CancelCancels(s, p, cid);
    case _ => QuietCancelled(s, step);
  }

  lemma QuietCancelled(s: State, step: Step)
    requires !step.BeginStop? && !step.BeginRemove? && !step.Resume? && !step.Signal? && !step.Tick? && !step.Cancel?
    ensures Apply(s, step).cancelled == s.cancelled
  {
  }

  /** A cancelled removal has taken the container off its list for good. */
  ghost predicate CancelledAreGone(s: State) {
    forall c | c in s.cancelled :: c in s.created && Gone(s, s.created[c], c)
  }

  lemma StepKeepsCancelledGone(s: State, step: Step)
    requires WellFormed(s) && Integrity(s) && CancelledAreGone(s)
    ensures CancelledAreGone(Apply(s, step))
  {
    var s' := Apply(s, step);
    StepLocal(s, step);
    forall c | c in s'.cancelled ensures c in s'.created && Gone(s', s'.created[c], c) {
      if c in s.cancelled {
        StepKeepsGone(s, step, s.created[c], c);
      } else {
        NewlyCancelled(s, step, c);
        var p := step.podID;
        assert PodIntegrity(s, p) && OpOk(s, p, s.ops[p]);
        StepKeepsGone(s, step, p, c);
      }
    }
  }

  lemma {:induction false} RunKeepsCancelledGone(steps: seq<Step>)
    requires WholeRun(steps)
    ensures CancelledAreGone(Exec(INIT, steps))
  {
    if steps != [] {
      var init := steps[..|steps| - 1];
      RunKeepsCancelledGone(init);
      EmptyIntegrity();
      RunIntegrity(INIT, init);
      StepKeepsCancelledGone(Exec(INIT, init), steps[|steps| - 1]);
    }
  }
}
